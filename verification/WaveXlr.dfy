/** Read-modify-write of the Wave XLR's 34-byte state through a cache. */
module WaveXlr {
  import opened Prelude
  import opened FixedPoint

  const STATE_BLOB_LEN := 34
  const OFFSET_MIC_GAIN_LO := 0
  const OFFSET_MIC_GAIN_HI := 1
  const OFFSET_MUTE_FLAG := 4
  const OFFSET_KNOB_DELTA := 10
  const OFFSET_LED_ZONES := 16
  const LED_ZONE_COUNT := 3
  const LED_ZONE_BYTES := 3

  type Byte = x: int | 0 <= x < 256
  type Blob = s: seq<Byte> | |s| == STATE_BLOB_LEN witness seq<Byte>(STATE_BLOB_LEN, _ => 0)

  datatype Rgb = Rgb(r: Byte, g: Byte, b: Byte)

  /** A control transfer: what the call reported (`None` is a USB error) and how many bytes
      of a write reached the device. */
  datatype Transfer = Transfer(reported: Option<nat>, landed: nat)

  predicate Complete(t: Transfer) {
    t.reported == Some(STATE_BLOB_LEN)
  }

  predicate Honest(t: Transfer) {
    Complete(t) ==> t.landed >= STATE_BLOB_LEN
  }

  /** The device's memory and the handle's `last_blob`. */
  datatype Link = Link(device: Blob, cache: Option<Blob>)

  datatype Op = GetState | SetMute(muted: bool) | SetGain(raw: nat) | SetLed(zones: seq<Rgb>)

  datatype DeviceState = DeviceState(muted: bool, gain: real, knob: Byte)

  function RawGain(blob: Blob): nat {
    blob[OFFSET_MIC_GAIN_LO] as int + 256 * (blob[OFFSET_MIC_GAIN_HI] as int)
  }

  function ParseState(fl: real -> real, blob: Blob): DeviceState {
    DeviceState(blob[OFFSET_MUTE_FLAG] != 0, GainFromU16(fl, RawGain(blob)), blob[OFFSET_KNOB_DELTA])
  }

  function Component(c: Rgb, i: nat): Byte {
    if i == 0 then c.r else if i == 1 then c.g else c.b
  }

  /** Zones past the last colour given take that colour. */
  function ZoneColour(zones: seq<Rgb>, i: nat): Rgb
    requires zones != []
  {
    if i < |zones| then zones[i] else zones[|zones| - 1]
  }

  function Patch(op: Op, blob: Blob): Blob {
    match op
    case GetState => blob
    case SetMute(muted) => blob[OFFSET_MUTE_FLAG := if muted then 1 else 0]
    case SetGain(raw) => blob[OFFSET_MIC_GAIN_LO := raw % 256][OFFSET_MIC_GAIN_HI := raw / 256 % 256]
    case SetLed(zones) =>
      if zones == [] then blob
      else seq(STATE_BLOB_LEN, k requires 0 <= k < STATE_BLOB_LEN => if IsLed(k) then LedByte(zones, k) else blob[k])
  }

  predicate IsLed(k: nat) {
    OFFSET_LED_ZONES <= k < OFFSET_LED_ZONES + LED_ZONE_COUNT * LED_ZONE_BYTES
  }

  function LedByte(zones: seq<Rgb>, k: nat): Byte
    requires zones != [] && IsLed(k)
  {
    var at := k - OFFSET_LED_ZONES;
    Component(ZoneColour(zones, at / LED_ZONE_BYTES), at % LED_ZONE_BYTES)
  }

  /** The offsets an operation is meant to change. */
  predicate Owns(op: Op, k: nat) {
    match op
    case GetState => false
    case SetMute(_) => k == OFFSET_MUTE_FLAG
    case SetGain(_) => k == OFFSET_MIC_GAIN_LO || k == OFFSET_MIC_GAIN_HI
    case SetLed(zones) => zones != [] && IsLed(k)
  }

  function Landed(device: Blob, blob: Blob, n: nat): Blob {
    if n >= STATE_BLOB_LEN then blob else blob[..n] + device[n..]
  }

  function ReadRaw(s: Link, t: Transfer): (Link, bool) {
    if Complete(t) then (Link(s.device, Some(s.device)), true) else (s, false)
  }

  function WriteRaw(s: Link, blob: Blob, t: Transfer): (Link, bool) {
    var device := Landed(s.device, blob, t.landed);
    (Link(device, if Complete(t) then Some(blob) else s.cache), Complete(t))
  }

  /** Reads only when nothing is cached. */
  function Fetch(s: Link, t: Transfer): (Link, bool) {
    if s.cache.Some? then (s, true) else ReadRaw(s, t)
  }

  function Perform(s: Link, op: Op, read: Transfer, write: Transfer): (Link, bool) {
    if op == GetState then ReadRaw(s, read)
    else
      var fetched := Fetch(s, read);
      if !fetched.1 || (op.SetLed? && op.zones == []) then fetched
      else WriteRaw(fetched.0, Patch(op, fetched.0.cache.value), write)
  }

  // ---- The layout ---------------------------------------------------------------------------

  /** Which bytes are what: the gain is bytes 0 and 1, the low one first, the mute flag byte 4,
      the colours bytes 16 to 24, red, green and blue of each zone in turn. */
  lemma Layout(blob: Blob, muted: bool, raw: nat, zones: seq<Rgb>, k: nat)
    requires raw < 0x1_0000 && zones != [] && k < 34
    ensures Patch(SetMute(muted), blob)[k] == if k == 4 then (if muted then 1 else 0) else blob[k]
    ensures Patch(SetGain(raw), blob)[k] == if k == 0 then raw % 256 else if k == 1 then raw / 256 else blob[k]
    ensures 16 <= k <= 24 ==>
      var c := zones[if (k - 16) / 3 < |zones| then (k - 16) / 3 else |zones| - 1];
      Patch(SetLed(zones), blob)[k] == if (k - 16) % 3 == 0 then c.r else if (k - 16) % 3 == 1 then c.g else c.b
    ensures !(16 <= k <= 24) ==> Patch(SetLed(zones), blob)[k] == blob[k]
    ensures Patch(SetLed([]), blob) == blob && Patch(GetState, blob) == blob
  {
  }

  /** ... and how they are read. */
  lemma {:induction false} LayoutRead(fl: real -> real, blob: Blob)
    ensures ParseState(fl, blob).muted <==> blob[4] != 0
    ensures ParseState(fl, blob).gain == GainFromU16(fl, blob[0] as int + 256 * (blob[1] as int))
    ensures ParseState(fl, blob).knob == blob[10]
  {
  }

  class Handle {
    /** The firmware's memory; nothing here reads it but a transfer. */
    var device: Blob
    var lastBlob: Option<Blob>

    function View(): Link reads this {
      Link(device, lastBlob)
    }

    constructor (device: Blob)
      ensures View() == Link(device, None)
    {
      this.device, lastBlob := device, None;
    }

    method ReadRawState(t: Transfer) returns (ok: bool)
      modifies this
      ensures (View(), ok) == ReadRaw(old(View()), t)
    {
      ok := Complete(t);
      if ok { lastBlob := Some(device); }
    }

    method WriteRawState(blob: array<Byte>, t: Transfer) returns (ok: bool)
      requires blob.Length == STATE_BLOB_LEN
      modifies this
      ensures (View(), ok) == WriteRaw(old(View()), blob[..], t)
    {
      device := Landed(device, blob[..], t.landed);
      ok := Complete(t);
      if ok { lastBlob := Some(blob[..]); }
    }

    /** A private copy of the cached blob, read first if there is none. */
    method CurrentOrFetchBlob(t: Transfer) returns (ok: bool, blob: array<Byte>)
      modifies this
      ensures fresh(blob) && blob.Length == STATE_BLOB_LEN
      ensures (View(), ok) == Fetch(old(View()), t)
      ensures ok ==> lastBlob == Some(blob[..])
    {
      ok := lastBlob.Some?;
      if !ok { ok := ReadRawState(t); }
      blob := new Byte[STATE_BLOB_LEN];
      if ok {
        ghost var cached := lastBlob.value;
        for i := 0 to STATE_BLOB_LEN
          invariant lastBlob == Some(cached) && device == old(device)
          invariant forall k :: 0 <= k < i ==> blob[k] == cached[k]
        {
          blob[i] := lastBlob.value[i];
        }
        assert blob[..] == cached;
      }
    }

    method SetMute(muted: bool, read: Transfer, write: Transfer) returns (ok: bool)
      modifies this
      ensures (View(), ok) == Perform(old(View()), Op.SetMute(muted), read, write)
    {
      var blob;
      ok, blob := CurrentOrFetchBlob(read);
      if !ok { return; }
      ghost var cached := lastBlob.value;
      blob[OFFSET_MUTE_FLAG] := if muted then 1 else 0;
      assert blob[..] == Patch(Op.SetMute(muted), cached);
      ok := WriteRawState(blob, write);
    }

    method SetGain(fl: real -> real, gain: F32, read: Transfer, write: Transfer) returns (ok: bool)
      modifies this
      ensures (View(), ok) == Perform(old(View()), Op.SetGain(GainToU16(fl, gain)), read, write)
    {
      var raw := GainToU16(fl, gain);
      var blob;
      ok, blob := CurrentOrFetchBlob(read);
      if !ok { return; }
      ghost var cached := lastBlob.value;
      blob[OFFSET_MIC_GAIN_LO] := raw % 256;
      blob[OFFSET_MIC_GAIN_HI] := raw / 256 % 256;
      assert blob[..] == Patch(Op.SetGain(raw), cached);
      ok := WriteRawState(blob, write);
    }

    method SetLed(zones: seq<Rgb>, read: Transfer, write: Transfer) returns (ok: bool)
      modifies this
      ensures (View(), ok) == Perform(old(View()), Op.SetLed(zones), read, write)
    {
      var blob;
      ok, blob := CurrentOrFetchBlob(read);
      if !ok { return; }
      if zones == [] { return; }
      ghost var cached, was := lastBlob.value, View();
      for i := 0 to LED_ZONE_COUNT
        invariant View() == was
        invariant forall k :: OFFSET_LED_ZONES + i * LED_ZONE_BYTES <= k < STATE_BLOB_LEN ==> blob[k] == cached[k]
        invariant forall k :: 0 <= k < OFFSET_LED_ZONES + i * LED_ZONE_BYTES ==>
          blob[k] == Patch(Op.SetLed(zones), cached)[k]
      {
        var colour := if i < |zones| then zones[i] else zones[|zones| - 1];
        var off := OFFSET_LED_ZONES + i * LED_ZONE_BYTES;
        blob[off], blob[off + 1], blob[off + 2] := colour.r, colour.g, colour.b;
      }
      assert blob[..] == Patch(Op.SetLed(zones), cached);
      ok := WriteRawState(blob, write);
    }
  }

  // ---- Runs -----------------------------------------------------------------------------

  /** A call with the transfers it gets, or the device changing a byte by itself. */
  datatype Event = Call(op: Op, read: Transfer, write: Transfer) | Physical(offset: nat, value: Byte)

  predicate HonestEvent(e: Event) {
    match e
    case Call(_, read, write) => Honest(write)
    case Physical(offset, _) => offset < STATE_BLOB_LEN
  }

  function Next(s: Link, e: Event): Link
    requires HonestEvent(e)
  {
    match e
    case Call(op, read, write) => Perform(s, op, read, write).0
    case Physical(offset, value) => s.(device := s.device[offset := value])
  }

  function Run(s: Link, es: seq<Event>): Link
    requires forall e :: e in es ==> HonestEvent(e)
  {
    if es == [] then s else Next(Run(s, es[..|es| - 1]), es[|es| - 1])
  }

  /** Bytes that no operation owns. */
  predicate Unowned(k: nat) {
    && k < STATE_BLOB_LEN
    && k != OFFSET_MIC_GAIN_LO && k != OFFSET_MIC_GAIN_HI && k != OFFSET_MUTE_FLAG
    && !IsLed(k)
  }

  ghost predicate SameUnowned(a: Blob, b: Blob) {
    forall k: nat :: Unowned(k) ==> a[k] == b[k]
  }

  lemma PatchOwns(op: Op, blob: Blob, k: nat)
    requires k < STATE_BLOB_LEN && !Owns(op, k)
    ensures Patch(op, blob)[k] == blob[k]
  {
  }

  ghost predicate KeepsUnowned(first: Blob, s: Link) {
    SameUnowned(s.device, first) && (s.cache.Some? ==> SameUnowned(s.cache.value, first))
  }

  lemma CallKeepsUnowned(first: Blob, s: Link, op: Op, read: Transfer, write: Transfer)
    requires KeepsUnowned(first, s)
    ensures KeepsUnowned(first, Perform(s, op, read, write).0)
  {
    var u := Fetch(s, read).0;
    if u.cache.Some? {
      forall k: nat | Unowned(k) ensures Patch(op, u.cache.value)[k] == first[k] { PatchOwns(op, u.cache.value, k); }
    }
  }

  lemma UnownedBytes(k: nat)
    ensures Unowned(k) <==> k < 34 && k !in {0, 1, 4} && !(16 <= k <= 24)
  {
  }

  /** While the device changes nothing by itself, whatever is called and however the transfers
      go - short writes included - every byte no operation owns keeps its first value. */
  lemma {:induction false} UnownedBytesKept(s: Link, es: seq<Event>)
    requires forall e :: e in es ==> HonestEvent(e) && e.Call?
    requires s.cache.Some? ==> SameUnowned(s.cache.value, s.device)
    ensures KeepsUnowned(s.device, Run(s, es))
  {
    if es != [] {
      var most, last := es[..|es| - 1], es[|es| - 1];
      UnownedBytesKept(s, most);
      CallKeepsUnowned(s.device, Run(s, most), last.op, last.read, last.write);
    }
  }

  /** After a call that succeeded - and was not `set_led` of nothing - cache and device agree. */
  lemma SuccessSynchronises(s: Link, op: Op, read: Transfer, write: Transfer)
    requires Honest(write) && Perform(s, op, read, write).1 && !(op.SetLed? && op.zones == [])
    ensures var t := Perform(s, op, read, write).0; t.cache == Some(t.device)
  {
  }

  /** A call succeeds exactly when the reads and writes it needs do. */
  lemma SucceedsExactlyWhen(s: Link, op: Op, read: Transfer, write: Transfer)
    ensures Perform(s, GetState, read, write).1 <==> read.reported == Some(34)
    ensures op != GetState ==> (Perform(s, op, read, write).1 <==>
      && (s.cache.Some? || read.reported == Some(34))
      && (op == SetLed([]) || write.reported == Some(34)))
  {
  }

  predicate Disjoint(a: Op, b: Op) {
    forall k :: 0 <= k < STATE_BLOB_LEN ==> !(Owns(a, k) && Owns(b, k))
  }

  lemma PatchesCommute(a: Op, b: Op, blob: Blob)
    requires Disjoint(a, b)
    ensures Patch(a, Patch(b, blob)) == Patch(b, Patch(a, blob))
  {
    forall k | 0 <= k < STATE_BLOB_LEN ensures Patch(a, Patch(b, blob))[k] == Patch(b, Patch(a, blob))[k] {
      if !Owns(a, k) { PatchOwns(a, blob, k); PatchOwns(a, Patch(b, blob), k); }
      if !Owns(b, k) { PatchOwns(b, blob, k); PatchOwns(b, Patch(a, blob), k); }
      if Owns(a, k) { PatchedByOwner(a, blob, Patch(b, blob), k); }
      if Owns(b, k) { PatchedByOwner(b, blob, Patch(a, blob), k); }
    }
  }

  lemma PatchedByOwner(op: Op, x: Blob, y: Blob, k: nat)
    requires k < STATE_BLOB_LEN && Owns(op, k)
    ensures Patch(op, x)[k] == Patch(op, y)[k]
  {
  }

  // ---- The last value written ---------------------------------------------------------------

  function PatchAll(ops: seq<Op>, blob: Blob): Blob {
    if ops == [] then blob else Patch(ops[|ops| - 1], PatchAll(ops[..|ops| - 1], blob))
  }

  /** The operations whose call returned success, in order. */
  function Succeeded(s: Link, es: seq<Event>): seq<Op>
    requires forall e :: e in es ==> HonestEvent(e) && e.Call?
  {
    if es == [] then []
    else
      var most, last := es[..|es| - 1], es[|es| - 1];
      Succeeded(s, most)
      + (if Perform(Run(s, most), last.op, last.read, last.write).1 then [last.op] else [])
  }

  lemma PatchAllSnoc(ops: seq<Op>, op: Op, blob: Blob)
    ensures PatchAll(ops + [op], blob) == Patch(op, PatchAll(ops, blob))
  {
    assert (ops + [op])[..|ops|] == ops;
  }

  /** The call reads the device, with success. */
  predicate ReadsNow(s: Link, op: Op, read: Transfer) {
    Complete(read) && (op == GetState || s.cache.None?)
  }

  function NextBase(u: Link, base: Option<Blob>, e: Event): Option<Blob> {
    if e.Call? && ReadsNow(u, e.op, e.read) then Some(u.device) else base
  }

  function NextSince(u: Link, since: seq<Op>, e: Event): seq<Op> {
    if e.Physical? then since
    else
      (if ReadsNow(u, e.op, e.read) then [] else since)
      + (if Perform(u, e.op, e.read, e.write).1 then [e.op] else [])
  }

  /** The blob of the last successful read, or the one cached at first. */
  function Base(s: Link, es: seq<Event>): Option<Blob>
    requires forall e :: e in es ==> HonestEvent(e)
  {
    if es == [] then s.cache
    else NextBase(Run(s, es[..|es| - 1]), Base(s, es[..|es| - 1]), es[|es| - 1])
  }

  /** The calls that succeeded since that read, in order. */
  function Since(s: Link, es: seq<Event>): seq<Op>
    requires forall e :: e in es ==> HonestEvent(e)
  {
    if es == [] then []
    else NextSince(Run(s, es[..|es| - 1]), Since(s, es[..|es| - 1]), es[|es| - 1])
  }

  lemma PerformOnCache(s: Link, op: Op, read: Transfer, write: Transfer)
    ensures var (t, ok) := Perform(s, op, read, write);
      if ReadsNow(s, op, read) then t.cache == Some(if ok then Patch(op, s.device) else s.device)
      else if s.cache.Some? then t.cache == Some(if ok then Patch(op, s.cache.value) else s.cache.value)
      else t.cache.None? && !ok
  {
  }

  predicate CacheIs(u: Link, base: Option<Blob>, since: seq<Op>) {
    && u.cache == (if base.Some? then Some(PatchAll(since, base.value)) else None)
    && (base.None? ==> since == [])
  }

  lemma CacheStep(u: Link, base: Option<Blob>, since: seq<Op>, e: Event)
    requires HonestEvent(e) && CacheIs(u, base, since)
    ensures CacheIs(Next(u, e), NextBase(u, base, e), NextSince(u, since, e))
  {
    if e.Call? {
      var before, more := if ReadsNow(u, e.op, e.read) then [] else since, NextBase(u, base, e);
      PerformOnCache(u, e.op, e.read, e.write);
      if more.Some? { PatchAllSnoc(before, e.op, more.value); }
      assert before + [] == before;
    }
  }

  /** Whatever is called, however the transfers go and whatever the device does by itself: the
      cache is the blob last read, with the writes that succeeded since then applied in order. */
  lemma {:induction false} CacheHoldsSuccesses(s: Link, es: seq<Event>)
    requires forall e :: e in es ==> HonestEvent(e)
    ensures var base := Base(s, es);
      Run(s, es).cache == if base.Some? then Some(PatchAll(Since(s, es), base.value)) else None
    ensures Base(s, es).None? ==> Since(s, es) == []
  {
    if es != [] {
      var most, last := es[..|es| - 1], es[|es| - 1];
      CacheHoldsSuccesses(s, most);
      CacheStep(Run(s, most), Base(s, most), Since(s, most), last);
    }
  }

  /** A write that fails changes nothing. */
  predicate Atomic(e: Event) {
    e.Call? && Honest(e.write) && (!Complete(e.write) ==> e.write.landed == 0)
  }

  lemma PerformAtomically(s: Link, e: Event)
    requires Atomic(e) && (s.cache.Some? ==> s.cache.value == s.device)
    ensures var (t, ok) := Perform(s, e.op, e.read, e.write);
      t.device == if ok then Patch(e.op, s.device) else s.device
    ensures var (t, ok) := Perform(s, e.op, e.read, e.write); t.cache.Some? ==> t.cache.value == t.device
  {
  }

  /** Over any calls, reads included, where a failed write changes nothing: the device holds its
      first blob with exactly the successful writes applied, and the cache agrees if there is one. */
  lemma {:induction false} DeviceHoldsSuccesses(s: Link, es: seq<Event>)
    requires forall e :: e in es ==> HonestEvent(e) && e.Call? && Atomic(e)
    requires s.cache.Some? ==> s.cache.value == s.device
    ensures Run(s, es).device == PatchAll(Succeeded(s, es), s.device)
    ensures Run(s, es).cache.Some? ==> Run(s, es).cache.value == Run(s, es).device
  {
    if es != [] {
      var most, last := es[..|es| - 1], es[|es| - 1];
      DeviceHoldsSuccesses(s, most);
      PerformAtomically(Run(s, most), last);
      PatchAllSnoc(Succeeded(s, most), last.op, s.device);
      assert Succeeded(s, most) + [] == Succeeded(s, most);
    }
  }

  /** A write cut short after `n` bytes is reported as failed and not cached, but the next
      successful read takes over the bytes of it that arrived. */
  lemma ReadTakesOverShortWrite(device: Blob, op: Op, read: Transfer, write: Transfer, again: Event, k: nat)
    requires again.Call? && again.op == GetState && Complete(again.read) && HonestEvent(again)
    requires op != GetState && !(op.SetLed? && op.zones == []) && !Complete(write) && k < STATE_BLOB_LEN
    ensures var s := Link(device, Some(device));
      var (t, ok) := Perform(s, op, read, write);
      && !ok && t.cache == Some(device)
      && Next(t, again).cache == Some(Next(t, again).device)
      && Next(t, again).device[k] == (if k < write.landed then Patch(op, device) else device)[k]
  {
  }

  function LastMute(ops: seq<Op>): Option<bool> {
    if ops == [] then None
    else if ops[|ops| - 1].SetMute? then Some(ops[|ops| - 1].muted)
    else LastMute(ops[..|ops| - 1])
  }

  function LastGain(ops: seq<Op>): Option<nat> {
    if ops == [] then None
    else if ops[|ops| - 1].SetGain? then Some(ops[|ops| - 1].raw)
    else LastGain(ops[..|ops| - 1])
  }

  lemma {:induction false} PatchedFields(ops: seq<Op>, blob: Blob)
    requires forall op :: op in ops && op.SetGain? ==> op.raw < 0x1_0000
    ensures var b, m := PatchAll(ops, blob), LastMute(ops);
      (b[OFFSET_MUTE_FLAG] != 0) == if m.Some? then m.value else blob[OFFSET_MUTE_FLAG] != 0
    ensures var g := LastGain(ops); RawGain(PatchAll(ops, blob)) == if g.Some? then g.value else RawGain(blob)
    ensures PatchAll(ops, blob)[OFFSET_KNOB_DELTA] == blob[OFFSET_KNOB_DELTA]
  {
    if ops != [] {
      var most, last := ops[..|ops| - 1], ops[|ops| - 1];
      PatchedFields(most, blob);
      var b := PatchAll(most, blob);
      PatchOwns(last, b, OFFSET_KNOB_DELTA);
      if !last.SetMute? { PatchOwns(last, b, OFFSET_MUTE_FLAG); }
      if !last.SetGain? { PatchOwns(last, b, OFFSET_MIC_GAIN_LO); PatchOwns(last, b, OFFSET_MIC_GAIN_HI); }
    }
  }

  /** Over the same runs the device reports the mute and the gain written last by a call that
      succeeded, and its first values where there was none. */
  lemma {:induction false} DeviceReportsLastWritten(fl: real -> real, s: Link, es: seq<Event>)
    requires forall e :: e in es ==> HonestEvent(e) && e.Call? && Atomic(e)
    requires forall e :: e in es && e.op.SetGain? ==> e.op.raw < 0x1_0000
    requires s.cache.Some? ==> s.cache.value == s.device
    ensures var m, now := LastMute(Succeeded(s, es)), ParseState(fl, Run(s, es).device);
      now.muted == if m.Some? then m.value else ParseState(fl, s.device).muted
    ensures var g, now := LastGain(Succeeded(s, es)), ParseState(fl, Run(s, es).device);
      now.gain == if g.Some? then GainFromU16(fl, g.value) else ParseState(fl, s.device).gain
    ensures ParseState(fl, Run(s, es).device).knob == ParseState(fl, s.device).knob
  {
    DeviceHoldsSuccesses(s, es);
    SucceededWereCalled(s, es);
    PatchedFields(Succeeded(s, es), s.device);
  }

  lemma {:induction false} SucceededWereCalled(s: Link, es: seq<Event>)
    requires forall e :: e in es ==> HonestEvent(e) && e.Call?
    ensures forall op :: op in Succeeded(s, es) ==> exists e :: e in es && e.op == op
  {
    if es != [] {
      var most, last := es[..|es| - 1], es[|es| - 1];
      SucceededWereCalled(s, most);
      assert last in es && forall e :: e in most ==> e in es;
    }
  }

  /** Each zone gets its colour, red first; zones beyond the list repeat its last colour. */
  lemma ZonesShowColours(zones: seq<Rgb>, blob: Blob, zone: nat)
    requires zones != [] && zone < LED_ZONE_COUNT
    ensures var at, b := OFFSET_LED_ZONES + zone * LED_ZONE_BYTES, Patch(SetLed(zones), blob);
      Rgb(b[at], b[at + 1], b[at + 2]) == zones[if zone < |zones| then zone else |zones| - 1]
  {
    assert zone in {0, 1, 2};
  }

  // ---- A stale cache ------------------------------------------------------------------------

  /** A successful write keeps a byte it does not own exactly when the cache was right about
      it, or empty. */
  lemma KeepsForeignByteExactlyWhen(s: Link, op: Op, read: Transfer, write: Transfer, k: nat)
    requires Honest(write) && Perform(s, op, read, write).1
    requires op != GetState && !(op.SetLed? && op.zones == [])
    requires k < STATE_BLOB_LEN && !Owns(op, k)
    ensures Perform(s, op, read, write).0.device[k] == s.device[k] <==>
      (s.cache.Some? ==> s.cache.value[k] == s.device[k])
  {
    PatchOwns(op, Fetch(s, read).0.cache.value, k);
  }

  lemma {:induction false} PressesKeepCache(s: Link, presses: seq<Event>)
    requires forall e :: e in presses ==> HonestEvent(e) && e.Physical?
    ensures Run(s, presses).cache == s.cache
  {
    if presses != [] {
      var most, last := presses[..|presses| - 1], presses[|presses| - 1];
      PressesKeepCache(s, most);
      assert last in presses && last.Physical?;
      assert Run(s, presses) == Next(Run(s, most), last);
    }
  }

  /** The daemon reads the device for a request's snapshot, and then carries the command out. If
      the snapshot was read, a byte the command does not own survives exactly when the device did
      not change it between the two; how often it changed before does not matter. */
  lemma RequestKeepsByteExactlyWhen(
    s: Link, snapshot: Transfer, presses: seq<Event>, op: Op, read: Transfer, write: Transfer, k: nat)
    requires forall e :: e in presses ==> HonestEvent(e) && e.Physical?
    requires op != GetState && !(op.SetLed? && op.zones == []) && Honest(write)
    requires k < STATE_BLOB_LEN && !Owns(op, k)
    requires Perform(Run(ReadRaw(s, snapshot).0, presses), op, read, write).1
    ensures var before := Run(ReadRaw(s, snapshot).0, presses);
      Perform(before, op, read, write).0.device[k] == before.device[k] <==>
        if Complete(snapshot) then before.device[k] == s.device[k]
        else s.cache.Some? ==> s.cache.value[k] == before.device[k]
  {
    PressesKeepCache(ReadRaw(s, snapshot).0, presses);
    KeepsForeignByteExactlyWhen(Run(ReadRaw(s, snapshot).0, presses), op, read, write, k);
  }

  /** So a change of the device's own, made before a snapshot that was read, survives the request
      even if the write fails or is cut short. */
  lemma ChangeBeforeSnapshotSurvives(s: Link, snapshot: Transfer, op: Op, read: Transfer, write: Transfer, k: nat)
    requires Complete(snapshot) && k < STATE_BLOB_LEN && !Owns(op, k)
    ensures Perform(ReadRaw(s, snapshot).0, op, read, write).0.device[k] == s.device[k]
  {
    PatchOwns(op, s.device, k);
  }

  /** The button pressed between a snapshot and its command: the command undoes the mute. */
  lemma ButtonUndone(device: Blob, raw: nat)
    requires device[OFFSET_MUTE_FLAG] == 0
    ensures var full := Transfer(Some(STATE_BLOB_LEN), STATE_BLOB_LEN);
      var events := [Call(GetState, full, full), Physical(OFFSET_MUTE_FLAG, 1), Call(SetGain(raw), full, full)];
      && Run(Link(device, None), events[..2]).device[OFFSET_MUTE_FLAG] == 1
      && Run(Link(device, None), events).device[OFFSET_MUTE_FLAG] == 0
  {
    var full := Transfer(Some(STATE_BLOB_LEN), STATE_BLOB_LEN);
    var s := Link(device, None);
    var a, b, c := Call(GetState, full, full), Physical(OFFSET_MUTE_FLAG, 1), Call(SetGain(raw), full, full);
    assert [a, b, c][..2] == [a, b] && [a, b][..1] == [a] && [a][..0] == [];
    var afterButton := Next(Next(s, a), b);
    assert Run(s, []) == s && Run(s, [a]) == Next(s, a);
    assert Run(s, [a, b]) == afterButton;
    PatchOwns(SetGain(raw), device, OFFSET_MUTE_FLAG);
  }
}
