/** The client end: concurrent callers, one reader, and the map between them. */
module IpcClient {
  import opened Prelude

  const TWO_64 := 0x1_0000_0000_0000_0000
  const EVENT_QUEUE := 64

  /** What the reader takes a line for. */
  datatype Line = Response(id: nat) | Event(name: string) | Garbage

  /** Where a call to `request` stands. */
  datatype Call =
    | HasId(id: nat)
    | Registered(id: nat)
    | Waiting(id: nat)
    | Done(id: nat, response: nat)
    | WriteFailed(id: nat)

  /** The n-th call's id: an atomic 64-bit counter that starts at 1 and wraps around. */
  function IdOfCall(n: nat): nat {
    (1 + n) % TWO_64
  }

  /** `calls` lists the calls in the order in which they took their ids; `pending` maps an id
      to the call whose one-shot sender is stored under it; `boxes` holds what was sent to a
      call's receiver; `sent` is what the server got; `answered`, what it responded to; `wire`,
      what it wrote and the reader has yet to read. */
  datatype Client = Client(
    calls: seq<Call>,
    pending: map<nat, nat>,
    boxes: map<nat, nat>,
    sent: set<nat>,
    answered: set<nat>,
    wire: seq<Line>,
    events: seq<string>,
    reading: bool)

  const CONNECTED := Client([], map[], map[], {}, {}, [], [], true)

  datatype Action =
    | TakeId
    | Register(c: nat)
    | Write(c: nat, ok: bool)
    | ServerWrites(line: Line)
    | ReadLine
    | ReaderExits
    | Receive(c: nat)
    | Consume

  /** A call that borrows the client: `events` borrows it exclusively, so nobody takes an event
      from the channel while a call is in progress. */
  predicate InProgress(call: Call) {
    !call.Done? && !call.WriteFailed?
  }

  /** An event waits for room in the channel, and everything behind it with it. */
  predicate CanTake(s: Client, line: Line) {
    line.Event? ==> |s.events| < EVENT_QUEUE
  }

  predicate Enabled(s: Client, a: Action) {
    match a
    case TakeId => true
    case Register(c) => c < |s.calls| && s.calls[c].HasId?
    case Write(c, _) => c < |s.calls| && s.calls[c].Registered?
    case ServerWrites(_) => true
    case ReadLine => s.reading && s.wire != [] && CanTake(s, s.wire[0])
    case ReaderExits => s.reading
    case Receive(c) => c < |s.calls| && s.calls[c].Waiting? && c in s.boxes
    case Consume => s.events != [] && forall c :: 0 <= c < |s.calls| ==> !InProgress(s.calls[c])
  }

  /** One line: a response goes to the call registered under its id, if any. */
  function Dispatch(s: Client, line: Line): Client
    requires CanTake(s, line)
  {
    match line
    case Response(id) =>
      if id in s.pending then s.(pending := s.pending - {id}, boxes := s.boxes[s.pending[id] := id]) else s
    case Event(name) => s.(events := s.events + [name])
    case Garbage => s
  }

  function Next(s: Client, a: Action): Client
    requires Enabled(s, a)
  {
    match a
    case TakeId => s.(calls := s.calls + [HasId(IdOfCall(|s.calls|))])
    case Register(c) =>
      var id := s.calls[c].id;
      s.(calls := s.calls[c := Registered(id)], pending := s.pending[id := c])
    case Write(c, ok) =>
      var id := s.calls[c].id;
      if ok then s.(calls := s.calls[c := Waiting(id)], sent := s.sent + {id})
      else s.(calls := s.calls[c := WriteFailed(id)])
    case ServerWrites(line) =>
      s.(wire := s.wire + [line], answered := s.answered + (if line.Response? then {line.id} else {}))
    case ReadLine => Dispatch(s.(wire := s.wire[1..]), s.wire[0])
    case ReaderExits => s.(reading := false)
    case Receive(c) => s.(calls := s.calls[c := Done(s.calls[c].id, s.boxes[c])])
    case Consume => s.(events := s.events[1..])
  }

  /** The client's own fields, as its methods and its reader task change them. */
  class Connection {
    var nextId: nat
    var pending: map<nat, nat>
    var boxes: map<nat, nat>
    var events: seq<string>

    constructor ()
      ensures nextId == 1 && pending == map[] && boxes == map[] && events == []
    {
      nextId, pending, boxes, events := 1, map[], map[], [];
    }

    method FetchAdd(ghost n: nat) returns (id: nat)
      requires nextId == IdOfCall(n)
      modifies this`nextId
      ensures id == IdOfCall(n) && nextId == IdOfCall(n + 1)
    {
      id := nextId;
      nextId := (nextId + 1) % TWO_64;
    }

    method Insert(id: nat, c: nat)
      modifies this`pending
      ensures pending == old(pending)[id := c]
    {
      pending := pending[id := c];
    }

    ghost predicate Shows(s: Client) reads this {
      pending == s.pending && boxes == s.boxes && events == s.events
    }

    /** Whether the line was dispatched; if not, the reader is left waiting for room. */
    method OnLine(line: Line, ghost s: Client) returns (taken: bool)
      requires Shows(s)
      modifies this`pending, this`boxes, this`events
      ensures taken == CanTake(s, line)
      ensures Shows(if taken then Dispatch(s, line) else s)
    {
      taken := true;
      match line {
        case Response(id) =>
          if id in pending {
            boxes := boxes[pending[id] := id];
            pending := pending - {id};
          }
        case Event(name) =>
          taken := |events| < EVENT_QUEUE;
          if taken { events := events + [name]; }
        case Garbage =>
      }
    }

    /** The reader task, until the lines end or it waits for room with line `n` in its hand. */
    method Reader(lines: seq<Line>, ghost s: Client) returns (n: nat)
      requires Shows(s) && |s.events| <= EVENT_QUEUE
      modifies this`pending, this`boxes, this`events
      ensures n <= |lines| && HasRoom(s, lines[..n]) && Shows(DispatchAll(s, lines[..n]))
      ensures n < |lines| ==> !HasRoom(s, lines[..n + 1])
    {
      n := 0;
      var taken := true;
      while n < |lines| && taken
        invariant n <= |lines| && HasRoom(s, lines[..n]) && Shows(DispatchAll(s, lines[..n]))
        invariant !taken ==> n < |lines| && !HasRoom(s, lines[..n + 1])
        decreases |lines| - n, taken
      {
        assert lines[..n + 1][..n] == lines[..n];
        taken := OnLine(lines[n], DispatchAll(s, lines[..n]));
        if taken { n := n + 1; }
      }
    }
  }

  function Events(lines: seq<Line>): nat {
    if lines == [] then 0 else Events(lines[..|lines| - 1]) + (if lines[|lines| - 1].Event? then 1 else 0)
  }

  /** The channel can hold all the events among the lines. */
  predicate HasRoom(s: Client, lines: seq<Line>) {
    |s.events| + Events(lines) <= EVENT_QUEUE
  }

  function DispatchAll(s: Client, lines: seq<Line>): (t: Client)
    requires HasRoom(s, lines)
    ensures |t.events| == |s.events| + Events(lines)
  {
    if lines == [] then s else Dispatch(DispatchAll(s, lines[..|lines| - 1]), lines[|lines| - 1])
  }

  // ---- Whatever the server writes ---------------------------------------------------

  predicate IsRun(s: Client, actions: seq<Action>)
    decreases |actions|
  {
    actions == [] || (Enabled(s, actions[0]) && IsRun(Next(s, actions[0]), actions[1..]))
  }

  function Run(s: Client, actions: seq<Action>): Client
    requires IsRun(s, actions)
    decreases |actions|
  {
    if actions == [] then s else Run(Next(s, actions[0]), actions[1..])
  }

  predicate InMap(s: Client, c: nat) {
    c < |s.calls| && s.calls[c].id in s.pending && s.pending[s.calls[c].id] == c
  }

  /** The map, the boxes and the calls' own phases tell the same story. */
  predicate CallOk(s: Client, c: nat)
    requires c < |s.calls|
  {
    var call := s.calls[c];
    && call.id == IdOfCall(c)
    && (call.HasId? ==> call.id !in s.pending && c !in s.boxes)
    && (!call.HasId? && c !in s.boxes ==> InMap(s, c))
    && (c in s.boxes ==> s.boxes[c] == call.id && call.id !in s.pending)
    && (call.Done? ==> c in s.boxes && call.response == call.id)
  }

  predicate Inv(s: Client) {
    && |s.calls| <= TWO_64
    && (forall c :: 0 <= c < |s.calls| ==> CallOk(s, c))
    && (forall id :: id in s.pending ==> s.pending[id] < |s.calls| && s.calls[s.pending[id]].id == id)
    && (forall c :: c in s.boxes ==> c < |s.calls|)
    && |s.events| <= EVENT_QUEUE
  }

  lemma WrapsOnce(a: nat, b: nat)
    requires a < b < a + TWO_64
    ensures IdOfCall(a) != IdOfCall(b)
  {
  }

  /** The first `n` calls have different ids exactly when there are at most 2^64 of them. */
  lemma IdsDistinctExactlyWhen(n: nat)
    ensures (forall a, b :: 0 <= a < b < n ==> IdOfCall(a) != IdOfCall(b)) <==> n <= 0x1_0000_0000_0000_0000
  {
    if n <= TWO_64 {
      forall a, b | 0 <= a < b < n ensures IdOfCall(a) != IdOfCall(b) { WrapsOnce(a, b); }
    } else {
      assert IdOfCall(0) == IdOfCall(TWO_64);
    }
  }

  lemma DifferentIds(s: Client, c: nat, d: nat)
    requires |s.calls| <= TWO_64 && c < |s.calls| && d < |s.calls| && c != d
    requires CallOk(s, c) && CallOk(s, d)
    ensures s.calls[c].id != s.calls[d].id
  {
    if c < d { WrapsOnce(c, d); } else { WrapsOnce(d, c); }
  }

  lemma StepKeepsCall(s: Client, a: Action, c: nat)
    requires Inv(s) && Enabled(s, a) && c < |s.calls|
    ensures CallOk(Next(s, a), c)
  {
    assert CallOk(s, c);
    match a
    case Register(d) => if c != d { DifferentIds(s, c, d); }
    case ReadLine =>
      if s.wire[0].Response? && s.wire[0].id in s.pending {
        var d := s.pending[s.wire[0].id];
        if c != d { DifferentIds(s, c, d); }
      }
    case _ =>
  }

  lemma StepKeeps(s: Client, a: Action)
    requires Inv(s) && Enabled(s, a) && |Next(s, a).calls| <= TWO_64
    ensures Inv(Next(s, a))
  {
    var t := Next(s, a);
    forall c | 0 <= c < |t.calls| ensures CallOk(t, c) {
      if c < |s.calls| { StepKeepsCall(s, a, c); } else { NewCall(s, c); }
    }
  }

  lemma NewCall(s: Client, c: nat)
    requires Inv(s) && c == |s.calls| < TWO_64
    ensures CallOk(Next(s, TakeId), c)
  {
    forall id | id in s.pending ensures id != IdOfCall(c) {
      assert CallOk(s, s.pending[id]);
      WrapsOnce(s.pending[id], c);
    }
  }

  ghost predicate Reachable(s: Client) {
    exists actions :: IsRun(CONNECTED, actions) && Run(CONNECTED, actions) == s && |s.calls| <= TWO_64
  }

  lemma {:induction false} CallsGrow(s: Client, actions: seq<Action>)
    requires IsRun(s, actions)
    ensures |s.calls| <= |Run(s, actions).calls|
    decreases |actions|
  {
    if actions != [] { CallsGrow(Next(s, actions[0]), actions[1..]); }
  }

  lemma {:induction false} RunKeeps(s: Client, actions: seq<Action>)
    requires Inv(s) && IsRun(s, actions) && |Run(s, actions).calls| <= TWO_64
    ensures Inv(Run(s, actions))
    decreases |actions|
  {
    if actions != [] {
      CallsGrow(Next(s, actions[0]), actions[1..]);
      StepKeeps(s, actions[0]);
      RunKeeps(Next(s, actions[0]), actions[1..]);
    }
  }

  /** Whatever the server writes and however callers and reader interleave: up to 2^64 calls have
      different ids, and what a call receives carries its own. */
  lemma OwnResponseOnly(s: Client, c: nat, d: nat)
    requires Reachable(s) && c < |s.calls| && d < |s.calls|
    ensures c != d ==> s.calls[c].id != s.calls[d].id
    ensures s.calls[c].Done? ==> s.calls[c].response == s.calls[c].id
    ensures c in s.boxes ==> s.boxes[c] == s.calls[c].id
  {
    var actions :| IsRun(CONNECTED, actions) && Run(CONNECTED, actions) == s;
    RunKeeps(CONNECTED, actions);
    assert CallOk(s, c) && CallOk(s, d);
    if c != d { DifferentIds(s, c, d); }
  }

  /** A call is handed a response at most once. */
  lemma BoxIsFilledOnce(s: Client, a: Action, c: nat)
    requires Reachable(s) && Enabled(s, a) && c in s.boxes
    ensures c in Next(s, a).boxes && Next(s, a).boxes[c] == s.boxes[c]
    ensures forall id :: id in s.pending ==> s.pending[id] != c
  {
    var actions :| IsRun(CONNECTED, actions) && Run(CONNECTED, actions) == s;
    RunKeeps(CONNECTED, actions);
    assert CallOk(s, c);
  }

  // ---- With a server that answers what it was sent, once --------------------------------

  predicate Honest(s: Client, a: Action) {
    a.ServerWrites? && a.line.Response? ==> a.line.id in s.sent && a.line.id !in s.answered
  }

  predicate OnTheWay(s: Client, id: nat) {
    id in s.pending && s.pending[id] < |s.calls| && s.calls[s.pending[id]] == Waiting(id)
  }

  predicate WasSent(call: Call) {
    call.Waiting? || call.Done?
  }

  ghost predicate KnownId(s: Client, id: nat) {
    exists c :: 0 <= c < |s.calls| && s.calls[c].id == id
  }

  ghost predicate SentOk(s: Client) {
    && (forall c :: 0 <= c < |s.calls| ==> (s.calls[c].id in s.sent <==> WasSent(s.calls[c])))
    && (forall id :: id in s.sent ==> KnownId(s, id))
    && s.answered <= s.sent
    && (forall c :: c in s.boxes ==> s.boxes[c] in s.answered)
  }

  predicate WireOk(s: Client) {
    && (forall k :: 0 <= k < |s.wire| && s.wire[k].Response? ==> s.wire[k].id in s.answered && OnTheWay(s, s.wire[k].id))
    && (forall j, k :: 0 <= j < k < |s.wire| && s.wire[j].Response? ==> s.wire[j] != s.wire[k])
  }

  ghost predicate HonestInv(s: Client) {
    && Inv(s) && SentOk(s) && WireOk(s)
    && (forall id :: id in s.sent && id !in s.answered ==> OnTheWay(s, id))
  }

  lemma NewIdUnsent(s: Client)
    requires Inv(s) && SentOk(s) && |s.calls| < TWO_64
    ensures IdOfCall(|s.calls|) !in s.sent
  {
    forall id | KnownId(s, id) ensures id != IdOfCall(|s.calls|) {
      var c :| 0 <= c < |s.calls| && s.calls[c].id == id;
      assert CallOk(s, c);
      WrapsOnce(c, |s.calls|);
    }
  }

  lemma StepKeepsKnown(s: Client, a: Action, id: nat)
    requires Enabled(s, a) && KnownId(s, id)
    ensures KnownId(Next(s, a), id)
  {
    var c :| 0 <= c < |s.calls| && s.calls[c].id == id;
    assert Next(s, a).calls[c].id == id;
  }

  lemma StepKeepsWasSent(s: Client, a: Action, c: nat)
    requires HonestInv(s) && Enabled(s, a) && c < |Next(s, a).calls| <= TWO_64
    ensures Next(s, a).calls[c].id in Next(s, a).sent <==> WasSent(Next(s, a).calls[c])
  {
    if a.TakeId? { NewIdUnsent(s); }
    if a.Write? && c != a.c { DifferentIds(s, c, a.c); }
  }

  lemma StepKeepsSent(s: Client, a: Action)
    requires HonestInv(s) && Enabled(s, a) && Honest(s, a) && |Next(s, a).calls| <= TWO_64
    ensures SentOk(Next(s, a))
  {
    var t := Next(s, a);
    forall c | 0 <= c < |t.calls| ensures t.calls[c].id in t.sent <==> WasSent(t.calls[c]) {
      StepKeepsWasSent(s, a, c);
    }
    forall id | id in t.sent ensures KnownId(t, id) {
      if id in s.sent { StepKeepsKnown(s, a, id); } else { assert t.calls[a.c].id == id; }
    }
  }

  /** A call whose answer is under way moves only by being answered. */
  lemma StaysOnTheWay(s: Client, a: Action, id: nat)
    requires HonestInv(s) && Enabled(s, a) && OnTheWay(s, id)
    ensures OnTheWay(Next(s, a), id) || (a == ReadLine && s.wire[0] == Response(id))
  {
    var c := s.pending[id];
    assert CallOk(s, c);
    if a.Register? || a.Write? || a.Receive? {
      if a.c != c { DifferentIds(s, c, a.c); }
    }
  }

  lemma StepKeepsWire(s: Client, a: Action)
    requires HonestInv(s) && Enabled(s, a) && Honest(s, a)
    ensures WireOk(Next(s, a))
  {
    var t := Next(s, a);
    forall k | 0 <= k < |t.wire| && t.wire[k].Response? ensures t.wire[k].id in t.answered && OnTheWay(t, t.wire[k].id) {
      WireMoves(s, a, k);
      StaysOnTheWay(s, a, t.wire[k].id);
    }
    forall j, k | 0 <= j < k < |t.wire| && t.wire[j].Response? ensures t.wire[j] != t.wire[k] {
      WireMoves(s, a, j);
      WireMoves(s, a, k);
    }
  }

  lemma WireMoves(s: Client, a: Action, k: nat)
    requires Enabled(s, a) && k < |Next(s, a).wire|
    ensures var line := Next(s, a).wire[k];
      if a.ReadLine? then k + 1 < |s.wire| && line == s.wire[k + 1]
      else if k < |s.wire| then line == s.wire[k]
      else a == ServerWrites(line) && k == |s.wire|
  {
  }

  lemma HonestStepKeeps(s: Client, a: Action)
    requires HonestInv(s) && Enabled(s, a) && Honest(s, a) && |Next(s, a).calls| <= TWO_64
    ensures HonestInv(Next(s, a))
  {
    var t := Next(s, a);
    StepKeeps(s, a);
    StepKeepsSent(s, a);
    StepKeepsWire(s, a);
    forall id | id in t.sent && id !in t.answered ensures OnTheWay(t, id) {
      if id in s.sent {
        StaysOnTheWay(s, a, id);
      } else {
        assert CallOk(s, a.c);
      }
    }
  }

  predicate IsHonestRun(s: Client, actions: seq<Action>)
    decreases |actions|
  {
    actions == [] || (Enabled(s, actions[0]) && Honest(s, actions[0]) && IsHonestRun(Next(s, actions[0]), actions[1..]))
  }

  lemma {:induction false} HonestIsRun(s: Client, actions: seq<Action>)
    requires IsHonestRun(s, actions)
    ensures IsRun(s, actions)
    decreases |actions|
  {
    if actions != [] { HonestIsRun(Next(s, actions[0]), actions[1..]); }
  }

  ghost predicate HonestlyReachable(s: Client) {
    && |s.calls| <= TWO_64
    && exists actions :: IsHonestRun(CONNECTED, actions) && IsRun(CONNECTED, actions) && Run(CONNECTED, actions) == s
  }

  lemma {:induction false} HonestRunKeeps(s: Client, actions: seq<Action>)
    requires HonestInv(s) && IsHonestRun(s, actions) && IsRun(s, actions) && |Run(s, actions).calls| <= TWO_64
    ensures HonestInv(Run(s, actions))
    decreases |actions|
  {
    if actions != [] {
      CallsGrow(Next(s, actions[0]), actions[1..]);
      HonestStepKeeps(s, actions[0]);
      HonestRunKeeps(Next(s, actions[0]), actions[1..]);
    }
  }

  lemma HonestlyReachableInv(s: Client)
    requires HonestlyReachable(s)
    ensures HonestInv(s)
  {
    var actions :| IsHonestRun(CONNECTED, actions) && IsRun(CONNECTED, actions) && Run(CONNECTED, actions) == s;
    HonestRunKeeps(CONNECTED, actions);
  }

  /** No response is lost: registration precedes the write, so when the reader gets to a line,
      its call is registered and waiting, and the line becomes that call's. */
  lemma ResponseFindsItsCall(s: Client)
    requires HonestlyReachable(s) && Enabled(s, ReadLine) && s.wire[0].Response?
    ensures var id := s.wire[0].id;
      && OnTheWay(s, id)
      && Enabled(Next(s, ReadLine), Receive(s.pending[id]))
      && Next(Next(s, ReadLine), Receive(s.pending[id])).calls[s.pending[id]] == Done(id, id)
  {
    HonestlyReachableInv(s);
  }

  /** Every call sent is waiting under its id, or has its response. */
  lemma SentCallsAreTracked(s: Client, c: nat)
    requires HonestlyReachable(s) && c < |s.calls| && s.calls[c].Waiting?
    ensures c in s.boxes || InMap(s, c)
  {
    HonestlyReachableInv(s);
    assert CallOk(s, c);
  }

  // ---- What is not taken care of -----------------------------------------------------

  /** The response to `c`, `k` lines down the wire, is out of the reader's reach. */
  predicate OutOfReach(s: Client, c: nat, k: nat) {
    && c < |s.calls| && s.calls[c].Waiting? && c !in s.boxes
    && k < |s.wire|
    && (forall j :: 0 <= j < k ==> s.wire[j] != Response(s.calls[c].id))
    && (s.reading ==> !HasRoom(s, s.wire[..k]))
  }

  lemma {:induction false} EventsTail(lines: seq<Line>)
    requires lines != []
    ensures Events(lines) == Events(lines[1..]) + (if lines[0].Event? then 1 else 0)
  {
    if |lines| == 1 {
      assert lines[..0] == [] && lines[1..] == [];
    } else {
      var most := lines[..|lines| - 1];
      EventsTail(most);
      assert most[1..] == lines[1..][..|lines| - 2];
    }
  }

  /** Nothing anybody does brings it closer: the waiting call itself keeps others from taking
      events, and the reader stops at the first there is no room for. */
  lemma StaysOutOfReach(s: Client, a: Action, c: nat, k: nat)
    requires Inv(s) && Enabled(s, a) && OutOfReach(s, c, k)
    ensures exists k' :: 0 <= k' <= k && OutOfReach(Next(s, a), c, k')
    ensures Next(s, a).calls[c] == s.calls[c]
  {
    var t := Next(s, a);
    if a.ReadLine? {
      var ahead := s.wire[..k];
      assert k == 0 ==> ahead == [] && Events(ahead) == 0;
      EventsTail(ahead);
      assert t.wire == s.wire[1..];
      assert ahead[1..] == s.wire[1..][..k - 1];
      assert s.wire[0] != Response(s.calls[c].id);
      assert CallOk(s, c);
      assert OutOfReach(t, c, k - 1);
    } else {
      assert t.wire[..k] == s.wire[..k];
      assert InProgress(s.calls[c]);
      assert OutOfReach(t, c, k);
    }
  }

  lemma {:induction false} WaitsForever(s: Client, actions: seq<Action>, c: nat, k: nat)
    requires Inv(s) && IsRun(s, actions) && |Run(s, actions).calls| <= TWO_64 && OutOfReach(s, c, k)
    ensures var t := Run(s, actions); c < |t.calls| && t.calls[c] == s.calls[c] && c !in t.boxes
    decreases |actions|
  {
    if actions != [] {
      CallsGrow(Next(s, actions[0]), actions[1..]);
      StepKeeps(s, actions[0]);
      StaysOutOfReach(s, actions[0], c, k);
      var k' :| 0 <= k' <= k && OutOfReach(Next(s, actions[0]), c, k');
      WaitsForever(Next(s, actions[0]), actions[1..], c, k');
    }
  }

  /** Once the reader has left, no call gets a response any more, and none is told. */
  lemma {:induction false} WaitsForeverOnceReaderLeft(s: Client, actions: seq<Action>, c: nat)
    requires IsRun(s, actions) && !s.reading && c < |s.calls| && s.calls[c].Waiting? && c !in s.boxes
    ensures c < |Run(s, actions).calls| && Run(s, actions).calls[c] == s.calls[c] && !Run(s, actions).reading
    decreases |actions|
  {
    if actions != [] { WaitsForeverOnceReaderLeft(Next(s, actions[0]), actions[1..], c); }
  }

  /** While there is room, the reader alone gets to the response. */
  lemma {:induction false} ReaderGetsThere(s: Client, c: nat, k: nat) returns (actions: seq<Action>)
    requires HonestInv(s) && s.reading && c < |s.calls| && s.calls[c].Waiting?
    requires k < |s.wire| && s.wire[k] == Response(s.calls[c].id) && HasRoom(s, s.wire[..k])
    ensures IsRun(s, actions) && IsHonestRun(s, actions) && |Run(s, actions).calls| <= TWO_64
    ensures c in Run(s, actions).boxes
    decreases k
  {
    var ahead := s.wire[..k];
    assert CallOk(s, c) && OnTheWay(s, s.wire[k].id);
    if k == 0 {
      var t := Next(s, ReadLine);
      actions := [ReadLine];
      assert actions[1..] == [] && IsHonestRun(t, []) && Run(t, []) == t;
      DifferentIdsIfDifferent(s, c, s.pending[s.calls[c].id]);
    } else {
      EventsTail(ahead);
      var t := Next(s, ReadLine);
      assert ahead[1..] == t.wire[..k - 1];
      HonestStepKeeps(s, ReadLine);
      var rest := ReaderGetsThere(t, c, k - 1);
      actions := [ReadLine] + rest;
      assert actions[1..] == rest;
    }
  }

  lemma DifferentIdsIfDifferent(s: Client, c: nat, d: nat)
    requires Inv(s) && c < |s.calls| && d < |s.calls| && s.calls[c].id == s.calls[d].id
    ensures c == d
  {
    assert CallOk(s, c) && CallOk(s, d);
    if c != d { DifferentIds(s, c, d); }
  }

  ghost predicate CanBeAnswered(s: Client, c: nat) {
    exists actions :: IsRun(s, actions) && |Run(s, actions).calls| <= TWO_64 && c in Run(s, actions).boxes
  }

  /** A call whose response is on the wire gets it in some continuation exactly when the reader
      is alive and the event channel can hold all the events ahead of the response. */
  lemma AnsweredExactlyWhen(s: Client, c: nat, k: nat)
    requires HonestlyReachable(s) && c < |s.calls| && s.calls[c].Waiting?
    requires k < |s.wire| && s.wire[k] == Response(s.calls[c].id)
    ensures CanBeAnswered(s, c) <==> s.reading && |s.events| + Events(s.wire[..k]) <= 64
  {
    HonestlyReachableInv(s);
    if s.reading && HasRoom(s, s.wire[..k]) {
      var actions := ReaderGetsThere(s, c, k);
    } else {
      assert CallOk(s, c) && OnTheWay(s, s.wire[k].id);
      assert OutOfReach(s, c, k);
      forall actions | IsRun(s, actions) && |Run(s, actions).calls| <= TWO_64 ensures c !in Run(s, actions).boxes {
        WaitsForever(s, actions, c, k);
      }
    }
  }

  lemma {:induction false} RunSnoc(s: Client, actions: seq<Action>, a: Action)
    requires IsRun(s, actions) && Enabled(Run(s, actions), a)
    ensures IsRun(s, actions + [a]) && Run(s, actions + [a]) == Next(Run(s, actions), a)
    decreases |actions|
  {
    if actions == [] {
      assert [a][1..] == [] && IsRun(Next(s, a), []);
    } else {
      RunSnoc(Next(s, actions[0]), actions[1..], a);
      assert (actions + [a])[1..] == actions[1..] + [a];
    }
  }

  lemma {:induction false} HonestRunSnoc(s: Client, actions: seq<Action>, a: Action)
    requires IsHonestRun(s, actions) && IsRun(s, actions)
    requires Enabled(Run(s, actions), a) && Honest(Run(s, actions), a)
    ensures IsHonestRun(s, actions + [a])
    decreases |actions|
  {
    if actions == [] {
      assert [a][1..] == [] && IsHonestRun(Next(s, a), []);
    } else {
      HonestRunSnoc(Next(s, actions[0]), actions[1..], a);
      assert (actions + [a])[1..] == actions[1..] + [a];
    }
  }

  lemma ReachableStep(s: Client, a: Action)
    requires HonestlyReachable(s) && Enabled(s, a) && Honest(s, a) && |Next(s, a).calls| <= TWO_64
    ensures HonestlyReachable(Next(s, a))
  {
    var actions :| IsHonestRun(CONNECTED, actions) && IsRun(CONNECTED, actions) && Run(CONNECTED, actions) == s;
    RunSnoc(CONNECTED, actions, a);
    HonestRunSnoc(CONNECTED, actions, a);
  }

  lemma ConnectedIsReachable()
    ensures HonestlyReachable(CONNECTED)
  {
    assert IsHonestRun(CONNECTED, []) && IsRun(CONNECTED, []) && Run(CONNECTED, []) == CONNECTED;
  }

  /** The first call, up to its waiting for the response. */
  lemma FirstCall(s: Client) returns (t: Client)
    requires HonestlyReachable(s) && s.calls == [] && s.pending == map[] && s.boxes == map[] && s.sent == {}
    ensures HonestlyReachable(t)
    ensures t == s.(calls := [Waiting(1)], pending := map[1 := 0], sent := {1})
  {
    var s1 := Next(s, TakeId);
    ReachableStep(s, TakeId);
    var s2 := Next(s1, Register(0));
    ReachableStep(s1, Register(0));
    t := Next(s2, Write(0, true));
    ReachableStep(s2, Write(0, true));
  }

  lemma ReaderCanLeaveCallsWaiting() returns (s: Client)
    ensures HonestlyReachable(s) && !s.reading && |s.calls| == 1 && s.calls[0] == Waiting(1) && 0 !in s.boxes
  {
    ConnectedIsReachable();
    var t := FirstCall(CONNECTED);
    s := Next(t, ReaderExits);
    ReachableStep(t, ReaderExits);
  }

  lemma EventArrives(s: Client, name: string) returns (t: Client)
    requires HonestlyReachable(s) && s.reading && s.wire == [] && |s.events| < EVENT_QUEUE
    ensures HonestlyReachable(t) && t == s.(events := s.events + [name])
  {
    var line := Event(name);
    ReachableStep(s, ServerWrites(line));
    var u := Next(s, ServerWrites(line));
    ReachableStep(u, ReadLine);
    t := Next(u, ReadLine);
    assert u.wire == [line] && t.wire == [];
  }

  /** With 64 events unread a live reader can stop in front of a 65th for good, an answered call
      behind it. */
  lemma UnreadEventsCanBlockCalls() returns (s: Client)
    ensures HonestlyReachable(s) && s.reading && |s.events| == 64
    ensures s.calls == [Waiting(1)] && s.wire == [Event("device_connected"), Response(1)]
    ensures !CanBeAnswered(s, 0)
  {
    ConnectedIsReachable();
    s := CONNECTED;
    for n := 0 to EVENT_QUEUE
      invariant HonestlyReachable(s) && |s.events| == n && s == CONNECTED.(events := s.events)
    {
      s := EventArrives(s, "device_connected");
    }
    s := FirstCall(s);
    ReachableStep(s, ServerWrites(Event("device_connected")));
    s := Next(s, ServerWrites(Event("device_connected")));
    ReachableStep(s, ServerWrites(Response(1)));
    s := Next(s, ServerWrites(Response(1)));
    assert s.wire[..1] == [Event("device_connected")] && s.wire[..1][..0] == [];
    AnsweredExactlyWhen(s, 0, 1);
  }

  /** A failed write leaves its entry in the map, and nothing will ever take it out. */
  lemma FailedWriteLeaks(s: Client, c: nat)
    requires HonestlyReachable(s) && c < |s.calls| && s.calls[c].WriteFailed?
    ensures InMap(s, c)
  {
    HonestlyReachableInv(s);
    assert CallOk(s, c);
  }

  /** When no call is in progress - all are done or failed - an event can be taken, the oldest
      first, and makes room for another. */
  lemma TakingAnEventMakesRoom(s: Client, name: string)
    requires Reachable(s) && s.events != []
    requires forall c :: 0 <= c < |s.calls| ==> s.calls[c].Done? || s.calls[c].WriteFailed?
    ensures Enabled(s, Consume) && Next(s, Consume) == s.(events := s.events[1..])
    ensures CanTake(Next(s, Consume), Event(name))
  {
    var actions :| IsRun(CONNECTED, actions) && Run(CONNECTED, actions) == s;
    RunKeeps(CONNECTED, actions);
  }

  /** A failed write ends its call, and the call is over without an answer. */
  lemma FailedWriteHappens() returns (s: Client)
    ensures HonestlyReachable(s) && s.calls == [WriteFailed(1)] && InMap(s, 0)
  {
    ConnectedIsReachable();
    var s1 := Next(CONNECTED, TakeId);
    ReachableStep(CONNECTED, TakeId);
    var s2 := Next(s1, Register(0));
    ReachableStep(s1, Register(0));
    ReachableStep(s2, Write(0, false));
    s := Next(s2, Write(0, false));
  }
}
