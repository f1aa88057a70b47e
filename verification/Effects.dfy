/** The microphone effect chain, its presets, and what a restart brings back. */
module Effects {
  import opened Prelude

  datatype EffectKind = NoiseSuppression | Gate | Compressor | Equalizer

  /** A 32-bit float: JSON has no way to write the infinities and NaN. */
  datatype Value = Finite(x: real) | Infinite(negative: bool) | NotANumber

  type Params = map<string, Value>

  datatype EffectInstance = EffectInstance(kind: EffectKind, bypassed: bool, params: Params)

  datatype MicChain = MicChain(effects: seq<EffectInstance>, preset: Option<string>)

  datatype PresetName = Off | Voice | Streaming | Singing

  const ALL_KINDS := [NoiseSuppression, Gate, Compressor, Equalizer]
  const VAD := "VAD Threshold (%)"

  function DefaultParams(kind: EffectKind): Params {
    match kind
    case NoiseSuppression => map[VAD := Finite(50.0)]
    case Gate => map["th" := Finite(-36.0), "at" := Finite(1.5), "rt" := Finite(50.0), "rng" := Finite(-24.0)]
    case Compressor =>
      map["th" := Finite(-18.0), "ratio" := Finite(3.0), "at" := Finite(5.0), "rt" := Finite(50.0), "makeup" := Finite(0.0)]
    case Equalizer =>
      map["fg_0" := Finite(80.0), "g_0" := Finite(0.0), "q_0" := Finite(1.0),
          "fg_1" := Finite(250.0), "g_1" := Finite(0.0), "q_1" := Finite(1.0),
          "fg_2" := Finite(2500.0), "g_2" := Finite(0.0), "q_2" := Finite(1.0),
          "fg_3" := Finite(8000.0), "g_3" := Finite(0.0), "q_3" := Finite(1.0)]
  }

  function DefaultFor(kind: EffectKind): EffectInstance {
    EffectInstance(kind, true, DefaultParams(kind))
  }

  function DefaultChain(): MicChain {
    MicChain(seq(4, i requires 0 <= i < 4 => DefaultFor(ALL_KINDS[i])), Some(Label(Off)))
  }

  function Label(p: PresetName): string {
    match p
    case Off => "Off"
    case Voice => "Voice"
    case Streaming => "Streaming"
    case Singing => "Singing"
  }

  function FromLabel(text: string): Option<PresetName> {
    if text == Label(Off) then Some(Off)
    else if text == Label(Voice) then Some(Voice)
    else if text == Label(Streaming) then Some(Streaming)
    else if text == Label(Singing) then Some(Singing)
    else None
  }

  /** What a preset sets of an effect; it leaves the others bypassed at their defaults. */
  function Settings(p: PresetName, kind: EffectKind): Option<Params> {
    match (p, kind)
    case (Voice, NoiseSuppression) => Some(map[VAD := Finite(50.0)])
    case (Voice, Compressor) => Some(map["th" := Finite(-18.0), "ratio" := Finite(2.5), "makeup" := Finite(3.0)])
    case (Streaming, NoiseSuppression) => Some(map[VAD := Finite(65.0)])
    case (Streaming, Gate) => Some(map["th" := Finite(-32.0), "rng" := Finite(-30.0)])
    case (Streaming, Compressor) => Some(map["th" := Finite(-20.0), "ratio" := Finite(4.0), "makeup" := Finite(4.0)])
    case (Streaming, Equalizer) => Some(map["g_2" := Finite(2.5), "g_3" := Finite(2.0)])
    case (Singing, NoiseSuppression) => Some(map[VAD := Finite(35.0)])
    case (Singing, Compressor) =>
      Some(map["th" := Finite(-22.0), "ratio" := Finite(2.0), "at" := Finite(10.0), "rt" := Finite(200.0), "makeup" := Finite(2.0)])
    case (Singing, Equalizer) => Some(map["g_3" := Finite(3.0)])
    case _ => None
  }

  function PresetEffect(p: PresetName, kind: EffectKind): EffectInstance {
    var settings := Settings(p, kind);
    if settings.Some? then EffectInstance(kind, false, DefaultParams(kind) + settings.value) else DefaultFor(kind)
  }

  function PresetChain(p: PresetName): MicChain {
    MicChain(seq(4, i requires 0 <= i < 4 => PresetEffect(p, ALL_KINDS[i])), Some(Label(p)))
  }

  predicate InSignalOrder(effects: seq<EffectInstance>) {
    |effects| == 4 && forall i :: 0 <= i < 4 ==> effects[i].kind == ALL_KINDS[i]
  }

  function ParseEffectKind(s: string): Option<EffectKind> {
    if s == "noise_suppression" || s == "NoiseSuppression" then Some(NoiseSuppression)
    else if s == "gate" || s == "Gate" then Some(Gate)
    else if s == "compressor" || s == "Compressor" then Some(Compressor)
    else if s == "equalizer" || s == "Equalizer" then Some(Equalizer)
    else None
  }

  // ---- The stored blob ------------------------------------------------------------

  /** A parameter as JSON: a number, or the `null` that a non-finite float becomes. */
  datatype JsonEffect = JsonEffect(kind: EffectKind, bypassed: bool, params: map<string, Option<real>>)

  datatype Json = Json(effects: seq<JsonEffect>, preset: Option<string>)

  function EncodeValue(v: Value): Option<real> {
    if v.Finite? then Some(v.x) else None
  }

  function EncodeEffect(e: EffectInstance): JsonEffect {
    JsonEffect(e.kind, e.bypassed, map k | k in e.params :: EncodeValue(e.params[k]))
  }

  function Encode(c: MicChain): Json {
    Json(seq(|c.effects|, i requires 0 <= i < |c.effects| => EncodeEffect(c.effects[i])), c.preset)
  }

  predicate Readable(j: Json) {
    forall i :: 0 <= i < |j.effects| ==> forall k :: k in j.effects[i].params ==> j.effects[i].params[k].Some?
  }

  function DecodeEffect(e: JsonEffect): EffectInstance
    requires forall k :: k in e.params ==> e.params[k].Some?
  {
    EffectInstance(e.kind, e.bypassed, map k | k in e.params :: Finite(e.params[k].value))
  }

  /** A `null` where a number belongs fails the whole blob. */
  function Decode(j: Json): Option<MicChain> {
    if Readable(j) then
      Some(MicChain(seq(|j.effects|, i requires 0 <= i < |j.effects| && Readable(j) => DecodeEffect(j.effects[i])), j.preset))
    else None
  }

  function LoadStored(stored: Option<Json>): MicChain {
    if stored.Some? && Decode(stored.value).Some? then Decode(stored.value).value else DefaultChain()
  }

  predicate AllFinite(c: MicChain) {
    forall i :: 0 <= i < |c.effects| ==> forall k :: k in c.effects[i].params ==> c.effects[i].params[k].Finite?
  }

  // ---- Commands ---------------------------------------------------------------------

  datatype Command =
    | SetEffectBypass(effect: string, bypassed: bool)
    | SetEffectParam(effect: string, param: string, value: Value)
    | LoadEffectPreset(name: string)
    | ResetEffectChain

  /** The chain in memory and the row in the database; writes are taken to succeed. */
  datatype State = State(chain: MicChain, stored: Option<Json>)

  /** The effects with the first one of that kind, if any, changed. */
  function ChangeFirst(effects: seq<EffectInstance>, kind: EffectKind, change: EffectInstance -> EffectInstance): seq<EffectInstance> {
    if effects == [] then []
    else if effects[0].kind == kind then [change(effects[0])] + effects[1..]
    else [effects[0]] + ChangeFirst(effects[1..], kind, change)
  }

  lemma {:induction false} ChangeFirstAt(effects: seq<EffectInstance>, kind: EffectKind, change: EffectInstance -> EffectInstance, i: nat)
    requires i <= |effects| && forall k :: 0 <= k < i ==> effects[k].kind != kind
    requires i < |effects| ==> effects[i].kind == kind
    ensures ChangeFirst(effects, kind, change) == if i < |effects| then effects[i := change(effects[i])] else effects
  {
    if 0 < i { ChangeFirstAt(effects[1..], kind, change, i - 1); }
  }

  function ApplyEffectChange(c: MicChain, effect: string, change: EffectInstance -> EffectInstance): MicChain {
    var kind := ParseEffectKind(effect);
    if kind.Some? then c.(effects := ChangeFirst(c.effects, kind.value, change)) else c
  }

  function Persisted(c: MicChain): State {
    State(c, Some(Encode(c)))
  }

  function Next(s: State, c: Command): State {
    match c
    case SetEffectBypass(effect, bypassed) =>
      Persisted(ApplyEffectChange(s.chain, effect, (e: EffectInstance) => e.(bypassed := bypassed)))
    case SetEffectParam(effect, param, value) =>
      Persisted(ApplyEffectChange(s.chain, effect, (e: EffectInstance) => e.(params := e.params[param := value])).(preset := None))
    case LoadEffectPreset(name) =>
      var preset := FromLabel(name);
      if preset.Some? then Persisted(PresetChain(preset.value)) else s
    case ResetEffectChain => Persisted(DefaultChain())
  }

  function Run(s: State, commands: seq<Command>): State {
    if commands == [] then s else Next(Run(s, commands[..|commands| - 1]), commands[|commands| - 1])
  }

  function Start(stored: Option<Json>): State {
    State(LoadStored(stored), stored)
  }

  // ---- In place ---------------------------------------------------------------------

  class Mic {
    var effects: seq<EffectInstance>
    var preset: Option<string>
    var stored: Option<Json>

    function View(): State reads this {
      State(MicChain(effects, preset), stored)
    }

    constructor (stored: Option<Json>)
      ensures View() == Start(stored)
    {
      var chain := LoadStored(stored);
      effects, preset, this.stored := chain.effects, chain.preset, stored;
    }

    method Persist()
      modifies this`stored
      ensures View() == Persisted(old(View()).chain)
    {
      stored := Some(Encode(MicChain(effects, preset)));
    }

    /** `effect_mut` and the mutation. */
    method Change(effect: string, change: EffectInstance -> EffectInstance)
      modifies this`effects
      ensures MicChain(effects, preset) == ApplyEffectChange(old(View()).chain, effect, change)
    {
      var kind := ParseEffectKind(effect);
      if kind.None? { return; }
      var i := 0;
      while i < |effects| && effects[i].kind != kind.value
        invariant i <= |effects| && effects == old(effects)
        invariant forall k :: 0 <= k < i ==> effects[k].kind != kind.value
      {
        i := i + 1;
      }
      ChangeFirstAt(effects, kind.value, change, i);
      if i < |effects| { effects := effects[i := change(effects[i])]; }
    }

    method Handle(c: Command)
      modifies this
      ensures View() == Next(old(View()), c)
    {
      match c {
        case SetEffectBypass(effect, bypassed) =>
          Change(effect, (e: EffectInstance) => e.(bypassed := bypassed));
          Persist();
        case SetEffectParam(effect, param, value) =>
          Change(effect, (e: EffectInstance) => e.(params := e.params[param := value]));
          preset := None;
          Persist();
        case LoadEffectPreset(name) =>
          var found := FromLabel(name);
          if found.Some? {
            var chain := PresetChain(found.value);
            effects, preset := chain.effects, chain.preset;
            Persist();
          }
        case ResetEffectChain =>
          var chain := DefaultChain();
          effects, preset := chain.effects, chain.preset;
          Persist();
      }
    }
  }

  // ---- What every run keeps --------------------------------------------------------------

  /** A preset's name means the preset's parameters; bypass flags may have moved. */
  predicate LabelHolds(c: MicChain) {
    match c.preset
    case None => true
    case Some(text) =>
      var p := FromLabel(text);
      p.Some? && |c.effects| == 4
      && forall i :: 0 <= i < 4 ==> c.effects[i].params == PresetChain(p.value).effects[i].params
  }

  /** A restart brings back this very chain, or, when a value is not finite, the default one. */
  predicate RestartResumes(s: State) {
    LoadStored(s.stored) == if AllFinite(s.chain) then s.chain else DefaultChain()
  }

  predicate Inv(s: State) {
    InSignalOrder(s.chain.effects) && LabelHolds(s.chain) && RestartResumes(s)
  }

  lemma DefaultsFinite(kind: EffectKind)
    ensures forall k :: k in DefaultParams(kind) ==> DefaultParams(kind)[k].Finite?
  {
  }

  lemma DefaultIsOff()
    ensures PresetChain(Off) == DefaultChain()
    ensures FromLabel(Label(Off)) == Some(Off)
  {
  }

  lemma LabelsAreDistinct(p: PresetName)
    ensures FromLabel(Label(p)) == Some(p)
  {
  }

  lemma DefaultIsGood()
    ensures InSignalOrder(DefaultChain().effects) && LabelHolds(DefaultChain()) && AllFinite(DefaultChain())
  {
    DefaultIsOff();
    forall i | 0 <= i < 4 ensures forall k :: k in DefaultChain().effects[i].params ==> DefaultChain().effects[i].params[k].Finite? {
      DefaultsFinite(ALL_KINDS[i]);
    }
  }

  // ---- Names and presets ------------------------------------------------------------------

  /** Each effect goes by two names, and by no other. */
  lemma EffectNames(s: string)
    ensures ParseEffectKind(s) == Some(NoiseSuppression) <==> s in {"noise_suppression", "NoiseSuppression"}
    ensures ParseEffectKind(s) == Some(Gate) <==> s in {"gate", "Gate"}
    ensures ParseEffectKind(s) == Some(Compressor) <==> s in {"compressor", "Compressor"}
    ensures ParseEffectKind(s) == Some(Equalizer) <==> s in {"equalizer", "Equalizer"}
  {
  }

  lemma PresetNames(s: string)
    ensures FromLabel(s) == Some(Off) <==> s == "Off"
    ensures FromLabel(s) == Some(Voice) <==> s == "Voice"
    ensures FromLabel(s) == Some(Streaming) <==> s == "Streaming"
    ensures FromLabel(s) == Some(Singing) <==> s == "Singing"
  {
  }

  predicate Active(p: PresetName, kind: EffectKind) {
    match p
    case Off => false
    case Voice => kind == NoiseSuppression || kind == Compressor
    case Streaming => true
    case Singing => kind != Gate
  }

  /** An effect a preset does not use is bypassed at its defaults. */
  lemma PresetUses(p: PresetName, kind: EffectKind)
    ensures PresetEffect(p, kind).kind == kind && (PresetEffect(p, kind).bypassed <==> !Active(p, kind))
    ensures !Active(p, kind) ==> PresetEffect(p, kind).params == DefaultParams(kind)
  {
  }

  lemma Suppression(p: PresetName)
    ensures PresetEffect(p, NoiseSuppression).params ==
      map["VAD Threshold (%)" := Finite(if p == Streaming then 65.0 else if p == Singing then 35.0 else 50.0)]
  {
  }

  lemma Gating(p: PresetName)
    ensures PresetEffect(p, Gate).params ==
      map["th" := Finite(if p == Streaming then -32.0 else -36.0), "at" := Finite(1.5), "rt" := Finite(50.0),
          "rng" := Finite(if p == Streaming then -30.0 else -24.0)]
  {
  }

  lemma Compression(p: PresetName)
    ensures PresetEffect(p, Compressor).params == match p
      case Off => map["th" := Finite(-18.0), "ratio" := Finite(3.0), "at" := Finite(5.0), "rt" := Finite(50.0), "makeup" := Finite(0.0)]
      case Voice => map["th" := Finite(-18.0), "ratio" := Finite(2.5), "at" := Finite(5.0), "rt" := Finite(50.0), "makeup" := Finite(3.0)]
      case Streaming => map["th" := Finite(-20.0), "ratio" := Finite(4.0), "at" := Finite(5.0), "rt" := Finite(50.0), "makeup" := Finite(4.0)]
      case Singing => map["th" := Finite(-22.0), "ratio" := Finite(2.0), "at" := Finite(10.0), "rt" := Finite(200.0), "makeup" := Finite(2.0)]
  {
  }

  /** The equaliser: 80, 250, 2500 and 8000 Hz, flat but for the two upper bands of two presets. */
  lemma Equalisation(p: PresetName)
    ensures PresetEffect(p, Equalizer).params ==
      map["fg_0" := Finite(80.0), "g_0" := Finite(0.0), "q_0" := Finite(1.0),
          "fg_1" := Finite(250.0), "g_1" := Finite(0.0), "q_1" := Finite(1.0),
          "fg_2" := Finite(2500.0), "g_2" := Finite(if p == Streaming then 2.5 else 0.0), "q_2" := Finite(1.0),
          "fg_3" := Finite(8000.0), "g_3" := Finite(if p == Streaming then 2.0 else if p == Singing then 3.0 else 0.0),
          "q_3" := Finite(1.0)]
  {
  }

  /** Storing loses nothing of a finite chain, and everything of any other. */
  lemma StoredChainReturnsExactlyWhen(c: MicChain)
    ensures Decode(Encode(c)) == Some(c) <==> AllFinite(c)
    ensures Decode(Encode(c)) == None <==> !AllFinite(c)
  {
    var j := Encode(c);
    assert forall i :: 0 <= i < |c.effects| ==> j.effects[i].params.Keys == c.effects[i].params.Keys;
    if AllFinite(c) {
      forall i | 0 <= i < |c.effects| ensures DecodeEffect(j.effects[i]) == c.effects[i] {
        assert DecodeEffect(j.effects[i]).params == c.effects[i].params;
      }
      assert Decode(j).value.effects == c.effects;
    } else {
      var i :| 0 <= i < |c.effects| && exists k :: k in c.effects[i].params && !c.effects[i].params[k].Finite?;
      var k :| k in c.effects[i].params && !c.effects[i].params[k].Finite?;
      assert k in j.effects[i].params && j.effects[i].params[k].None?;
    }
  }

  lemma PersistedResumes(c: MicChain)
    ensures RestartResumes(Persisted(c))
  {
    StoredChainReturnsExactlyWhen(c);
  }

  lemma {:induction false} ChangeKeepsOrder(effects: seq<EffectInstance>, kind: EffectKind, change: EffectInstance -> EffectInstance)
    requires forall e :: change(e).kind == e.kind
    ensures |ChangeFirst(effects, kind, change)| == |effects|
    ensures forall i :: 0 <= i < |effects| ==> ChangeFirst(effects, kind, change)[i].kind == effects[i].kind
  {
    if effects != [] { ChangeKeepsOrder(effects[1..], kind, change); }
  }

  lemma {:induction false} BypassKeepsParams(effects: seq<EffectInstance>, kind: EffectKind, bypassed: bool)
    ensures var more := ChangeFirst(effects, kind, (e: EffectInstance) => e.(bypassed := bypassed));
      |more| == |effects| && forall i :: 0 <= i < |effects| ==> more[i].params == effects[i].params
  {
    if effects != [] { BypassKeepsParams(effects[1..], kind, bypassed); }
  }

  lemma StepKeepsOrder(s: State, c: Command)
    requires InSignalOrder(s.chain.effects)
    ensures InSignalOrder(Next(s, c).chain.effects)
  {
    match c
    case SetEffectBypass(effect, bypassed) =>
      var kind := ParseEffectKind(effect);
      if kind.Some? { ChangeKeepsOrder(s.chain.effects, kind.value, (e: EffectInstance) => e.(bypassed := bypassed)); }
    case SetEffectParam(effect, param, value) =>
      var kind := ParseEffectKind(effect);
      if kind.Some? { ChangeKeepsOrder(s.chain.effects, kind.value, (e: EffectInstance) => e.(params := e.params[param := value])); }
    case _ =>
  }

  lemma StepKeepsLabel(s: State, c: Command)
    requires InSignalOrder(s.chain.effects) && LabelHolds(s.chain)
    ensures LabelHolds(Next(s, c).chain)
  {
    match c
    case SetEffectBypass(effect, bypassed) =>
      var kind := ParseEffectKind(effect);
      if kind.Some? { BypassKeepsParams(s.chain.effects, kind.value, bypassed); }
    case LoadEffectPreset(name) =>
      if FromLabel(name).Some? { LabelsAreDistinct(FromLabel(name).value); }
    case ResetEffectChain => DefaultIsGood();
    case _ =>
  }

  lemma StepKeepsResuming(s: State, c: Command)
    requires RestartResumes(s)
    ensures RestartResumes(Next(s, c))
  {
    if !(c.LoadEffectPreset? && FromLabel(c.name).None?) { PersistedResumes(Next(s, c).chain); }
  }

  lemma {:induction false} ChangeAt(effects: seq<EffectInstance>, i: nat, change: EffectInstance -> EffectInstance)
    requires InSignalOrder(effects) && i < 4
    ensures ChangeFirst(effects, ALL_KINDS[i], change) == effects[i := change(effects[i])]
  {
    ChangeFirstAt(effects, ALL_KINDS[i], change, i);
  }

  /** A command changes the one thing it names in the one effect it names. */
  lemma OnlyTheNamedEffectChanges(s: State, i: nat, effect: string, bypassed: bool, param: string, value: Value)
    requires InSignalOrder(s.chain.effects) && i < 4 && ParseEffectKind(effect) == Some(ALL_KINDS[i])
    ensures var e := s.chain.effects[i];
      && Next(s, SetEffectBypass(effect, bypassed)).chain == s.chain.(effects := s.chain.effects[i := e.(bypassed := bypassed)])
      && Next(s, SetEffectParam(effect, param, value)).chain
         == MicChain(s.chain.effects[i := e.(params := e.params[param := value])], None)
  {
    ChangeAt(s.chain.effects, i, (e: EffectInstance) => e.(bypassed := bypassed));
    ChangeAt(s.chain.effects, i, (e: EffectInstance) => e.(params := e.params[param := value]));
  }

  /** Loading a preset by its name replaces the whole chain and its label, and resetting is loading
      the one called "Off"; a name that is none changes nothing. */
  lemma PresetIsLoaded(s: State, p: PresetName, name: string)
    ensures Next(s, LoadEffectPreset(Label(p))) == State(PresetChain(p), Some(Encode(PresetChain(p))))
    ensures Next(s, ResetEffectChain) == Next(s, LoadEffectPreset("Off"))
    ensures name !in {"Off", "Voice", "Streaming", "Singing"} ==> Next(s, LoadEffectPreset(name)) == s
    ensures forall i :: 0 <= i < 4 ==> PresetChain(p).effects[i] == PresetEffect(p, ALL_KINDS[i])
    ensures PresetChain(p).preset == Some(Label(p)) && |PresetChain(p).effects| == 4
  {
    LabelsAreDistinct(p);
    DefaultIsOff();
  }

  /** An unknown effect is ignored - except that naming one still drops the preset's label. */
  lemma UnknownEffectDropsLabel(s: State, effect: string, bypassed: bool, param: string, value: Value)
    requires ParseEffectKind(effect).None?
    ensures Next(s, SetEffectBypass(effect, bypassed)).chain == s.chain
    ensures Next(s, SetEffectParam(effect, param, value)).chain == s.chain.(preset := None)
  {
  }

  /** From the first start on, through any commands: the four effects stay in signal order, a
      preset's name goes with its parameters, and a restart resumes the chain exactly when all
      its values are finite (and falls back to the default otherwise). */
  lemma {:induction false} EveryRunIsGood(commands: seq<Command>)
    ensures Inv(Run(Start(None), commands))
  {
    if commands == [] {
      DefaultIsGood();
    } else {
      var before, c := Run(Start(None), commands[..|commands| - 1]), commands[|commands| - 1];
      EveryRunIsGood(commands[..|commands| - 1]);
      StepKeepsOrder(before, c);
      StepKeepsLabel(before, c);
      StepKeepsResuming(before, c);
    }
  }

  /** The next daemon starts in a state that is as good. */
  lemma RestartIsGood(s: State)
    requires Inv(s)
    ensures Inv(Start(s.stored)) && Start(s.stored).chain == (if AllFinite(s.chain) then s.chain else DefaultChain())
  {
    DefaultIsGood();
  }

  // ---- The configuration ----------------------------------------------------------------

  function Window(effects: seq<EffectInstance>, k: nat): (EffectKind, EffectKind)
    requires k + 1 < |effects|
  {
    (effects[k].kind, effects[k + 1].kind)
  }

  /** The links of the configuration, from one effect to the next. */
  method ConfigLinks(effects: seq<EffectInstance>) returns (links: seq<(EffectKind, EffectKind)>)
    ensures |links| == if effects == [] then 0 else |effects| - 1
    ensures forall k :: 0 <= k < |links| ==> links[k] == Window(effects, k)
    ensures InSignalOrder(effects) ==> links == [(NoiseSuppression, Gate), (Gate, Compressor), (Compressor, Equalizer)]
  {
    links := [];
    while |links| + 1 < |effects|
      invariant effects != [] ==> |links| + 1 <= |effects|
      invariant effects == [] ==> links == []
      invariant forall k :: 0 <= k < |links| ==> links[k] == Window(effects, k)
    {
      links := links + [Window(effects, |links|)];
    }
    if InSignalOrder(effects) {
      assert links == [Window(effects, 0), Window(effects, 1), Window(effects, 2)];
    }
  }
}
