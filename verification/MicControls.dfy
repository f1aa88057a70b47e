/** What the filter-chain node is told of the effects. Every control is set on the one node of the
    processed source under its bare name, so effects that share a name overwrite each other. */
module MicControls {
  import opened Prelude
  import opened Effects

  const BYPASS := "bp"

  function NodeId(kind: EffectKind): string {
    match kind
    case NoiseSuppression => "ns"
    case Gate => "gate"
    case Compressor => "comp"
    case Equalizer => "eq"
  }

  /** A name given to `push_chain_to_pipewire`: an effect's, or its identifier in the graph. */
  function NamedKind(name: string): Option<EffectKind> {
    if ParseEffectKind(name).Some? then ParseEffectKind(name)
    else if name == NodeId(NoiseSuppression) then Some(NoiseSuppression)
    else if name == NodeId(Gate) then Some(Gate)
    else if name == NodeId(Compressor) then Some(Compressor)
    else if name == NodeId(Equalizer) then Some(Equalizer)
    else None
  }

  lemma NodeIdNames(kind: EffectKind)
    ensures NamedKind(NodeId(kind)) == Some(kind)
  {
  }

  /** Besides its two names an effect goes by its identifier in the graph. */
  lemma GraphNames(s: string)
    ensures NamedKind(s) == Some(NoiseSuppression) <==> s in {"noise_suppression", "NoiseSuppression", "ns"}
    ensures NamedKind(s) == Some(Gate) <==> s in {"gate", "Gate"}
    ensures NamedKind(s) == Some(Compressor) <==> s in {"compressor", "Compressor", "comp"}
    ensures NamedKind(s) == Some(Equalizer) <==> s in {"equalizer", "Equalizer", "eq"}
  {
  }

  function Flag(bypassed: bool): Value {
    Finite(if bypassed then 1.0 else 0.0)
  }

  /** What is set for one effect; the bypass flag goes first, so a parameter of its name wins. */
  function Controls(e: EffectInstance): Params {
    if e.kind == NoiseSuppression then e.params else map[BYPASS := Flag(e.bypassed)] + e.params
  }

  /** The first effect of that kind. */
  function EffectOf(effects: seq<EffectInstance>, kind: EffectKind): Option<EffectInstance> {
    if effects == [] then None
    else if effects[0].kind == kind then Some(effects[0])
    else EffectOf(effects[1..], kind)
  }

  function ControlsOf(effects: seq<EffectInstance>, kind: EffectKind): Params {
    var e := EffectOf(effects, kind);
    if e.Some? then Controls(e.value) else map[]
  }

  /** The node's controls after one effect was pushed ... */
  function Push(node: Params, effects: seq<EffectInstance>, name: string): Params {
    var kind := NamedKind(name);
    if kind.Some? then node + ControlsOf(effects, kind.value) else node
  }

  /** ... and after the first `n` were, in signal order. */
  function PushFirst(node: Params, effects: seq<EffectInstance>, n: nat): Params
    requires n <= 4
  {
    if n == 0 then node else PushFirst(node, effects, n - 1) + ControlsOf(effects, ALL_KINDS[n - 1])
  }

  lemma {:induction false} EffectOfAt(effects: seq<EffectInstance>, kind: EffectKind, i: nat)
    requires i <= |effects| && forall k :: 0 <= k < i ==> effects[k].kind != kind
    requires i < |effects| ==> effects[i].kind == kind
    ensures EffectOf(effects, kind) == if i < |effects| then Some(effects[i]) else None
  {
    if 0 < i { EffectOfAt(effects[1..], kind, i - 1); }
  }

  class FilterNode {
    var controls: Params

    method SetControl(name: string, value: Value)
      modifies this
      ensures controls == old(controls)[name := value]
    {
      controls := controls[name := value];
    }

    method PushChainToPipewire(effects: seq<EffectInstance>, name: string)
      modifies this
      ensures controls == Push(old(controls), effects, name)
    {
      var kind := NamedKind(name);
      if kind.None? { return; }
      var i := 0;
      while i < |effects| && effects[i].kind != kind.value
        invariant i <= |effects| && forall k :: 0 <= k < i ==> effects[k].kind != kind.value
      {
        i := i + 1;
      }
      EffectOfAt(effects, kind.value, i);
      if i < |effects| { PushEffect(effects[i]); }
    }

    method PushEffect(e: EffectInstance)
      modifies this
      ensures controls == old(controls) + Controls(e)
    {
      if e.kind != NoiseSuppression { SetControl(BYPASS, Flag(e.bypassed)); }
      PushParams(e.params);
    }

    method PushParams(params: Params)
      modifies this
      ensures controls == old(controls) + params
    {
      var rest := params.Keys;
      while rest != {}
        invariant rest <= params.Keys
        invariant controls == old(controls) + (params - rest)
        decreases rest
      {
        var control :| control in rest;
        SetControl(control, params[control]);
        rest := rest - {control};
      }
    }

    /** What loading a preset and resetting do, so that the change is heard at once. */
    method PushEveryEffect(effects: seq<EffectInstance>)
      modifies this
      ensures controls == PushFirst(old(controls), effects, 4)
    {
      for i := 0 to 4
        invariant controls == PushFirst(old(controls), effects, i)
      {
        NodeIdNames(ALL_KINDS[i]);
        PushChainToPipewire(effects, NodeId(ALL_KINDS[i]));
      }
    }
  }

  // ---- Runs --------------------------------------------------------------------------

  /** The daemon's state, the node's controls, and the kinds pushed so far, latest last. */
  datatype Live = Live(s: State, node: Params, recent: seq<EffectKind>)

  function Without(recent: seq<EffectKind>, kind: EffectKind): seq<EffectKind> {
    if recent == [] then []
    else
      var most, last := recent[..|recent| - 1], recent[|recent| - 1];
      Without(most, kind) + (if last == kind then [] else [last])
  }

  function NextLive(l: Live, c: Command): Live {
    var t := Effects.Next(l.s, c);
    match c
    case SetEffectBypass(effect, _) => PushNamed(t, l, effect)
    case SetEffectParam(effect, _, _) => PushNamed(t, l, effect)
    case LoadEffectPreset(name) => if FromLabel(name).Some? then PushAll(t, l) else l
    case ResetEffectChain => PushAll(t, l)
  }

  function PushNamed(t: State, l: Live, name: string): Live {
    var kind := NamedKind(name);
    Live(t, Push(l.node, t.chain.effects, name),
         if kind.Some? then Without(l.recent, kind.value) + [kind.value] else l.recent)
  }

  function PushAll(t: State, l: Live): Live {
    Live(t, PushFirst(l.node, t.chain.effects, 4), ALL_KINDS)
  }

  function RunLive(l: Live, commands: seq<Command>): Live {
    if commands == [] then l else NextLive(RunLive(l, commands[..|commands| - 1]), commands[|commands| - 1])
  }

  /** One command, on the chain and on the node. */
  method Handle(mic: Mic, node: FilterNode, c: Command)
    modifies mic, node
    ensures forall recent :: var l := NextLive(Live(old(mic.View()), old(node.controls), recent), c);
      mic.View() == l.s && node.controls == l.node
  {
    mic.Handle(c);
    match c {
      case SetEffectBypass(effect, _) => node.PushChainToPipewire(mic.effects, effect);
      case SetEffectParam(effect, _, _) => node.PushChainToPipewire(mic.effects, effect);
      case LoadEffectPreset(name) => if FromLabel(name).Some? { node.PushEveryEffect(mic.effects); }
      case ResetEffectChain => node.PushEveryEffect(mic.effects);
    }
  }

  /** The most recently pushed of the effects that have a control of that name. */
  function Winner(effects: seq<EffectInstance>, recent: seq<EffectKind>, name: string): (w: Option<EffectKind>)
    ensures w.Some? ==> w.value in recent && name in ControlsOf(effects, w.value)
  {
    if recent == [] then None
    else if name in ControlsOf(effects, recent[|recent| - 1]) then Some(recent[|recent| - 1])
    else Winner(effects, recent[..|recent| - 1], name)
  }

  lemma {:induction false} SomeoneWins(effects: seq<EffectInstance>, recent: seq<EffectKind>, name: string, kind: EffectKind)
    requires kind in recent && name in ControlsOf(effects, kind)
    ensures Winner(effects, recent, name).Some?
  {
    if name !in ControlsOf(effects, recent[|recent| - 1]) {
      assert kind in recent[..|recent| - 1];
      SomeoneWins(effects, recent[..|recent| - 1], name, kind);
    }
  }

  ghost predicate Heard(effects: seq<EffectInstance>, node: Params, recent: seq<EffectKind>) {
    forall name: string :: HeardName(effects, node, recent, name)
  }

  predicate HeardName(effects: seq<EffectInstance>, node: Params, recent: seq<EffectKind>, name: string) {
    var w := Winner(effects, recent, name);
    w.Some? ==> name in node && node[name] == ControlsOf(effects, w.value)[name]
  }

  /** The chains agree on all other effects, and that kind loses no control. */
  predicate Grown(before: seq<EffectInstance>, after: seq<EffectInstance>, kind: EffectKind) {
    && ControlsOf(before, kind).Keys <= ControlsOf(after, kind).Keys
    && forall k: EffectKind :: k != kind ==> ControlsOf(after, k) == ControlsOf(before, k)
  }

  lemma {:induction false} WinnerWithout(
    before: seq<EffectInstance>, after: seq<EffectInstance>, recent: seq<EffectKind>, kind: EffectKind, name: string)
    requires Grown(before, after, kind) && name !in ControlsOf(after, kind)
    ensures Winner(after, Without(recent, kind), name) == Winner(before, recent, name)
    ensures Winner(before, recent, name) != Some(kind)
  {
    if recent != [] {
      var most, last := recent[..|recent| - 1], recent[|recent| - 1];
      WinnerWithout(before, after, most, kind, name);
      if last != kind {
        assert (Without(most, kind) + [last])[..|Without(most, kind)|] == Without(most, kind);
      } else {
        assert Without(recent, kind) == Without(most, kind);
      }
    }
  }

  /** Changing an effect and pushing it leaves the node telling of the latest pushes. */
  lemma PushKeepsHeard(
    before: seq<EffectInstance>, after: seq<EffectInstance>, node: Params, recent: seq<EffectKind>, kind: EffectKind)
    requires Grown(before, after, kind) && Heard(before, node, recent)
    ensures Heard(after, node + ControlsOf(after, kind), Without(recent, kind) + [kind])
  {
    var others := Without(recent, kind);
    forall name: string ensures HeardName(after, node + ControlsOf(after, kind), others + [kind], name) {
      assert (others + [kind])[..|others|] == others;
      if name !in ControlsOf(after, kind) {
        WinnerWithout(before, after, recent, kind, name);
        assert HeardName(before, node, recent, name);
      }
    }
  }

  function FirstKinds(n: nat): seq<EffectKind>
    requires n <= 4
  {
    if n == 0 then [] else FirstKinds(n - 1) + [ALL_KINDS[n - 1]]
  }

  lemma KindsAre()
    ensures FirstKinds(0) == [] && FirstKinds(1) == [NoiseSuppression] && FirstKinds(2) == [NoiseSuppression, Gate]
    ensures FirstKinds(3) == [NoiseSuppression, Gate, Compressor] && FirstKinds(4) == ALL_KINDS
  {
    assert FirstKinds(1) == FirstKinds(0) + [NoiseSuppression];
    assert FirstKinds(2) == FirstKinds(1) + [Gate];
    assert FirstKinds(3) == FirstKinds(2) + [Compressor];
    assert FirstKinds(4) == FirstKinds(3) + [Equalizer];
  }

  lemma NotYet(n: nat)
    requires n < 4
    ensures Without(FirstKinds(n), ALL_KINDS[n]) == FirstKinds(n)
  {
    KindsAre();
    WithoutAbsent(FirstKinds(n), ALL_KINDS[n]);
  }

  lemma {:induction false} PushFirstHeard(effects: seq<EffectInstance>, node: Params, n: nat)
    requires n <= 4
    ensures Heard(effects, PushFirst(node, effects, n), FirstKinds(n))
  {
    if n > 0 {
      PushFirstHeard(effects, node, n - 1);
      NotYet(n - 1);
      PushKeepsHeard(effects, effects, PushFirst(node, effects, n - 1), FirstKinds(n - 1), ALL_KINDS[n - 1]);
    }
  }

  lemma {:induction false} WithoutAbsent(recent: seq<EffectKind>, kind: EffectKind)
    requires kind !in recent
    ensures Without(recent, kind) == recent
  {
    if recent != [] { WithoutAbsent(recent[..|recent| - 1], kind); }
  }

  lemma {:induction false} OrderAt(effects: seq<EffectInstance>, i: nat)
    requires InSignalOrder(effects) && i < 4
    ensures EffectOf(effects, ALL_KINDS[i]) == Some(effects[i])
  {
    EffectOfAt(effects, ALL_KINDS[i], i);
  }

  function Position(kind: EffectKind): (i: nat)
    ensures i < 4 && ALL_KINDS[i] == kind
  {
    match kind
    case NoiseSuppression => 0
    case Gate => 1
    case Compressor => 2
    case Equalizer => 3
  }

  /** A command on one effect changes that effect's controls alone. */
  lemma ChangeGrows(before: seq<EffectInstance>, i: nat, e: EffectInstance)
    requires InSignalOrder(before) && i < 4 && e.kind == ALL_KINDS[i]
    requires before[i].params.Keys <= e.params.Keys
    ensures Grown(before, before[i := e], ALL_KINDS[i])
  {
    var after := before[i := e];
    forall k: EffectKind ensures EffectOf(after, k) == Some(after[Position(k)]) && EffectOf(before, k) == Some(before[Position(k)]) {
      OrderAt(after, Position(k));
      OrderAt(before, Position(k));
    }
  }

  lemma Unchanged(effects: seq<EffectInstance>, kind: EffectKind)
    ensures Grown(effects, effects, kind)
  {
  }

  /** The effect a command names. */
  function Named(c: Command): Option<string> {
    match c
    case SetEffectBypass(effect, _) => Some(effect)
    case SetEffectParam(effect, _, _) => Some(effect)
    case _ => None
  }

  /** What a command on a named effect does to the chain, and which effect is pushed. */
  lemma NamedChangeGrows(s: State, c: Command, name: string, kind: EffectKind)
    requires InSignalOrder(s.chain.effects) && Named(c) == Some(name) && NamedKind(name) == Some(kind)
    ensures Grown(s.chain.effects, Effects.Next(s, c).chain.effects, kind)
  {
    var before, i := s.chain.effects, Position(kind);
    if ParseEffectKind(name).None? {
      Unchanged(before, kind);
    } else {
      match c
      case SetEffectBypass(_, bypassed) =>
        OnlyTheNamedEffectChanges(s, i, name, bypassed, "", Finite(0.0));
        ChangeGrows(before, i, before[i].(bypassed := bypassed));
      case SetEffectParam(_, param, value) =>
        OnlyTheNamedEffectChanges(s, i, name, false, param, value);
        ChangeGrows(before, i, before[i].(params := before[i].params[param := value]));
    }
  }

  lemma StepKeepsHeard(l: Live, c: Command)
    requires InSignalOrder(l.s.chain.effects) && Heard(l.s.chain.effects, l.node, l.recent)
    ensures var t := NextLive(l, c); Heard(t.s.chain.effects, t.node, t.recent)
  {
    var before, t := l.s.chain.effects, Effects.Next(l.s, c);
    var name := Named(c);
    if name.None? {
      PushFirstHeard(t.chain.effects, l.node, 4);
      KindsAre();
    } else if NamedKind(name.value).Some? {
      var kind := NamedKind(name.value).value;
      NamedChangeGrows(l.s, c, name.value, kind);
      PushKeepsHeard(before, t.chain.effects, l.node, l.recent, kind);
    } else {
      assert t.chain.effects == before;
    }
  }

  lemma {:induction false} EveryRunIsHeard(s: State, node: Params, commands: seq<Command>)
    requires InSignalOrder(s.chain.effects)
    ensures var t := RunLive(Live(s, node, []), commands);
      InSignalOrder(t.s.chain.effects) && Heard(t.s.chain.effects, t.node, t.recent)
  {
    if commands != [] {
      var l, c := RunLive(Live(s, node, []), commands[..|commands| - 1]), commands[|commands| - 1];
      EveryRunIsHeard(s, node, commands[..|commands| - 1]);
      StepKeepsOrder(l.s, c);
      StepKeepsHeard(l, c);
    }
  }

  /** After any commands: the node holds the value the chain stores for a control of an effect
      pushed since exactly when the most recently pushed effect with a control of that name
      stores the same. */
  lemma HeldExactlyWhen(s: State, node: Params, commands: seq<Command>, kind: EffectKind, name: string)
    requires InSignalOrder(s.chain.effects)
    requires var t := RunLive(Live(s, node, []), commands);
      kind in t.recent && name in ControlsOf(t.s.chain.effects, kind)
    ensures var t := RunLive(Live(s, node, []), commands);
      var w := Winner(t.s.chain.effects, t.recent, name);
      && w.Some? && name in t.node
      && (t.node[name] == ControlsOf(t.s.chain.effects, kind)[name] <==>
            ControlsOf(t.s.chain.effects, w.value)[name] == ControlsOf(t.s.chain.effects, kind)[name])
  {
    var t := RunLive(Live(s, node, []), commands);
    EveryRunIsHeard(s, node, commands);
    SomeoneWins(t.s.chain.effects, t.recent, name, kind);
    assert HeardName(t.s.chain.effects, t.node, t.recent, name);
  }

  /** Two effects store different values for controls of the same name. */
  ghost predicate Clash(effects: seq<EffectInstance>) {
    exists a: EffectKind, b: EffectKind, name: string :: ClashAt(effects, a, b, name)
  }

  predicate ClashAt(effects: seq<EffectInstance>, a: EffectKind, b: EffectKind, name: string) {
    && name in ControlsOf(effects, a) && name in ControlsOf(effects, b)
    && ControlsOf(effects, a)[name] != ControlsOf(effects, b)[name]
  }

  ghost predicate HoldsAll(node: Params, effects: seq<EffectInstance>) {
    forall kind: EffectKind, name: string :: Holds(node, effects, kind, name)
  }

  predicate Holds(node: Params, effects: seq<EffectInstance>, kind: EffectKind, name: string) {
    name in ControlsOf(effects, kind) ==> name in node && node[name] == ControlsOf(effects, kind)[name]
  }

  /** Pushing a whole chain gets everything it stores to the node exactly when no two effects
      share a name and disagree on its value. */
  lemma PushingAllHoldsAllExactlyWhen(node: Params, effects: seq<EffectInstance>)
    ensures HoldsAll(PushFirst(node, effects, 4), effects) <==> !Clash(effects)
  {
    var pushed := PushFirst(node, effects, 4);
    PushFirstHeard(effects, node, 4);
    KindsAre();
    if !Clash(effects) {
      forall kind: EffectKind, name: string ensures Holds(pushed, effects, kind, name) {
        if name in ControlsOf(effects, kind) {
          assert ALL_KINDS[Position(kind)] in ALL_KINDS;
          SomeoneWins(effects, ALL_KINDS, name, kind);
          assert HeardName(effects, pushed, ALL_KINDS, name);
          assert !ClashAt(effects, Winner(effects, ALL_KINDS, name).value, kind, name);
        }
      }
    } else {
      var a: EffectKind, b: EffectKind, name: string :| ClashAt(effects, a, b, name);
      assert !(Holds(pushed, effects, a, name) && Holds(pushed, effects, b, name));
    }
  }

  lemma PushAllIs(node: Params, effects: seq<EffectInstance>)
    ensures PushFirst(node, effects, 4) == (((node + ControlsOf(effects, NoiseSuppression))
      + ControlsOf(effects, Gate)) + ControlsOf(effects, Compressor)) + ControlsOf(effects, Equalizer)
  {
    assert PushFirst(node, effects, 2) == PushFirst(node, effects, 1) + ControlsOf(effects, Gate);
    assert PushFirst(node, effects, 1) == PushFirst(node, effects, 0) + ControlsOf(effects, NoiseSuppression);
  }

  lemma PresetControls(p: PresetName, kind: EffectKind)
    ensures ControlsOf(PresetChain(p).effects, kind) == Controls(PresetEffect(p, kind))
  {
    OrderAt(PresetChain(p).effects, Position(kind));
  }

  lemma GateThreshold(p: PresetName)
    ensures var gate := PresetEffect(p, Gate).params;
      "th" in gate && gate["th"] == Finite(if p == Streaming then -32.0 else -36.0)
  {
  }

  lemma CompressorThreshold(p: PresetName)
    ensures var comp := PresetEffect(p, Compressor).params;
      "th" in comp && comp["th"] in {Finite(-18.0), Finite(-20.0), Finite(-22.0)}
  {
  }

  lemma NoEqualizerThreshold(p: PresetName)
    ensures "th" !in PresetEffect(p, Equalizer).params
  {
    assert "th" !in DefaultParams(Equalizer);
  }

  /** Every preset clashes: of the two thresholds the node gets the compressor's. */
  lemma EveryPresetClashes(p: PresetName, node: Params)
    ensures var gate, comp := ControlsOf(PresetChain(p).effects, Gate), ControlsOf(PresetChain(p).effects, Compressor);
      var pushed := PushFirst(node, PresetChain(p).effects, 4);
      && "th" in gate && "th" in comp && "th" in pushed
      && pushed["th"] == comp["th"] && pushed["th"] != gate["th"]
  {
    var effects := PresetChain(p).effects;
    PushAllIs(node, effects);
    PresetControls(p, Gate);
    PresetControls(p, Compressor);
    PresetControls(p, Equalizer);
    GateThreshold(p);
    CompressorThreshold(p);
    NoEqualizerThreshold(p);
  }

  lemma EqualizerFlag(p: PresetName)
    ensures var flags := Controls(PresetEffect(p, Equalizer));
      BYPASS in flags && flags[BYPASS] == Flag(PresetEffect(p, Equalizer).bypassed)
  {
    assert |BYPASS| == 2 && BYPASS[0] == 'b';
    assert forall k :: k in DefaultParams(Equalizer) ==> |k| > 2;
  }

  lemma VoiceEffects()
    ensures !PresetEffect(Voice, Compressor).bypassed && PresetEffect(Voice, Equalizer).bypassed
  {
  }

  /** With the preset "Voice" the compressor is active, and the node's one bypass flag is set. */
  lemma VoiceIsBypassed(node: Params)
    ensures var effects := PresetChain(Voice).effects;
      var pushed := PushFirst(node, effects, 4);
      && effects[2] == PresetEffect(Voice, Compressor) && !effects[2].bypassed
      && "bp" in pushed && pushed["bp"] == Finite(1.0)
  {
    PushAllIs(node, PresetChain(Voice).effects);
    PresetControls(Voice, Equalizer);
    EqualizerFlag(Voice);
    VoiceEffects();
  }

  /** Loading a preset or resetting pushes the whole new chain, on top of what the node held. */
  lemma LoadedPresetIsPushed(l: Live, p: PresetName)
    ensures var t := NextLive(l, LoadEffectPreset(Label(p)));
      && t.s.chain == PresetChain(p) && t.recent == [NoiseSuppression, Gate, Compressor, Equalizer]
      && t.node == (((l.node + ControlsOf(PresetChain(p).effects, NoiseSuppression))
           + ControlsOf(PresetChain(p).effects, Gate)) + ControlsOf(PresetChain(p).effects, Compressor))
           + ControlsOf(PresetChain(p).effects, Equalizer)
    ensures NextLive(l, ResetEffectChain) == NextLive(l, LoadEffectPreset("Off"))
  {
    PushAllIs(l.node, PresetChain(p).effects);
    LabelsAreDistinct(p);
    DefaultIsOff();
  }

  /** The effect named last is heard whole, whatever the others share with it. */
  lemma LastNamedIsHeard(l: Live, c: Command, name: string, kind: EffectKind)
    requires Named(c) == Some(name) && NamedKind(name) == Some(kind)
    ensures forall control :: Holds(NextLive(l, c).node, NextLive(l, c).s.chain.effects, kind, control)
  {
  }

  // ---- Bypass ------------------------------------------------------------------------

  lemma BypassPushed(l: Live, effect: string, i: nat, bypassed: bool)
    requires InSignalOrder(l.s.chain.effects) && i < 4 && ParseEffectKind(effect) == Some(ALL_KINDS[i])
    ensures NextLive(l, SetEffectBypass(effect, bypassed)).node
      == l.node + Controls(l.s.chain.effects[i].(bypassed := bypassed))
  {
    OnlyTheNamedEffectChanges(l.s, i, effect, bypassed, "", Finite(0.0));
    OrderAt(Effects.Next(l.s, SetEffectBypass(effect, bypassed)).chain.effects, i);
  }

  lemma FlagShows(node: Params, e: EffectInstance)
    ensures node + Controls(e.(bypassed := true)) != node + Controls(e.(bypassed := false)) <==>
      e.kind != NoiseSuppression && BYPASS !in e.params
  {
    var on, off := Controls(e.(bypassed := true)), Controls(e.(bypassed := false));
    if e.kind != NoiseSuppression && BYPASS !in e.params {
      assert (node + on)[BYPASS] == Flag(true) && (node + off)[BYPASS] == Flag(false);
    } else {
      assert on == off;
    }
  }

  /** Which way bypass is switched makes a difference to the node exactly when the effect is one
      with a bypass port and no parameter shadows it. Noise suppression hears of it through the
      configuration file alone, which this command does not rewrite. */
  lemma BypassIsHeardExactlyWhen(l: Live, effect: string, i: nat)
    requires InSignalOrder(l.s.chain.effects) && i < 4 && ParseEffectKind(effect) == Some(ALL_KINDS[i])
    ensures var on, off := SetEffectBypass(effect, true), SetEffectBypass(effect, false);
      NextLive(l, on).node != NextLive(l, off).node <==>
        ALL_KINDS[i] != NoiseSuppression && BYPASS !in l.s.chain.effects[i].params
    ensures ALL_KINDS[i] != NoiseSuppression && BYPASS !in l.s.chain.effects[i].params ==> forall bypassed ::
      var node := NextLive(l, SetEffectBypass(effect, bypassed)).node;
      "bp" in node && node["bp"] == Finite(if bypassed then 1.0 else 0.0)
  {
    BypassPushed(l, effect, i, true);
    BypassPushed(l, effect, i, false);
    FlagShows(l.node, l.s.chain.effects[i]);
    forall bypassed: bool ensures NextLive(l, SetEffectBypass(effect, bypassed)).node
        == l.node + Controls(l.s.chain.effects[i].(bypassed := bypassed)) {
      BypassPushed(l, effect, i, bypassed);
    }
  }
}
