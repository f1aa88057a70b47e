/** How a request becomes a response and, perhaps, a command. */
module Requests {
  import opened Prelude
  import opened Mixing

  datatype Command =
    | SetChannelVolume(channel: string, mix: MixType, volume: real)
    | SetChannelMute(channel: string, mix: MixType, muted: bool)
    | SetMasterVolume(mix: MixType, volume: real)
    | SetMasterMute(mix: MixType, muted: bool)
    | SetAppRoute(pattern: string, channel: string)
    | RemoveAppRoute(pattern: string)
    | SaveProfile(name: string)
    | LoadProfile(name: string)
    | DeleteProfile(name: string)

  /** A client's request: a query, or a change with the client's own, unchecked arguments. */
  datatype Request = GetState | GetChannel(name: string) | GetProfile(name: string) | Change(command: Command)

  datatype Response = Success | NotFound(what: string)

  datatype HandleResult = HandleResult(response: Response, command: Option<Command>)

  predicate HasChannel(channels: seq<Channel>, name: string) {
    exists i :: 0 <= i < |channels| && channels[i].name == name
  }

  function HandleRequest(request: Request, channels: seq<Channel>, profiles: set<string>): HandleResult {
    match request
    case GetState => HandleResult(Success, None)
    case GetChannel(name) => HandleResult(if HasChannel(channels, name) then Success else NotFound(name), None)
    case GetProfile(name) => HandleResult(if name in profiles then Success else NotFound(name), None)
    case Change(SetChannelVolume(channel, mix, volume)) =>
      if !HasChannel(channels, channel) then HandleResult(NotFound(channel), None)
      else HandleResult(Success, Some(SetChannelVolume(channel, mix, Clamp(volume))))
    case Change(SetMasterVolume(mix, volume)) =>
      HandleResult(Success, Some(SetMasterVolume(mix, Clamp(volume))))
    case Change(SetChannelMute(channel, _, _)) =>
      if !HasChannel(channels, channel) then HandleResult(NotFound(channel), None)
      else HandleResult(Success, Some(request.command))
    case Change(SetAppRoute(_, channel)) =>
      if !HasChannel(channels, channel) then HandleResult(NotFound(channel), None)
      else HandleResult(Success, Some(request.command))
    case Change(command) => HandleResult(Success, Some(command))
  }
}

/** The main loop's state: memory, database, and the controls applied to PipeWire. */
module Daemon {
  import opened Prelude
  import opened Naming
  import opened Mixing
  import opened Routing
  import opened Database
  import opened Requests

  /** `controls` is what was last applied to the node recorded for a role; `failed` tells that
      some set did not go through; `ownRoutes`, that a profile brought its own routes. */
  datatype State = State(
    tables: Tables,
    channels: seq<Channel>,
    routes: seq<Rule>,
    mixer: Mixer,
    profile: string,
    controls: map<Role, Fader>,
    failed: bool,
    ownRoutes: bool)

  // ---- Effects on memory and controls ------------------------------------------------

  function Replaced(channels: seq<Channel>, name: string, strip: Strip): seq<Channel> {
    seq(|channels|, i requires 0 <= i < |channels| =>
      if channels[i].name == name then Channel(name, strip) else channels[i])
  }

  function Turned(channels: seq<Channel>, name: string, m: MixType, volume: real): seq<Channel> {
    seq(|channels|, i requires 0 <= i < |channels| =>
      var s := channels[i].strip;
      if channels[i].name == name then Channel(name, s.With(m, s.At(m).(volume := volume))) else channels[i])
  }

  function Muted(channels: seq<Channel>, name: string, m: MixType, muted: bool): seq<Channel> {
    seq(|channels|, i requires 0 <= i < |channels| =>
      var s := channels[i].strip;
      if channels[i].name == name then Channel(name, s.With(m, s.At(m).(muted := muted))) else channels[i])
  }

  function PushVolume(controls: map<Role, Fader>, role: Role, volume: real): map<Role, Fader> {
    if role in controls then controls[role := controls[role].(volume := Clamp(volume))] else controls
  }

  function PushMute(controls: map<Role, Fader>, role: Role, muted: bool): map<Role, Fader> {
    if role in controls then controls[role := controls[role].(muted := muted)] else controls
  }

  function PushFader(controls: map<Role, Fader>, role: Role, f: Fader): map<Role, Fader> {
    PushMute(PushVolume(controls, role, f.volume), role, f.muted)
  }

  function PushStrip(controls: map<Role, Fader>, name: string, s: Strip): map<Role, Fader> {
    PushFader(PushFader(controls, Filter(name, Stream), s.stream), Filter(name, Monitor), s.monitor)
  }

  function PushMaster(controls: map<Role, Fader>, s: Strip): map<Role, Fader> {
    PushFader(PushFader(controls, Mix(Stream), s.stream), Mix(Monitor), s.monitor)
  }

  /** The rows of a profile, copied one by one onto the channels of the same name. */
  function Applied(channels: seq<Channel>, rows: seq<Channel>): seq<Channel> {
    if rows == [] then channels
    else
      var last := rows[|rows| - 1];
      Replaced(Applied(channels, rows[..|rows| - 1]), last.name, last.strip)
  }

  function Pushed(controls: map<Role, Fader>, channels: seq<Channel>, rows: seq<Channel>): map<Role, Fader> {
    if rows == [] then controls
    else
      var last := rows[|rows| - 1];
      PushRow(Pushed(controls, channels, rows[..|rows| - 1]), channels, last)
  }

  function PushRow(controls: map<Role, Fader>, channels: seq<Channel>, row: Channel): map<Role, Fader> {
    if HasChannel(channels, row.name) then PushStrip(controls, row.name, row.strip) else controls
  }

  function Retain(rules: seq<Rule>, pattern: string): seq<Rule> {
    if rules == [] then []
    else
      var last := rules[|rules| - 1];
      Retain(rules[..|rules| - 1], pattern) + (if last.pattern != pattern then [last] else [])
  }

  lemma {:induction false} RetainAll(rules: seq<Rule>, pattern: string)
    requires forall k :: 0 <= k < |rules| ==> rules[k].pattern != pattern
    ensures Retain(rules, pattern) == rules
  {
    if rules != [] {
      var most, last := rules[..|rules| - 1], rules[|rules| - 1];
      RetainAll(most, pattern);
      assert most + [last] == rules;
    }
  }

  function NewRule(pattern: string, channel: string): Rule {
    Rule(pattern, Exact, channel, 100)
  }

  function Snapshot(s: State, name: string): Profile {
    Profile(name, name == DEFAULT, s.channels, s.routes, s.mixer)
  }

  function AfterLoad(s: State, p: Profile): State {
    s.(channels := Applied(s.channels, p.channels),
       routes := if p.routes != [] then p.routes else s.routes,
       mixer := p.mixer,
       profile := p.name,
       controls := PushMaster(Pushed(s.controls, s.channels, p.channels), p.mixer.master),
       ownRoutes := s.ownRoutes || p.routes != [])
  }

  /** A command's effect when every set goes through; `loaded` is the answer of the profile query. */
  function Effect(s: State, c: Command, loaded: Option<Profile>): State {
    match c
    case SetChannelVolume(name, m, v) =>
      if HasChannel(s.channels, name) then
        s.(channels := Turned(s.channels, name, m, v), controls := PushVolume(s.controls, Filter(name, m), v))
      else s
    case SetChannelMute(name, m, muted) =>
      if HasChannel(s.channels, name) then
        s.(channels := Muted(s.channels, name, m, muted), controls := PushMute(s.controls, Filter(name, m), muted))
      else s
    case SetMasterVolume(m, v) =>
      var master := s.mixer.master;
      s.(mixer := s.mixer.(master := master.With(m, master.At(m).(volume := v))), controls := PushVolume(s.controls, Mix(m), v))
    case SetMasterMute(m, muted) =>
      var master := s.mixer.master;
      s.(mixer := s.mixer.(master := master.With(m, master.At(m).(muted := muted))), controls := PushMute(s.controls, Mix(m), muted))
    case SetAppRoute(pattern, channel) =>
      var rule := NewRule(pattern, channel);
      var rows := s.tables.appRoutes;
      s.(routes := Retain(s.routes, pattern) + [rule],
         tables := s.tables.(appRoutes := if channel in s.tables.channels then rows[pattern := rule] else rows))
    case RemoveAppRoute(pattern) =>
      s.(routes := Retain(s.routes, pattern), tables := s.tables.(appRoutes := s.tables.appRoutes - {pattern}))
    case SaveProfile(name) => s.(tables := Saved(s.tables, Snapshot(s, name)))
    case LoadProfile(_) => if loaded.Some? then AfterLoad(s, loaded.value) else s
    case DeleteProfile(name) =>
      if name in s.tables.profiles && !s.tables.profiles[name].isDefault then s.(tables := Deleted(s.tables, name)) else s
  }

  /** `t` may follow `s` on a command: a failed set is remembered and leaves the controls in doubt. */
  predicate Follows(s: State, c: Command, loaded: Option<Profile>, t: State) {
    var e := Effect(s, c, loaded);
    && (c.LoadProfile? ==> Loads(s.tables, c.name, loaded))
    && (s.failed ==> t.failed)
    && t == e.(failed := t.failed, controls := t.controls)
    && (!t.failed ==> t.controls == e.controls)
  }

  ghost predicate Step(s: State, c: Command, t: State) {
    exists loaded :: Follows(s, c, loaded, t)
  }

  /** One request: answered from a snapshot, then its command, if any, carried out. */
  ghost predicate Serve(s: State, r: Request, t: State) {
    match HandleRequest(r, s.channels, s.tables.profiles.Keys).command
    case None => t == s
    case Some(c) => Step(s, c, t)
  }

  function Initial(t: Tables, controls: map<Role, Fader>, rules: seq<Rule>): State {
    State(t, LoadedChannels(t), rules, DEFAULT_MIXER, DEFAULT, controls, false, false)
  }

  function WithProfile(s: State, p: Profile): State {
    s.(channels := Applied(s.channels, p.channels),
       routes := if p.routes != [] then p.routes else s.routes,
       profile := p.name,
       controls := Pushed(s.controls, s.channels, p.channels),
       ownRoutes := p.routes != [])
  }

  predicate Restored(base: State, loaded: Option<Profile>, s: State) {
    var e := if loaded.Some? then WithProfile(base, loaded.value) else base;
    && (base.failed ==> s.failed)
    && s == e.(failed := s.failed, controls := s.controls)
    && (!s.failed ==> s.controls == e.controls)
  }

  /** `s` is the state at the head of the main loop; `rules` and `loaded` are query answers. */
  predicate Starts(t: Tables, controls: map<Role, Fader>, failed: bool, rules: seq<Rule>, loaded: Option<Profile>, s: State) {
    && ListsRules(t.appRoutes, rules) && Loads(t, DEFAULT, loaded)
    && Restored(Initial(t, controls, rules).(failed := failed), loaded, s)
  }

  // ---- What holds throughout ---------------------------------------------------------------

  predicate FaderOk(f: Fader) { 0.0 <= f.volume <= 1.0 }

  predicate StripOk(s: Strip) { FaderOk(s.stream) && FaderOk(s.monitor) }

  predicate SameNames(channels: seq<Channel>, names: seq<string>) {
    |channels| == |names| && forall i :: 0 <= i < |names| ==> channels[i].name == names[i]
  }

  predicate VolumesOk(s: State) {
    && (forall i :: 0 <= i < |s.channels| ==> StripOk(s.channels[i].strip))
    && StripOk(s.mixer.master)
    && (forall k :: k in s.tables.profileChannels ==> StripOk(s.tables.profileChannels[k]))
    && (forall p :: p in s.tables.profiles && s.tables.profiles[p].mixer.Some? ==>
          StripOk(s.tables.profiles[p].mixer.value.master))
  }

  predicate RoutesOk(s: State) {
    DistinctPatterns(s.routes) && forall r :: r in s.routes ==> r.channel in s.tables.channels
  }

  predicate Sound(s: State) {
    Consistent(s.tables) && SameNames(s.channels, s.tables.channels) && RoutesOk(s) && VolumesOk(s)
  }

  lemma LoadedNames(t: Tables)
    requires Consistent(t)
    ensures DistinctNames(LoadedChannels(t))
  {
  }

  lemma SoundNames(s: State)
    requires Sound(s)
    ensures DistinctNames(s.channels)
  {
  }

  lemma {:induction false} AppliedKeepsNames(channels: seq<Channel>, rows: seq<Channel>)
    ensures |Applied(channels, rows)| == |channels|
    ensures forall i :: 0 <= i < |channels| ==> Applied(channels, rows)[i].name == channels[i].name
  {
    if rows != [] { AppliedKeepsNames(channels, rows[..|rows| - 1]); }
  }
}
