/** What saving and loading across a run gives back, and what one command leaves alone. */
module RoundTrips {
  import opened Prelude
  import opened Naming
  import opened Mixing
  import opened Routing
  import opened Database
  import opened DatabaseLaws
  import opened Requests
  import opened Daemon
  import opened DaemonRuns

  // ---- Saving, and loading later --------------------------------------------------------

  predicate Touches(r: Request, name: string) {
    r == Change(SaveProfile(name)) || r == Change(DeleteProfile(name))
  }

  lemma StepTables(s: State, c: Command, loaded: Option<Profile>, t: State)
    requires Follows(s, c, loaded, t)
    ensures t.tables.channels == s.tables.channels && t.tables.channelState == s.tables.channelState
    ensures match c
      case SaveProfile(name) => t.tables == Saved(s.tables, Snapshot(s, name))
      case DeleteProfile(name) => t.tables == s.tables || t.tables == Deleted(s.tables, name)
      case _ => t.tables == s.tables.(appRoutes := t.tables.appRoutes)
  {
  }

  lemma ProfileKept(s: State, r: Request, t: State, name: string)
    requires Serve(s, r, t)
    ensures t.tables.channels == s.tables.channels && t.tables.channelState == s.tables.channelState
    ensures !Touches(r, name) ==> SameRows(s.tables, t.tables, name)
  {
    var command := HandleRequest(r, s.channels, s.tables.profiles.Keys).command;
    if command.Some? {
      var loaded :| Follows(s, command.value, loaded, t);
      StepTables(s, command.value, loaded, t);
      if !Touches(r, name) { CommandKeepsRows(s, command.value, t.tables, name); }
    }
  }

  lemma CommandKeepsRows(s: State, c: Command, u: Tables, name: string)
    requires match c
      case SaveProfile(other) => u == Saved(s.tables, Snapshot(s, other))
      case DeleteProfile(other) => u == s.tables || u == Deleted(s.tables, other)
      case _ => u == s.tables.(appRoutes := u.appRoutes)
    requires !Touches(Change(c), name)
    ensures SameRows(s.tables, u, name)
  {
    match c
    case SaveProfile(other) => OthersKept(s.tables, Snapshot(s, other), name);
    case DeleteProfile(other) => OthersSurviveDeletion(s.tables, other, name);
    case _ =>
  }

  lemma {:induction false} ProfileKeptOverRun(trace: seq<State>, requests: seq<Request>, lo: nat, hi: nat, name: string)
    requires Run(trace, requests) && lo <= hi < |trace|
    ensures trace[hi].tables.channels == trace[lo].tables.channels
    ensures trace[hi].tables.channelState == trace[lo].tables.channelState
    ensures (forall i :: lo <= i < hi ==> !Touches(requests[i], name)) ==> SameRows(trace[lo].tables, trace[hi].tables, name)
    decreases hi
  {
    if lo < hi {
      ProfileKeptOverRun(trace, requests, lo, hi - 1, name);
      assert Serve(trace[hi - 1], requests[hi - 1], trace[hi - 1 + 1]);
      ProfileKept(trace[hi - 1], requests[hi - 1], trace[hi], name);
    }
  }

  lemma {:induction false} AppliedValue(channels: seq<Channel>, rows: seq<Channel>, i: nat, c: Channel)
    requires i < |channels| && c in rows && c.name == channels[i].name && DistinctNames(rows)
    ensures |Applied(channels, rows)| == |channels| && Applied(channels, rows)[i] == c
  {
    var most, last := rows[..|rows| - 1], rows[|rows| - 1];
    AppliedKeepsNames(channels, most);
    assert rows == most + [last];
    if c != last {
      AppliedValue(channels, most, i, c);
      assert c in most && last.name != c.name by {
        var k :| 0 <= k < |rows| && rows[k] == c;
        assert k < |rows| - 1 && rows[k].name != rows[|rows| - 1].name;
      }
    }
  }

  /** Rows that hold every channel put all of them back, whatever was there. */
  lemma AppliedRestores(channels: seq<Channel>, rows: seq<Channel>, saved: seq<Channel>)
    requires |channels| == |saved| && forall i :: 0 <= i < |saved| ==> channels[i].name == saved[i].name
    requires DistinctNames(rows) && forall c :: c in saved ==> c in rows
    ensures Applied(channels, rows) == saved
  {
    AppliedKeepsNames(channels, rows);
    forall i | 0 <= i < |saved| ensures Applied(channels, rows)[i] == saved[i] {
      AppliedValue(channels, rows, i, saved[i]);
    }
  }

  /** The snapshot `p`, saved and loaded from tables that still hold its rows. */
  lemma RowsComeBack(before: Tables, p: Profile, t: Tables, loaded: Option<Profile>)
    requires DistinctNames(p.channels) && DistinctPatterns(p.routes)
    requires forall c :: c in p.channels ==> c.name in before.channels
    requires forall r :: r in p.routes ==> r.channel in before.channels
    requires SameRows(Saved(before, p), t, p.name) && Loads(t, p.name, loaded)
    ensures loaded.Some? && loaded.value.name == p.name && loaded.value.mixer == p.mixer
    ensures DistinctNames(loaded.value.channels) && forall c :: c in p.channels ==> c in loaded.value.channels
    ensures SetOf(loaded.value.routes) == SetOf(p.routes)
  {
    SameRowsSameLoad(Saved(before, p), t, p.name, loaded);
    SaveThenLoad(before, p, loaded);
  }

  /** What loading gives back of a state `s` saved under `name`. */
  lemma SavedRowsGiveBack(s: State, t: Tables, name: string, loaded: Option<Profile>)
    requires Sound(s)
    requires SameRows(Saved(s.tables, Snapshot(s, name)), t, name) && Loads(t, name, loaded)
    ensures loaded.Some? && loaded.value.name == name && loaded.value.mixer == s.mixer
    ensures DistinctNames(loaded.value.channels) && forall c :: c in s.channels ==> c in loaded.value.channels
    ensures SetOf(loaded.value.routes) == SetOf(s.routes)
  {
    SoundNames(s);
    AllKnown(s);
    RowsComeBack(s.tables, Snapshot(s, name), t, loaded);
  }

  lemma AllKnown(s: State)
    requires Sound(s)
    ensures forall c :: c in s.channels ==> c.name in s.tables.channels
    ensures forall r :: r in s.routes ==> r.channel in s.tables.channels
  {
    forall c | c in s.channels ensures c.name in s.tables.channels {
      var i :| 0 <= i < |s.channels| && s.channels[i] == c;
      assert s.channels[i].name == s.tables.channels[i];
    }
  }

  /** What a save writes is still there when nothing touched the profile since. */
  lemma SavedRowsLast(trace: seq<State>, requests: seq<Request>, lo: nat, hi: nat, name: string)
    requires Run(trace, requests) && lo < hi < |trace| && requests[lo] == Change(SaveProfile(name))
    requires forall i :: lo < i < hi ==> !Touches(requests[i], name)
    ensures SameRows(Saved(trace[lo].tables, Snapshot(trace[lo], name)), trace[hi].tables, name)
    ensures trace[hi].tables.channels == trace[lo].tables.channels
  {
    var s, t := trace[lo], trace[lo + 1];
    assert Serve(s, requests[lo], t);
    var saving :| Follows(s, SaveProfile(name), saving, t);
    StepTables(s, SaveProfile(name), saving, t);
    ProfileKeptOverRun(trace, requests, lo + 1, hi, name);
  }

  /** Loading what `s` saved, from the tables of `u`. */
  lemma LoadGivesBack(s: State, u: State, v: State, name: string)
    requires Sound(s) && SameNames(u.channels, s.tables.channels)
    requires SameRows(Saved(s.tables, Snapshot(s, name)), u.tables, name)
    requires Serve(u, Change(LoadProfile(name)), v)
    ensures v.channels == s.channels && v.mixer == s.mixer && v.profile == name
    ensures if s.routes != [] then SetOf(v.routes) == SetOf(s.routes) else v.routes == u.routes
  {
    var loaded := LoadServed(u, v, name);
    Recovered(s, u.tables, name, loaded, u.channels);
  }

  lemma LoadServed(u: State, v: State, name: string) returns (loaded: Option<Profile>)
    requires Serve(u, Change(LoadProfile(name)), v)
    ensures Loads(u.tables, name, loaded)
    ensures loaded.Some? && loaded.value.name == name ==> LoadShows(u, v, loaded.value)
  {
    loaded :| Follows(u, LoadProfile(name), loaded, v);
    LoadFollowed(u, v, name, loaded);
    if loaded.Some? && loaded.value.name == name { LoadedState(u, v, name, loaded); }
  }

  predicate LoadShows(u: State, v: State, p: Profile) {
    && v.channels == Applied(u.channels, p.channels) && v.mixer == p.mixer && v.profile == p.name
    && v.routes == if p.routes != [] then p.routes else u.routes
  }

  /** Save a profile, do anything but save or delete it again, and load it: every channel and
      the mixer are as they were, and, if there were any rules, so is the set of rules. */
  lemma SaveThenLoadRestores(trace: seq<State>, requests: seq<Request>, lo: nat, hi: nat, name: string)
    requires Run(trace, requests) && Good(trace[0]) && lo < hi < |requests|
    requires requests[lo] == Change(SaveProfile(name)) && requests[hi] == Change(LoadProfile(name))
    requires forall i :: lo < i < hi ==> !Touches(requests[i], name)
    ensures trace[hi + 1].channels == trace[lo].channels && trace[hi + 1].mixer == trace[lo].mixer
    ensures trace[hi + 1].profile == name
    ensures trace[lo].routes != [] ==> SetOf(trace[hi + 1].routes) == SetOf(trace[lo].routes)
    ensures trace[lo].routes == [] ==> trace[hi + 1].routes == trace[hi].routes
  {
    EveryRunIsGood(trace, requests, lo);
    EveryRunIsGood(trace, requests, hi);
    SavedRowsLast(trace, requests, lo, hi, name);
    assert Serve(trace[hi], requests[hi], trace[hi + 1]);
    LoadGivesBack(trace[lo], trace[hi], trace[hi + 1], name);
  }

  lemma Recovered(s: State, t: Tables, name: string, loaded: Option<Profile>, channels: seq<Channel>)
    requires Sound(s) && SameNames(channels, s.tables.channels)
    requires SameRows(Saved(s.tables, Snapshot(s, name)), t, name) && Loads(t, name, loaded)
    ensures loaded.Some? && loaded.value.name == name && loaded.value.mixer == s.mixer
    ensures Applied(channels, loaded.value.channels) == s.channels
    ensures SetOf(loaded.value.routes) == SetOf(s.routes)
    ensures loaded.value.routes == [] <==> s.routes == []
  {
    SavedRowsGiveBack(s, t, name, loaded);
    SameNamed(s.channels, channels, s.tables.channels);
    AppliedRestores(channels, loaded.value.channels, s.channels);
    EmptyWhenSetIs(loaded.value.routes, s.routes);
  }

  lemma LoadFollowed(u: State, v: State, name: string, loaded: Option<Profile>)
    requires Follows(u, LoadProfile(name), loaded, v)
    ensures Loads(u.tables, name, loaded)
  {
  }

  lemma LoadedState(u: State, v: State, name: string, loaded: Option<Profile>)
    requires Follows(u, LoadProfile(name), loaded, v) && loaded.Some? && loaded.value.name == name
    ensures LoadShows(u, v, loaded.value)
  {
  }

  lemma SameNamed(a: seq<Channel>, b: seq<Channel>, names: seq<string>)
    requires SameNames(a, names) && SameNames(b, names)
    ensures |a| == |b| && forall i :: 0 <= i < |a| ==> a[i].name == b[i].name
  {
  }

  lemma EmptyWhenSetIs(a: seq<Rule>, b: seq<Rule>)
    requires SetOf(a) == SetOf(b)
    ensures a == [] <==> b == []
  {
    if a != [] { assert a[0] in SetOf(a); }
    if b != [] { assert b[0] in SetOf(b); }
  }

  /** Then every application is routed as at the time of the save, unless a tie decides. */
  lemma {:induction false} SaveThenLoadRoutesAlike(trace: seq<State>, requests: seq<Request>, lo: nat, hi: nat, name: string,
      regex: RegexEngine, app: string, binary: Option<string>)
    requires Run(trace, requests) && Good(trace[0]) && lo < hi < |requests|
    requires requests[lo] == Change(SaveProfile(name)) && requests[hi] == Change(LoadProfile(name))
    requires forall i :: lo < i < hi ==> !Touches(requests[i], name)
    requires trace[lo].routes != [] && Unambiguous(regex, SetOf(trace[lo].routes), app, binary)
    ensures ChannelFor(regex, trace[hi + 1].routes, app, binary) == ChannelFor(regex, trace[lo].routes, app, binary)
  {
    SaveThenLoadRestores(trace, requests, lo, hi, name);
    SameDecision(regex, trace[lo].routes, trace[hi + 1].routes, app, binary);
  }

  /** A restart after saving "Default" brings back the channels and any rules, but never the
      mixer: the saved masters come back exactly when they were the defaults. */
  lemma RestartAfterSave(s: State, t: Tables, controls: map<Role, Fader>, rules: seq<Rule>, loaded: Option<Profile>, u: State)
    requires Sound(s) && t.channels == s.tables.channels
    requires SameRows(Saved(s.tables, Snapshot(s, DEFAULT)), t, DEFAULT)
    requires Starts(t, controls, false, rules, loaded, u)
    ensures u.channels == s.channels
    ensures s.routes != [] ==> SetOf(u.routes) == SetOf(s.routes)
    ensures u.mixer == s.mixer <==> s.mixer == DEFAULT_MIXER
  {
    StartLoads(t, controls, rules, loaded, u);
    Recovered(s, t, DEFAULT, loaded, LoadedChannels(t));
    StartedState(t, controls, rules, loaded, u);
  }

  lemma SaveServed(s: State, name: string) returns (t: State)
    ensures Serve(s, Change(SaveProfile(name)), t) && t.tables == Saved(s.tables, Snapshot(s, name))
  {
    t := Daemon.Effect(s, SaveProfile(name), None);
    assert Follows(s, SaveProfile(name), None, t);
  }

  lemma SomeStart(t: Tables, controls: map<Role, Fader>, rules: seq<Rule>, p: Profile) returns (u: State)
    requires ListsRules(t.appRoutes, rules) && Loads(t, DEFAULT, Some(p))
    ensures Starts(t, controls, false, rules, Some(p), u) && u.mixer == DEFAULT_MIXER
  {
    u := WithProfile(Initial(t, controls, rules), p);
  }

  lemma SnapshotComesBack(s: State, name: string)
    requires Sound(s) && SortedByPriority(s.routes)
    ensures Loads(Saved(s.tables, Snapshot(s, name)), name, Some(Snapshot(s, name)))
  {
    SoundNames(s);
    AllKnown(s);
    SnapshotLoads(s.tables, Snapshot(s, name));
  }

  /** Every state can be saved as "Default" and restarted from, and the restart has the masters
      of a new daemon. */
  lemma MixerIsForgotten(s: State, controls: map<Role, Fader>, rules: seq<Rule>) returns (t: State, u: State)
    requires Sound(s) && SortedByPriority(s.routes) && ListsRules(s.tables.appRoutes, rules)
    ensures Serve(s, Change(SaveProfile(DEFAULT)), t)
    ensures exists loaded :: Starts(t.tables, controls, false, rules, loaded, u)
    ensures u.mixer == DEFAULT_MIXER
  {
    t := SaveServed(s, DEFAULT);
    SnapshotComesBack(s, DEFAULT);
    u := SomeStart(t.tables, controls, rules, Snapshot(s, DEFAULT));
  }

  /** A set that failed before the main loop is not forgotten, and the profile is "Default". */
  lemma StartRemembers(t: Tables, controls: map<Role, Fader>, failed: bool, rules: seq<Rule>, loaded: Option<Profile>, u: State)
    requires Starts(t, controls, failed, rules, loaded, u)
    ensures failed ==> u.failed
    ensures u.profile == "Default" && u.tables == t
  {
  }

  lemma StartLoads(t: Tables, controls: map<Role, Fader>, rules: seq<Rule>, loaded: Option<Profile>, u: State)
    requires Starts(t, controls, false, rules, loaded, u)
    ensures Loads(t, DEFAULT, loaded) && SameNames(LoadedChannels(t), t.channels)
  {
  }

  lemma StartedState(t: Tables, controls: map<Role, Fader>, rules: seq<Rule>, loaded: Option<Profile>, u: State)
    requires Starts(t, controls, false, rules, loaded, u) && loaded.Some?
    ensures u.channels == Applied(LoadedChannels(t), loaded.value.channels) && u.mixer == DEFAULT_MIXER
    ensures u.routes == if loaded.value.routes != [] then loaded.value.routes else rules
  {
  }

  /** What one session leaves, the next can start from. */
  lemma SessionLeavesTablesOk(trace: seq<State>, requests: seq<Request>, n: nat)
    requires Run(trace, requests) && Good(trace[0]) && n < |trace|
    requires TablesOk(trace[0].tables) && StateAtUnity(trace[0].tables)
    ensures TablesOk(trace[n].tables) && StateAtUnity(trace[n].tables)
  {
    EveryRunIsGood(trace, requests, n);
    ProfileKeptOverRun(trace, requests, 0, n, DEFAULT);
    GoodTables(trace[0], trace[n]);
  }

  lemma GoodTables(s: State, t: State)
    requires Sound(t) && TablesOk(s.tables) && StateAtUnity(s.tables)
    requires t.tables.channels == s.tables.channels && t.tables.channelState == s.tables.channelState
    ensures TablesOk(t.tables) && StateAtUnity(t.tables)
  {
  }

  // ---- Deleting and removing ---------------------------------------------------------------

  lemma Served(s: State, c: Command, t: State) returns (loaded: Option<Profile>)
    requires c.DeleteProfile? || c.RemoveAppRoute?
    requires Serve(s, Change(c), t)
    ensures Follows(s, c, loaded, t)
  {
    loaded :| Follows(s, c, loaded, t);
  }

  predicate NoRows(t: Tables, name: string) {
    && (forall k :: k in t.profileChannels ==> k.0 != name)
    && (forall k :: k in t.profileRoutes ==> k.0 != name)
  }

  /** Asked to delete a stored profile other than the default one, the daemon does: no query finds
      it any more, and no row of it is left. Of any other name nothing is deleted. */
  lemma DeletedProfileIsGone(s: State, name: string, t: State, r: Option<Profile>)
    requires Serve(s, Change(DeleteProfile(name)), t)
    ensures if name in s.tables.profiles && !s.tables.profiles[name].isDefault
      then name !in t.tables.profiles && NoRows(t.tables, name) && (Loads(t.tables, name, r) <==> r == None)
      else t.tables == s.tables
  {
    var loaded := Served(s, DeleteProfile(name), t);
  }

  lemma {:induction false} RetainedExactly(rules: seq<Rule>, pattern: string, r: Rule)
    ensures r in Retain(rules, pattern) <==> r in rules && r.pattern != pattern
  {
    if rules != [] {
      var most, last := rules[..|rules| - 1], rules[|rules| - 1];
      RetainedExactly(most, pattern, r);
      assert rules == most + [last];
    }
  }

  /** Positions of the rules that stay, in order. */
  lemma {:induction false} RetainedInOrder(rules: seq<Rule>, pattern: string) returns (at: seq<nat>)
    ensures |at| == |Retain(rules, pattern)|
    ensures forall k :: 0 <= k < |at| ==> at[k] < |rules| && Retain(rules, pattern)[k] == rules[at[k]]
    ensures forall j, k :: 0 <= j < k < |at| ==> at[j] < at[k]
  {
    if rules == [] {
      at := [];
    } else {
      var last := |rules| - 1;
      at := RetainedInOrder(rules[..last], pattern);
      if rules[last].pattern != pattern { at := at + [last]; }
    }
  }

  /** Removing a route leaves no rule of that pattern, in memory or in the table, and all others. */
  lemma RemovedRouteIsGone(s: State, pattern: string, t: State)
    requires Serve(s, Change(RemoveAppRoute(pattern)), t)
    ensures forall r :: r in t.routes <==> r in s.routes && r.pattern != pattern
    ensures forall p :: p in t.tables.appRoutes <==> p in s.tables.appRoutes && p != pattern
    ensures forall p :: p in t.tables.appRoutes ==> t.tables.appRoutes[p] == s.tables.appRoutes[p]
    ensures t.tables == s.tables.(appRoutes := t.tables.appRoutes)
  {
    var loaded := Served(s, RemoveAppRoute(pattern), t);
    forall r ensures r in Retain(s.routes, pattern) <==> r in s.routes && r.pattern != pattern {
      RetainedExactly(s.routes, pattern, r);
    }
  }

  /** Setting one puts an exact rule of priority 100 last in memory, and into the table if the
      channel is known there, in place of any other of that pattern; all others stay. */
  lemma SetRouteIsThere(s: State, pattern: string, channel: string, loaded: Option<Profile>, t: State)
    requires Follows(s, SetAppRoute(pattern, channel), loaded, t)
    ensures t.routes != [] && t.routes[|t.routes| - 1] == Rule(pattern, Exact, channel, 100)
    ensures forall r :: r in t.routes[..|t.routes| - 1] <==> r in s.routes && r.pattern != pattern
    ensures channel in s.tables.channels ==>
      t.tables.appRoutes == s.tables.appRoutes[pattern := Rule(pattern, Exact, channel, 100)]
    ensures channel !in s.tables.channels ==> t.tables == s.tables
  {
    RouteState(s, pattern, channel, loaded, t);
    assert t.routes[..|t.routes| - 1] == Retain(s.routes, pattern);
    forall r ensures r in Retain(s.routes, pattern) <==> r in s.routes && r.pattern != pattern {
      RetainedExactly(s.routes, pattern, r);
    }
  }

  // ---- One control, one rule -------------------------------------------------------------

  predicate MovesFader(c: Command) {
    c.SetChannelVolume? || c.SetChannelMute? || c.SetMasterVolume? || c.SetMasterMute?
  }

  function Target(c: Command): Role
    requires MovesFader(c)
  {
    match c
    case SetChannelVolume(channel, m, _) => Filter(channel, m)
    case SetChannelMute(channel, m, _) => Filter(channel, m)
    case SetMasterVolume(m, _) => Mix(m)
    case SetMasterMute(m, _) => Mix(m)
  }

  function Moved(f: Fader, c: Command): Fader
    requires MovesFader(c)
  {
    if c.SetChannelVolume? || c.SetMasterVolume? then f.(volume := c.volume) else f.(muted := c.muted)
  }

  /** A fader command sets its fader, in memory and, if the node is recorded and no set failed,
      in PipeWire too; of volume and mute, the one not meant stays. */
  lemma TheTargetMoves(s: State, c: Command, loaded: Option<Profile>, t: State)
    requires Good(s) && CommandOk(s, c) && MovesFader(c) && Follows(s, c, loaded, t)
    ensures forall i, m :: 0 <= i < |s.channels| && Filter(s.channels[i].name, m) == Target(c) ==>
      t.channels[i].strip.At(m) == Moved(s.channels[i].strip.At(m), c)
    ensures forall m :: Mix(m) == Target(c) ==> t.mixer.master.At(m) == Moved(s.mixer.master.At(m), c)
    ensures !t.failed && Target(c) in s.controls && (Target(c).Filter? ==> HasChannel(s.channels, Target(c).channel)) ==>
      Target(c) in t.controls && t.controls[Target(c)] == Moved(s.controls[Target(c)], c)
  {
  }

  /** A fader command moves its own fader and nothing else, in memory or in PipeWire. */
  lemma OnlyTheTargetMoves(s: State, c: Command, loaded: Option<Profile>, t: State)
    requires MovesFader(c) && Follows(s, c, loaded, t)
    ensures t.tables == s.tables && t.routes == s.routes && t.profile == s.profile
    ensures SameElsewhere(s.channels, t.channels, Target(c))
    ensures forall m :: Mix(m) != Target(c) ==> t.mixer.master.At(m) == s.mixer.master.At(m)
    ensures t.mixer == s.mixer.(master := t.mixer.master)
    ensures !t.failed ==> SameControlsElsewhere(s.controls, t.controls, Target(c))
  {
    match c
    case SetChannelVolume(name, m, v) => TurnedElsewhere(s.channels, name, m, v, false);
    case SetChannelMute(name, m, muted) => TurnedElsewhere(s.channels, name, m, 0.0, muted);
    case _ =>
  }

  lemma TurnedElsewhere(channels: seq<Channel>, name: string, m: MixType, volume: real, muted: bool)
    ensures SameElsewhere(channels, Turned(channels, name, m, volume), Filter(name, m))
    ensures SameElsewhere(channels, Muted(channels, name, m, muted), Filter(name, m))
    ensures SameElsewhere(channels, channels, Filter(name, m))
  {
  }

  predicate SameControlsElsewhere(a: map<Role, Fader>, b: map<Role, Fader>, target: Role) {
    a.Keys == b.Keys && forall r :: r in a && r != target ==> b[r] == a[r]
  }

  predicate SameElsewhere(a: seq<Channel>, b: seq<Channel>, target: Role) {
    && |a| == |b|
    && forall i :: 0 <= i < |a| ==>
         && a[i].name == b[i].name
         && (forall m :: Filter(a[i].name, m) != target ==> a[i].strip.At(m) == b[i].strip.At(m))
  }

  /** After `SetAppRoute`, an application of that very name goes to the channel asked for
      exactly when the best of the other rules does not overrule that: it has a priority below
      100 or leads to the same channel. */
  lemma {:induction false} RouteTakesEffectExactlyWhen(s: State, pattern: string, channel: string, loaded: Option<Profile>, t: State, regex: RegexEngine)
    requires Follows(s, SetAppRoute(pattern, channel), loaded, t)
    ensures ChannelOfBest(regex, t.routes, pattern) == Some(channel) <==>
      !Overruled(regex, Retain(s.routes, pattern), pattern, channel)
  {
    RouteState(s, pattern, channel, loaded, t);
    NewRouteDecides(regex, Retain(s.routes, pattern), pattern, channel);
  }

  /** The best of the other rules ranks at least as high and leads elsewhere. */
  predicate Overruled(regex: RegexEngine, others: seq<Rule>, name: string, channel: string) {
    var best := BestOf(regex, others, name);
    best.Some? && others[best.value].priority >= 100 && others[best.value].channel != channel
  }

  lemma RouteState(s: State, pattern: string, channel: string, loaded: Option<Profile>, t: State)
    requires Follows(s, SetAppRoute(pattern, channel), loaded, t)
    ensures t.routes == Retain(s.routes, pattern) + [NewRule(pattern, channel)]
  {
  }

  lemma {:induction false} NewRouteDecides(regex: RegexEngine, others: seq<Rule>, pattern: string, channel: string)
    ensures ChannelOfBest(regex, others + [NewRule(pattern, channel)], pattern) == Some(channel) <==>
      !Overruled(regex, others, pattern, channel)
  {
    NewcomerLosesTies(regex, others, NewRule(pattern, channel), pattern);
  }
}
