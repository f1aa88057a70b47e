/** What a saved profile gives back. */
module DatabaseLaws {
  import opened Prelude
  import opened Mixing
  import opened Routing
  import opened Database

  lemma {:induction false} StripRowsValues(profile: string, strips: seq<Channel>, known: seq<string>, i: nat)
    requires DistinctNames(strips) && i < |strips| && strips[i].name in known
    ensures (profile, strips[i].name) in StripRows(profile, strips, known)
    ensures StripRows(profile, strips, known)[(profile, strips[i].name)] == strips[i].strip
  {
    var last := |strips| - 1;
    if i < last {
      assert strips[..last][i] == strips[i];
      StripRowsValues(profile, strips[..last], known, i);
    }
  }

  lemma {:induction false} RouteRowsValues(profile: string, rules: seq<Rule>, known: seq<string>, i: nat)
    requires DistinctPatterns(rules) && i < |rules| && rules[i].channel in known
    ensures (profile, rules[i].pattern) in RouteRows(profile, rules, known)
    ensures RouteRows(profile, rules, known)[(profile, rules[i].pattern)] == rules[i]
  {
    var last := |rules| - 1;
    if i < last {
      assert rules[..last][i] == rules[i];
      RouteRowsValues(profile, rules[..last], known, i);
    }
  }

  lemma SavedStrips(t: Tables, p: Profile, c: Channel)
    requires DistinctNames(p.channels)
    ensures var rows := RowsOf(Saved(t, p).profileChannels, p.name);
      (c.name in rows && rows[c.name] == c.strip) <==> (c in p.channels && c.name in t.channels)
  {
    var k := (p.name, c.name);
    StripRowsKeys(p.name, p.channels, t.channels);
    if k in StripRows(p.name, p.channels, t.channels) {
      var i :| 0 <= i < |p.channels| && p.channels[i].name == c.name;
      StripRowsValues(p.name, p.channels, t.channels, i);
    }
    if c in p.channels && c.name in t.channels {
      var i :| 0 <= i < |p.channels| && p.channels[i] == c;
      StripRowsValues(p.name, p.channels, t.channels, i);
    }
  }

  lemma SavedRules(t: Tables, p: Profile, r: Rule)
    requires DistinctPatterns(p.routes)
    ensures var rows := RowsOf(Saved(t, p).profileRoutes, p.name);
      (r.pattern in rows && rows[r.pattern] == r) <==> (r in p.routes && r.channel in t.channels)
  {
    var k := (p.name, r.pattern);
    RouteRowsKeys(p.name, p.routes, t.channels);
    if k in RouteRows(p.name, p.routes, t.channels) {
      var i :| 0 <= i < |p.routes| && p.routes[i].pattern == r.pattern && p.routes[i].channel in t.channels;
      RouteRowsValues(p.name, p.routes, t.channels, i);
    }
    if r in p.routes && r.channel in t.channels {
      var i :| 0 <= i < |p.routes| && p.routes[i] == r;
      RouteRowsValues(p.name, p.routes, t.channels, i);
    }
  }

  /** A saved profile loads back with its mixer and exactly the strips and rules whose channel
      the database knows, in whatever order the rows come. */
  lemma SaveThenLoad(t: Tables, p: Profile, r: Option<Profile>)
    requires DistinctNames(p.channels) && DistinctPatterns(p.routes)
    requires Loads(Saved(t, p), p.name, r)
    ensures r.Some? && r.value.name == p.name && r.value.isDefault == p.isDefault && r.value.mixer == p.mixer
    ensures forall c :: c in r.value.channels <==> c in p.channels && c.name in t.channels
    ensures forall q :: q in r.value.routes <==> q in p.routes && q.channel in t.channels
  {
    forall c ensures c in r.value.channels <==> c in p.channels && c.name in t.channels {
      SavedStrips(t, p, c);
    }
    forall q ensures q in r.value.routes <==> q in p.routes && q.channel in t.channels {
      SavedRules(t, p, q);
    }
  }

  /** Rules come with the highest priority first, each of the table's once. */
  lemma RulesComeSorted(rows: map<string, Rule>, rules: seq<Rule>, i: nat, j: nat)
    requires ListsRules(rows, rules) && i < j < |rules|
    ensures rules[i].priority >= rules[j].priority && rules[i].pattern != rules[j].pattern
    ensures forall p :: p in rows ==> rows[p] in rules
    ensures forall r :: r in rules ==> r.pattern in rows && rows[r.pattern] == r
  {
  }

  /** The very profile that was saved is one of the answers. */
  lemma SnapshotLoads(t: Tables, p: Profile)
    requires DistinctNames(p.channels) && DistinctPatterns(p.routes) && SortedByPriority(p.routes)
    requires forall c :: c in p.channels ==> c.name in t.channels
    requires forall r :: r in p.routes ==> r.channel in t.channels
    ensures Loads(Saved(t, p), p.name, Some(p))
  {
    StripsAreListed(t, p);
    RulesAreListed(t, p);
  }

  lemma StripsAreListed(t: Tables, p: Profile)
    requires DistinctNames(p.channels) && forall c :: c in p.channels ==> c.name in t.channels
    ensures ListsStrips(RowsOf(Saved(t, p).profileChannels, p.name), p.channels)
  {
    var rows := RowsOf(Saved(t, p).profileChannels, p.name);
    forall c | c in p.channels ensures c.name in rows && rows[c.name] == c.strip { SavedStrips(t, p, c); }
    forall n | n in rows ensures Channel(n, rows[n]) in p.channels { SavedStrips(t, p, Channel(n, rows[n])); }
  }

  lemma RulesAreListed(t: Tables, p: Profile)
    requires DistinctPatterns(p.routes) && SortedByPriority(p.routes)
    requires forall r :: r in p.routes ==> r.channel in t.channels
    ensures ListsRules(RowsOf(Saved(t, p).profileRoutes, p.name), p.routes)
  {
    var rows := RowsOf(Saved(t, p).profileRoutes, p.name);
    forall r | r in p.routes ensures r.pattern in rows && rows[r.pattern] == r { SavedRules(t, p, r); }
    forall n | n in rows ensures rows[n] in p.routes {
      RowIsRule(t, p, n);
    }
  }

  lemma RowIsRule(t: Tables, p: Profile, n: string)
    requires DistinctPatterns(p.routes) && n in RowsOf(Saved(t, p).profileRoutes, p.name)
    ensures RowsOf(Saved(t, p).profileRoutes, p.name)[n] in p.routes
  {
    RouteRowsKeys(p.name, p.routes, t.channels);
    var i :| 0 <= i < |p.routes| && p.routes[i].pattern == n && p.routes[i].channel in t.channels;
    RouteRowsValues(p.name, p.routes, t.channels, i);
  }

  predicate SameRows(t: Tables, u: Tables, name: string) {
    && (name in t.profiles <==> name in u.profiles)
    && (name in t.profiles ==> t.profiles[name] == u.profiles[name])
    && RowsOf(t.profileChannels, name) == RowsOf(u.profileChannels, name)
    && RowsOf(t.profileRoutes, name) == RowsOf(u.profileRoutes, name)
  }

  lemma SameRowsSameLoad(t: Tables, u: Tables, name: string, r: Option<Profile>)
    requires SameRows(t, u, name)
    ensures Loads(t, name, r) <==> Loads(u, name, r)
  {
  }

  lemma RowsOfOther<V>(m: map<(string, string), V>, rows: map<(string, string), V>, profile: string, name: string)
    requires name != profile && forall k :: k in rows ==> k.0 == profile
    ensures RowsOf(Without(m, profile) + rows, name) == RowsOf(m, name)
  {
    var more := Without(m, profile) + rows;
    forall c ensures c in RowsOf(more, name) <==> c in RowsOf(m, name) {
      assert (name, c) in more <==> (name, c) in m;
      assert c in RowsOf(more, name) <==> (name, c) in more;
      assert c in RowsOf(m, name) <==> (name, c) in m;
    }
  }

  lemma OthersKept(t: Tables, p: Profile, name: string)
    requires name != p.name
    ensures SameRows(t, Saved(t, p), name)
  {
    StripRowsKeys(p.name, p.channels, t.channels);
    RouteRowsKeys(p.name, p.routes, t.channels);
    RowsOfOther(t.profileChannels, StripRows(p.name, p.channels, t.channels), p.name, name);
    RowsOfOther(t.profileRoutes, RouteRows(p.name, p.routes, t.channels), p.name, name);
  }

  lemma OthersSurviveDeletion(t: Tables, deleted: string, name: string)
    requires name != deleted
    ensures SameRows(t, Deleted(t, deleted), name)
  {
    RowsOfOther(t.profileChannels, map[], deleted, name);
    RowsOfOther(t.profileRoutes, map[], deleted, name);
    assert Without(t.profileChannels, deleted) + map[] == Without(t.profileChannels, deleted);
    assert Without(t.profileRoutes, deleted) + map[] == Without(t.profileRoutes, deleted);
  }

  lemma SavedConsistent(t: Tables, p: Profile)
    requires Consistent(t) && (p.isDefault <==> p.name == DEFAULT)
    requires DistinctPatterns(p.routes)
    ensures Consistent(Saved(t, p))
  {
    StripRowsKeys(p.name, p.channels, t.channels);
    forall k | k in Saved(t, p).profileRoutes
      ensures k.0 in Saved(t, p).profiles
      ensures Saved(t, p).profileRoutes[k].pattern == k.1 && Saved(t, p).profileRoutes[k].channel in t.channels
    {
      SavedRuleKeyed(t, p, k);
    }
  }

  lemma SavedRuleKeyed(t: Tables, p: Profile, k: (string, string))
    requires Consistent(t) && DistinctPatterns(p.routes) && k in Saved(t, p).profileRoutes
    ensures k.0 in Saved(t, p).profiles
    ensures Saved(t, p).profileRoutes[k].pattern == k.1 && Saved(t, p).profileRoutes[k].channel in t.channels
  {
    RouteRowsKeys(p.name, p.routes, t.channels);
    if k in RouteRows(p.name, p.routes, t.channels) {
      var i :| 0 <= i < |p.routes| && p.routes[i].pattern == k.1 && p.routes[i].channel in t.channels;
      RouteRowsValues(p.name, p.routes, t.channels, i);
    }
  }

  lemma DeletedConsistent(t: Tables, name: string)
    requires Consistent(t) && name != DEFAULT
    ensures Consistent(Deleted(t, name))
  {
  }
}

/** What every run of requests keeps. */
module DaemonRuns {
  import opened Prelude
  import opened Naming
  import opened Mixing
  import opened Routing
  import opened Database
  import opened DatabaseLaws
  import opened Requests
  import opened Daemon

  // ---- The invariant -----------------------------------------------------------------

  /** The filters show the channels' strips, and the mix nodes the master strip. */
  predicate StripsShown(controls: map<Role, Fader>, channels: seq<Channel>) {
    forall i, m :: 0 <= i < |channels| && Filter(channels[i].name, m) in controls ==>
      controls[Filter(channels[i].name, m)] == channels[i].strip.At(m)
  }

  predicate MasterShown(controls: map<Role, Fader>, master: Strip) {
    forall m :: Mix(m) in controls ==> controls[Mix(m)] == master.At(m)
  }

  predicate Shown(s: State) {
    s.failed || (StripsShown(s.controls, s.channels) && MasterShown(s.controls, s.mixer.master))
  }

  ghost predicate SameRules(routes: seq<Rule>, rows: map<string, Rule>) {
    forall r :: r in routes <==> r.pattern in rows && rows[r.pattern] == r
  }

  ghost predicate RoutesFollowTable(s: State) {
    s.ownRoutes || SameRules(s.routes, s.tables.appRoutes)
  }

  ghost predicate Good(s: State) {
    Sound(s) && Shown(s) && RoutesFollowTable(s)
  }

  /** A query changes nothing, and is answered exactly when what it asks for is there. */
  lemma QueriesAreAnswered(s: State, name: string, t: State)
    ensures Serve(s, GetState, t) || Serve(s, GetChannel(name), t) || Serve(s, GetProfile(name), t) ==> t == s
    ensures var profiles := s.tables.profiles.Keys;
      && HandleRequest(GetState, s.channels, profiles).response == Success
      && HandleRequest(GetChannel(name), s.channels, profiles).response
         == (if exists i :: 0 <= i < |s.channels| && s.channels[i].name == name then Success else NotFound(name))
      && HandleRequest(GetProfile(name), s.channels, profiles).response
         == (if name in s.tables.profiles then Success else NotFound(name))
  {
  }

  predicate CommandOk(s: State, c: Command) {
    match c
    case SetChannelVolume(_, _, v) => 0.0 <= v <= 1.0
    case SetMasterVolume(_, v) => 0.0 <= v <= 1.0
    case SetAppRoute(_, channel) => HasChannel(s.channels, channel)
    case _ => true
  }

  lemma RequestsAreChecked(s: State, r: Request)
    ensures var c := HandleRequest(r, s.channels, s.tables.profiles.Keys).command;
      c.Some? ==> CommandOk(s, c.value)
  {
  }

  function WithClampedVolume(c: Command): Command {
    match c
    case SetChannelVolume(name, m, v) => SetChannelVolume(name, m, Clamp(v))
    case SetMasterVolume(m, v) => SetMasterVolume(m, Clamp(v))
    case _ => c
  }

  function ChannelNamed(c: Command): Option<string> {
    match c
    case SetChannelVolume(name, _, _) => Some(name)
    case SetChannelMute(name, _, _) => Some(name)
    case SetAppRoute(_, name) => Some(name)
    case _ => None
  }

  /** A change is refused exactly when it names an unknown channel; otherwise it is carried out
      as asked, but for its volume, which is clamped. A query changes nothing. */
  lemma RequestsAreHonoured(r: Request, channels: seq<Channel>, profiles: set<string>)
    ensures var (result, known) := (HandleRequest(r, channels, profiles),
        r.Change? && (ChannelNamed(r.command).Some? ==> HasChannel(channels, ChannelNamed(r.command).value)));
      && (result.command.Some? <==> known)
      && (result.command.Some? ==> result.command.value == WithClampedVolume(r.command) && result.response == Success)
      && (r.Change? && !known ==> result.response == NotFound(ChannelNamed(r.command).value))
  {
  }

  // ---- Controls --------------------------------------------------------------------

  lemma RowShown(controls: map<Role, Fader>, channels: seq<Channel>, row: Channel)
    requires StripsShown(controls, channels) && StripOk(row.strip)
    ensures StripsShown(PushRow(controls, channels, row), Replaced(channels, row.name, row.strip))
    ensures forall m :: Mix(m) in controls <==> Mix(m) in PushRow(controls, channels, row)
    ensures forall m :: Mix(m) in controls ==> PushRow(controls, channels, row)[Mix(m)] == controls[Mix(m)]
  {
    if !HasChannel(channels, row.name) { assert Replaced(channels, row.name, row.strip) == channels; }
  }

  predicate StripsOk(rows: seq<Channel>) {
    forall c :: c in rows ==> StripOk(c.strip)
  }

  lemma SameChannels(a: seq<Channel>, b: seq<Channel>, name: string)
    requires |a| == |b| && forall i :: 0 <= i < |a| ==> a[i].name == b[i].name
    ensures HasChannel(a, name) <==> HasChannel(b, name)
  {
  }

  lemma {:induction false} RowsShown(controls: map<Role, Fader>, channels: seq<Channel>, rows: seq<Channel>)
    requires StripsShown(controls, channels) && StripsOk(rows)
    ensures StripsShown(Pushed(controls, channels, rows), Applied(channels, rows))
    ensures forall m :: Mix(m) in controls <==> Mix(m) in Pushed(controls, channels, rows)
    ensures forall m :: Mix(m) in controls ==> Pushed(controls, channels, rows)[Mix(m)] == controls[Mix(m)]
  {
    if rows != [] {
      var most, last := rows[..|rows| - 1], rows[|rows| - 1];
      RowsShown(controls, channels, most);
      AppliedKeepsNames(channels, most);
      SameChannels(channels, Applied(channels, most), last.name);
      RowShown(Pushed(controls, channels, most), Applied(channels, most), last);
    }
  }

  lemma MasterPushed(controls: map<Role, Fader>, channels: seq<Channel>, master: Strip)
    requires StripsShown(controls, channels) && StripOk(master)
    ensures StripsShown(PushMaster(controls, master), channels) && MasterShown(PushMaster(controls, master), master)
  {
  }

  lemma LoadedOk(s: State, name: string, loaded: Option<Profile>)
    requires Sound(s) && Loads(s.tables, name, loaded) && loaded.Some?
    ensures StripsOk(loaded.value.channels) && StripOk(loaded.value.mixer.master)
    ensures DistinctPatterns(loaded.value.routes)
    ensures forall r :: r in loaded.value.routes ==> r.channel in s.tables.channels
  {
    var p := loaded.value;
    forall c | c in p.channels ensures StripOk(c.strip) {
      assert c.name in RowsOf(s.tables.profileChannels, name);
      assert (name, c.name) in s.tables.profileChannels;
    }
    forall r | r in p.routes ensures r.channel in s.tables.channels {
      assert r.pattern in RowsOf(s.tables.profileRoutes, name);
      assert (name, r.pattern) in s.tables.profileRoutes;
    }
  }

  lemma {:induction false} AppliedOk(channels: seq<Channel>, rows: seq<Channel>)
    requires StripsOk(channels) && StripsOk(rows)
    ensures StripsOk(Applied(channels, rows))
  {
    if rows != [] {
      AppliedOk(channels, rows[..|rows| - 1]);
    }
  }

  // ---- Routes ----------------------------------------------------------------------

  lemma {:induction false} Retained(rules: seq<Rule>, pattern: string)
    ensures forall r :: r in Retain(rules, pattern) <==> r in rules && r.pattern != pattern
    ensures DistinctPatterns(rules) ==> DistinctPatterns(Retain(rules, pattern))
  {
    if rules != [] {
      var most, last := rules[..|rules| - 1], rules[|rules| - 1];
      Retained(most, pattern);
      assert rules == most + [last];
    }
  }

  // ---- One step --------------------------------------------------------------------

  lemma StepKeepsShown(s: State, c: Command, loaded: Option<Profile>, t: State)
    requires Sound(s) && Shown(s) && CommandOk(s, c) && Follows(s, c, loaded, t)
    ensures Shown(t)
  {
    if !t.failed && c.LoadProfile? && loaded.Some? {
      LoadedOk(s, c.name, loaded);
      RowsShown(s.controls, s.channels, loaded.value.channels);
      MasterPushed(Pushed(s.controls, s.channels, loaded.value.channels), t.channels, loaded.value.mixer.master);
    }
  }

  lemma TablesKept(s: State, c: Command, loaded: Option<Profile>, t: State)
    requires Sound(s) && CommandOk(s, c) && Follows(s, c, loaded, t)
    ensures Consistent(t.tables) && t.tables.channels == s.tables.channels
  {
    match c
    case SaveProfile(name) =>
      SavedConsistent(s.tables, Snapshot(s, name));
    case DeleteProfile(name) =>
      if name != DEFAULT { DeletedConsistent(s.tables, name); }
    case SetAppRoute(pattern, channel) =>
    case _ =>
  }

  lemma NamesKept(s: State, c: Command, loaded: Option<Profile>, t: State)
    requires Sound(s) && Follows(s, c, loaded, t)
    ensures SameNames(t.channels, s.tables.channels)
  {
    if c.LoadProfile? && loaded.Some? { AppliedKeepsNames(s.channels, loaded.value.channels); }
  }

  lemma RoutesKept(s: State, c: Command, loaded: Option<Profile>, t: State)
    requires Sound(s) && CommandOk(s, c) && Follows(s, c, loaded, t)
    requires t.tables.channels == s.tables.channels
    ensures RoutesOk(t)
  {
    if c.SetAppRoute? || c.RemoveAppRoute? { Retained(s.routes, c.pattern); }
    if c.LoadProfile? && loaded.Some? { LoadedOk(s, c.name, loaded); }
  }

  lemma MemoryVolumesKept(s: State, c: Command, loaded: Option<Profile>, t: State)
    requires Sound(s) && CommandOk(s, c) && Follows(s, c, loaded, t)
    ensures StripsOk(t.channels) && StripOk(t.mixer.master)
  {
    assert StripsOk(s.channels);
    if c.LoadProfile? && loaded.Some? {
      LoadedOk(s, c.name, loaded);
      AppliedOk(s.channels, loaded.value.channels);
    }
  }

  lemma SavedVolumes(s: State, name: string, k: (string, string))
    requires Sound(s) && k in Saved(s.tables, Snapshot(s, name)).profileChannels
    ensures StripOk(Saved(s.tables, Snapshot(s, name)).profileChannels[k])
  {
    var rows := StripRows(name, s.channels, s.tables.channels);
    StripRowsKeys(name, s.channels, s.tables.channels);
    if k in rows {
      var i :| 0 <= i < |s.channels| && s.channels[i].name == k.1;
      SoundNames(s);
      StripRowsValues(name, s.channels, s.tables.channels, i);
    }
  }

  lemma TableVolumesKept(s: State, c: Command, loaded: Option<Profile>, t: State)
    requires Sound(s) && CommandOk(s, c) && Follows(s, c, loaded, t)
    ensures forall k :: k in t.tables.profileChannels ==> StripOk(t.tables.profileChannels[k])
    ensures forall p :: p in t.tables.profiles && t.tables.profiles[p].mixer.Some? ==>
      StripOk(t.tables.profiles[p].mixer.value.master)
  {
    if c.SaveProfile? {
      forall k | k in t.tables.profileChannels ensures StripOk(t.tables.profileChannels[k]) {
        SavedVolumes(s, c.name, k);
      }
    }
  }

  lemma StepKeepsSound(s: State, c: Command, loaded: Option<Profile>, t: State)
    requires Sound(s) && CommandOk(s, c) && Follows(s, c, loaded, t)
    ensures Sound(t)
  {
    TablesKept(s, c, loaded, t);
    NamesKept(s, c, loaded, t);
    RoutesKept(s, c, loaded, t);
    MemoryVolumesKept(s, c, loaded, t);
    TableVolumesKept(s, c, loaded, t);
    assert VolumesOk(t) by {
      forall i | 0 <= i < |t.channels| ensures StripOk(t.channels[i].strip) { assert t.channels[i] in t.channels; }
    }
  }

  lemma SameAfterSet(routes: seq<Rule>, rows: map<string, Rule>, rule: Rule)
    requires SameRules(routes, rows)
    ensures SameRules(Retain(routes, rule.pattern) + [rule], rows[rule.pattern := rule])
  {
    Retained(routes, rule.pattern);
  }

  lemma SameAfterRemoval(routes: seq<Rule>, rows: map<string, Rule>, pattern: string)
    requires SameRules(routes, rows)
    ensures SameRules(Retain(routes, pattern), rows - {pattern})
  {
    Retained(routes, pattern);
  }

  lemma KnownChannel(s: State, name: string)
    requires Sound(s) && HasChannel(s.channels, name)
    ensures name in s.tables.channels
  {
  }

  lemma StepKeepsRoutesFollowing(s: State, c: Command, loaded: Option<Profile>, t: State)
    requires Sound(s) && RoutesFollowTable(s) && CommandOk(s, c) && Follows(s, c, loaded, t)
    ensures RoutesFollowTable(t)
  {
    if !s.ownRoutes {
      match c
      case SetAppRoute(pattern, channel) =>
        KnownChannel(s, channel);
        SameAfterSet(s.routes, s.tables.appRoutes, NewRule(pattern, channel));
      case RemoveAppRoute(pattern) =>
        SameAfterRemoval(s.routes, s.tables.appRoutes, pattern);
      case _ =>
    }
  }

  // ---- Runs --------------------------------------------------------------------------

  ghost predicate Run(trace: seq<State>, requests: seq<Request>) {
    && |trace| == |requests| + 1
    && forall i :: 0 <= i < |requests| ==> Serve(trace[i], requests[i], trace[i + 1])
  }

  lemma ServeKeepsGood(s: State, r: Request, t: State)
    requires Good(s) && Serve(s, r, t)
    ensures Good(t)
  {
    RequestsAreChecked(s, r);
    var command := HandleRequest(r, s.channels, s.tables.profiles.Keys).command;
    if command.Some? {
      var loaded :| Follows(s, command.value, loaded, t);
      StepKeepsSound(s, command.value, loaded, t);
      StepKeepsShown(s, command.value, loaded, t);
      StepKeepsRoutesFollowing(s, command.value, loaded, t);
    }
  }

  /** Over every run of requests: stored volumes stay in [0, 1]; unless a set failed, every
      recorded node shows the volume and mute stored for it; patterns stay distinct and
      channels known, so no save violates a key; until a profile brings its own routes, memory
      and table hold the same rules; and "Default" stays the one default profile. */
  lemma {:induction false} EveryRunIsGood(trace: seq<State>, requests: seq<Request>, n: nat)
    requires Run(trace, requests) && n < |trace| && Good(trace[0])
    ensures Good(trace[n])
  {
    if n > 0 {
      EveryRunIsGood(trace, requests, n - 1);
      ServeKeepsGood(trace[n - 1], requests[n - 1], trace[n - 1 + 1]);
    }
  }

  // ---- Start-up ----------------------------------------------------------------------

  /** The database as an earlier session leaves it. */
  predicate TablesOk(t: Tables) {
    && Consistent(t)
    && (forall k :: k in t.profileChannels ==> StripOk(t.profileChannels[k]))
    && (forall p :: p in t.profiles && t.profiles[p].mixer.Some? ==> StripOk(t.profiles[p].mixer.value.master))
    && (forall n :: n in t.channelState ==> StripOk(t.channelState[n]))
  }

  /** Freshly created nodes play at unity, unmuted. */
  predicate Fresh(controls: map<Role, Fader>) {
    forall r :: r in controls ==> controls[r] == UNITY
  }

  predicate StateAtUnity(t: Tables) {
    forall n :: n in t.channelState && n in t.channels ==> t.channelState[n] == UNITY_STRIP
  }

  lemma InitialSound(t: Tables, controls: map<Role, Fader>, failed: bool, rules: seq<Rule>)
    requires TablesOk(t) && ListsRules(t.appRoutes, rules)
    ensures var base := Initial(t, controls, rules).(failed := failed);
      Sound(base) && RoutesFollowTable(base)
  {
    var base := Initial(t, controls, rules).(failed := failed);
    forall r | r in rules ensures r.channel in t.channels {
      assert r.pattern in t.appRoutes;
    }
  }

  lemma RestoredSound(base: State, loaded: Option<Profile>, s: State)
    requires Sound(base) && !base.ownRoutes && RoutesFollowTable(base)
    requires Loads(base.tables, DEFAULT, loaded) && Restored(base, loaded, s)
    ensures Sound(s) && RoutesFollowTable(s)
  {
    if loaded.Some? {
      LoadedOk(base, DEFAULT, loaded);
      AppliedKeepsNames(base.channels, loaded.value.channels);
      assert StripsOk(base.channels);
      AppliedOk(base.channels, loaded.value.channels);
      forall i | 0 <= i < |s.channels| ensures StripOk(s.channels[i].strip) { assert s.channels[i] in s.channels; }
    }
  }

  /** Start-up reaches a good state when the stored channel states, which nothing in the daemon
      ever changes, are still at unity like the nodes just made. */
  lemma StartIsGood(t: Tables, controls: map<Role, Fader>, rules: seq<Rule>, loaded: Option<Profile>, s: State)
    requires TablesOk(t) && Fresh(controls) && StateAtUnity(t)
    requires Starts(t, controls, false, rules, loaded, s)
    ensures Good(s)
  {
    var base := Initial(t, controls, rules).(failed := false);
    InitialSound(t, controls, false, rules);
    RestoredSound(base, loaded, s);
    if !s.failed {
      assert StripsShown(controls, base.channels);
      if loaded.Some? {
        LoadedOk(base, DEFAULT, loaded);
        RowsShown(controls, base.channels, loaded.value.channels);
      }
    }
  }

  lemma RowAt(controls: map<Role, Fader>, channels: seq<Channel>, strips: seq<Channel>, row: Channel, i: nat, m: MixType)
    requires |strips| == |channels| && i < |channels| && strips[i].name == channels[i].name
    requires Filter(channels[i].name, m) in controls && StripOk(row.strip)
    ensures Filter(channels[i].name, m) in PushRow(controls, channels, row)
    ensures var shown := PushRow(controls, channels, row)[Filter(channels[i].name, m)];
      if row.name == channels[i].name then shown == Replaced(strips, row.name, row.strip)[i].strip.At(m)
      else shown == controls[Filter(channels[i].name, m)] && Replaced(strips, row.name, row.strip)[i] == strips[i]
  {
    assert HasChannel(channels, channels[i].name);
  }

  lemma HasChannelSnoc(rows: seq<Channel>, name: string)
    requires rows != []
    ensures HasChannel(rows, name) <==> HasChannel(rows[..|rows| - 1], name) || rows[|rows| - 1].name == name
  {
    var most := rows[..|rows| - 1];
    assert forall k :: 0 <= k < |most| ==> most[k] == rows[k];
  }

  lemma {:induction false} PushedAt(controls: map<Role, Fader>, channels: seq<Channel>, rows: seq<Channel>, i: nat, m: MixType)
    requires i < |channels| && Filter(channels[i].name, m) in controls && StripsOk(rows)
    ensures |Applied(channels, rows)| == |channels|
    ensures Filter(channels[i].name, m) in Pushed(controls, channels, rows)
    ensures var shown := Pushed(controls, channels, rows)[Filter(channels[i].name, m)];
      if HasChannel(rows, channels[i].name) then shown == Applied(channels, rows)[i].strip.At(m)
      else shown == controls[Filter(channels[i].name, m)] && Applied(channels, rows)[i] == channels[i]
  {
    AppliedKeepsNames(channels, rows);
    if rows != [] {
      var most, last := rows[..|rows| - 1], rows[|rows| - 1];
      PushedAt(controls, channels, most, i, m);
      AppliedKeepsNames(channels, most);
      HasChannelSnoc(rows, channels[i].name);
      RowAt(Pushed(controls, channels, most), channels, Applied(channels, most), last, i, m);
    }
  }

  /** When no set fails, start-up leaves the filters showing what is stored exactly when every
      channel whose stored state is not unity has a row in the default profile. */
  lemma StartShowsStripsExactlyWhen(t: Tables, controls: map<Role, Fader>, rules: seq<Rule>, loaded: Option<Profile>, s: State)
    requires TablesOk(t) && Fresh(controls)
    requires Starts(t, controls, false, rules, loaded, s) && !s.failed && loaded.Some?
    ensures StripsShown(s.controls, s.channels) <==>
      forall i, m :: 0 <= i < |t.channels| && Filter(t.channels[i], m) in controls && !HasChannel(loaded.value.channels, t.channels[i])
        ==> LoadedChannels(t)[i].strip.At(m) == UNITY
  {
    var base := Initial(t, controls, rules).(failed := false);
    InitialSound(t, controls, false, rules);
    LoadedOk(base, DEFAULT, loaded);
    AppliedKeepsNames(base.channels, loaded.value.channels);
    PushedKeys(controls, base.channels, loaded.value.channels);
    forall i, m | 0 <= i < |t.channels| && Filter(t.channels[i], m) in controls
      ensures s.controls[Filter(t.channels[i], m)] == s.channels[i].strip.At(m) <==>
        HasChannel(loaded.value.channels, t.channels[i]) || LoadedChannels(t)[i].strip.At(m) == UNITY
    {
      PushedAt(controls, base.channels, loaded.value.channels, i, m);
    }
    assert forall i :: 0 <= i < |t.channels| ==> s.channels[i].name == t.channels[i];
  }

  lemma {:induction false} PushedKeys(controls: map<Role, Fader>, channels: seq<Channel>, rows: seq<Channel>)
    ensures Pushed(controls, channels, rows).Keys == controls.Keys
  {
    if rows != [] { PushedKeys(controls, channels, rows[..|rows| - 1]); }
  }
}
