/** The rows a new database starts out with, and what the daemon makes of them. */
module DefaultData {
  import opened Prelude
  import opened Naming
  import opened Mixing
  import opened Routing
  import opened Database
  import opened Requests
  import opened Daemon
  import opened DaemonRuns
  import RoundTrips

  const CHANNELS := ["system", "voice", "music", "browser", "game"]

  const DISCORD := Rule("discord", Prefix, "voice", 100)

  /** In the order of a query, ties as inserted. */
  const RULES := [
    DISCORD,
    Rule("zoom", Prefix, "voice", 100),
    Rule("teams", Prefix, "voice", 100),
    Rule("spotify", Exact, "music", 100),
    Rule("rhythmbox", Exact, "music", 100),
    Rule("steam", Exact, "game", 100),
    Rule("firefox", Exact, "browser", 50),
    Rule("chromium", Prefix, "browser", 50),
    Rule("chrome", Prefix, "browser", 50)]

  function Keyed(rules: seq<Rule>): map<string, Rule> {
    if rules == [] then map[] else Keyed(rules[..|rules| - 1])[rules[|rules| - 1].pattern := rules[|rules| - 1]]
  }

  function NewTables(): Tables {
    Tabled(CHANNELS, RULES)
  }

  lemma {:induction false} KeyedLists(rules: seq<Rule>)
    requires DistinctPatterns(rules)
    ensures forall r :: r in rules ==> r.pattern in Keyed(rules) && Keyed(rules)[r.pattern] == r
    ensures forall p :: p in Keyed(rules) ==> Keyed(rules)[p].pattern == p && Keyed(rules)[p] in rules
  {
    if rules != [] {
      var most, last := rules[..|rules| - 1], rules[|rules| - 1];
      KeyedLists(most);
      assert rules == most + [last];
      assert forall r :: r in most ==> r.pattern != last.pattern;
    }
  }

  /** Length or one of the first two characters tells any two of the patterns apart. */
  lemma PatternsDiffer(i: nat, j: nat)
    requires i < j < |RULES|
    ensures RULES[i].pattern != RULES[j].pattern
  {
    assert |RULES[i].pattern| != |RULES[j].pattern| || RULES[i].pattern[0] != RULES[j].pattern[0];
  }

  lemma RulesDistinct()
    ensures DistinctPatterns(RULES)
  {
    forall i, j | 0 <= i < j < |RULES| ensures RULES[i].pattern != RULES[j].pattern { PatternsDiffer(i, j); }
  }

  lemma RulesSorted()
    ensures SortedByPriority(RULES)
  {
  }

  lemma RulesKnown(r: Rule)
    requires r in RULES
    ensures r.channel in CHANNELS
  {
    var i :| 0 <= i < |RULES| && RULES[i] == r;
    var k := if i < 3 then 1 else if i < 5 then 2 else if i == 5 then 4 else 3;
    assert CHANNELS[k] == r.channel;
  }

  lemma ChannelsDistinct(i: nat, j: nat)
    requires i < j < |CHANNELS|
    ensures CHANNELS[i] != CHANNELS[j]
  {
    assert |CHANNELS[i]| != |CHANNELS[j]| || CHANNELS[i][0] != CHANNELS[j][0];
  }

  function Tabled(channels: seq<string>, rules: seq<Rule>): Tables {
    Tables(channels, map n | n in channels :: UNITY_STRIP, Keyed(rules), map[DEFAULT := ProfileRow(true, None)], map[], map[])
  }

  lemma TabledIsOk(channels: seq<string>, rules: seq<Rule>)
    requires forall i, j :: 0 <= i < j < |channels| ==> channels[i] != channels[j]
    requires DistinctPatterns(rules) && SortedByPriority(rules) && forall r :: r in rules ==> r.channel in channels
    ensures TablesOk(Tabled(channels, rules)) && StateAtUnity(Tabled(channels, rules))
    ensures ListsRules(Tabled(channels, rules).appRoutes, rules)
  {
    KeyedLists(rules);
  }

  /** The tables of a new database are in order. */
  lemma NewTablesAreOk()
    ensures TablesOk(NewTables()) && StateAtUnity(NewTables()) && ListsRules(NewTables().appRoutes, RULES)
  {
    RulesDistinct();
    RulesSorted();
    forall r | r in RULES ensures r.channel in CHANNELS { RulesKnown(r); }
    forall i, j | 0 <= i < j < |CHANNELS| ensures CHANNELS[i] != CHANNELS[j] { ChannelsDistinct(i, j); }
    TabledIsOk(CHANNELS, RULES);
  }

  lemma EmptyOrNot(rules: seq<Rule>)
    ensures rules == [] || exists r :: r in rules
  {
    if rules != [] { assert rules[0] in rules; }
  }

  lemma NoRowsNoRoutes(t: Tables, loaded: Option<Profile>)
    requires t.profileRoutes == map[] && DEFAULT in t.profiles && Loads(t, DEFAULT, loaded)
    ensures loaded.Some? && loaded.value.routes == []
  {
    assert RowsOf(t.profileRoutes, DEFAULT) == map[];
    EmptyOrNot(loaded.value.routes);
  }

  /** So the first start reaches a good state, with the rules of the table. */
  lemma FirstStart(controls: map<Role, Fader>, rules: seq<Rule>, loaded: Option<Profile>, s: State)
    requires Fresh(controls) && Starts(NewTables(), controls, false, rules, loaded, s)
    ensures Good(s) && s.routes == rules
  {
    NewTablesAreOk();
    var t := NewTables();
    StartIsGood(t, controls, rules, loaded, s);
    NoRowsNoRoutes(t, loaded);
  }

  const CANARY := "discordcanary"

  lemma OnlyDiscordMatches(regex: RegexEngine, r: Rule)
    requires r in RULES && Matches(regex, r, CANARY)
    ensures r == DISCORD
  {
    var i :| 0 <= i < |RULES| && RULES[i] == r;
    assert r.patternType != Regex;
    assert r.pattern[0] == CANARY[0];
  }

  /** An earlier rule of the same priority that alone matches keeps deciding. */
  lemma {:induction false} EarlierRuleDecides(regex: RegexEngine, rules: seq<Rule>, r: Rule, newcomer: Rule, name: string)
    requires r in rules && Matches(regex, r, name) && newcomer.priority == r.priority
    requires forall q :: q in rules && Matches(regex, q, name) ==> q == r
    ensures ChannelOfBest(regex, rules + [newcomer], name) == Some(r.channel)
  {
    var all := rules + [newcomer];
    BestOfIsBest(regex, all, name);
    var d :| 0 <= d < |rules| && rules[d] == r;
    assert all[d] == r && Matches(regex, all[d], name);
    var best := BestOf(regex, all, name);
    assert best.Some? && IsBest(regex, all, name, best.value);
    assert best.value < |rules| ==> all[best.value] in rules;
  }

  lemma {:induction false} OverruledBy(regex: RegexEngine, s: State, r: Rule, pattern: string, channel: string,
      loaded: Option<Profile>, t: State)
    requires r in s.routes && Matches(regex, r, pattern) && r.priority == 100
    requires forall q :: q in s.routes ==> q.pattern != pattern && (Matches(regex, q, pattern) ==> q == r)
    requires Follows(s, SetAppRoute(pattern, channel), loaded, t)
    ensures ChannelOfBest(regex, t.routes, pattern) == Some(r.channel)
  {
    RoundTrips.RouteState(s, pattern, channel, loaded, t);
    assert forall k :: 0 <= k < |s.routes| ==> s.routes[k] in s.routes;
    RetainAll(s.routes, pattern);
    EarlierRuleDecides(regex, s.routes, r, NewRule(pattern, channel), pattern);
  }

  lemma ListedAlike(a: seq<Rule>, b: seq<Rule>, r: Rule)
    requires DistinctPatterns(a) && ListsRules(Keyed(a), b)
    ensures r in a <==> r in b
  {
    KeyedLists(a);
  }

  lemma ShortPatterns(r: Rule)
    requires r in RULES
    ensures |r.pattern| < |CANARY|
  {
  }

  lemma DiscordIsListed()
    ensures DISCORD in RULES && StartsWith(CANARY, DISCORD.pattern) && DISCORD.priority == 100
  {
    assert RULES[0] == DISCORD;
  }

  /** `RouteTakesEffectExactlyWhen` has something to say of a new database already: there the
      rule for everything that starts with "discord" keeps an application from its own route. */
  lemma {:induction false} RouteIsOverruled(regex: RegexEngine, s: State, loaded: Option<Profile>, t: State)
    requires ListsRules(Keyed(RULES), s.routes)
    requires Follows(s, SetAppRoute(CANARY, "game"), loaded, t)
    ensures ChannelOfBest(regex, t.routes, CANARY) == Some(DISCORD.channel)
  {
    RulesDistinct();
    DiscordIsListed();
    ListedAlike(RULES, s.routes, DISCORD);
    forall q | q in s.routes ensures q.pattern != CANARY && (Matches(regex, q, CANARY) ==> q == DISCORD) {
      ListedAlike(RULES, s.routes, q);
      ShortPatterns(q);
      if Matches(regex, q, CANARY) { OnlyDiscordMatches(regex, q); }
    }
    OverruledBy(regex, s, DISCORD, CANARY, "game", loaded, t);
  }

  lemma EmptyProfileLoads(t: Tables, p: Profile)
    requires t.profileRoutes == map[] && t.profileChannels == map[] && p.name in t.profiles
    requires t.profiles[p.name] == ProfileRow(p.isDefault, None) && p == Profile(p.name, p.isDefault, [], [], DEFAULT_MIXER)
    ensures Loads(t, p.name, Some(p))
  {
  }

  const NEW_PROFILE := Profile(DEFAULT, true, [], [], DEFAULT_MIXER)

  function FirstState(controls: map<Role, Fader>): State {
    WithProfile(Initial(NewTables(), controls, RULES), NEW_PROFILE)
  }

  lemma FirstStateStarts(controls: map<Role, Fader>)
    requires Fresh(controls)
    ensures Starts(NewTables(), controls, false, RULES, Some(NEW_PROFILE), FirstState(controls))
  {
    NewTablesAreOk();
    EmptyProfileLoads(NewTables(), NEW_PROFILE);
  }

  lemma Asked(s: State, pattern: string, channel: string) returns (t: State)
    requires HasChannel(s.channels, channel)
    ensures Serve(s, Change(SetAppRoute(pattern, channel)), t) && Follows(s, SetAppRoute(pattern, channel), None, t)
  {
    t := Daemon.Effect(s, SetAppRoute(pattern, channel), None);
    assert Follows(s, SetAppRoute(pattern, channel), None, t);
  }

  lemma GameIsChannel(controls: map<Role, Fader>)
    ensures HasChannel(FirstState(controls).channels, "game")
  {
    var channels := LoadedChannels(NewTables());
    assert CHANNELS[4] == "game" && channels[4].name == CHANNELS[4];
    assert Applied(channels, []) == channels;
  }

  /** The request can be made, in the state the first start reaches. */
  lemma {:induction false} OverrulingHappens(regex: RegexEngine, controls: map<Role, Fader>) returns (t: State)
    requires Fresh(controls)
    ensures Starts(NewTables(), controls, false, RULES, Some(NEW_PROFILE), FirstState(controls))
    ensures Serve(FirstState(controls), Change(SetAppRoute(CANARY, "game")), t)
    ensures ChannelOfBest(regex, t.routes, CANARY) == Some(DISCORD.channel)
  {
    FirstStateStarts(controls);
    NewTablesAreOk();
    GameIsChannel(controls);
    t := Asked(FirstState(controls), CANARY, "game");
    RouteIsOverruled(regex, FirstState(controls), None, t);
  }

  lemma MasterAsked(s: State, v: real) returns (t: State)
    requires 0.0 <= v <= 1.0
    ensures Serve(s, Change(SetMasterVolume(Stream, v)), t)
    ensures t.mixer.master.stream.volume == v && t.tables == s.tables && t.routes == s.routes
  {
    t := Daemon.Effect(s, SetMasterVolume(Stream, v), None);
    assert Follows(s, SetMasterVolume(Stream, v), None, t);
  }

  /** A first session that turns the stream master down and saves "Default", and the restart
      after it: the master is up again. */
  lemma RestartForgetsMaster(controls: map<Role, Fader>, v: real) returns (s: State, t: State, u: State)
    requires Fresh(controls) && 0.0 <= v < 1.0
    ensures Serve(FirstState(controls), Change(SetMasterVolume(Stream, v)), s)
    ensures Serve(s, Change(SaveProfile(DEFAULT)), t)
    ensures exists loaded :: Starts(t.tables, controls, false, RULES, loaded, u)
    ensures s.mixer.master.stream.volume == v && u.mixer.master.stream.volume == 1.0
  {
    var first := FirstState(controls);
    FirstStateStarts(controls);
    FirstStart(controls, RULES, Some(NEW_PROFILE), first);
    s := MasterAsked(first, v);
    ServeKeepsGood(first, Change(SetMasterVolume(Stream, v)), s);
    NewTablesAreOk();
    RulesSorted();
    t, u := RoundTrips.MixerIsForgotten(s, controls, RULES);
  }
}
