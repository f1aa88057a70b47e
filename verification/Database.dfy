/** The SQLite tables the daemon uses, as maps from their keys. */
module Database {
  import opened Prelude
  import opened Mixing
  import opened Routing

  datatype Profile = Profile(name: string, isDefault: bool, channels: seq<Channel>, routes: seq<Rule>, mixer: Mixer)

  /** `mixer` is NULL in a profile that predates the column. */
  datatype ProfileRow = ProfileRow(isDefault: bool, mixer: Option<Mixer>)

  datatype Tables = Tables(
    channels: seq<string>,
    channelState: map<string, Strip>,
    appRoutes: map<string, Rule>,
    profiles: map<string, ProfileRow>,
    profileChannels: map<(string, string), Strip>,
    profileRoutes: map<(string, string), Rule>)

  const DEFAULT := "Default"

  // ---- Constraints ----------------------------------------------------------------

  predicate DistinctNames(channels: seq<Channel>) {
    forall i, j :: 0 <= i < j < |channels| ==> channels[i].name != channels[j].name
  }

  predicate DistinctPatterns(rules: seq<Rule>) {
    forall i, j :: 0 <= i < j < |rules| ==> rules[i].pattern != rules[j].pattern
  }

  /** Rules keyed by their own pattern, all for known channels. */
  predicate RulesKeyed(rows: map<string, Rule>, channels: seq<string>) {
    forall p :: p in rows ==> rows[p].pattern == p && rows[p].channel in channels
  }

  /** Keys, foreign keys, and exactly one default profile. */
  predicate Consistent(t: Tables) {
    && (forall i, j :: 0 <= i < j < |t.channels| ==> t.channels[i] != t.channels[j])
    && RulesKeyed(t.appRoutes, t.channels)
    && (forall k :: k in t.profileChannels ==> k.0 in t.profiles && k.1 in t.channels)
    && (forall k :: k in t.profileRoutes ==>
          k.0 in t.profiles && t.profileRoutes[k].pattern == k.1 && t.profileRoutes[k].channel in t.channels)
    && DEFAULT in t.profiles
    && (forall p :: p in t.profiles ==> (t.profiles[p].isDefault <==> p == DEFAULT))
  }

  // ---- What a save writes -----------------------------------------------------------

  function Without<V>(m: map<(string, string), V>, profile: string): map<(string, string), V> {
    map k | k in m && k.0 != profile :: m[k]
  }

  function RowsOf<V>(m: map<(string, string), V>, profile: string): map<string, V> {
    map k | k in m && k.0 == profile :: k.1 := m[k]
  }

  function StripRows(profile: string, channels: seq<Channel>, known: seq<string>): map<(string, string), Strip> {
    if channels == [] then map[]
    else
      var last := channels[|channels| - 1];
      StripRows(profile, channels[..|channels| - 1], known)
      + OneStrip(profile, last, known)
  }

  /** A row is written only for a channel the database knows. */
  function OneStrip(profile: string, c: Channel, known: seq<string>): map<(string, string), Strip> {
    if c.name in known then map[(profile, c.name) := c.strip] else map[]
  }

  function RouteRows(profile: string, rules: seq<Rule>, known: seq<string>): map<(string, string), Rule> {
    if rules == [] then map[]
    else
      var last := rules[|rules| - 1];
      RouteRows(profile, rules[..|rules| - 1], known)
      + OneRule(profile, last, known)
  }

  function OneRule(profile: string, r: Rule, known: seq<string>): map<(string, string), Rule> {
    if r.channel in known then map[(profile, r.pattern) := r] else map[]
  }

  function Saved(t: Tables, p: Profile): Tables {
    t.(profiles := t.profiles[p.name := ProfileRow(p.isDefault, Some(p.mixer))],
       profileChannels := Without(t.profileChannels, p.name) + StripRows(p.name, p.channels, t.channels),
       profileRoutes := Without(t.profileRoutes, p.name) + RouteRows(p.name, p.routes, t.channels))
  }

  /** Deleting a profile takes its channel and route rows with it. */
  function Deleted(t: Tables, name: string): Tables {
    t.(profiles := t.profiles - {name},
       profileChannels := Without(t.profileChannels, name),
       profileRoutes := Without(t.profileRoutes, name))
  }

  // ---- What a query may answer --------------------------------------------------------

  predicate SortedByPriority(rules: seq<Rule>) {
    forall i, j :: 0 <= i < j < |rules| ==> rules[i].priority >= rules[j].priority
  }

  /** Each row once, highest priority first; ties in any order. */
  predicate ListsRules(rows: map<string, Rule>, rules: seq<Rule>) {
    && DistinctPatterns(rules) && SortedByPriority(rules)
    && (forall r :: r in rules ==> r.pattern in rows && rows[r.pattern] == r)
    && (forall p :: p in rows ==> rows[p] in rules)
  }

  /** Each row once, in any order. */
  predicate ListsStrips(rows: map<string, Strip>, channels: seq<Channel>) {
    && DistinctNames(channels)
    && (forall c :: c in channels ==> c.name in rows && rows[c.name] == c.strip)
    && (forall n :: n in rows ==> Channel(n, rows[n]) in channels)
  }

  predicate Loads(t: Tables, name: string, r: Option<Profile>) {
    match r
    case None => name !in t.profiles
    case Some(p) =>
      && name in t.profiles && p.name == name && p.isDefault == t.profiles[name].isDefault
      && p.mixer == (if t.profiles[name].mixer.Some? then t.profiles[name].mixer.value else DEFAULT_MIXER)
      && ListsStrips(RowsOf(t.profileChannels, name), p.channels)
      && ListsRules(RowsOf(t.profileRoutes, name), p.routes)
  }

  function LoadedChannels(t: Tables): seq<Channel> {
    seq(|t.channels|, i requires 0 <= i < |t.channels| =>
      Channel(t.channels[i], if t.channels[i] in t.channelState then t.channelState[t.channels[i]] else UNITY_STRIP))
  }

  class Connection {
    var channels: seq<string>
    var channelState: map<string, Strip>
    var appRoutes: map<string, Rule>
    var profiles: map<string, ProfileRow>
    var profileChannels: map<(string, string), Strip>
    var profileRoutes: map<(string, string), Rule>

    function View(): Tables reads this {
      Tables(channels, channelState, appRoutes, profiles, profileChannels, profileRoutes)
    }

    constructor (t: Tables)
      ensures View() == t
    {
      channels, channelState, appRoutes := t.channels, t.channelState, t.appRoutes;
      profiles, profileChannels, profileRoutes := t.profiles, t.profileChannels, t.profileRoutes;
    }

    method LoadChannels() returns (r: seq<Channel>)
      ensures r == LoadedChannels(View())
    {
      r := [];
      for n := 0 to |channels|
        invariant |r| == n && forall i :: 0 <= i < n ==> r[i] == LoadedChannels(View())[i]
      {
        var strip := if channels[n] in channelState then channelState[channels[n]] else UNITY_STRIP;
        r := r + [Channel(channels[n], strip)];
      }
    }

    method LoadRoutes() returns (rules: seq<Rule>)
      requires Consistent(View())
      ensures ListsRules(appRoutes, rules)
    {
      rules := ListByPriority(appRoutes);
    }

    /** Fails, for want of a channel id, when the channel is unknown. */
    method SaveRoute(rule: Rule) returns (ok: bool)
      modifies this`appRoutes
      ensures ok <==> rule.channel in channels
      ensures appRoutes == if ok then old(appRoutes)[rule.pattern := rule] else old(appRoutes)
    {
      ok := rule.channel in channels;
      if ok { appRoutes := appRoutes[rule.pattern := rule]; }
    }

    method DeleteRoute(pattern: string)
      modifies this`appRoutes
      ensures appRoutes == old(appRoutes) - {pattern}
    {
      appRoutes := appRoutes - {pattern};
    }

    /** One statement at a time and no transaction: a key violation leaves the rows written
        before it. */
    method SaveProfile(p: Profile) returns (ok: bool)
      modifies this`profiles, this`profileChannels, this`profileRoutes
      ensures DistinctNames(p.channels) && DistinctPatterns(p.routes) ==> ok
      ensures ok ==> View() == Saved(old(View()), p)
      ensures Without(profileChannels, p.name) == Without(old(profileChannels), p.name)
      ensures Without(profileRoutes, p.name) == Without(old(profileRoutes), p.name)
      ensures profiles == old(profiles)[p.name := ProfileRow(p.isDefault, Some(p.mixer))]
    {
      profiles := profiles[p.name := ProfileRow(p.isDefault, Some(p.mixer))];
      ok := SaveStrips(p.name, p.channels);
      if !ok { return; }
      ok := SaveRules(p.name, p.routes);
    }

    method SaveStrips(profile: string, strips: seq<Channel>) returns (ok: bool)
      modifies this`profileChannels
      ensures DistinctNames(strips) ==> ok
      ensures ok ==> profileChannels == Without(old(profileChannels), profile) + StripRows(profile, strips, channels)
      ensures Without(profileChannels, profile) == Without(old(profileChannels), profile)
    {
      ghost var rest := Without(profileChannels, profile);
      profileChannels := Without(profileChannels, profile);
      for n := 0 to |strips|
        invariant profileChannels == rest + StripRows(profile, strips[..n], channels)
        invariant Without(profileChannels, profile) == rest
      {
        StripRowsNext(rest, profile, strips, n, channels);
        ok := InsertStrip(profile, strips[n]);
        if !ok { return; }
      }
      assert strips[..|strips|] == strips;
      ok := true;
    }

    method InsertStrip(profile: string, c: Channel) returns (ok: bool)
      modifies this`profileChannels
      ensures ok <==> (c.name in channels ==> (profile, c.name) !in old(profileChannels))
      ensures profileChannels == if ok then old(profileChannels) + OneStrip(profile, c, channels) else old(profileChannels)
      ensures Without(profileChannels, profile) == Without(old(profileChannels), profile)
    {
      ok := c.name in channels ==> (profile, c.name) !in profileChannels;
      if ok && c.name in channels { profileChannels := profileChannels[(profile, c.name) := c.strip]; }
    }

    method SaveRules(profile: string, rules: seq<Rule>) returns (ok: bool)
      modifies this`profileRoutes
      ensures DistinctPatterns(rules) ==> ok
      ensures ok ==> profileRoutes == Without(old(profileRoutes), profile) + RouteRows(profile, rules, channels)
      ensures Without(profileRoutes, profile) == Without(old(profileRoutes), profile)
    {
      ghost var rest := Without(profileRoutes, profile);
      profileRoutes := Without(profileRoutes, profile);
      for n := 0 to |rules|
        invariant profileRoutes == rest + RouteRows(profile, rules[..n], channels)
        invariant Without(profileRoutes, profile) == rest
      {
        RouteRowsNext(rest, profile, rules, n, channels);
        ok := InsertRule(profile, rules[n]);
        if !ok { return; }
      }
      assert rules[..|rules|] == rules;
      ok := true;
    }

    method InsertRule(profile: string, r: Rule) returns (ok: bool)
      modifies this`profileRoutes
      ensures ok <==> (r.channel in channels ==> (profile, r.pattern) !in old(profileRoutes))
      ensures profileRoutes == if ok then old(profileRoutes) + OneRule(profile, r, channels) else old(profileRoutes)
      ensures Without(profileRoutes, profile) == Without(old(profileRoutes), profile)
    {
      ok := r.channel in channels ==> (profile, r.pattern) !in profileRoutes;
      if ok && r.channel in channels { profileRoutes := profileRoutes[(profile, r.pattern) := r]; }
    }

    method LoadProfile(name: string) returns (r: Option<Profile>)
      requires Consistent(View())
      ensures Loads(View(), name, r)
    {
      if name !in profiles { return None; }
      var row := profiles[name];
      var mixer := if row.mixer.Some? then row.mixer.value else DEFAULT_MIXER;
      var strips := ListStrips(RowsOf(profileChannels, name));
      assert RulesKeyed(RowsOf(profileRoutes, name), channels);
      var rules := ListByPriority(RowsOf(profileRoutes, name));
      r := Some(Profile(name, row.isDefault, strips, rules, mixer));
    }

    method DeleteProfile(name: string) returns (deleted: bool)
      modifies this`profiles, this`profileChannels, this`profileRoutes
      ensures deleted <==> name in old(profiles) && !old(profiles)[name].isDefault
      ensures View() == if deleted then Deleted(old(View()), name) else old(View())
    {
      var isDefault := name in profiles && profiles[name].isDefault;
      if isDefault { return false; }
      deleted := name in profiles;
      if deleted {
        profiles := profiles - {name};
        profileChannels := Without(profileChannels, name);
        profileRoutes := Without(profileRoutes, name);
      }
    }

    method GetDefaultProfile() returns (r: Option<string>)
      ensures match r
        case None => forall p :: p in profiles ==> !profiles[p].isDefault
        case Some(p) => p in profiles && profiles[p].isDefault
    {
      if p :| p in profiles && profiles[p].isDefault { r := Some(p); } else { r := None; }
    }
  }

  lemma {:induction false} StripRowsKeys(profile: string, strips: seq<Channel>, known: seq<string>)
    ensures forall k :: k in StripRows(profile, strips, known) <==>
      k.0 == profile && k.1 in known && exists i :: 0 <= i < |strips| && strips[i].name == k.1
  {
    if strips != [] {
      var most, last := strips[..|strips| - 1], strips[|strips| - 1];
      StripRowsKeys(profile, most, known);
      assert forall i :: 0 <= i < |most| ==> most[i] == strips[i];
      assert strips[|strips| - 1].name == last.name;
    }
  }

  lemma {:induction false} RouteRowsKeys(profile: string, rules: seq<Rule>, known: seq<string>)
    ensures forall k :: k in RouteRows(profile, rules, known) <==>
      k.0 == profile && exists i :: 0 <= i < |rules| && rules[i].pattern == k.1 && rules[i].channel in known
  {
    if rules != [] {
      var most, last := rules[..|rules| - 1], rules[|rules| - 1];
      RouteRowsKeys(profile, most, known);
      assert forall i :: 0 <= i < |most| ==> most[i] == rules[i];
      assert rules[|rules| - 1].pattern == last.pattern;
    }
  }

  lemma StripRowsNext(rest: map<(string, string), Strip>, profile: string, strips: seq<Channel>, n: nat, known: seq<string>)
    requires n < |strips| && forall k :: k in rest ==> k.0 != profile
    ensures rest + StripRows(profile, strips[..n + 1], known)
         == rest + StripRows(profile, strips[..n], known) + OneStrip(profile, strips[n], known)
    ensures DistinctNames(strips) ==> (profile, strips[n].name) !in rest + StripRows(profile, strips[..n], known)
  {
    assert strips[..n + 1][..n] == strips[..n];
    StripRowsKeys(profile, strips[..n], known);
  }

  lemma RouteRowsNext(rest: map<(string, string), Rule>, profile: string, rules: seq<Rule>, n: nat, known: seq<string>)
    requires n < |rules| && forall k :: k in rest ==> k.0 != profile
    ensures rest + RouteRows(profile, rules[..n + 1], known)
         == rest + RouteRows(profile, rules[..n], known) + OneRule(profile, rules[n], known)
    ensures DistinctPatterns(rules) ==> (profile, rules[n].pattern) !in rest + RouteRows(profile, rules[..n], known)
  {
    assert rules[..n + 1][..n] == rules[..n];
    Associates(rest, RouteRows(profile, rules[..n], known), OneRule(profile, rules[n], known));
    RouteRowsKeys(profile, rules[..n], known);
  }

  lemma Associates<V>(a: map<(string, string), V>, b: map<(string, string), V>, c: map<(string, string), V>)
    ensures a + (b + c) == a + b + c
  {
  }

  method ListStrips(rows: map<string, Strip>) returns (strips: seq<Channel>)
    ensures ListsStrips(rows, strips)
  {
    strips := [];
    var names := rows.Keys;
    while names != {}
      invariant names <= rows.Keys && DistinctNames(strips)
      invariant forall c :: c in strips ==> c.name in rows && c.name !in names && rows[c.name] == c.strip
      invariant forall n :: n in rows && n !in names ==> Channel(n, rows[n]) in strips
      decreases |names|
    {
      var n :| n in names;
      names := names - {n};
      strips := strips + [Channel(n, rows[n])];
    }
  }

  method ListByPriority(rows: map<string, Rule>) returns (rules: seq<Rule>)
    requires forall p :: p in rows ==> rows[p].pattern == p
    ensures ListsRules(rows, rules)
  {
    rules := [];
    var patterns := rows.Keys;
    while patterns != {}
      invariant patterns <= rows.Keys && DistinctPatterns(rules) && SortedByPriority(rules)
      invariant forall r :: r in rules ==> r.pattern in rows && r.pattern !in patterns && rows[r.pattern] == r
      invariant forall p :: p in rows && p !in patterns ==> rows[p] in rules
      decreases |patterns|
    {
      var p :| p in patterns;
      patterns := patterns - {p};
      rules := InsertByPriority(rules, rows[p]);
    }
  }

  method InsertByPriority(rules: seq<Rule>, r: Rule) returns (more: seq<Rule>)
    requires DistinctPatterns(rules) && SortedByPriority(rules)
    requires forall s :: s in rules ==> s.pattern != r.pattern
    ensures DistinctPatterns(more) && SortedByPriority(more)
    ensures forall s :: s in more <==> s in rules || s == r
  {
    var i := 0;
    while i < |rules| && rules[i].priority >= r.priority
      invariant i <= |rules|
      invariant forall k :: 0 <= k < i ==> rules[k].priority >= r.priority
    {
      i := i + 1;
    }
    more := rules[..i] + [r] + rules[i..];
    InsertedAt(rules, r, i);
  }

  lemma InsertedAt(rules: seq<Rule>, r: Rule, i: nat)
    requires DistinctPatterns(rules) && SortedByPriority(rules) && i <= |rules|
    requires forall s :: s in rules ==> s.pattern != r.pattern
    requires forall k :: 0 <= k < i ==> rules[k].priority >= r.priority
    requires i < |rules| ==> rules[i].priority < r.priority
    ensures var more := rules[..i] + [r] + rules[i..];
      DistinctPatterns(more) && SortedByPriority(more) && forall s :: s in more <==> s in rules || s == r
  {
    var more := rules[..i] + [r] + rules[i..];
    forall a, b | 0 <= a < b < |more| ensures more[a].pattern != more[b].pattern && more[a].priority >= more[b].priority {
      InsertedPair(rules, r, i, a, b);
    }
    assert rules == rules[..i] + rules[i..];
  }

  lemma InsertedPair(rules: seq<Rule>, r: Rule, i: nat, a: nat, b: nat)
    requires DistinctPatterns(rules) && SortedByPriority(rules) && i <= |rules|
    requires forall s :: s in rules ==> s.pattern != r.pattern
    requires forall k :: 0 <= k < i ==> rules[k].priority >= r.priority
    requires i < |rules| ==> rules[i].priority < r.priority
    requires a < b <= |rules|
    ensures var more := rules[..i] + [r] + rules[i..];
      more[a].pattern != more[b].pattern && more[a].priority >= more[b].priority
  {
    if a == i {
      assert rules[b - 1] in rules;
    } else if b == i {
      assert rules[a] in rules;
    }
  }
}
