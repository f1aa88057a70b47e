/** Which channel an application is routed to. */
module Routing {
  import opened Prelude

  datatype PatternType = Exact | Prefix | Regex

  datatype Rule = Rule(pattern: string, patternType: PatternType, channel: string, priority: int)

  /** Whether a regular expression matches a name; an invalid one matches nothing. */
  type RegexEngine = (string, string) -> bool

  const SYSTEM := "system"

  predicate Matches(regex: RegexEngine, rule: Rule, name: string) {
    match rule.patternType
    case Exact => name == rule.pattern
    case Prefix => StartsWith(name, rule.pattern)
    case Regex => regex(rule.pattern, name)
  }

  // ---- The simple form: best match, earliest first --------------------------------

  function BestOf(regex: RegexEngine, rules: seq<Rule>, name: string): (best: Option<nat>)
    ensures best.Some? ==> best.value < |rules|
  {
    if rules == [] then None
    else
      var last := |rules| - 1;
      var best := BestOf(regex, rules[..last], name);
      if Matches(regex, rules[last], name) && (best.None? || rules[last].priority > rules[best.value].priority)
      then Some(last) else best
  }

  function ChannelOfBest(regex: RegexEngine, rules: seq<Rule>, name: string): Option<string> {
    var best := BestOf(regex, rules, name);
    if best.Some? then Some(rules[best.value].channel) else None
  }

  function ChannelFor(regex: RegexEngine, rules: seq<Rule>, app: string, binary: Option<string>): string {
    var byApp := ChannelOfBest(regex, rules, app);
    var byBinary := if binary.Some? then ChannelOfBest(regex, rules, binary.value) else None;
    if byApp.Some? then byApp.value else if byBinary.Some? then byBinary.value else SYSTEM
  }

  /** `a` is tried before `b`. */
  predicate Before(rules: seq<Rule>, a: nat, b: nat)
    requires a < |rules| && b < |rules|
  {
    rules[a].priority > rules[b].priority || (rules[a].priority == rules[b].priority && a < b)
  }

  predicate IsBest(regex: RegexEngine, rules: seq<Rule>, name: string, k: nat) {
    && k < |rules| && Matches(regex, rules[k], name)
    && forall j :: 0 <= j < |rules| && j != k && Matches(regex, rules[j], name) ==> Before(rules, k, j)
  }

  lemma {:induction false} BestOfIsBest(regex: RegexEngine, rules: seq<Rule>, name: string)
    ensures match BestOf(regex, rules, name)
      case Some(k) => IsBest(regex, rules, name, k)
      case None => forall j :: 0 <= j < |rules| ==> !Matches(regex, rules[j], name)
  {
    if rules != [] {
      var most := rules[..|rules| - 1];
      BestOfIsBest(regex, most, name);
      assert forall j :: 0 <= j < |most| ==> most[j] == rules[j];
    }
  }

  lemma {:induction false} BestIsUnique(regex: RegexEngine, rules: seq<Rule>, name: string, k: nat)
    requires IsBest(regex, rules, name, k)
    ensures BestOf(regex, rules, name) == Some(k)
  {
    BestOfIsBest(regex, rules, name);
  }

  /** An exact rule is for one name, case and all; a prefix rule for every name that starts with
      it; a regular expression for the names it matches. */
  lemma {:induction false} KindsOfRules(regex: RegexEngine, pattern: string, name: string, channel: string, priority: int)
    ensures Matches(regex, Rule(pattern, Exact, channel, priority), name) <==> name == pattern
    ensures Matches(regex, Rule(pattern, Prefix, channel, priority), name) <==> exists rest :: name == pattern + rest
    ensures Matches(regex, Rule(pattern, Regex, channel, priority), name) <==> regex(pattern, name)
  {
    if |pattern| <= |name| && name[..|pattern|] == pattern {
      assert name == pattern + name[|pattern|..];
    }
    if rest :| name == pattern + rest { assert name[..|pattern|] == pattern; }
  }

  lemma {:induction false} KindsDiffer(regex: RegexEngine)
    ensures Matches(regex, Rule("spotify", Exact, "music", 100), "spotify")
    ensures !Matches(regex, Rule("spotify", Exact, "music", 100), "Spotify")
    ensures !Matches(regex, Rule("spotify", Exact, "music", 100), "spotify-player")
    ensures Matches(regex, Rule("discord", Prefix, "voice", 100), "discord-canary")
    ensures !Matches(regex, Rule("discord", Prefix, "voice", 100), "my-discord")
  {
    assert "Spotify"[0] != "spotify"[0] && |"spotify-player"| != |"spotify"|;
    assert "discord-canary"[..7] == "discord" && "my-discord"[..7][0] != "discord"[0];
  }

  predicate NoneMatches(regex: RegexEngine, rules: seq<Rule>, name: string) {
    forall j :: 0 <= j < |rules| ==> !Matches(regex, rules[j], name)
  }

  /** A rule for the application's name decides before one for its binary's, and "system" when
      neither has any. */
  lemma {:induction false} NameBeforeBinary(regex: RegexEngine, rules: seq<Rule>, app: string, binary: Option<string>)
    ensures forall k: nat :: IsBest(regex, rules, app, k) ==> ChannelFor(regex, rules, app, binary) == rules[k].channel
    ensures NoneMatches(regex, rules, app) && binary.Some? ==> forall k: nat ::
      IsBest(regex, rules, binary.value, k) ==> ChannelFor(regex, rules, app, binary) == rules[k].channel
    ensures NoneMatches(regex, rules, app) && (binary.Some? ==> NoneMatches(regex, rules, binary.value)) ==>
      ChannelFor(regex, rules, app, binary) == "system"
  {
    BestOfIsBest(regex, rules, app);
    if binary.Some? { BestOfIsBest(regex, rules, binary.value); }
    forall k: nat | IsBest(regex, rules, app, k) ensures BestOf(regex, rules, app) == Some(k) { BestIsUnique(regex, rules, app, k); }
    if binary.Some? {
      forall k: nat | IsBest(regex, rules, binary.value, k) ensures BestOf(regex, rules, binary.value) == Some(k) {
        BestIsUnique(regex, rules, binary.value, k);
      }
    }
  }

  // ---- The source's form: stable sort, then first match ------------------------------

  /** `order` lists the positions of `rules` from highest priority to lowest, ties in place. */
  predicate StableOrder(rules: seq<Rule>, order: seq<nat>) {
    && |order| == |rules| && (forall i :: 0 <= i < |order| ==> order[i] < |rules|)
    && (forall i, j :: 0 <= i < j < |order| ==> Before(rules, order[i], order[j]))
    && (forall k :: 0 <= k < |rules| ==> k in order)
  }

  predicate Arranged(rules: seq<Rule>, order: seq<nat>, sorted: seq<Rule>) {
    && |sorted| == |order|
    && forall i :: 0 <= i < |order| ==> order[i] < |rules| && sorted[i] == rules[order[i]]
  }

  function Inserted<T>(s: seq<T>, i: nat, x: T): seq<T>
    requires i <= |s|
  {
    s[..i] + [x] + s[i..]
  }

  lemma InsertedAt<T>(s: seq<T>, i: nat, x: T, k: nat)
    requires i <= |s| && k <= |s|
    ensures Inserted(s, i, x)[k] == if k < i then s[k] else if k == i then x else s[k - 1]
  {
  }

  lemma OrderGrows(rules: seq<Rule>, order: seq<nat>, n: nat, i: nat)
    requires n < |rules| && StableOrder(rules[..n], order) && i <= n
    requires forall k :: 0 <= k < i ==> rules[order[k]].priority >= rules[n].priority
    requires i < n ==> rules[order[i]].priority < rules[n].priority
    ensures StableOrder(rules[..n + 1], Inserted(order, i, n))
  {
    var more, longer := rules[..n + 1], Inserted(order, i, n);
    forall a | 0 <= a < |longer| ensures longer[a] < n + 1 { InsertedAt(order, i, n, a); }
    forall a, b | 0 <= a < b < |longer| ensures Before(more, longer[a], longer[b]) {
      OrderGrowsAt(rules, order, n, i, a, b);
    }
    forall k | 0 <= k < n + 1 ensures k in longer {
      OrderCovers(order, n, i, k);
    }
  }

  lemma OrderCovers(order: seq<nat>, n: nat, i: nat, k: nat)
    requires |order| == n && i <= n && (k in order || k == n)
    ensures k in Inserted(order, i, n)
  {
    if k in order {
      var j :| 0 <= j < n && order[j] == k;
      InsertedAt(order, i, n, if j < i then j else j + 1);
    } else {
      InsertedAt(order, i, n, i);
    }
  }

  lemma ArrangedGrows(rules: seq<Rule>, order: seq<nat>, sorted: seq<Rule>, n: nat, i: nat)
    requires n < |rules| && Arranged(rules, order, sorted) && i <= |order|
    ensures Arranged(rules, Inserted(order, i, n), Inserted(sorted, i, rules[n]))
  {
    forall a | 0 <= a <= |order| ensures var longer := Inserted(order, i, n);
      longer[a] < |rules| && Inserted(sorted, i, rules[n])[a] == rules[longer[a]]
    {
      InsertedAt(order, i, n, a);
      InsertedAt(sorted, i, rules[n], a);
    }
  }

  lemma OrderGrowsAt(rules: seq<Rule>, order: seq<nat>, n: nat, i: nat, a: nat, b: nat)
    requires n < |rules| && StableOrder(rules[..n], order) && i <= n
    requires forall k :: 0 <= k < i ==> rules[order[k]].priority >= rules[n].priority
    requires i < n ==> rules[order[i]].priority < rules[n].priority
    requires a < b < n + 1
    ensures var longer := Inserted(order, i, n);
      longer[a] < n + 1 && longer[b] < n + 1 && Before(rules[..n + 1], longer[a], longer[b])
  {
    InsertedAt(order, i, n, a);
    InsertedAt(order, i, n, b);
    var x, y := if a < i then a else a - 1, if b < i then b else b - 1;
    if a != i && b != i {
      assert Before(rules[..n], order[x], order[y]);
    } else if a == i && i < y {
      assert Before(rules[..n], order[i], order[y]);
    }
  }

  ghost predicate StablySorted(rules: seq<Rule>, sorted: seq<Rule>) {
    exists order :: StableOrder(rules, order) && Arranged(rules, order, sorted)
  }

  method SortByPriority(rules: seq<Rule>) returns (sorted: seq<Rule>)
    ensures StablySorted(rules, sorted)
  {
    sorted := [];
    ghost var order: seq<nat> := [];
    for n := 0 to |rules|
      invariant StableOrder(rules[..n], order) && Arranged(rules, order, sorted)
    {
      var i := 0;
      while i < n && sorted[i].priority >= rules[n].priority
        invariant i <= n
        invariant forall k :: 0 <= k < i ==> sorted[k].priority >= rules[n].priority
      {
        i := i + 1;
      }
      OrderGrows(rules, order, n, i);
      ArrangedGrows(rules, order, sorted, n, i);
      sorted, order := Inserted(sorted, i, rules[n]), Inserted(order, i, n);
    }
    assert rules[..|rules|] == rules;
  }

  method FirstMatch(regex: RegexEngine, sorted: seq<Rule>, name: string) returns (i: nat)
    ensures i <= |sorted|
    ensures i < |sorted| ==> Matches(regex, sorted[i], name)
    ensures forall j :: 0 <= j < i ==> !Matches(regex, sorted[j], name)
  {
    i := 0;
    while i < |sorted|
      invariant i <= |sorted|
      invariant forall j :: 0 <= j < i ==> !Matches(regex, sorted[j], name)
    {
      if Matches(regex, sorted[i], name) { return; }
      i := i + 1;
    }
  }

  lemma {:induction false} FirstIsBest(regex: RegexEngine, rules: seq<Rule>, order: seq<nat>, sorted: seq<Rule>, name: string, i: nat)
    requires StableOrder(rules, order) && Arranged(rules, order, sorted) && i <= |sorted|
    requires i < |sorted| ==> Matches(regex, sorted[i], name)
    requires forall j :: 0 <= j < i ==> !Matches(regex, sorted[j], name)
    ensures BestOf(regex, rules, name) == if i < |sorted| then Some(order[i]) else None
  {
    if i < |sorted| {
      forall j | 0 <= j < |rules| && j != order[i] && Matches(regex, rules[j], name) ensures Before(rules, order[i], j) {
        assert j in order;
        var x :| 0 <= x < |order| && order[x] == j;
      }
      BestIsUnique(regex, rules, name, order[i]);
    } else {
      forall j | 0 <= j < |rules| ensures !Matches(regex, rules[j], name) {
        assert j in order;
        var x :| 0 <= x < |order| && order[x] == j;
      }
      BestOfIsBest(regex, rules, name);
    }
  }

  /** Sorting, then scanning for the name and again for the binary, finds the best rule. */
  method FindChannelForApp(regex: RegexEngine, app: string, binary: Option<string>, rules: seq<Rule>) returns (channel: string)
    ensures channel == ChannelFor(regex, rules, app, binary)
  {
    var sorted := SortByPriority(rules);
    ghost var order :| StableOrder(rules, order) && Arranged(rules, order, sorted);
    var i := FirstMatch(regex, sorted, app);
    FirstIsBest(regex, rules, order, sorted, app, i);
    if i < |sorted| { return sorted[i].channel; }
    if binary.Some? {
      i := FirstMatch(regex, sorted, binary.value);
      FirstIsBest(regex, rules, order, sorted, binary.value, i);
      if i < |sorted| { return sorted[i].channel; }
    }
    channel := SYSTEM;
  }

  // ---- When the order of the rules matters ---------------------------------------------

  predicate Top(regex: RegexEngine, rules: set<Rule>, name: string, r: Rule) {
    r in rules && Matches(regex, r, name)
    && forall s :: s in rules && Matches(regex, s, name) ==> s.priority <= r.priority
  }

  /** No two of the highest-priority rules matching the name send it to different channels. */
  ghost predicate TopAgree(regex: RegexEngine, rules: set<Rule>, name: string) {
    forall r, s :: Top(regex, rules, name, r) && Top(regex, rules, name, s) ==> r.channel == s.channel
  }

  function SetOf(rules: seq<Rule>): set<Rule> {
    set r | r in rules
  }

  lemma {:induction false} BestIsTop(regex: RegexEngine, rules: seq<Rule>, name: string)
    ensures match BestOf(regex, rules, name)
      case Some(k) => Top(regex, SetOf(rules), name, rules[k])
      case None => forall r :: r in rules ==> !Matches(regex, r, name)
  {
    BestOfIsBest(regex, rules, name);
  }

  lemma {:induction false} SameChoice(regex: RegexEngine, rules: seq<Rule>, others: seq<Rule>, name: string)
    requires SetOf(rules) == SetOf(others) && TopAgree(regex, SetOf(rules), name)
    ensures ChannelOfBest(regex, rules, name) == ChannelOfBest(regex, others, name)
  {
    BestIsTop(regex, rules, name);
    BestIsTop(regex, others, name);
    assert forall r :: r in rules <==> r in SetOf(rules);
    assert forall r :: r in others <==> r in SetOf(others);
  }

  /** Put first, a top rule decides. */
  lemma {:induction false} FirstTopWins(regex: RegexEngine, rules: seq<Rule>, name: string, r: Rule)
    requires Top(regex, SetOf(rules), name, r)
    ensures SetOf([r] + rules) == SetOf(rules)
    ensures ChannelOfBest(regex, [r] + rules, name) == Some(r.channel)
  {
    assert r in SetOf(rules);
    BestIsUnique(regex, [r] + rules, name, 0);
  }

  /** A name's channel survives every reordering (or repetition) of the rules exactly when the
      top rules matching it agree. */
  lemma {:induction false} OrderIrrelevantExactlyWhen(regex: RegexEngine, rules: seq<Rule>, name: string)
    ensures TopAgree(regex, SetOf(rules), name) <==>
      forall others :: SetOf(others) == SetOf(rules) ==>
        ChannelOfBest(regex, others, name) == ChannelOfBest(regex, rules, name)
  {
    if TopAgree(regex, SetOf(rules), name) {
      forall others | SetOf(others) == SetOf(rules)
        ensures ChannelOfBest(regex, others, name) == ChannelOfBest(regex, rules, name)
      {
        SameChoice(regex, rules, others, name);
      }
    } else {
      var r, s :| Top(regex, SetOf(rules), name, r) && Top(regex, SetOf(rules), name, s) && r.channel != s.channel;
      FirstTopWins(regex, rules, name, r);
      FirstTopWins(regex, rules, name, s);
    }
  }

  /** A decision that no tie can change: the rules agree on the name and, should no rule match
      that, on the binary. */
  ghost predicate Unambiguous(regex: RegexEngine, rules: set<Rule>, app: string, binary: Option<string>) {
    TopAgree(regex, rules, app) && (binary.Some? ==> TopAgree(regex, rules, binary.value))
  }

  lemma {:induction false} SameDecision(regex: RegexEngine, rules: seq<Rule>, others: seq<Rule>, app: string, binary: Option<string>)
    requires SetOf(rules) == SetOf(others) && Unambiguous(regex, SetOf(rules), app, binary)
    ensures ChannelFor(regex, rules, app, binary) == ChannelFor(regex, others, app, binary)
  {
    SameChoice(regex, rules, others, app);
    if binary.Some? { SameChoice(regex, rules, others, binary.value); }
  }

  /** A new rule put at the end of the list loses every tie to the rules already there. */
  lemma {:induction false} NewcomerLosesTies(regex: RegexEngine, rules: seq<Rule>, r: Rule, name: string)
    ensures ChannelOfBest(regex, rules + [r], name) ==
      (var found := BestOf(regex, rules, name);
       if Matches(regex, r, name) && (found.None? || r.priority > rules[found.value].priority) then Some(r.channel)
       else ChannelOfBest(regex, rules, name))
  {
    assert (rules + [r])[..|rules|] == rules;
  }
}
