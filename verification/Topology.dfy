/** Where audio can flow after start-up: channel, its own filter, that filter's mix, and no further
    than the headphones. */
module Topology {
  import opened Prelude
  import opened Naming
  import opened Graph
  import opened StartUp

  predicate IsMonitorMix(nodes: map<nat, NodeInfo>, id: nat) {
    Named(nodes, id, MixNodeName(Monitor))
  }

  /** `a` to `b` is one of the two links of channel `c` and mix `m`. */
  predicate IsLeg(nodes: map<nat, NodeInfo>, c: string, m: MixType, a: nat, b: nat) {
    && IsUndertoneChannel(NodeName(c))
    && (|| (Named(nodes, a, NodeName(c)) && Named(nodes, b, VolNodeName(c, m)))
        || (Named(nodes, a, VolNodeName(c, m)) && Named(nodes, b, MixNodeName(m))))
  }

  ghost predicate SomeLeg(nodes: map<nat, NodeInfo>, a: nat, b: nat) {
    exists c, m :: IsLeg(nodes, c, m, a, b)
  }

  /** `out` is the headphone sink that `link_monitor_to_headphones` found, if any. */
  ghost predicate Wired(nodes: map<nat, NodeInfo>, linked: set<(nat, nat)>, out: Option<nat>) {
    && (out.Some? ==> out.value in nodes && !StartsWith(nodes[out.value].name, "ut-"))
    && forall a, b :: (a, b) in linked ==> SomeLeg(nodes, a, b) || (IsMonitorMix(nodes, a) && out == Some(b))
  }

  predicate Path(linked: set<(nat, nat)>, p: seq<nat>) {
    p != [] && forall k :: 0 <= k < |p| - 1 ==> (p[k], p[k + 1]) in linked
  }

  ghost predicate Reaches(linked: set<(nat, nat)>, a: nat, b: nat) {
    exists p :: Path(linked, p) && p[0] == a && p[|p| - 1] == b
  }

  // ---- Start-up wires nothing else ----------------------------------------------

  lemma BaseOfChannel(name: string)
    requires IsUndertoneChannel(name)
    ensures NodeName(Base(name)) == name
  {
  }

  lemma LegsAreLegs(nodes: map<nat, NodeInfo>, w: Wiring, k: nat)
    requires WellKeyed(nodes) && PlanIsSound(nodes, [w]) && k < 4
    ensures IsLeg(nodes, Base(w.channel.node.name), if k < 2 then Stream else Monitor, Legs(w)[k].0, Legs(w)[k].1)
  {
    assert w in [w];
    BaseOfChannel(w.channel.node.name);
    var id :| id in nodes && nodes[id] == w.channel.node;
  }

  /** Whatever links succeed, and whether or not the call as a whole does. */
  lemma {:induction false} StartUpWires(nodes: map<nat, NodeInfo>, oracle: Oracle, plan: seq<Wiring>, headphones: set<(nat, nat)>, out: Option<nat>)
    requires WellKeyed(nodes) && PlanIsSound(nodes, plan)
    requires Wired(nodes, headphones, out)
    ensures Wired(nodes, MadeAll(oracle, plan) + headphones, out)
  {
    forall a, b | (a, b) in MadeAll(oracle, plan) ensures SomeLeg(nodes, a, b) {
      MadeExactly(oracle, plan, (a, b));
      var k: nat, j: nat :| PlannedAt(oracle, plan, k, j, (a, b));
      assert plan[k] in plan;
      LegsAreLegs(nodes, plan[k], j);
    }
  }

  // ---- Every link raises the rank -----------------------------------------------

  /** Channel sinks, then filters, then mixes, then everything else. */
  function Rank(name: string): (rank: nat)
    ensures rank <= 3
  {
    if IsUndertoneChannel(name) then 0
    else if StartsWith(name, PREFIX) then 1
    else if name == MixNodeName(Stream) || name == MixNodeName(Monitor) then 2
    else 3
  }

  lemma RankOfFilter(c: string, m: MixType)
    ensures Rank(VolNodeName(c, m)) == 1
  {
    FilterIsNotChannel(c, m);
    assert VolNodeName(c, m)[..|PREFIX|] == PREFIX;
  }

  lemma RankOfMix(m: MixType)
    ensures Rank(MixNodeName(m)) == 2
  {
    FixedNames();
    var s := MixNodeName(m);
    assert s[..|PREFIX|][3] == s[3];
  }

  lemma RankOfOther(name: string)
    requires !StartsWith(name, "ut-")
    ensures Rank(name) == 3
  {
    if StartsWith(name, PREFIX) { PrefixedStart(name); }
    assert StartsWith(MixNodeName(Stream), "ut-") && StartsWith(MixNodeName(Monitor), "ut-");
  }

  lemma PrefixedStart(name: string)
    requires StartsWith(name, PREFIX)
    ensures StartsWith(name, "ut-")
  {
    assert name[..3] == name[..|PREFIX|][..3];
  }

  lemma LinkRaisesRank(nodes: map<nat, NodeInfo>, linked: set<(nat, nat)>, out: Option<nat>, a: nat, b: nat)
    requires Wired(nodes, linked, out) && (a, b) in linked
    ensures a in nodes && b in nodes && Rank(nodes[b].name) == Rank(nodes[a].name) + 1
  {
    if SomeLeg(nodes, a, b) {
      var c, m :| IsLeg(nodes, c, m, a, b);
      RankOfFilter(c, m);
      RankOfMix(m);
    } else {
      RankOfMix(Monitor);
      RankOfOther(nodes[b].name);
    }
  }

  lemma {:induction false} PathRaisesRank(nodes: map<nat, NodeInfo>, linked: set<(nat, nat)>, out: Option<nat>, p: seq<nat>, i: nat, j: nat)
    requires Wired(nodes, linked, out) && Path(linked, p) && i < j < |p|
    ensures p[i] in nodes && p[j] in nodes && Rank(nodes[p[j]].name) == Rank(nodes[p[i]].name) + (j - i)
    decreases j
  {
    assert (p[j - 1], p[j - 1 + 1]) in linked;
    LinkRaisesRank(nodes, linked, out, p[j - 1], p[j]);
    if i < j - 1 { PathRaisesRank(nodes, linked, out, p, i, j - 1); }
  }

  /** No feedback: a path meets no node twice, and none is longer than four nodes. */
  lemma Acyclic(nodes: map<nat, NodeInfo>, linked: set<(nat, nat)>, out: Option<nat>, p: seq<nat>)
    requires Wired(nodes, linked, out) && Path(linked, p)
    ensures |p| <= 4
    ensures forall i, j :: 0 <= i < j < |p| ==> p[i] != p[j]
  {
    if |p| > 1 { PathRaisesRank(nodes, linked, out, p, 0, |p| - 1); }
    forall i, j | 0 <= i < j < |p| ensures p[i] != p[j] {
      PathRaisesRank(nodes, linked, out, p, i, j);
    }
  }

  // ---- Isolation ---------------------------------------------------------------

  lemma FromChannel(nodes: map<nat, NodeInfo>, linked: set<(nat, nat)>, out: Option<nat>, c: string, a: nat, b: nat)
      returns (m: MixType)
    requires Wired(nodes, linked, out) && (a, b) in linked
    requires IsUndertoneChannel(NodeName(c)) && Named(nodes, a, NodeName(c))
    ensures Named(nodes, b, VolNodeName(c, m))
  {
    RankOfMix(Monitor);
    assert SomeLeg(nodes, a, b);
    var d, n :| IsLeg(nodes, d, n, a, b);
    RankOfFilter(d, n);
    assert NodeName(c)[|PREFIX|..] == c && NodeName(d)[|PREFIX|..] == d;
    m := n;
  }

  lemma FromFilter(nodes: map<nat, NodeInfo>, linked: set<(nat, nat)>, out: Option<nat>, c: string, m: MixType, a: nat, b: nat)
    requires Wired(nodes, linked, out) && (a, b) in linked && Named(nodes, a, VolNodeName(c, m))
    ensures Named(nodes, b, MixNodeName(m))
  {
    RankOfFilter(c, m);
    RankOfMix(Monitor);
    assert SomeLeg(nodes, a, b);
    var d, n :| IsLeg(nodes, d, n, a, b);
    if (c, m) != (d, n) { FilterNamesInjective(c, m, d, n); }
  }

  lemma FromMix(nodes: map<nat, NodeInfo>, linked: set<(nat, nat)>, out: Option<nat>, m: MixType, a: nat, b: nat)
    requires Wired(nodes, linked, out) && (a, b) in linked
    ensures Named(nodes, a, MixNodeName(m)) ==> m == Monitor && out == Some(b)
  {
    FixedNames();
    forall c, n ensures Named(nodes, a, MixNodeName(m)) ==> !IsLeg(nodes, c, n, a, b) {
      NoLegFromMix(nodes, c, n, m, a, b);
    }
  }

  lemma NoLegFromMix(nodes: map<nat, NodeInfo>, c: string, n: MixType, m: MixType, a: nat, b: nat)
    ensures Named(nodes, a, MixNodeName(m)) ==> !IsLeg(nodes, c, n, a, b)
  {
    RankOfMix(m);
    RankOfFilter(c, n);
  }

  /** The only ways audio of channel `c` goes: its own filter for a mix, then that mix, then,
      from the monitor mix, the headphones. */
  lemma Isolated(nodes: map<nat, NodeInfo>, linked: set<(nat, nat)>, out: Option<nat>, c: string, p: seq<nat>)
      returns (m: MixType)
    requires Wired(nodes, linked, out) && Path(linked, p)
    requires IsUndertoneChannel(NodeName(c)) && Named(nodes, p[0], NodeName(c))
    ensures |p| <= 4
    ensures |p| >= 2 ==> Named(nodes, p[1], VolNodeName(c, m))
    ensures |p| >= 3 ==> Named(nodes, p[2], MixNodeName(m))
    ensures |p| == 4 ==> m == Monitor && out == Some(p[3])
  {
    m := Stream;
    Acyclic(nodes, linked, out, p);
    if |p| >= 2 {
      assert (p[0], p[0 + 1]) in linked;
      m := FromChannel(nodes, linked, out, c, p[0], p[1]);
    }
    if |p| >= 3 {
      assert (p[1], p[1 + 1]) in linked;
      FromFilter(nodes, linked, out, c, m, p[1], p[2]);
    }
    if |p| == 4 {
      assert (p[2], p[2 + 1]) in linked;
      FromMix(nodes, linked, out, m, p[2], p[3]);
    }
  }

  /** A channel is heard on a mix exactly when both its links through its filter for that mix
      were made. */
  lemma HeardExactlyWhen(nodes: map<nat, NodeInfo>, linked: set<(nat, nat)>, out: Option<nat>, c: string, m: MixType, a: nat, mix: nat)
    requires Wired(nodes, linked, out)
    requires IsUndertoneChannel(NodeName(c)) && Named(nodes, a, NodeName(c)) && Named(nodes, mix, MixNodeName(m))
    ensures Reaches(linked, a, mix) <==>
      exists f: nat :: Named(nodes, f, VolNodeName(c, m)) && (a, f) in linked && (f, mix) in linked
  {
    if Reaches(linked, a, mix) {
      var p :| Path(linked, p) && p[0] == a && p[|p| - 1] == mix;
      OnlyThroughOwnFilter(nodes, linked, out, c, m, p);
    }
    if f: nat :| Named(nodes, f, VolNodeName(c, m)) && (a, f) in linked && (f, mix) in linked {
      TwoHops(linked, a, f, mix);
    }
  }

  lemma OnlyThroughOwnFilter(nodes: map<nat, NodeInfo>, linked: set<(nat, nat)>, out: Option<nat>, c: string, m: MixType, p: seq<nat>)
    requires Wired(nodes, linked, out) && Path(linked, p)
    requires IsUndertoneChannel(NodeName(c)) && Named(nodes, p[0], NodeName(c))
    requires Named(nodes, p[|p| - 1], MixNodeName(m))
    ensures |p| == 3 && Named(nodes, p[1], VolNodeName(c, m))
    ensures (p[0], p[1]) in linked && (p[1], p[2]) in linked
  {
    var n := Isolated(nodes, linked, out, c, p);
    RankOfMix(m);
    if |p| > 1 { PathRaisesRank(nodes, linked, out, p, 0, |p| - 1); }
    FixedNames();
    assert (p[0], p[0 + 1]) in linked && (p[1], p[1 + 1]) in linked;
  }

  lemma TwoHops(linked: set<(nat, nat)>, a: nat, f: nat, b: nat)
    requires (a, f) in linked && (f, b) in linked
    ensures Reaches(linked, a, b)
  {
    assert Path(linked, [a, f, b]);
  }

  /** Audio of one channel never reaches another channel's sink or filters. */
  lemma NoCrossTalk(nodes: map<nat, NodeInfo>, linked: set<(nat, nat)>, out: Option<nat>, c: string, a: nat, role: Role, b: nat)
    requires Wired(nodes, linked, out)
    requires IsUndertoneChannel(NodeName(c)) && Named(nodes, a, NodeName(c))
    requires (role.Sink? && IsUndertoneChannel(NameOf(role))) || role.Filter?
    requires role.channel != c && Named(nodes, b, NameOf(role))
    ensures !Reaches(linked, a, b)
  {
    forall p | Path(linked, p) && p[0] == a ensures p[|p| - 1] != b {
      var m := Isolated(nodes, linked, out, c, p);
      LandsElsewhere(nodes, linked, out, c, m, p, role);
    }
  }

  lemma LandsElsewhere(nodes: map<nat, NodeInfo>, linked: set<(nat, nat)>, out: Option<nat>, c: string, m: MixType, p: seq<nat>, role: Role)
    requires Wired(nodes, linked, out) && Path(linked, p)
    requires IsUndertoneChannel(NodeName(c)) && Named(nodes, p[0], NodeName(c))
    requires |p| >= 2 ==> Named(nodes, p[1], VolNodeName(c, m))
    requires (role.Sink? && IsUndertoneChannel(NameOf(role))) || role.Filter?
    requires role.channel != c
    ensures !Named(nodes, p[|p| - 1], NameOf(role))
  {
    if |p| > 1 { PathRaisesRank(nodes, linked, out, p, 0, |p| - 1); }
    match role
    case Sink(d) =>
      assert NodeName(c)[|PREFIX|..] == c && NodeName(d)[|PREFIX|..] == d;
    case Filter(d, n) =>
      RankOfFilter(d, n);
      FilterNamesInjective(c, m, d, n);
  }

  /** When every request succeeds, every channel is heard on both mixes. */
  lemma {:induction false} EveryChannelHeard(nodes: map<nat, NodeInfo>, oracle: Oracle, plan: seq<Wiring>, id: nat, m: MixType)
    requires WellKeyed(nodes) && PlanIsSound(nodes, plan) && Covers(nodes, plan)
    requires forall n: nat :: n < 4 * |plan| ==> oracle(n).Both?
    requires id in nodes && IsUndertoneChannel(nodes[id].name)
    ensures exists mix :: Named(nodes, mix, MixNodeName(m)) && Reaches(MadeAll(oracle, plan), id, mix)
  {
    var w :| w in plan && w.channel.node == nodes[id];
    var k :| 0 <= k < |plan| && plan[k] == w;
    LegsMade(oracle, plan, k);
    assert Found(nodes, w);
    TwoHops(MadeAll(oracle, plan), w.channel.node.id, w.stream, w.mixes.stream);
    TwoHops(MadeAll(oracle, plan), w.channel.node.id, w.monitor, w.mixes.monitor);
  }

  lemma {:induction false} LegsMade(oracle: Oracle, plan: seq<Wiring>, k: nat)
    requires k < |plan| && forall n: nat :: n < 4 * |plan| ==> oracle(n).Both?
    ensures var w := plan[k];
      && (w.channel.node.id, w.stream) in MadeAll(oracle, plan) && (w.stream, w.mixes.stream) in MadeAll(oracle, plan)
      && (w.channel.node.id, w.monitor) in MadeAll(oracle, plan) && (w.monitor, w.mixes.monitor) in MadeAll(oracle, plan)
  {
    forall j | 0 <= j < 4 ensures Legs(plan[k])[j] in MadeAll(oracle, plan) {
      assert oracle(4 * k + j).Both? && PlannedAt(oracle, plan, k, j, Legs(plan[k])[j]);
      MadeExactly(oracle, plan, Legs(plan[k])[j]);
    }
    var legs := Legs(plan[k]);
    assert legs[0] in MadeAll(oracle, plan) && legs[1] in MadeAll(oracle, plan);
    assert legs[2] in MadeAll(oracle, plan) && legs[3] in MadeAll(oracle, plan);
  }
}
