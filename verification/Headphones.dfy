/** What the search for the Wave:3 sink can answer, and what follows from its answers. */
module Headphones {
  import opened Prelude
  import opened Naming
  import opened Graph
  import opened Reconciliation
  import opened Demand
  import opened Convergence
  import opened Impostors
  import S = StartUp
  import T = Topology

  // ---- Two candidates -------------------------------------------------------------------

  lemma OwnStart(configs: seq<ChannelConfig>, k: nat)
    requires k < |Roles(LayoutOf(configs))|
    ensures var name := Roles(LayoutOf(configs))[k].name;
      StartsWith(name, "ut-") && name != "wave3-sink" && !StartsWith(name, "alsa_output")
  {
    DemandSize(LayoutOf(configs), None);
    RoleNames(configs, k);
    RoleStart(RoleOf(configs, k), "wave3-sink");
    RoleStart(RoleOf(configs, k), "alsa_output");
    RoleIsOwn(RoleOf(configs, k));
  }

  lemma RoleIsOwn(role: Role)
    ensures StartsWith(NameOf(role), "ut-")
  {
    var s := NameOf(role);
    assert (role.Sink? || role.Filter?) ==> s[..|PREFIX|] == PREFIX && s[..3] == s[..|PREFIX|][..3];
  }

  /** A node made for a demanded role. */
  predicate IsOwn(node: NodeInfo, configs: seq<ChannelConfig>) {
    var roles := Roles(LayoutOf(configs));
    exists k :: 0 <= k < |roles| && node == Made(node.id, roles[k])
  }

  predicate Foreign(node: NodeInfo) {
    !StartsWith(node.name, "ut-")
  }

  /** What the search could answer, it still can after a round. */
  lemma ChoiceSurvives(g: Session, configs: seq<ChannelConfig>, w: Option<NodeInfo>, a: NodeInfo)
    requires Valid(g) && IsWave3Choice(g.cache.nodes, Some(a))
    ensures IsWave3Choice(Round(g, LayoutOf(configs), w).cache.nodes, Some(a))
  {
    var l := LayoutOf(configs);
    var t := Round(g, l, w);
    var m, n := g.cache.nodes, t.cache.nodes;
    RoundResult(g, l, w);
    var id :| id in m && m[id] == a;
    assert n[id] == a;
    if HasName(m, "wave3-sink") {
      HasNameKept(m, n, "wave3-sink");
    } else {
      forall i | i in n ensures n[i].name != "wave3-sink" {
        if i !in m { NewcomerIsOwn(g, t, configs, i); }
      }
    }
  }

  lemma NewcomerIsOwn(g: Session, t: Session, configs: seq<ChannelConfig>, id: nat)
    requires NodesGrown(g, t, Roles(LayoutOf(configs))) && id in t.cache.nodes && id !in g.cache.nodes
    ensures IsOwn(t.cache.nodes[id], configs) && t.cache.nodes[id].name != "wave3-sink"
  {
    var roles, node := Roles(LayoutOf(configs)), t.cache.nodes[id];
    assert MadeFor(g.cache.nodes, roles, node);
    var k :| 0 <= k < |roles| && node == Made(node.id, roles[k]);
    OwnStart(configs, k);
  }

  /** A foreign node that was not linked from `output`, and is not the round's choice, is not
      linked from it by the round. */
  lemma ForeignStaysUnlinked(g: Session, configs: seq<ChannelConfig>, a: NodeInfo, b: NodeInfo, output: string)
    requires Valid(g) && Foreign(b) && a.name != b.name && HasName(g.cache.nodes, b.name)
    requires !EdgeLinked(g.cache, Edge(output, b.name))
    ensures !EdgeLinked(Round(g, LayoutOf(configs), Some(a)).cache, Edge(output, b.name))
  {
    var l, e := LayoutOf(configs), Edge(output, b.name);
    var t, es := Round(g, l, Some(a)), Edges(l, Some(a));
    RoundResult(g, l, Some(a));
    forall k | 0 <= k < |es| ensures es[k] != e {
      EdgeInputs(l, a, k);
      if i :| 0 <= i < |Roles(l)| && Roles(l)[i].name == es[k].input { OwnStart(configs, i); }
    }
    if EndsExist(t.cache.nodes, e) {
      forall k | k in t.cache.links ensures !Joins(t.cache.links[k], t.cache.nodes, e) {
        if k in g.cache.links {
          OldLinkJoinsNot(g, t, Roles(l), e, k);
        } else {
          JoinsAnother(g.cache, t.cache.nodes, es, t.cache.links[k], e);
        }
      }
    }
  }

  lemma OldLinkJoinsNot(g: Session, t: Session, wanted: seq<SinkProps>, e: Edge, k: nat)
    requires Valid(g) && Valid(t) && NodesGrown(g, t, wanted) && !EdgeLinked(g.cache, e)
    requires HasName(g.cache.nodes, e.input) && EndsExist(t.cache.nodes, e)
    requires k in g.cache.links && k in t.cache.links && t.cache.links[k] == g.cache.links[k]
    ensures !Joins(t.cache.links[k], t.cache.nodes, e)
  {
    SameId(g.cache.nodes, t.cache.nodes, e.input);
    if HasName(g.cache.nodes, e.output) {
      SameId(g.cache.nodes, t.cache.nodes, e.output);
    } else {
      NameIsNew(g.cache.nodes, t.cache.nodes, IdOf(t.cache.nodes, e.output));
    }
  }

  /** Whatever channels are configured: from any graph with two foreign candidates, the second
      not linked yet, two rounds that were given the first one leave a search that answers with
      the second something to do. */
  lemma SecondCandidateUnsettles(g: Session, configs: seq<ChannelConfig>, a: NodeInfo, b: NodeInfo)
    requires Valid(g) && a.name != b.name && Foreign(b)
    requires IsWave3Choice(g.cache.nodes, Some(a)) && IsWave3Choice(g.cache.nodes, Some(b))
    requires !EdgeLinked(g.cache, Edge(MixNodeName(Monitor), b.name))
    ensures var l := LayoutOf(configs);
      var t := Round(g, l, Some(a));
      var u := Round(t, l, Some(a));
      && IsWave3Choice(t.cache.nodes, Some(a)) && IsWave3Choice(u.cache.nodes, Some(b))
      && Reconcile(u.cache, l, Some(b)) != Warnings(Some(b))
  {
    var l := LayoutOf(configs);
    var t := Round(g, l, Some(a));
    RoundResult(g, l, Some(a));
    ChoiceSurvives(g, configs, Some(a), a);
    ChoiceSurvives(g, configs, Some(a), b);
    ChoiceSurvives(t, configs, Some(a), b);
    ChoiceHasName(g.cache.nodes, Some(b));
    ForeignStaysUnlinked(g, configs, a, b, l.monitorMix.name);
    forall i | 0 <= i < |Roles(l)| ensures Roles(l)[i].name != b.name { OwnStart(configs, i); }
    AmbiguousSinkUnsettles(t, l, a, b);
  }

  /** A sink that only its USB ids tell to be a Wave:3. */
  function UsbWave3(id: nat, name: string): NodeInfo {
    NodeInfo(id, name, Some("Audio/Sink"), None, None, false,
             map["device.vendor.id" := "0x0fd9", "device.product.id" := "0x0070"])
  }

  lemma UsbIsWave3(id: nat, name: string)
    ensures UsbWave3(id, name).IsWave3Sink()
  {
  }

  const BEFORE_START := Session(Cache(map[0 := UsbWave3(0, "a"), 1 := UsbWave3(1, "b")], map[], map[]), 2)

  /** Such a graph: two of them and nothing else, as before a start. */
  lemma AmbiguityHappens(configs: seq<ChannelConfig>)
    ensures var l, a, b := LayoutOf(configs), UsbWave3(0, "a"), UsbWave3(1, "b");
      var t := Round(BEFORE_START, l, Some(a));
      var u := Round(t, l, Some(a));
      && Valid(BEFORE_START) && IsWave3Choice(BEFORE_START.cache.nodes, Some(a))
      && IsWave3Choice(t.cache.nodes, Some(a)) && IsWave3Choice(u.cache.nodes, Some(b))
      && Reconcile(u.cache, l, Some(b)) != Warnings(Some(b))
  {
    var a, b, nodes := UsbWave3(0, "a"), UsbWave3(1, "b"), BEFORE_START.cache.nodes;
    UsbIsWave3(0, "a");
    UsbIsWave3(1, "b");
    assert |a.name| == |b.name| == 1 && a.name[0] == 'a' && b.name[0] == 'b';
    assert nodes[0] == a && nodes[1] == b && |"wave3-sink"| == 10;
    SecondCandidateUnsettles(BEFORE_START, configs, a, b);
  }

  /** What the search's fallback looks for: a sink with the Wave:3's USB ids, or with both words in
      its name, or an ALSA output named after Elgato or the Wave:3. */
  lemma FallbackMatches(node: NodeInfo)
    ensures node.IsWave3Sink() <==>
      && node.mediaClass == Some("Audio/Sink")
      && (|| (&& "device.vendor.id" in node.properties && node.properties["device.vendor.id"] == "0x0fd9"
              && "device.product.id" in node.properties && node.properties["device.product.id"] == "0x0070")
          || (Contains(node.name, "Elgato") && Contains(node.name, "Wave"))
          || (StartsWith(node.name, "alsa_output") && (Contains(node.name, "Elgato") || Contains(node.name, "Wave:3"))))
  {
    if StartsWith(node.name, "alsa_output") { OneStart(node.name); }
  }

  // ---- A sink of our own ------------------------------------------------------------------

  /** Every node with our prefix was made for a demanded role. */
  ghost predicate OwnNodes(nodes: map<nat, NodeInfo>, configs: seq<ChannelConfig>) {
    forall id :: id in nodes && StartsWith(nodes[id].name, "ut-") ==> IsOwn(nodes[id], configs)
  }

  /** All demanded nodes but the stream output, which start-up does not make. */
  ghost predicate Started(nodes: map<nat, NodeInfo>, configs: seq<ChannelConfig>) {
    forall role :: IsDemanded(configs, role) && role != StreamOut ==> HasName(nodes, NameOf(role))
  }

  lemma CompleteIsStarted(nodes: map<nat, NodeInfo>, configs: seq<ChannelConfig>)
    requires AllPresent(nodes, Roles(LayoutOf(configs)))
    ensures Started(nodes, configs)
  {
    forall role | IsDemanded(configs, role) && role != StreamOut ensures HasName(nodes, NameOf(role)) {
      var k := IndexOf(configs, role);
      RoleNames(configs, k);
      assert HasName(nodes, Roles(LayoutOf(configs))[k].name);
    }
  }

  lemma MadePasses(id: nat, p: SinkProps)
    requires p.name != "wave3-sink" && !StartsWith(p.name, "alsa_output")
    ensures Made(id, p).IsWave3Sink() <==> PassesForWave3(p.name)
  {
  }

  lemma OwnPasses(node: NodeInfo, configs: seq<ChannelConfig>)
    requires IsOwn(node, configs) && node.IsWave3Sink()
    ensures exists i :: 0 <= i < |configs| && MentionsWave3(configs[i].name)
  {
    var l := LayoutOf(configs);
    var k :| 0 <= k < |Roles(l)| && node == Made(node.id, Roles(l)[k]);
    OwnStart(configs, k);
    MadePasses(node.id, Roles(l)[k]);
    NoImpostorExactlyWhen(configs);
  }

  lemma AnswerIsForeign(nodes: map<nat, NodeInfo>, configs: seq<ChannelConfig>, n: NodeInfo)
    requires OwnNodes(nodes, configs) && IsWave3Choice(nodes, Some(n))
    requires HasName(nodes, "wave3-sink") || forall i :: 0 <= i < |configs| ==> !MentionsWave3(configs[i].name)
    ensures Foreign(n)
  {
    if HasName(nodes, "wave3-sink") {
      assert "wave3-sink"[..3][0] == 'w' && "ut-"[0] == 'u';
    } else if !Foreign(n) {
      OwnPasses(n, configs);
    }
  }

  /** The search never answers with a sink of our own exactly when some node carries the custom
      name, or no channel name mentions both words. */
  lemma AnswerIsForeignExactlyWhen(nodes: map<nat, NodeInfo>, configs: seq<ChannelConfig>)
    requires OwnNodes(nodes, configs) && Started(nodes, configs)
    ensures (forall n :: IsWave3Choice(nodes, Some(n)) ==> Foreign(n)) <==>
      HasName(nodes, "wave3-sink") || forall i :: 0 <= i < |configs| ==> !MentionsWave3(configs[i].name)
  {
    if HasName(nodes, "wave3-sink") || forall i :: 0 <= i < |configs| ==> !MentionsWave3(configs[i].name) {
      forall n | IsWave3Choice(nodes, Some(n)) ensures Foreign(n) { AnswerIsForeign(nodes, configs, n); }
    } else {
      var i :| 0 <= i < |configs| && MentionsWave3(configs[i].name);
      var n := ImpostorIsAnswered(nodes, configs, i);
    }
  }

  lemma ImpostorIsAnswered(nodes: map<nat, NodeInfo>, configs: seq<ChannelConfig>, i: nat) returns (n: NodeInfo)
    requires OwnNodes(nodes, configs) && Started(nodes, configs) && !HasName(nodes, "wave3-sink")
    requires i < |configs| && MentionsWave3(configs[i].name)
    ensures IsWave3Choice(nodes, Some(n)) && n.name == NodeName(configs[i].name) && !Foreign(n)
  {
    var sink := Sink(configs[i].name);
    assert IsDemanded(configs, sink) && HasName(nodes, NameOf(sink));
    RolePasses(sink);
    RoleIsOwn(sink);
    n := nodes[IdOf(nodes, NameOf(sink))];
    assert IsOwn(n, configs);
    var k :| 0 <= k < |Roles(LayoutOf(configs))| && n == Made(n.id, Roles(LayoutOf(configs))[k]);
    OwnStart(configs, k);
    MadePasses(n.id, Roles(LayoutOf(configs))[k]);
  }

  /** Start-up with the headphones found by the search is wired as `Topology` asks, unless the
      search can answer with one of our own sinks. */
  lemma {:induction false} StartUpIsWired(nodes: map<nat, NodeInfo>, configs: seq<ChannelConfig>, oracle: S.Oracle,
      plan: seq<S.Wiring>, mix: nat, w: Option<NodeInfo>, outcome: S.Stereo)
    requires WellKeyed(nodes) && S.PlanIsSound(nodes, plan) && S.Named(nodes, mix, MixNodeName(Monitor))
    requires OwnNodes(nodes, configs) && IsWave3Choice(nodes, w)
    requires HasName(nodes, "wave3-sink") || forall i :: 0 <= i < |configs| ==> !MentionsWave3(configs[i].name)
    ensures T.Wired(nodes, S.MadeAll(oracle, plan) + HeadphoneLinks(mix, w, outcome), HeadphoneId(w))
  {
    if w.Some? { AnswerIsForeign(nodes, configs, w.value); }
    T.StartUpWires(nodes, oracle, plan, HeadphoneLinks(mix, w, outcome), HeadphoneId(w));
  }

  function HeadphoneId(w: Option<NodeInfo>): Option<nat> {
    if w.Some? then Some(w.value.id) else None
  }

  function HeadphoneLinks(mix: nat, w: Option<NodeInfo>, outcome: S.Stereo): set<(nat, nat)> {
    if w.Some? then S.Joined(outcome, (mix, w.value.id)) else {}
  }

  // ---- ... feeds itself ---------------------------------------------------------------------

  /** The wiring of a channel when its nodes are there. */
  lemma WiringOf(nodes: map<nat, NodeInfo>, configs: seq<ChannelConfig>, i: nat) returns (w: S.Wiring)
    requires WellKeyed(nodes) && Started(nodes, configs)
    requires i < |configs| && IsUndertoneChannel(NodeName(configs[i].name))
    ensures S.PlanIsSound(nodes, [w]) && w.channel.node.name == NodeName(configs[i].name)
  {
    var c := configs[i].name;
    RolePresent(nodes, configs, i, Sink(c));
    RolePresent(nodes, configs, i, Filter(c, Stream));
    RolePresent(nodes, configs, i, Filter(c, Monitor));
    RolePresent(nodes, configs, i, Mix(Stream));
    RolePresent(nodes, configs, i, Mix(Monitor));
    var node := nodes[IdOf(nodes, NodeName(c))];
    T.BaseOfChannel(node.name);
    assert S.Base(node.name) == c by { assert NodeName(c)[|PREFIX|..] == c; }
    w := S.Wiring(S.ChannelOf(node), IdOf(nodes, VolNodeName(c, Stream)), IdOf(nodes, VolNodeName(c, Monitor)),
      S.Mixes(IdOf(nodes, MixNodeName(Stream)), IdOf(nodes, MixNodeName(Monitor))));
  }

  lemma RolePresent(nodes: map<nat, NodeInfo>, configs: seq<ChannelConfig>, i: nat, role: Role)
    requires Started(nodes, configs) && i < |configs| && role != StreamOut
    requires (role.Sink? || role.Filter?) ==> role.channel == configs[i].name
    ensures HasName(nodes, NameOf(role))
  {
    assert IsDemanded(configs, role);
  }

  lemma OneOfThatName(nodes: map<nat, NodeInfo>, a: NodeInfo, b: NodeInfo)
    requires UniqueNames(nodes) && S.Cached(nodes, a) && S.Cached(nodes, b) && a.name == b.name
    ensures a == b
  {
  }

  lemma {:induction false} PathsClose(oracle: S.Oracle, w: S.Wiring)
    requires forall k: nat :: k < 4 ==> oracle(k).Both?
    ensures var linked, s := S.MadeAll(oracle, [w]) + {(w.mixes.monitor, w.channel.node.id)}, w.channel.node.id;
      T.Path(linked, [s, w.monitor, w.mixes.monitor, s])
  {
    T.LegsMade(oracle, [w], 0);
  }

  /** A channel that start-up links and the search takes for the headphones. */
  lemma SuchAName()
    ensures MentionsWave3("Elgato Wave") && IsUndertoneChannel(NodeName("Elgato Wave"))
  {
    var c := "Elgato Wave";
    assert OccursAt(c, "Elgato", 0) && OccursAt(c, "Wave", 7);
    var s := NodeName(c);
    assert s[|s| - 1] == 'e';
    assert s[|s| - |STREAM_SUFFIX|..][|STREAM_SUFFIX| - 1] == s[|s| - 1];
    assert s[|s| - |MONITOR_SUFFIX|..][|MONITOR_SUFFIX| - 1] == s[|s| - 1];
  }

  /** Otherwise it can: then the monitor mix is linked into a channel that is linked into the
      monitor mix. */
  lemma {:induction false} ImpostorFeedsItself(oracle: S.Oracle, configs: seq<ChannelConfig>, i: nat, g: Session)
      returns (w: S.Wiring, n: NodeInfo)
    requires i < |configs| && MentionsWave3(configs[i].name) && IsUndertoneChannel(NodeName(configs[i].name))
    requires Valid(g) && OwnNodes(g.cache.nodes, configs) && Started(g.cache.nodes, configs)
    requires !HasName(g.cache.nodes, "wave3-sink") && forall k: nat :: k < 4 ==> oracle(k).Both?
    ensures S.PlanIsSound(g.cache.nodes, [w]) && IsWave3Choice(g.cache.nodes, Some(n))
    ensures var linked := S.MadeAll(oracle, [w]) + {(w.mixes.monitor, n.id)};
      T.Path(linked, [n.id, w.monitor, w.mixes.monitor, n.id])
  {
    var nodes := g.cache.nodes;
    w := WiringOf(nodes, configs, i);
    n := ImpostorIsAnswered(nodes, configs, i);
    assert w in [w] && S.Cached(nodes, n);
    OneOfThatName(nodes, n, w.channel.node);
    PathsClose(oracle, w);
  }

  /** Such a graph is what one round makes of an empty one. */
  lemma {:induction false} FeedbackHappens(oracle: S.Oracle, configs: seq<ChannelConfig>, i: nat)
      returns (g: Session, w: S.Wiring, n: NodeInfo)
    requires i < |configs| && MentionsWave3(configs[i].name) && IsUndertoneChannel(NodeName(configs[i].name))
    requires forall k: nat :: k < 4 ==> oracle(k).Both?
    ensures Valid(g) && S.PlanIsSound(g.cache.nodes, [w]) && IsWave3Choice(g.cache.nodes, Some(n))
    ensures var linked := S.MadeAll(oracle, [w]) + {(w.mixes.monitor, n.id)};
      T.Path(linked, [n.id, w.monitor, w.mixes.monitor, n.id])
  {
    var empty := Session(EMPTY, 0);
    g := Round(empty, LayoutOf(configs), None);
    RoundResult(empty, LayoutOf(configs), None);
    forall id | id in g.cache.nodes ensures IsOwn(g.cache.nodes[id], configs) && g.cache.nodes[id].name != "wave3-sink" {
      NewcomerIsOwn(empty, g, configs, id);
    }
    CompleteIsStarted(g.cache.nodes, configs);
    w, n := ImpostorFeedsItself(oracle, configs, i, g);
  }
}
