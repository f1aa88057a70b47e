/** What is demanded of the graph, in terms of the channels alone. */
module Demand {
  import opened Prelude
  import opened Naming
  import opened Graph
  import opened Reconciliation

  /** The node name of the `k`-th role. */
  function RoleOf(configs: seq<ChannelConfig>, k: nat): Role
    requires k < 3 * |configs| + 3
  {
    var n := |configs|;
    if k < n then Sink(configs[k].name)
    else if k == n then Mix(Stream)
    else if k == n + 1 then StreamOut
    else if k == n + 2 then Mix(Monitor)
    else Filter(configs[(k - n - 3) / 2].name, if (k - n - 3) % 2 == 0 then Stream else Monitor)
  }

  lemma RoleNames(configs: seq<ChannelConfig>, k: nat)
    requires k < 3 * |configs| + 3
    ensures |Roles(LayoutOf(configs))| == 3 * |configs| + 3
    ensures Roles(LayoutOf(configs))[k].name == NameOf(RoleOf(configs, k))
  {
    RolesSplit(LayoutOf(configs), k);
  }

  predicate Has(configs: seq<ChannelConfig>, channel: string) {
    exists i :: 0 <= i < |configs| && configs[i].name == channel
  }

  predicate IsDemanded(configs: seq<ChannelConfig>, role: Role) {
    (role.Sink? || role.Filter?) ==> Has(configs, role.channel)
  }

  lemma RolesAreDemanded(configs: seq<ChannelConfig>, k: nat)
    requires k < 3 * |configs| + 3
    ensures IsDemanded(configs, RoleOf(configs, k))
  {
    var n := |configs|;
    if k < n { assert configs[k].name == RoleOf(configs, k).channel; }
    if k >= n + 3 { assert configs[(k - n - 3) / 2].name == RoleOf(configs, k).channel; }
  }

  lemma IndexOf(configs: seq<ChannelConfig>, role: Role) returns (k: nat)
    requires IsDemanded(configs, role)
    ensures k < 3 * |configs| + 3 && RoleOf(configs, k) == role
  {
    var n := |configs|;
    match role
    case Sink(c) =>
      var i :| 0 <= i < n && configs[i].name == c;
      k := i;
    case Filter(c, m) =>
      var i :| 0 <= i < n && configs[i].name == c;
      k := n + 3 + 2 * i + (if m == Stream then 0 else 1);
    case Mix(m) => k := if m == Stream then n else n + 2;
    case StreamOut => k := n + 1;
  }

  /** The demanded node names are those of every channel's sink and two filters, of the two
      mixes and of the stream output. */
  lemma DemandedNames(configs: seq<ChannelConfig>, name: string)
    ensures (exists k :: 0 <= k < |Roles(LayoutOf(configs))| && Roles(LayoutOf(configs))[k].name == name) <==>
      exists role :: IsDemanded(configs, role) && NameOf(role) == name
  {
    var roles := Roles(LayoutOf(configs));
    DemandSize(LayoutOf(configs), None);
    if k :| 0 <= k < |roles| && roles[k].name == name {
      RoleNames(configs, k);
      RolesAreDemanded(configs, k);
    }
    if role :| IsDemanded(configs, role) && NameOf(role) == name {
      var k := IndexOf(configs, role);
      RoleNames(configs, k);
    }
  }

  lemma NodesDescribed(c: ChannelConfig)
    ensures NodesOf(c).sink == SinkProps("ut-ch-" + c.name, "Undertone: " + c.displayName + " Channel")
    ensures NodesOf(c).streamVol == SinkProps("ut-ch-" + c.name + "-stream-vol", "Undertone: " + c.displayName + " Stream Volume")
    ensures NodesOf(c).monitorVol == SinkProps("ut-ch-" + c.name + "-monitor-vol", "Undertone: " + c.displayName + " Monitor Volume")
  {
  }

  lemma IsRole(l: Layout, k: nat)
    requires k < 3 * |l.channels| + 3
    ensures RoleAt(l, k) in Roles(l)
  {
    RolesSplit(l, k);
    assert Roles(l)[k] in Roles(l);
  }

  lemma FilterRoleAt(l: Layout, k: nat)
    requires k < |l.channels|
    ensures RoleAt(l, |l.channels| + 3 + 2 * k) == l.channels[k].streamVol
    ensures RoleAt(l, |l.channels| + 3 + 2 * k + 1) == l.channels[k].monitorVol
  {
    assert (2 * k + 1) / 2 == k && (2 * k + 1) % 2 == 1;
  }

  lemma NodesAreRoles(configs: seq<ChannelConfig>, k: nat)
    requires k < |configs|
    ensures var roles, c := Roles(LayoutOf(configs)), NodesOf(configs[k]);
      c.sink in roles && c.streamVol in roles && c.monitorVol in roles
  {
    var l := LayoutOf(configs);
    assert l.channels[k] == NodesOf(configs[k]);
    ChannelNodesAreRoles(l, k);
  }

  lemma ChannelNodesAreRoles(l: Layout, k: nat)
    requires k < |l.channels|
    ensures l.channels[k].sink in Roles(l) && l.channels[k].streamVol in Roles(l) && l.channels[k].monitorVol in Roles(l)
  {
    var n := |l.channels|;
    IsRole(l, k);
    IsRole(l, n + 3 + 2 * k);
    IsRole(l, n + 3 + 2 * k + 1);
    FilterRoleAt(l, k);
  }

  /** Every demanded node is described to the user as what it is. */
  lemma DemandedDescriptions(configs: seq<ChannelConfig>, k: nat)
    requires k < |configs|
    ensures var roles, c := Roles(LayoutOf(configs)), configs[k];
      && SinkProps("ut-ch-" + c.name, "Undertone: " + c.displayName + " Channel") in roles
      && SinkProps("ut-ch-" + c.name + "-stream-vol", "Undertone: " + c.displayName + " Stream Volume") in roles
      && SinkProps("ut-ch-" + c.name + "-monitor-vol", "Undertone: " + c.displayName + " Monitor Volume") in roles
  {
    NodesAreRoles(configs, k);
    NodesDescribed(configs[k]);
  }

  lemma FixedDescriptions(configs: seq<ChannelConfig>)
    ensures var roles := Roles(LayoutOf(configs));
      && SinkProps("ut-stream-mix", "Undertone: Stream Mix") in roles
      && SinkProps("ut-stream-out", "Undertone: Stream Output") in roles
      && SinkProps("ut-monitor-mix", "Undertone: Monitor Mix") in roles
  {
    var l, n := LayoutOf(configs), |configs|;
    DemandSize(l, None);
    RolesSplit(l, n);
    RolesSplit(l, n + 1);
    RolesSplit(l, n + 2);
    assert Roles(l)[n] in Roles(l) && Roles(l)[n + 1] in Roles(l) && Roles(l)[n + 2] in Roles(l);
  }

  predicate IsDemandedPair(configs: seq<ChannelConfig>, a: Role, b: Role) {
    match (a, b)
    case (Filter(c, m), Mix(n)) => m == n && Has(configs, c)
    case (Mix(Stream), StreamOut) => true
    case _ => false
  }

  /** The demanded pairs are: each filter into its own mix, the stream mix into the stream
      output, and the monitor mix into the Wave:3. */
  lemma DemandedPairs(configs: seq<ChannelConfig>, wave3: Option<NodeInfo>, e: Edge)
    ensures e in Edges(LayoutOf(configs), wave3) <==>
      || (exists a, b :: IsDemandedPair(configs, a, b) && e == Edge(NameOf(a), NameOf(b)))
      || (wave3.Some? && e == Edge(MixNodeName(Monitor), wave3.value.name))
  {
    var l := LayoutOf(configs);
    var es := Edges(l, wave3);
    DemandSize(l, wave3);
    if e in es {
      var k :| 0 <= k < |es| && es[k] == e;
      PairAt(configs, wave3, k);
    }
    if a, b :| IsDemandedPair(configs, a, b) && e == Edge(NameOf(a), NameOf(b)) {
      var k := PairIndex(configs, wave3, a, b);
      assert es[k] == e;
    }
    if wave3.Some? && e == Edge(MixNodeName(Monitor), wave3.value.name) {
      EdgesSplit(l, wave3, 2 * |configs| + 1);
      assert es[2 * |configs| + 1] == e;
    }
  }

  /** By their names: each channel's stream volume into the stream mix and monitor volume into the
      monitor mix, the stream mix into the stream output, the monitor mix into the Wave:3. */
  lemma DemandedPairNames(configs: seq<ChannelConfig>, wave3: Option<NodeInfo>, c: string)
    requires Has(configs, c)
    ensures var es := Edges(LayoutOf(configs), wave3);
      && Edge("ut-ch-" + c + "-stream-vol", "ut-stream-mix") in es
      && Edge("ut-ch-" + c + "-monitor-vol", "ut-monitor-mix") in es
      && Edge("ut-stream-mix", "ut-stream-out") in es
      && (wave3.Some? ==> Edge("ut-monitor-mix", wave3.value.name) in es)
  {
    assert IsDemandedPair(configs, Filter(c, Stream), Mix(Stream)) && IsDemandedPair(configs, Filter(c, Monitor), Mix(Monitor));
    assert IsDemandedPair(configs, Mix(Stream), StreamOut);
    DemandedPairs(configs, wave3, Edge(VolNodeName(c, Stream), MixNodeName(Stream)));
    DemandedPairs(configs, wave3, Edge(VolNodeName(c, Monitor), MixNodeName(Monitor)));
    DemandedPairs(configs, wave3, Edge(MixNodeName(Stream), STREAM_OUT));
    if wave3.Some? { DemandedPairs(configs, wave3, Edge(MixNodeName(Monitor), wave3.value.name)); }
  }

  lemma PairAt(configs: seq<ChannelConfig>, wave3: Option<NodeInfo>, k: nat)
    requires k < |Edges(LayoutOf(configs), wave3)|
    ensures var e := Edges(LayoutOf(configs), wave3)[k];
      || (exists a, b :: IsDemandedPair(configs, a, b) && e == Edge(NameOf(a), NameOf(b)))
      || (wave3.Some? && e == Edge(MixNodeName(Monitor), wave3.value.name))
  {
    EdgesSplit(LayoutOf(configs), wave3, k);
    if k < 2 * |configs| {
      var c, m := configs[k / 2].name, if k % 2 == 0 then Stream else Monitor;
      assert IsDemandedPair(configs, Filter(c, m), Mix(m));
    } else if k == 2 * |configs| {
      assert IsDemandedPair(configs, Mix(Stream), StreamOut);
    }
  }

  lemma PairIndex(configs: seq<ChannelConfig>, wave3: Option<NodeInfo>, a: Role, b: Role) returns (k: nat)
    requires IsDemandedPair(configs, a, b)
    ensures k < |Edges(LayoutOf(configs), wave3)|
    ensures Edges(LayoutOf(configs), wave3)[k] == Edge(NameOf(a), NameOf(b))
  {
    DemandSize(LayoutOf(configs), wave3);
    if a.Filter? {
      var i :| 0 <= i < |configs| && configs[i].name == a.channel;
      k := 2 * i + (if a.mix == Stream then 0 else 1);
      FilterPair(configs, wave3, i, a.mix);
    } else {
      k := 2 * |configs|;
      EdgesSplit(LayoutOf(configs), wave3, k);
    }
  }

  lemma FilterPair(configs: seq<ChannelConfig>, wave3: Option<NodeInfo>, i: nat, m: MixType)
    requires i < |configs|
    ensures var k := 2 * i + (if m == Stream then 0 else 1);
      && k < |Edges(LayoutOf(configs), wave3)|
      && Edges(LayoutOf(configs), wave3)[k] == Edge(VolNodeName(configs[i].name, m), MixNodeName(m))
  {
    var k := 2 * i + (if m == Stream then 0 else 1);
    DemandSize(LayoutOf(configs), wave3);
    assert k / 2 == i && (k % 2 == 0 <==> m == Stream);
    EdgesSplit(LayoutOf(configs), wave3, k);
  }
}
