/** Desired against actual graph: which nodes and links are missing. */
module Reconciliation {
  import opened Prelude
  import opened Naming
  import opened Graph

  /** A node as it is wanted: `VirtualSinkProps` with two channels. */
  datatype SinkProps = SinkProps(name: string, description: string)

  datatype Action =
    | CreateSink(props: SinkProps)
    | CreateLink(outputNode: string, outputPort: string, inputNode: string, inputPort: string)
    | DestroyNode(id: nat)
    | DestroyLink(id: nat)
    | Warn(message: string)

  const WAVE3_MISSING := Warn("Wave:3 sink not found - device may be disconnected")

  datatype ChannelConfig = ChannelConfig(name: string, displayName: string)

  /** The nodes wanted for one channel, and for all channels and the mixes. */
  datatype ChannelNodes = ChannelNodes(sink: SinkProps, streamVol: SinkProps, monitorVol: SinkProps)

  datatype Layout = Layout(
    channels: seq<ChannelNodes>,
    streamMix: SinkProps,
    streamOut: SinkProps,
    monitorMix: SinkProps)

  function NodesOf(c: ChannelConfig): ChannelNodes {
    ChannelNodes(
      SinkProps(NodeName(c.name), "Undertone: " + c.displayName + " Channel"),
      SinkProps(VolNodeName(c.name, Stream), "Undertone: " + c.displayName + " Stream Volume"),
      SinkProps(VolNodeName(c.name, Monitor), "Undertone: " + c.displayName + " Monitor Volume"))
  }

  function LayoutOf(configs: seq<ChannelConfig>): Layout {
    Layout(
      seq(|configs|, i requires 0 <= i < |configs| => NodesOf(configs[i])),
      SinkProps(MixNodeName(Stream), "Undertone: Stream Mix"),
      SinkProps(STREAM_OUT, "Undertone: Stream Output"),
      SinkProps(MixNodeName(Monitor), "Undertone: Monitor Mix"))
  }

  /** A wanted connection, by node name. */
  datatype Edge = Edge(output: string, input: string)

  function SinkRoles(channels: seq<ChannelNodes>): seq<SinkProps> {
    if channels == [] then []
    else SinkRoles(channels[..|channels| - 1]) + [channels[|channels| - 1].sink]
  }

  function FixedRoles(l: Layout): seq<SinkProps> {
    [l.streamMix, l.streamOut, l.monitorMix]
  }

  function FilterRoles(channels: seq<ChannelNodes>): seq<SinkProps> {
    if channels == [] then []
    else
      var c := channels[|channels| - 1];
      FilterRoles(channels[..|channels| - 1]) + [c.streamVol, c.monitorVol]
  }

  function Roles(l: Layout): seq<SinkProps> {
    SinkRoles(l.channels) + FixedRoles(l) + FilterRoles(l.channels)
  }

  function ToStream(l: Layout, c: ChannelNodes): Edge {
    Edge(c.streamVol.name, l.streamMix.name)
  }

  function ToMonitor(l: Layout, c: ChannelNodes): Edge {
    Edge(c.monitorVol.name, l.monitorMix.name)
  }

  function FilterEdges(l: Layout, channels: seq<ChannelNodes>): seq<Edge> {
    if channels == [] then []
    else
      var c := channels[|channels| - 1];
      FilterEdges(l, channels[..|channels| - 1]) + [ToStream(l, c), ToMonitor(l, c)]
  }

  function OutputEdges(l: Layout, wave3: Option<NodeInfo>): seq<Edge> {
    [Edge(l.streamMix.name, l.streamOut.name)]
    + (if wave3.Some? then [Edge(l.monitorMix.name, wave3.value.name)] else [])
  }

  function Edges(l: Layout, wave3: Option<NodeInfo>): seq<Edge> {
    FilterEdges(l, l.channels) + OutputEdges(l, wave3)
  }

  ghost function IdOf(nodes: map<nat, NodeInfo>, name: string): (id: nat)
    requires HasName(nodes, name)
    ensures id in nodes && nodes[id].name == name
  {
    var id :| id in nodes && nodes[id].name == name; id
  }

  function CreateIfMissing(nodes: map<nat, NodeInfo>, w: SinkProps): seq<Action> {
    if HasName(nodes, w.name) then [] else [CreateSink(w)]
  }

  function Creates(nodes: map<nat, NodeInfo>, wanted: seq<SinkProps>): seq<Action> {
    if wanted == [] then []
    else Creates(nodes, wanted[..|wanted| - 1]) + CreateIfMissing(nodes, wanted[|wanted| - 1])
  }

  ghost predicate EndsExist(nodes: map<nat, NodeInfo>, e: Edge) {
    HasName(nodes, e.output) && HasName(nodes, e.input)
  }

  ghost predicate EdgeLinked(cache: Cache, e: Edge) {
    && EndsExist(cache.nodes, e)
    && Linked(cache.links, IdOf(cache.nodes, e.output), IdOf(cache.nodes, e.input))
  }

  function StereoPair(e: Edge): seq<Action> {
    [CreateLink(e.output, "monitor_FL", e.input, "playback_FL"),
     CreateLink(e.output, "monitor_FR", e.input, "playback_FR")]
  }

  ghost function LinkIfMissing(cache: Cache, e: Edge): seq<Action> {
    if EndsExist(cache.nodes, e) && !EdgeLinked(cache, e) then StereoPair(e) else []
  }

  ghost function Links(cache: Cache, edges: seq<Edge>): seq<Action> {
    if edges == [] then []
    else Links(cache, edges[..|edges| - 1]) + LinkIfMissing(cache, edges[|edges| - 1])
  }

  function Warnings(wave3: Option<NodeInfo>): seq<Action> {
    if wave3.None? then [WAVE3_MISSING] else []
  }

  /** What `reconcile` returns when `wave3` is the Wave:3 sink it found. */
  ghost function Reconcile(cache: Cache, l: Layout, wave3: Option<NodeInfo>): seq<Action> {
    Creates(cache.nodes, Roles(l)) + Warnings(wave3) + Links(cache, Edges(l, wave3))
  }

  lemma CreatesConcat(nodes: map<nat, NodeInfo>, xs: seq<SinkProps>, ys: seq<SinkProps>)
    ensures Creates(nodes, xs + ys) == Creates(nodes, xs) + Creates(nodes, ys)
    decreases |ys|
  {
    if ys == [] {
      assert xs + ys == xs;
    } else {
      assert (xs + ys)[..|xs + ys| - 1] == xs + ys[..|ys| - 1];
      CreatesConcat(nodes, xs, ys[..|ys| - 1]);
    }
  }

  lemma LinksConcat(cache: Cache, xs: seq<Edge>, ys: seq<Edge>)
    ensures Links(cache, xs + ys) == Links(cache, xs) + Links(cache, ys)
    decreases |ys|
  {
    if ys == [] {
      assert xs + ys == xs;
    } else {
      assert (xs + ys)[..|xs + ys| - 1] == xs + ys[..|ys| - 1];
      LinksConcat(cache, xs, ys[..|ys| - 1]);
    }
  }

  lemma LinksOfOne(cache: Cache, e: Edge)
    ensures Links(cache, [e]) == LinkIfMissing(cache, e)
  {
    assert [e][..0] == [];
  }

  lemma LinksOfTwo(cache: Cache, e: Edge, f: Edge)
    ensures Links(cache, [e, f]) == LinkIfMissing(cache, e) + LinkIfMissing(cache, f)
  {
    assert [e, f][..1] == [e];
    LinksOfOne(cache, e);
  }

  lemma CreatesInParts(nodes: map<nat, NodeInfo>, l: Layout)
    ensures Creates(nodes, SinkRoles(l.channels)) + Creates(nodes, FixedRoles(l)) + Creates(nodes, FilterRoles(l.channels))
         == Creates(nodes, Roles(l))
  {
    CreatesConcat(nodes, SinkRoles(l.channels), FixedRoles(l));
    CreatesConcat(nodes, SinkRoles(l.channels) + FixedRoles(l), FilterRoles(l.channels));
  }

  lemma Appended(before: seq<Action>, xs: seq<Action>, ys: seq<Action>)
    ensures before + xs + ys == before + (xs + ys)
  {
  }

  lemma LinksInParts(cache: Cache, l: Layout, wave3: Option<NodeInfo>, before: seq<Action>)
    ensures before + Links(cache, FilterEdges(l, l.channels)) + Links(cache, OutputEdges(l, wave3))
         == before + Links(cache, Edges(l, wave3))
  {
    var xs, ys := FilterEdges(l, l.channels), OutputEdges(l, wave3);
    LinksConcat(cache, xs, ys);
    Appended(before, Links(cache, xs), Links(cache, ys));
  }

  lemma CreatesOfTwo(nodes: map<nat, NodeInfo>, x: SinkProps, y: SinkProps)
    ensures Creates(nodes, [x, y]) == CreateIfMissing(nodes, x) + CreateIfMissing(nodes, y)
  {
    assert [x][..0] == [];
    assert Creates(nodes, [x]) == CreateIfMissing(nodes, x);
    assert [x, y][..1] == [x];
  }

  lemma CreatesOfChannel(nodes: map<nat, NodeInfo>, channels: seq<ChannelNodes>, n: nat, before: seq<Action>)
    requires n < |channels|
    ensures var c := channels[n];
      before + Creates(nodes, FilterRoles(channels[..n])) + CreateIfMissing(nodes, c.streamVol) + CreateIfMissing(nodes, c.monitorVol)
      == before + Creates(nodes, FilterRoles(channels[..n + 1]))
  {
    var c, done := channels[n], FilterRoles(channels[..n]);
    assert channels[..n + 1][..n] == channels[..n];
    CreatesConcat(nodes, done, [c.streamVol, c.monitorVol]);
    CreatesOfTwo(nodes, c.streamVol, c.monitorVol);
  }

  lemma LinksOfChannel(cache: Cache, l: Layout, channels: seq<ChannelNodes>, n: nat, before: seq<Action>)
    requires n < |channels|
    ensures var c := channels[n];
      before + Links(cache, FilterEdges(l, channels[..n])) + LinkIfMissing(cache, ToStream(l, c)) + LinkIfMissing(cache, ToMonitor(l, c))
      == before + Links(cache, FilterEdges(l, channels[..n + 1]))
  {
    var c, done := channels[n], FilterEdges(l, channels[..n]);
    assert channels[..n + 1][..n] == channels[..n];
    LinksConcat(cache, done, [ToStream(l, c), ToMonitor(l, c)]);
    LinksOfTwo(cache, ToStream(l, c), ToMonitor(l, c));
  }

  ghost predicate IsAnswer(cache: Cache, l: Layout, wave3: Option<NodeInfo>, actions: seq<Action>) {
    && Creates(cache.nodes, Roles(l)) + Warnings(wave3) <= actions
    && (UniqueNames(cache.nodes) && WellKeyed(cache.nodes) ==> actions == Reconcile(cache, l, wave3))
  }

  class Reconciler {
    const graph: GraphManager

    constructor (graph: GraphManager)
      ensures this.graph == graph
    {
      this.graph := graph;
    }

    /** With unique node names the answer is determined by the graph and the Wave:3 choice;
        the node part is so in any case. */
    method Run(configs: seq<ChannelConfig>) returns (actions: seq<Action>)
      ensures exists wave3 :: IsWave3Choice(graph.nodes, wave3) && IsAnswer(graph.View(), LayoutOf(configs), wave3, actions)
    {
      var l, wave3 := LayoutOf(configs), None;
      actions, wave3 := CheckNodes(l);
      actions := CheckLinks(l, wave3, actions);
      assert IsAnswer(graph.View(), l, wave3, actions);
    }

    method CheckNodes(l: Layout) returns (actions: seq<Action>, wave3: Option<NodeInfo>)
      ensures IsWave3Choice(graph.nodes, wave3)
      ensures actions == Creates(graph.nodes, Roles(l)) + Warnings(wave3)
    {
      actions := CheckSinks(l.channels);
      actions := CheckMixes(l, actions);
      actions := CheckFilters(l.channels, actions);
      CreatesInParts(graph.nodes, l);
      wave3 := graph.FindWave3Sink();
      if wave3.None? { actions := actions + [WAVE3_MISSING]; }
    }

    method CheckLinks(l: Layout, wave3: Option<NodeInfo>, before: seq<Action>) returns (actions: seq<Action>)
      requires IsWave3Choice(graph.nodes, wave3)
      ensures before <= actions
      ensures UniqueNames(graph.nodes) && WellKeyed(graph.nodes) ==>
        actions == before + Links(graph.View(), Edges(l, wave3))
    {
      var streamMix := graph.GetNodeByName(l.streamMix.name);
      var monitorMix := graph.GetNodeByName(l.monitorMix.name);
      actions := CheckFilterLinks(l, streamMix, monitorMix, before);
      ghost var middle := actions;
      actions := CheckOutputLinks(l, streamMix, monitorMix, wave3, actions);
      assert before <= middle <= actions;
      LinksInParts(graph.View(), l, wave3, before);
    }

    method CheckSinks(channels: seq<ChannelNodes>) returns (actions: seq<Action>)
      ensures actions == Creates(graph.nodes, SinkRoles(channels))
    {
      actions := [];
      for n := 0 to |channels|
        invariant actions == Creates(graph.nodes, SinkRoles(channels[..n]))
      {
        assert channels[..n + 1][..n] == channels[..n];
        actions := CreateWhenMissing(channels[n].sink, actions);
      }
      assert channels[..|channels|] == channels;
    }

    method CheckMixes(l: Layout, before: seq<Action>) returns (actions: seq<Action>)
      ensures actions == before + Creates(graph.nodes, FixedRoles(l))
    {
      actions := before;
      var mixes := FixedRoles(l);
      for n := 0 to |mixes|
        invariant actions == before + Creates(graph.nodes, mixes[..n])
      {
        assert mixes[..n + 1][..n] == mixes[..n];
        actions := CreateWhenMissing(mixes[n], actions);
      }
      assert mixes[..|mixes|] == mixes;
    }

    method CheckFilters(channels: seq<ChannelNodes>, before: seq<Action>) returns (actions: seq<Action>)
      ensures actions == before + Creates(graph.nodes, FilterRoles(channels))
    {
      actions := before;
      for n := 0 to |channels|
        invariant actions == before + Creates(graph.nodes, FilterRoles(channels[..n]))
      {
        actions := CreateWhenMissing(channels[n].streamVol, actions);
        actions := CreateWhenMissing(channels[n].monitorVol, actions);
        CreatesOfChannel(graph.nodes, channels, n, before);
      }
      assert channels[..|channels|] == channels;
    }

    method CheckFilterLinks(l: Layout, streamMix: Option<NodeInfo>, monitorMix: Option<NodeInfo>, before: seq<Action>)
      returns (actions: seq<Action>)
      requires IsNodeNamed(graph.nodes, l.streamMix.name, streamMix)
      requires IsNodeNamed(graph.nodes, l.monitorMix.name, monitorMix)
      ensures before <= actions
      ensures UniqueNames(graph.nodes) && WellKeyed(graph.nodes) ==>
        actions == before + Links(graph.View(), FilterEdges(l, l.channels))
    {
      ghost var settled := UniqueNames(graph.nodes) && WellKeyed(graph.nodes);
      actions := before;
      for n := 0 to |l.channels|
        invariant before <= actions
        invariant settled ==> actions == before + Links(graph.View(), FilterEdges(l, l.channels[..n]))
      {
        var c := l.channels[n];
        var streamVol := graph.GetNodeByName(c.streamVol.name);
        actions := LinkWhenMissing(ToStream(l, c), streamVol, streamMix, actions);
        var monitorVol := graph.GetNodeByName(c.monitorVol.name);
        actions := LinkWhenMissing(ToMonitor(l, c), monitorVol, monitorMix, actions);
        LinksOfChannel(graph.View(), l, l.channels, n, before);
      }
      assert l.channels[..|l.channels|] == l.channels;
    }

    method CheckOutputLinks(l: Layout, streamMix: Option<NodeInfo>, monitorMix: Option<NodeInfo>, wave3: Option<NodeInfo>,
        before: seq<Action>)
      returns (actions: seq<Action>)
      requires IsNodeNamed(graph.nodes, l.streamMix.name, streamMix)
      requires IsNodeNamed(graph.nodes, l.monitorMix.name, monitorMix)
      requires IsWave3Choice(graph.nodes, wave3)
      ensures before <= actions
      ensures UniqueNames(graph.nodes) && WellKeyed(graph.nodes) ==>
        actions == before + Links(graph.View(), OutputEdges(l, wave3))
    {
      var toOut := Edge(l.streamMix.name, l.streamOut.name);
      var streamOut := graph.GetNodeByName(l.streamOut.name);
      actions := LinkWhenMissing(toOut, streamMix, streamOut, before);
      LinksOfOne(graph.View(), toOut);
      if wave3.Some? {
        var toWave3 := Edge(l.monitorMix.name, wave3.value.name);
        actions := LinkWhenMissing(toWave3, monitorMix, wave3, actions);
        LinksOfTwo(graph.View(), toOut, toWave3);
        assert OutputEdges(l, wave3) == [toOut, toWave3];
      }
    }

    method CreateWhenMissing(w: SinkProps, before: seq<Action>) returns (after: seq<Action>)
      ensures after == before + CreateIfMissing(graph.nodes, w)
    {
      var node := graph.GetNodeByName(w.name);
      after := before;
      if node.None? { after := after + [CreateSink(w)]; }
    }

    method LinkWhenMissing(e: Edge, output: Option<NodeInfo>, input: Option<NodeInfo>, before: seq<Action>)
      returns (after: seq<Action>)
      requires IsNodeNamed(graph.nodes, e.output, output) && IsNodeNamed(graph.nodes, e.input, input)
      ensures before <= after
      ensures UniqueNames(graph.nodes) && WellKeyed(graph.nodes) ==>
        after == before + LinkIfMissing(graph.View(), e)
    {
      after := before;
      if output.Some? && input.Some? {
        var linked := graph.HasLink(output.value.id, input.value.id);
        if !linked { after := after + StereoPair(e); }
        assert HasName(graph.nodes, e.output) && HasName(graph.nodes, e.input);
      }
    }

    method IsHealthy(configs: seq<ChannelConfig>) returns (healthy: bool)
      ensures UniqueNames(graph.nodes) && WellKeyed(graph.nodes) ==>
        exists wave3 :: IsWave3Choice(graph.nodes, wave3) && (healthy <==> Healthy(graph.View(), LayoutOf(configs), wave3))
    {
      var actions := Run(configs);
      healthy := actions == [];
      ghost var wave3 :| IsWave3Choice(graph.nodes, wave3) && IsAnswer(graph.View(), LayoutOf(configs), wave3, actions);
      HealthyExactlyWhenNothingToDo(graph.View(), LayoutOf(configs), wave3);
    }
  }

  // ---- What an empty answer means, and what a non-empty one may contain -----

  ghost predicate AllPresent(nodes: map<nat, NodeInfo>, wanted: seq<SinkProps>) {
    forall i :: 0 <= i < |wanted| ==> HasName(nodes, wanted[i].name)
  }

  ghost predicate AllLinked(cache: Cache, edges: seq<Edge>) {
    forall k :: 0 <= k < |edges| ==> EdgeLinked(cache, edges[k])
  }

  /** Every wanted node and the Wave:3 sink exist, and every wanted pair is linked. */
  ghost predicate Healthy(cache: Cache, l: Layout, wave3: Option<NodeInfo>) {
    wave3.Some? && AllPresent(cache.nodes, Roles(l)) && AllLinked(cache, Edges(l, wave3))
  }

  lemma {:induction false} CreatesEmpty(nodes: map<nat, NodeInfo>, wanted: seq<SinkProps>)
    ensures Creates(nodes, wanted) == [] <==> AllPresent(nodes, wanted)
  {
    if wanted != [] {
      var most := wanted[..|wanted| - 1];
      CreatesEmpty(nodes, most);
      assert forall i :: 0 <= i < |most| ==> most[i] == wanted[i];
    }
  }

  lemma {:induction false} LinksEmpty(cache: Cache, edges: seq<Edge>)
    ensures Links(cache, edges) == [] <==>
      forall i :: 0 <= i < |edges| && EndsExist(cache.nodes, edges[i]) ==> EdgeLinked(cache, edges[i])
  {
    if edges != [] {
      var most := edges[..|edges| - 1];
      LinksEmpty(cache, most);
      assert forall i :: 0 <= i < |most| ==> most[i] == edges[i];
    }
  }

  lemma {:induction false} SinkRolesAt(channels: seq<ChannelNodes>)
    ensures |SinkRoles(channels)| == |channels|
    ensures forall i :: 0 <= i < |channels| ==> SinkRoles(channels)[i] == channels[i].sink
  {
    if channels != [] { SinkRolesAt(channels[..|channels| - 1]); }
  }

  lemma {:induction false} FilterRolesAt(channels: seq<ChannelNodes>, k: nat)
    requires k < 2 * |channels|
    ensures |FilterRoles(channels)| == 2 * |channels|
    ensures FilterRoles(channels)[k] == if k % 2 == 0 then channels[k / 2].streamVol else channels[k / 2].monitorVol
  {
    FilterRolesLength(channels);
    var most := channels[..|channels| - 1];
    FilterRolesLength(most);
    if k < 2 * |most| { FilterRolesAt(most, k); }
  }

  lemma {:induction false} FilterRolesLength(channels: seq<ChannelNodes>)
    ensures |FilterRoles(channels)| == 2 * |channels|
  {
    if channels != [] { FilterRolesLength(channels[..|channels| - 1]); }
  }

  lemma {:induction false} FilterEdgesAt(l: Layout, channels: seq<ChannelNodes>, k: nat)
    requires k < 2 * |channels|
    ensures |FilterEdges(l, channels)| == 2 * |channels|
    ensures FilterEdges(l, channels)[k]
         == if k % 2 == 0 then ToStream(l, channels[k / 2]) else ToMonitor(l, channels[k / 2])
  {
    FilterEdgesLength(l, channels);
    var most := channels[..|channels| - 1];
    FilterEdgesLength(l, most);
    if k < 2 * |most| { FilterEdgesAt(l, most, k); }
  }

  lemma {:induction false} FilterEdgesLength(l: Layout, channels: seq<ChannelNodes>)
    ensures |FilterEdges(l, channels)| == 2 * |channels|
  {
    if channels != [] { FilterEdgesLength(l, channels[..|channels| - 1]); }
  }

  /** The nodes and pairs demanded of `n` channels: 3n+3 and, with a Wave:3, 2n+2. */
  lemma DemandSize(l: Layout, wave3: Option<NodeInfo>)
    ensures |Roles(l)| == 3 * |l.channels| + 3
    ensures |Edges(l, wave3)| == 2 * |l.channels| + 1 + (if wave3.Some? then 1 else 0)
  {
    SinkRolesAt(l.channels);
    FilterRolesLength(l.channels);
    FilterEdgesLength(l, l.channels);
  }

  /** The `k`-th demanded node, counted without building the list. */
  function RoleAt(l: Layout, k: nat): SinkProps
    requires k < 3 * |l.channels| + 3
  {
    var n := |l.channels|;
    if k < n then l.channels[k].sink
    else if k < n + 3 then FixedRoles(l)[k - n]
    else if (k - n - 3) % 2 == 0 then l.channels[(k - n - 3) / 2].streamVol
    else l.channels[(k - n - 3) / 2].monitorVol
  }

  lemma RolesSplit(l: Layout, k: nat)
    requires k < 3 * |l.channels| + 3
    ensures |Roles(l)| == 3 * |l.channels| + 3
    ensures Roles(l)[k] == RoleAt(l, k)
  {
    DemandSize(l, None);
    SinkRolesAt(l.channels);
    if k >= |l.channels| + 3 { FilterRolesAt(l.channels, k - |l.channels| - 3); }
  }

  lemma EdgesSplit(l: Layout, wave3: Option<NodeInfo>, k: nat)
    requires k < |Edges(l, wave3)|
    ensures |Edges(l, wave3)| == 2 * |l.channels| + |OutputEdges(l, wave3)|
    ensures Edges(l, wave3)[k] ==
      if k >= 2 * |l.channels| then OutputEdges(l, wave3)[k - 2 * |l.channels|]
      else if k % 2 == 0 then ToStream(l, l.channels[k / 2])
      else ToMonitor(l, l.channels[k / 2])
  {
    FilterEdgesLength(l, l.channels);
    if k < 2 * |l.channels| { FilterEdgesAt(l, l.channels, k); }
  }

  /** Every demanded pair joins demanded nodes (or ends at the Wave:3). */
  lemma EdgesJoinRoles(nodes: map<nat, NodeInfo>, l: Layout, wave3: Option<NodeInfo>, k: nat)
    requires AllPresent(nodes, Roles(l)) && k < |Edges(l, wave3)|
    requires wave3.Some? ==> HasName(nodes, wave3.value.name)
    ensures EndsExist(nodes, Edges(l, wave3)[k])
  {
    var rs, n := Roles(l), |l.channels|;
    EdgesSplit(l, wave3, k);
    RolesSplit(l, n);
    RolesSplit(l, n + 1);
    RolesSplit(l, n + 2);
    assert HasName(nodes, rs[n].name) && HasName(nodes, rs[n + 1].name) && HasName(nodes, rs[n + 2].name);
    if k < 2 * n {
      RolesSplit(l, n + 3 + k);
      assert HasName(nodes, rs[n + 3 + k].name);
    }
  }

  /** `is_healthy` is exactly: all demanded nodes and the Wave:3 exist, all demanded pairs are linked. */
  lemma HealthyExactlyWhenNothingToDo(cache: Cache, l: Layout, wave3: Option<NodeInfo>)
    requires IsWave3Choice(cache.nodes, wave3)
    ensures Reconcile(cache, l, wave3) == [] <==> Healthy(cache, l, wave3)
  {
    var es := Edges(l, wave3);
    CreatesEmpty(cache.nodes, Roles(l));
    LinksEmpty(cache, es);
    if AllPresent(cache.nodes, Roles(l)) && wave3.Some? {
      forall k | 0 <= k < |es| ensures EndsExist(cache.nodes, es[k]) {
        EdgesJoinRoles(cache.nodes, l, wave3, k);
      }
    }
  }

  /** An action is justified by something the graph lacks. */
  ghost predicate Justified(cache: Cache, l: Layout, wave3: Option<NodeInfo>, a: Action) {
    match a
    case CreateSink(p) => !HasName(cache.nodes, p.name) && p in Roles(l)
    case CreateLink(output, op, input, ip) =>
      && Edge(output, input) in Edges(l, wave3)
      && EndsExist(cache.nodes, Edge(output, input)) && !EdgeLinked(cache, Edge(output, input))
      && (op, ip) in {("monitor_FL", "playback_FL"), ("monitor_FR", "playback_FR")}
    case Warn(_) => wave3.None?
    case DestroyNode(_) => false
    case DestroyLink(_) => false
  }

  lemma {:induction false} CreatesJustified(nodes: map<nat, NodeInfo>, wanted: seq<SinkProps>, k: nat) returns (i: nat)
    requires k < |Creates(nodes, wanted)|
    ensures i < |wanted| && Creates(nodes, wanted)[k] == CreateSink(wanted[i])
    ensures !HasName(nodes, wanted[i].name)
  {
    var most := wanted[..|wanted| - 1];
    if k < |Creates(nodes, most)| {
      i := CreatesJustified(nodes, most, k);
      assert most[i] == wanted[i];
    } else {
      i := |wanted| - 1;
    }
  }

  function LeftLink(e: Edge): Action {
    CreateLink(e.output, "monitor_FL", e.input, "playback_FL")
  }

  function RightLink(e: Edge): Action {
    CreateLink(e.output, "monitor_FR", e.input, "playback_FR")
  }

  /** Links come in left/right pairs: action `k` of the link part belongs to a missing pair. */
  lemma {:induction false} LinksJustified(cache: Cache, edges: seq<Edge>, k: nat) returns (i: nat)
    requires k < |Links(cache, edges)|
    ensures i < |edges| && EndsExist(cache.nodes, edges[i]) && !EdgeLinked(cache, edges[i])
    ensures Links(cache, edges)[k] == if k % 2 == 0 then LeftLink(edges[i]) else RightLink(edges[i])
    ensures k % 2 == 0 ==> k + 1 < |Links(cache, edges)| && Links(cache, edges)[k + 1] == RightLink(edges[i])
    ensures k % 2 == 1 ==> Links(cache, edges)[k - 1] == LeftLink(edges[i])
  {
    var most := edges[..|edges| - 1];
    LinksEven(cache, most);
    if k < |Links(cache, most)| {
      i := LinksJustified(cache, most, k);
      assert most[i] == edges[i];
    } else {
      i := |edges| - 1;
    }
  }

  lemma {:induction false} LinksEven(cache: Cache, edges: seq<Edge>)
    ensures |Links(cache, edges)| % 2 == 0
  {
    if edges != [] { LinksEven(cache, edges[..|edges| - 1]); }
  }

  /** Every action is justified, so nothing is created twice and nothing is ever destroyed. */
  lemma ActionsJustified(cache: Cache, l: Layout, wave3: Option<NodeInfo>, k: nat)
    requires k < |Reconcile(cache, l, wave3)|
    ensures Justified(cache, l, wave3, Reconcile(cache, l, wave3)[k])
  {
    var cs, ws := Creates(cache.nodes, Roles(l)), Warnings(wave3);
    if k < |cs| {
      var i := CreatesJustified(cache.nodes, Roles(l), k);
    } else if k >= |cs| + |ws| {
      var i := LinksJustified(cache, Edges(l, wave3), k - |cs| - |ws|);
      assert Edges(l, wave3)[i] in Edges(l, wave3);
    }
  }

  // ---- Nothing is left out ----------------------------------------------------------------

  lemma {:induction false} LinksComplete(cache: Cache, edges: seq<Edge>, e: Edge) returns (k: nat)
    requires e in edges && EndsExist(cache.nodes, e) && !EdgeLinked(cache, e)
    ensures k + 1 < |Links(cache, edges)|
    ensures Links(cache, edges)[k] == LeftLink(e) && Links(cache, edges)[k + 1] == RightLink(e)
  {
    var most, last := edges[..|edges| - 1], edges[|edges| - 1];
    if last == e {
      k := |Links(cache, most)|;
    } else {
      assert edges == most + [last];
      k := LinksComplete(cache, most, e);
    }
  }

  lemma {:induction false} CreatesComplete(nodes: map<nat, NodeInfo>, wanted: seq<SinkProps>, p: SinkProps) returns (k: nat)
    requires p in wanted && !HasName(nodes, p.name)
    ensures k < |Creates(nodes, wanted)| && Creates(nodes, wanted)[k] == CreateSink(p)
  {
    var most, last := wanted[..|wanted| - 1], wanted[|wanted| - 1];
    if last == p {
      k := |Creates(nodes, most)|;
    } else {
      assert wanted == most + [last];
      k := CreatesComplete(nodes, most, p);
    }
  }

  /** Left ports to left ports, then right to right: for every demanded pair that is not linked
      the answer asks for both, one after the other. */
  lemma MissingPairIsAskedFor(cache: Cache, l: Layout, wave3: Option<NodeInfo>, o: string, i: string)
    requires Edge(o, i) in Edges(l, wave3)
    requires EndsExist(cache.nodes, Edge(o, i)) && !EdgeLinked(cache, Edge(o, i))
    ensures exists k :: (
      && 0 <= k < |Reconcile(cache, l, wave3)| - 1
      && Reconcile(cache, l, wave3)[k] == CreateLink(o, "monitor_FL", i, "playback_FL")
      && Reconcile(cache, l, wave3)[k + 1] == CreateLink(o, "monitor_FR", i, "playback_FR"))
  {
    var j := LinksComplete(cache, Edges(l, wave3), Edge(o, i));
    var k := |Creates(cache.nodes, Roles(l)) + Warnings(wave3)| + j;
    assert Reconcile(cache, l, wave3)[k] == LeftLink(Edge(o, i));
    assert Reconcile(cache, l, wave3)[k + 1] == RightLink(Edge(o, i));
  }

  lemma MissingNodeIsAskedFor(cache: Cache, l: Layout, wave3: Option<NodeInfo>, p: SinkProps)
    requires p in Roles(l) && !HasName(cache.nodes, p.name)
    ensures CreateSink(p) in Reconcile(cache, l, wave3)
  {
    var k := CreatesComplete(cache.nodes, Roles(l), p);
    assert Reconcile(cache, l, wave3)[k] == CreateSink(p);
  }

  // ---- What start-up leaves to the reconciler -----------------------------------

  lemma CreatesPresent(nodes: map<nat, NodeInfo>, xs: seq<SinkProps>, missing: SinkProps, ys: seq<SinkProps>)
    requires AllPresent(nodes, xs) && AllPresent(nodes, ys) && !HasName(nodes, missing.name)
    ensures Creates(nodes, xs + [missing] + ys) == [CreateSink(missing)]
  {
    CreatesConcat(nodes, xs + [missing], ys);
    CreatesEmpty(nodes, xs);
    CreatesEmpty(nodes, ys);
    assert (xs + [missing])[..|xs|] == xs;
  }

  lemma OutputsWithoutStreamOut(cache: Cache, l: Layout, wave3: Option<NodeInfo>)
    requires !HasName(cache.nodes, l.streamOut.name)
    requires wave3.Some? ==> EdgeLinked(cache, Edge(l.monitorMix.name, wave3.value.name))
    ensures Links(cache, OutputEdges(l, wave3)) == []
  {
    var toOut := Edge(l.streamMix.name, l.streamOut.name);
    LinksOfOne(cache, toOut);
    if wave3.Some? {
      LinksOfTwo(cache, toOut, Edge(l.monitorMix.name, wave3.value.name));
      assert OutputEdges(l, wave3) == [toOut, Edge(l.monitorMix.name, wave3.value.name)];
    }
  }

  /** A complete start-up makes everything but the stream output: that is all the reconciler
      then asks for, whatever became of the channel-to-filter links, which it never looks at. */
  lemma StartUpLeavesStreamOut(cache: Cache, l: Layout, wave3: Option<NodeInfo>)
    requires AllPresent(cache.nodes, SinkRoles(l.channels)) && AllPresent(cache.nodes, FilterRoles(l.channels))
    requires HasName(cache.nodes, l.streamMix.name) && HasName(cache.nodes, l.monitorMix.name)
    requires !HasName(cache.nodes, l.streamOut.name)
    requires AllLinked(cache, FilterEdges(l, l.channels))
    requires wave3.Some? ==> EdgeLinked(cache, Edge(l.monitorMix.name, wave3.value.name))
    ensures Reconcile(cache, l, wave3) == [CreateSink(l.streamOut)] + Warnings(wave3)
  {
    var xs, ys := SinkRoles(l.channels) + [l.streamMix], [l.monitorMix] + FilterRoles(l.channels);
    assert Roles(l) == xs + [l.streamOut] + ys;
    CreatesPresent(cache.nodes, xs, l.streamOut, ys);
    LinksEmpty(cache, FilterEdges(l, l.channels));
    LinksConcat(cache, FilterEdges(l, l.channels), OutputEdges(l, wave3));
    OutputsWithoutStreamOut(cache, l, wave3);
  }
}
