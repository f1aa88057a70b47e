/** The links made at start-up, and why audio cannot leak between channels. */
module StartUp {
  import opened Prelude
  import opened Naming
  import opened Graph

  /** What became of one left/right pair of link requests; the right half is only
      attempted after the left one, and a failure undoes nothing. */
  datatype Stereo = Both(left: nat, right: nat) | LeftOnly | Neither

  datatype Side = FL | FR

  /** The four node pairs of one channel, in the order they are linked. */
  datatype Leg = ToFilter(mix: MixType) | ToMix(mix: MixType)

  datatype LinkRecord = LinkRecord(channel: string, leg: Leg, side: Side, id: nat)

  /** What becomes of the n-th pair of requests. */
  type Oracle = nat -> Stereo

  /** A channel's sink and the names of its two filters. */
  datatype Channel = Channel(node: NodeInfo, stream: string, monitor: string)

  /** The ids of the two mixes, looked up once. */
  datatype Mixes = Mixes(stream: nat, monitor: nat)

  /** The nodes found for one channel. */
  datatype Wiring = Wiring(channel: Channel, stream: nat, monitor: nat, mixes: Mixes)

  predicate Named(nodes: map<nat, NodeInfo>, id: nat, name: string) {
    id in nodes && nodes[id].name == name
  }

  function Base(channel: string): string {
    if StartsWith(channel, PREFIX) then channel[|PREFIX|..] else channel
  }

  function ChannelOf(node: NodeInfo): Channel {
    Channel(node, VolNodeName(Base(node.name), Stream), VolNodeName(Base(node.name), Monitor))
  }

  predicate Cached(nodes: map<nat, NodeInfo>, node: NodeInfo) {
    exists id :: id in nodes && nodes[id] == node
  }

  predicate Found(nodes: map<nat, NodeInfo>, w: Wiring) {
    Cached(nodes, w.channel.node) && Named(nodes, w.stream, w.channel.stream) && Named(nodes, w.monitor, w.channel.monitor)
  }

  function Legs(w: Wiring): seq<(nat, nat)> {
    [(w.channel.node.id, w.stream), (w.stream, w.mixes.stream),
     (w.channel.node.id, w.monitor), (w.monitor, w.mixes.monitor)]
  }

  /** At least one link joins the pair. */
  function Joined(outcome: Stereo, pair: (nat, nat)): set<(nat, nat)> {
    if outcome == Neither then {} else {pair}
  }

  /** The pairs of a channel that are joined when its requests start with the n-th. */
  function Made(oracle: Oracle, n: nat, w: Wiring): set<(nat, nat)> {
    Joined(oracle(n), Legs(w)[0]) + Joined(oracle(n + 1), Legs(w)[1])
    + Joined(oracle(n + 2), Legs(w)[2]) + Joined(oracle(n + 3), Legs(w)[3])
  }

  function Recorded(outcome: Stereo, channel: string, leg: Leg): seq<LinkRecord> {
    match outcome
    case Both(left, right) => [LinkRecord(channel, leg, FL, left), LinkRecord(channel, leg, FR, right)]
    case _ => []
  }

  function RecordedFor(oracle: Oracle, n: nat, w: Wiring): seq<LinkRecord> {
    Recorded(oracle(n), w.channel.node.name, ToFilter(Stream))
    + Recorded(oracle(n + 1), w.channel.node.name, ToMix(Stream))
    + Recorded(oracle(n + 2), w.channel.node.name, ToFilter(Monitor))
    + Recorded(oracle(n + 3), w.channel.node.name, ToMix(Monitor))
  }

  function RecordedAll(oracle: Oracle, plan: seq<Wiring>): seq<LinkRecord> {
    if plan == [] then []
    else RecordedAll(oracle, plan[..|plan| - 1]) + RecordedFor(oracle, 4 * (|plan| - 1), plan[|plan| - 1])
  }

  function MadeAll(oracle: Oracle, plan: seq<Wiring>): set<(nat, nat)> {
    if plan == [] then {}
    else MadeAll(oracle, plan[..|plan| - 1]) + Made(oracle, 4 * (|plan| - 1), plan[|plan| - 1])
  }

  /** The `j`-th pair of a channel whose requests start with the n-th is `pair`, and joined. */
  predicate MadeAt(oracle: Oracle, n: nat, w: Wiring, j: nat, pair: (nat, nat)) {
    j < 4 && Legs(w)[j] == pair && oracle(n + j) != Neither
  }

  lemma {:induction false} MadeForOne(oracle: Oracle, n: nat, w: Wiring, pair: (nat, nat))
    ensures pair in Made(oracle, n, w) <==> exists j: nat :: MadeAt(oracle, n, w, j, pair)
  {
    assert pair in Made(oracle, n, w) ==>
      MadeAt(oracle, n, w, 0, pair) || MadeAt(oracle, n, w, 1, pair) || MadeAt(oracle, n, w, 2, pair) || MadeAt(oracle, n, w, 3, pair);
    forall j: nat | MadeAt(oracle, n, w, j, pair) ensures pair in Made(oracle, n, w) {
      assert j == 0 || j == 1 || j == 2 || j == 3;
    }
  }

  predicate PlannedAt(oracle: Oracle, plan: seq<Wiring>, k: nat, j: nat, pair: (nat, nat)) {
    k < |plan| && MadeAt(oracle, 4 * k, plan[k], j, pair)
  }

  /** What is joined is a leg of a planned channel, one whose requests did not both fail. */
  lemma {:induction false} MadeExactly(oracle: Oracle, plan: seq<Wiring>, pair: (nat, nat))
    ensures pair in MadeAll(oracle, plan) <==> exists k: nat, j: nat :: PlannedAt(oracle, plan, k, j, pair)
  {
    if plan != [] {
      var n := |plan| - 1;
      MadeExactly(oracle, plan[..n], pair);
      MadeForOne(oracle, 4 * n, plan[n], pair);
      if pair in MadeAll(oracle, plan[..n]) {
        var k: nat, j: nat :| PlannedAt(oracle, plan[..n], k, j, pair);
        assert PlannedAt(oracle, plan, k, j, pair);
      } else if pair in Made(oracle, 4 * n, plan[n]) {
        var j: nat :| MadeAt(oracle, 4 * n, plan[n], j, pair);
        assert PlannedAt(oracle, plan, n, j, pair);
      }
      forall k: nat, j: nat | PlannedAt(oracle, plan, k, j, pair) ensures pair in MadeAll(oracle, plan) {
        assert k < n ==> PlannedAt(oracle, plan[..n], k, j, pair);
      }
    }
  }

  /** The leg a pair of a channel is, in the order they are asked for. */
  function LegAt(j: nat): Leg
    requires j < 4
  {
    if j == 0 then ToFilter(Stream) else if j == 1 then ToMix(Stream) else if j == 2 then ToFilter(Monitor) else ToMix(Monitor)
  }

  /** `r` records a half of the `j`-th pair of a channel whose requests start with the n-th. */
  predicate RecordsHalf(oracle: Oracle, n: nat, w: Wiring, j: nat, r: LinkRecord) {
    && j < 4 && oracle(n + j).Both?
    && r.channel == w.channel.node.name && r.leg == LegAt(j)
    && r.id == if r.side == FL then oracle(n + j).left else oracle(n + j).right
  }

  lemma {:induction false} RecordedForExactly(oracle: Oracle, n: nat, w: Wiring, r: LinkRecord)
    ensures r in RecordedFor(oracle, n, w) <==> exists j: nat :: RecordsHalf(oracle, n, w, j, r)
  {
    RecordedExactly(oracle(n), w.channel.node.name, ToFilter(Stream), r);
    RecordedExactly(oracle(n + 1), w.channel.node.name, ToMix(Stream), r);
    RecordedExactly(oracle(n + 2), w.channel.node.name, ToFilter(Monitor), r);
    RecordedExactly(oracle(n + 3), w.channel.node.name, ToMix(Monitor), r);
    assert r in RecordedFor(oracle, n, w) ==>
      RecordsHalf(oracle, n, w, 0, r) || RecordsHalf(oracle, n, w, 1, r) || RecordsHalf(oracle, n, w, 2, r) || RecordsHalf(oracle, n, w, 3, r);
    forall j: nat | RecordsHalf(oracle, n, w, j, r) ensures r in RecordedFor(oracle, n, w) {
      assert j == 0 || j == 1 || j == 2 || j == 3;
    }
  }

  lemma RecordedExactly(outcome: Stereo, channel: string, leg: Leg, r: LinkRecord)
    ensures r in Recorded(outcome, channel, leg) <==>
      && outcome.Both? && r.channel == channel && r.leg == leg
      && r.id == if r.side == FL then outcome.left else outcome.right
  {
  }

  predicate PlannedHalf(oracle: Oracle, plan: seq<Wiring>, k: nat, j: nat, r: LinkRecord) {
    k < |plan| && RecordsHalf(oracle, 4 * k, plan[k], j, r)
  }

  /** What is recorded is exactly the two halves of every pair of which both were made, each under
      its channel, its leg and its side, with the id its request was given. */
  lemma {:induction false} RecordsExactly(oracle: Oracle, plan: seq<Wiring>, r: LinkRecord)
    ensures r in RecordedAll(oracle, plan) <==> exists k: nat, j: nat :: PlannedHalf(oracle, plan, k, j, r)
  {
    if plan != [] {
      var n := |plan| - 1;
      RecordsExactly(oracle, plan[..n], r);
      RecordedForExactly(oracle, 4 * n, plan[n], r);
      if r in RecordedAll(oracle, plan[..n]) {
        var k: nat, j: nat :| PlannedHalf(oracle, plan[..n], k, j, r);
        assert PlannedHalf(oracle, plan, k, j, r);
      } else if r in RecordedFor(oracle, 4 * n, plan[n]) {
        var j: nat :| RecordsHalf(oracle, 4 * n, plan[n], j, r);
        assert PlannedHalf(oracle, plan, n, j, r);
      }
      forall k: nat, j: nat | PlannedHalf(oracle, plan, k, j, r) ensures r in RecordedAll(oracle, plan) {
        assert k < n ==> PlannedHalf(oracle, plan[..n], k, j, r);
      }
    }
  }

  /** Exactly the cache's channel sinks, each with its filters' names. */
  ghost predicate ListsChannels(nodes: map<nat, NodeInfo>, channels: seq<Channel>) {
    && (forall k :: 0 <= k < |channels| ==> IsChannel(nodes, channels[k]))
    && (forall id :: id in nodes && IsUndertoneChannel(nodes[id].name) ==> ChannelOf(nodes[id]) in channels)
  }

  ghost predicate IsChannel(nodes: map<nat, NodeInfo>, c: Channel) {
    Cached(nodes, c.node) && IsUndertoneChannel(c.node.name) && c == ChannelOf(c.node)
  }

  ghost predicate AllCached(nodes: map<nat, NodeInfo>, channels: seq<Channel>) {
    forall k :: 0 <= k < |channels| ==> Cached(nodes, channels[k].node)
  }

  ghost predicate FiltersExist(nodes: map<nat, NodeInfo>, c: Channel) {
    HasName(nodes, c.stream) && HasName(nodes, c.monitor)
  }

  ghost predicate AllHaveFilters(nodes: map<nat, NodeInfo>, channels: seq<Channel>) {
    forall c :: c in channels ==> FiltersExist(nodes, c)
  }

  /** Both mixes are there and every channel has its two filters. */
  ghost predicate Linkable(nodes: map<nat, NodeInfo>) {
    && HasName(nodes, MixNodeName(Stream)) && HasName(nodes, MixNodeName(Monitor))
    && forall id :: id in nodes && IsUndertoneChannel(nodes[id].name) ==> FiltersExist(nodes, ChannelOf(nodes[id]))
  }

  /** The plan wires the first channels of the list, in order. */
  ghost predicate Follows(nodes: map<nat, NodeInfo>, plan: seq<Wiring>, channels: seq<Channel>, mixes: Mixes) {
    && |plan| <= |channels|
    && forall k :: 0 <= k < |plan| ==> Found(nodes, plan[k]) && plan[k].channel == channels[k] && plan[k].mixes == mixes
  }

  lemma FollowsFurther(nodes: map<nat, NodeInfo>, plan: seq<Wiring>, channels: seq<Channel>, mixes: Mixes, w: Wiring)
    requires Follows(nodes, plan, channels, mixes) && |plan| < |channels|
    requires Found(nodes, w) && w.channel == channels[|plan|] && w.mixes == mixes
    ensures Follows(nodes, plan + [w], channels, mixes)
  {
  }

  lemma FollowedHaveFilters(nodes: map<nat, NodeInfo>, plan: seq<Wiring>, channels: seq<Channel>, mixes: Mixes)
    requires Follows(nodes, plan, channels, mixes) && |plan| == |channels|
    ensures AllHaveFilters(nodes, channels)
  {
    forall c | c in channels ensures FiltersExist(nodes, c) {
      var k :| 0 <= k < |channels| && channels[k] == c;
      assert Found(nodes, plan[k]);
    }
  }

  function Position(side: Side): string {
    match side case FL => "FL" case FR => "FR"
  }

  function Fallback(direction: Direction, side: Side): string {
    match (direction, side)
    case (Output, FL) => "monitor_FL"
    case (Output, FR) => "monitor_FR"
    case (Input, FL) => "playback_FL"
    case (Input, FR) => "playback_FR"
  }

  predicate OnSide(port: PortInfo, node: nat, direction: Direction, side: Side) {
    port.nodeId == node && port.direction == direction && port.channel == Some(Position(side))
  }

  /** The name of some cached port on that side, the fallback exactly when there is none. */
  predicate IsPortName(ports: map<nat, PortInfo>, node: nat, direction: Direction, side: Side, name: string) {
    if exists id :: id in ports && OnSide(ports[id], node, direction, side)
    then exists id :: id in ports && OnSide(ports[id], node, direction, side) && ports[id].name == name
    else name == Fallback(direction, side)
  }

  predicate HasPort(ports: map<nat, PortInfo>, node: nat, direction: Direction, channel: string, name: string) {
    exists id :: id in ports && ports[id].nodeId == node && ports[id].direction == direction
      && ports[id].channel == Some(channel) && ports[id].name == name
  }

  /** Left is the channel "FL", right the channel "FR"; a node without such a port is asked for
      the ones a sink has. */
  lemma PortsByName(ports: map<nat, PortInfo>, node: nat, name: string)
    ensures IsPortName(ports, node, Output, FL, name) <==>
      HasPort(ports, node, Output, "FL", name) || (name == "monitor_FL" && forall n :: !HasPort(ports, node, Output, "FL", n))
    ensures IsPortName(ports, node, Output, FR, name) <==>
      HasPort(ports, node, Output, "FR", name) || (name == "monitor_FR" && forall n :: !HasPort(ports, node, Output, "FR", n))
    ensures IsPortName(ports, node, Input, FL, name) <==>
      HasPort(ports, node, Input, "FL", name) || (name == "playback_FL" && forall n :: !HasPort(ports, node, Input, "FL", n))
    ensures IsPortName(ports, node, Input, FR, name) <==>
      HasPort(ports, node, Input, "FR", name) || (name == "playback_FR" && forall n :: !HasPort(ports, node, Input, "FR", n))
  {
    PortByName(ports, node, Output, FL, name);
    PortByName(ports, node, Output, FR, name);
    PortByName(ports, node, Input, FL, name);
    PortByName(ports, node, Input, FR, name);
  }

  lemma PortByName(ports: map<nat, PortInfo>, node: nat, direction: Direction, side: Side, name: string)
    ensures IsPortName(ports, node, direction, side, name) <==>
      || HasPort(ports, node, direction, Position(side), name)
      || (name == Fallback(direction, side) && forall n :: !HasPort(ports, node, direction, Position(side), n))
  {
    if id :| id in ports && OnSide(ports[id], node, direction, side) {
      assert HasPort(ports, node, direction, Position(side), ports[id].name);
    }
    if HasPort(ports, node, direction, Position(side), name) {
      var id :| id in ports && ports[id].nodeId == node && ports[id].direction == direction
        && ports[id].channel == Some(Position(side)) && ports[id].name == name;
      assert OnSide(ports[id], node, direction, side);
    }
  }

  class Linker {
    const graph: GraphManager
    /** Node pairs between which PipeWire holds at least one link made here. */
    var linked: set<(nat, nat)>

    constructor (graph: GraphManager)
      ensures this.graph == graph && linked == {}
    {
      this.graph, linked := graph, {};
    }

    method GetUndertoneChannels() returns (channels: seq<Channel>)
      ensures ListsChannels(graph.nodes, channels)
    {
      channels := [];
      var ids := graph.nodes.Keys;
      while ids != {}
        invariant ids <= graph.nodes.Keys
        invariant forall k :: 0 <= k < |channels| ==> IsChannel(graph.nodes, channels[k])
        invariant forall id :: id in graph.nodes && id !in ids && IsUndertoneChannel(graph.nodes[id].name)
                    ==> ChannelOf(graph.nodes[id]) in channels
        decreases |ids|
      {
        var id :| id in ids;
        ids := ids - {id};
        if IsUndertoneChannel(graph.nodes[id].name) {
          assert Cached(graph.nodes, graph.nodes[id]);
          channels := channels + [ChannelOf(graph.nodes[id])];
        }
      }
    }

    /** The name of a port on that side, or the fallback when the cache knows of none. */
    method FindPort(node: nat, direction: Direction, side: Side) returns (name: string)
      ensures IsPortName(graph.ports, node, direction, side, name)
    {
      if id :| id in graph.ports && OnSide(graph.ports[id], node, direction, side) {
        name := graph.ports[id].name;
      } else {
        name := Fallback(direction, side);
      }
    }

    /** `asked` lists the pairs of ports asked to be linked: left to left, then right to right. */
    method CreateStereoLinks(outcome: Stereo, output: nat, input: nat)
      returns (r: Option<(nat, nat)>, asked: seq<(string, string)>)
      modifies this`linked
      ensures linked == old(linked) + Joined(outcome, (output, input))
      ensures match outcome case Both(x, y) => r == Some((x, y)) case _ => r == None
      ensures |asked| == if outcome == Neither then 1 else 2
      ensures forall k :: 0 <= k < |asked| ==> var side := if k == 0 then FL else FR;
        && IsPortName(graph.ports, output, Output, side, asked[k].0)
        && IsPortName(graph.ports, input, Input, side, asked[k].1)
    {
      var outFl := FindPort(output, Output, FL);
      var outFr := FindPort(output, Output, FR);
      var inFl := FindPort(input, Input, FL);
      var inFr := FindPort(input, Input, FR);
      asked := [(outFl, inFl)];
      if outcome == Neither { return None, asked; }
      linked := linked + {(output, input)};
      asked := asked + [(outFr, inFr)];
      r := if outcome.Both? then Some((outcome.left, outcome.right)) else None;
    }

    method LinkAndRecord(outcome: Stereo, output: nat, input: nat, channel: string, leg: Leg, before: seq<LinkRecord>)
      returns (records: seq<LinkRecord>)
      modifies this`linked
      ensures linked == old(linked) + Joined(outcome, (output, input))
      ensures records == before + Recorded(outcome, channel, leg)
    {
      var ids, _ := CreateStereoLinks(outcome, output, input);
      records := before;
      if ids.Some? {
        records := records + [LinkRecord(channel, leg, FL, ids.value.0)];
        records := records + [LinkRecord(channel, leg, FR, ids.value.1)];
      }
    }

    method LinkChannel(oracle: Oracle, n: nat, w: Wiring, before: seq<LinkRecord>) returns (records: seq<LinkRecord>)
      modifies this`linked
      ensures linked == old(linked) + Made(oracle, n, w)
      ensures records == before + RecordedFor(oracle, n, w)
    {
      records := LinkAndRecord(oracle(n), w.channel.node.id, w.stream, w.channel.node.name, ToFilter(Stream), before);
      records := LinkAndRecord(oracle(n + 1), w.stream, w.mixes.stream, w.channel.node.name, ToMix(Stream), records);
      records := LinkAndRecord(oracle(n + 2), w.channel.node.id, w.monitor, w.channel.node.name, ToFilter(Monitor), records);
      records := LinkAndRecord(oracle(n + 3), w.monitor, w.mixes.monitor, w.channel.node.name, ToMix(Monitor), records);
    }

    method FindFilters(channel: Channel, mixes: Mixes) returns (r: Result<Wiring>)
      requires WellKeyed(graph.nodes) && Cached(graph.nodes, channel.node)
      ensures r.Ok? <==> FiltersExist(graph.nodes, channel)
      ensures r.Ok? ==> Found(graph.nodes, r.ok) && r.ok.channel == channel && r.ok.mixes == mixes
    {
      var stream := graph.GetNodeByName(channel.stream);
      if stream.None? { return Err("Node not found: " + channel.stream); }
      var monitor := graph.GetNodeByName(channel.monitor);
      if monitor.None? { return Err("Node not found: " + channel.monitor); }
      assert HasName(graph.nodes, stream.value.name) && HasName(graph.nodes, monitor.value.name);
      r := Ok(Wiring(channel, stream.value.id, monitor.value.id, mixes));
    }

    method LinkPlanned(oracle: Oracle, n: nat, w: Wiring, before: seq<LinkRecord>,
        ghost done: seq<Wiring>, ghost base: set<(nat, nat)>)
      returns (records: seq<LinkRecord>)
      requires n == |done| && linked == base + MadeAll(oracle, done) && before == RecordedAll(oracle, done)
      modifies this`linked
      ensures linked == base + MadeAll(oracle, done + [w]) && records == RecordedAll(oracle, done + [w])
    {
      records := LinkChannel(oracle, 4 * n, w, before);
      OneMore(oracle, done, w);
    }

    method LinkListed(oracle: Oracle, channels: seq<Channel>, mixes: Mixes)
      returns (r: Result<seq<LinkRecord>>, ghost plan: seq<Wiring>)
      requires WellKeyed(graph.nodes) && AllCached(graph.nodes, channels)
      modifies this`linked
      ensures Follows(graph.nodes, plan, channels, mixes)
      ensures linked == old(linked) + MadeAll(oracle, plan)
      ensures r.Ok? ==> |plan| == |channels| && r.ok == RecordedAll(oracle, plan)
      ensures r.Ok? <==> AllHaveFilters(graph.nodes, channels)
    {
      plan := [];
      var records := [];
      for n := 0 to |channels|
        invariant |plan| == n && Follows(graph.nodes, plan, channels, mixes)
        invariant linked == old(linked) + MadeAll(oracle, plan)
        invariant records == RecordedAll(oracle, plan)
      {
        var w := FindFilters(channels[n], mixes);
        if w.Err? { return Err(w.reason), plan; }
        records := LinkPlanned(oracle, n, w.ok, records, plan, old(linked));
        FollowsFurther(graph.nodes, plan, channels, mixes, w.ok);
        plan := plan + [w.ok];
      }
      FollowedHaveFilters(graph.nodes, plan, channels, mixes);
      r := Ok(records);
    }

    /** `create_channel_to_mix_links_with_filters`. `plan` lists the channels dealt with, in
        the cache's order. A missing filter ends the call with an error and the records are
        lost, but the links of the channels before it stay. */
    method CreateChannelLinks(oracle: Oracle) returns (r: Result<seq<LinkRecord>>, ghost plan: seq<Wiring>)
      requires WellKeyed(graph.nodes)
      modifies this`linked
      ensures PlanIsSound(graph.nodes, plan)
      ensures linked == old(linked) + MadeAll(oracle, plan)
      ensures r.Ok? <==> Linkable(graph.nodes)
      ensures r.Ok? ==> r.ok == RecordedAll(oracle, plan) && Covers(graph.nodes, plan)
    {
      plan := [];
      var streamMix := graph.GetNodeByName(MixNodeName(Stream));
      if streamMix.None? { return Err("Node not found: ut-stream-mix"), plan; }
      var monitorMix := graph.GetNodeByName(MixNodeName(Monitor));
      if monitorMix.None? { return Err("Node not found: ut-monitor-mix"), plan; }
      var channels := GetUndertoneChannels();
      var mixes := Mixes(streamMix.value.id, monitorMix.value.id);
      ListedAreCached(graph.nodes, channels);
      r, plan := LinkListed(oracle, channels, mixes);
      LinkableMeans(graph.nodes, channels);
      ListedPlan(graph.nodes, channels, plan, mixes);
    }
  }

  /** Every planned channel is one of the cache's, with its own filters and the two mixes. */
  ghost predicate PlanIsSound(nodes: map<nat, NodeInfo>, plan: seq<Wiring>) {
    forall w :: w in plan ==>
      && IsChannel(nodes, w.channel) && Found(nodes, w)
      && Named(nodes, w.mixes.stream, MixNodeName(Stream)) && Named(nodes, w.mixes.monitor, MixNodeName(Monitor))
  }

  ghost predicate Covers(nodes: map<nat, NodeInfo>, plan: seq<Wiring>) {
    forall id :: id in nodes && IsUndertoneChannel(nodes[id].name) ==> exists w :: w in plan && w.channel.node == nodes[id]
  }

  lemma ListedAreCached(nodes: map<nat, NodeInfo>, channels: seq<Channel>)
    requires ListsChannels(nodes, channels)
    ensures AllCached(nodes, channels)
  {
    forall k | 0 <= k < |channels| ensures Cached(nodes, channels[k].node) {
      assert IsChannel(nodes, channels[k]);
    }
  }

  lemma ListedPlan(nodes: map<nat, NodeInfo>, channels: seq<Channel>, plan: seq<Wiring>, mixes: Mixes)
    requires ListsChannels(nodes, channels) && Follows(nodes, plan, channels, mixes)
    requires Named(nodes, mixes.stream, MixNodeName(Stream)) && Named(nodes, mixes.monitor, MixNodeName(Monitor))
    ensures PlanIsSound(nodes, plan)
    ensures |plan| == |channels| ==> Covers(nodes, plan)
  {
    forall w | w in plan ensures IsChannel(nodes, w.channel) && Found(nodes, w) && w.mixes == mixes {
      var k :| 0 <= k < |plan| && plan[k] == w;
      assert IsChannel(nodes, channels[k]);
    }
    if |plan| == |channels| {
      forall id | id in nodes && IsUndertoneChannel(nodes[id].name)
        ensures exists w :: w in plan && w.channel.node == nodes[id]
      {
        var k :| 0 <= k < |channels| && channels[k] == ChannelOf(nodes[id]);
        assert plan[k] in plan;
      }
    }
  }

  lemma LinkableMeans(nodes: map<nat, NodeInfo>, channels: seq<Channel>)
    requires ListsChannels(nodes, channels)
    ensures Linkable(nodes) <==>
      HasName(nodes, MixNodeName(Stream)) && HasName(nodes, MixNodeName(Monitor)) && AllHaveFilters(nodes, channels)
  {
    if Linkable(nodes) {
      forall c | c in channels ensures FiltersExist(nodes, c) {
        var k :| 0 <= k < |channels| && channels[k] == c;
        assert IsChannel(nodes, channels[k]);
      }
    }
  }

  lemma {:induction false} OneMore(oracle: Oracle, plan: seq<Wiring>, w: Wiring)
    ensures MadeAll(oracle, plan + [w]) == MadeAll(oracle, plan) + Made(oracle, 4 * |plan|, w)
    ensures RecordedAll(oracle, plan + [w]) == RecordedAll(oracle, plan) + RecordedFor(oracle, 4 * |plan|, w)
  {
    assert (plan + [w])[..|plan|] == plan;
  }
}
