/** Registry callbacks of the PipeWire thread, and the daemon's handling of its events. */
module Registry {
  import opened Prelude
  import opened Decimal
  import opened Graph

  datatype GraphEvent =
    | Connected
    | Disconnected
    | NodeAdded(node: NodeInfo)
    | NodeRemoved(id: nat, name: string)
    | PortAdded(port: PortInfo)
    | PortRemoved(id: nat)
    | LinkCreated(id: nat, outputNode: nat, inputNode: nat)
    | LinkRemoved(id: nat)
    | Wave3Detected(serial: string)
    | Wave3Removed
    | ClientAppeared(id: nat, name: string)
    | ClientDisappeared(id: nat)

  datatype Kind = NodeKind | PortKind | LinkKind | OtherKind

  type Props = map<string, string>

  function Get(props: Props, key: string): Option<string> {
    if key in props then Some(props[key]) else None
  }

  function GetOr(props: Props, key: string, default: string): string {
    if key in props then props[key] else default
  }

  /** A numeric property; absent or malformed counts as 0. */
  function GetId(props: Props, key: string): nat {
    if key in props && ParseU32(props[key]).Some? then ParseU32(props[key]).value else 0
  }

  function NodeOf(id: nat, props: Props): NodeInfo {
    var name := GetOr(props, "node.name", "unknown");
    NodeInfo(id, name, Get(props, "media.class"), Get(props, "application.name"),
             Get(props, "application.process.binary"),
             StartsWith(name, "ut-") || "undertone.managed" in props, props)
  }

  function PortOf(id: nat, props: Props): PortInfo {
    PortInfo(id, GetOr(props, "port.name", "unknown"),
             if Get(props, "port.direction") == Some("in") then Input else Output,
             GetId(props, "node.id"), Get(props, "audio.channel"))
  }

  function LinkOf(id: nat, props: Props): LinkInfo {
    LinkInfo(id, GetId(props, "link.output.node"), GetId(props, "link.output.port"),
             GetId(props, "link.input.node"), GetId(props, "link.input.port"))
  }

  predicate IsWave3Source(node: NodeInfo) {
    node.name == "wave3-source" ||
    (node.IsWave3() && node.mediaClass == Some("Audio/Source")
     && (Contains(node.name, "Elgato") || Contains(node.name, "Wave")))
  }

  predicate WasWave3Source(name: string) {
    || name == "wave3-source"
    || (Contains(name, "Elgato") && Contains(name, "Wave") && Contains(name, "input"))
    || (StartsWith(name, "alsa_input") && Contains(name, "Elgato"))
  }

  /** Events `handle_global` sends, in order. */
  function AnnounceEvents(id: nat, kind: Kind, props: Props): seq<GraphEvent> {
    match kind
    case NodeKind =>
      var node := NodeOf(id, props);
      [NodeAdded(node)]
      + (if IsWave3Source(node) then [Wave3Detected(GetOr(props, "device.serial", "unknown"))] else [])
      + (if node.mediaClass == Some("Stream/Output/Audio") && !node.managed
         then [ClientAppeared(id, GetOr(props, "application.name", node.name))] else [])
    case PortKind => [PortAdded(PortOf(id, props))]
    case LinkKind =>
      var link := LinkOf(id, props);
      [LinkCreated(id, link.outputNode, link.inputNode)]
    case OtherKind => []
  }

  function Announced(cache: Cache, id: nat, kind: Kind, props: Props): Cache {
    match kind
    case NodeKind => cache.(nodes := cache.nodes[id := NodeOf(id, props)])
    case PortKind => cache.(ports := cache.ports[id := PortOf(id, props)])
    case LinkKind => cache.(links := cache.links[id := LinkOf(id, props)])
    case OtherKind => cache
  }

  /** Events `handle_global_remove` sends; a node stays cached until the daemon reads its event. */
  function WithdrawEvents(names: map<nat, string>, id: nat): seq<GraphEvent> {
    if id in names then
      (if WasWave3Source(names[id]) then [Wave3Removed] else []) + [NodeRemoved(id, names[id])]
    else [LinkRemoved(id)]
  }

  function Withdrawn(cache: Cache, names: map<nat, string>, id: nat): Cache {
    if id in names then cache else cache.(links := cache.links - {id}, ports := cache.ports - {id})
  }

  // ---- What an announcement says -----------------------------------------------------------

  predicate Says(props: Props, key: string, value: string) {
    key in props && props[key] == value
  }

  lemma GetIdReads(props: Props, key: string, n: nat)
    requires n < U32_LIMIT && Says(props, key, ToDecimal(n))
    ensures GetId(props, key) == n
  {
    ParseInvertsPrint(n);
  }

  /** A link announced from `a` to `b` joins them, that way round, in the cache and in the event. */
  lemma AnnouncedLinkJoins(c: Cache, id: nat, props: Props, a: nat, p: nat, b: nat, q: nat)
    requires a < U32_LIMIT && p < U32_LIMIT && b < U32_LIMIT && q < U32_LIMIT
    requires Says(props, "link.output.node", ToDecimal(a)) && Says(props, "link.output.port", ToDecimal(p))
    requires Says(props, "link.input.node", ToDecimal(b)) && Says(props, "link.input.port", ToDecimal(q))
    ensures var t := Announced(c, id, LinkKind, props);
      && t == c.(links := c.links[id := LinkInfo(id, a, p, b, q)])
      && Linked(t.links, a, b)
    ensures AnnounceEvents(id, LinkKind, props) == [GraphEvent.LinkCreated(id, a, b)]
  {
    GetIdReads(props, "link.output.node", a);
    GetIdReads(props, "link.output.port", p);
    GetIdReads(props, "link.input.node", b);
    GetIdReads(props, "link.input.port", q);
    assert Announced(c, id, LinkKind, props).links[id] == LinkInfo(id, a, p, b, q);
  }

  /** A port belongs to the node it names, and is an input exactly when it says "in". */
  lemma AnnouncedPortBelongs(c: Cache, id: nat, props: Props, node: nat, name: string)
    requires node < U32_LIMIT && Says(props, "node.id", ToDecimal(node)) && Says(props, "port.name", name)
    ensures var t := Announced(c, id, PortKind, props);
      && t == c.(ports := c.ports[id := t.ports[id]])
      && var port := t.ports[id];
      && port.id == id && port.name == name && port.nodeId == node
      && (port.direction == Input <==> Says(props, "port.direction", "in"))
      && (forall ch :: port.channel == Some(ch) <==> Says(props, "audio.channel", ch))
      && AnnounceEvents(id, PortKind, props) == [PortAdded(port)]
  {
    GetIdReads(props, "node.id", node);
  }

  /** A number that is missing or no number counts as 0, a missing name as "unknown". */
  lemma MissingProperties(id: nat)
    ensures LinkOf(id, map[]) == LinkInfo(id, 0, 0, 0, 0)
    ensures PortOf(id, map[]) == PortInfo(id, "unknown", Output, 0, None)
    ensures NodeOf(id, map[]) == NodeInfo(id, "unknown", None, None, None, false, map[])
    ensures GetId(map["node.id" := "12x"], "node.id") == 0
  {
    assert !IsDigit("12x"[2]);
    assert "unknown"[..3][0] == 'u' && "unknown"[..3][1] == 'n';
  }

  /** A node carries what it says; it is Undertone's own exactly by its name's prefix or its mark. */
  lemma AnnouncedNodeIs(c: Cache, id: nat, props: Props, name: string)
    requires Says(props, "node.name", name)
    ensures var t := Announced(c, id, NodeKind, props);
      && t == c.(nodes := c.nodes[id := t.nodes[id]])
      && var node := t.nodes[id];
      && node.id == id && node.name == name && node.properties == props
      && (node.managed <==> StartsWith(name, "ut-") || "undertone.managed" in props)
      && (forall x :: node.mediaClass == Some(x) <==> Says(props, "media.class", x))
      && (forall x :: node.applicationName == Some(x) <==> Says(props, "application.name", x))
      && (forall x :: node.binaryName == Some(x) <==> Says(props, "application.process.binary", x))
  {
  }

  /** Its events: always the node itself first; an application that plays is announced, under its
      own name if it has one, exactly when it is not Undertone's; and a source that is a Wave:3,
      by the custom name or as a device, with its serial number. */
  lemma NodeEvents(id: nat, props: Props, name: string)
    requires Says(props, "node.name", name)
    ensures var events, node := AnnounceEvents(id, NodeKind, props), NodeOf(id, props);
      && 1 <= |events| <= 3 && events[0] == NodeAdded(node)
      && (forall k :: 1 <= k < |events| ==> events[k].Wave3Detected? || events[k].ClientAppeared?)
    ensures forall serial :: Wave3Detected(serial) in AnnounceEvents(id, NodeKind, props) <==>
      && IsMicrophone(name, props)
      && (if "device.serial" in props then serial == props["device.serial"] else serial == "unknown")
    ensures forall i, app :: ClientAppeared(i, app) in AnnounceEvents(id, NodeKind, props) <==>
      && i == id && Says(props, "media.class", "Stream/Output/Audio")
      && !StartsWith(name, "ut-") && "undertone.managed" !in props
      && (if "application.name" in props then app == props["application.name"] else app == name)
  {
    var node := NodeOf(id, props);
    assert node.name == name;
    assert IsWave3Source(node) <==> IsMicrophone(name, props);
    var detected := if IsWave3Source(node) then [Wave3Detected(GetOr(props, "device.serial", "unknown"))] else [];
    var appeared := if node.mediaClass == Some("Stream/Output/Audio") && !node.managed
      then [ClientAppeared(id, GetOr(props, "application.name", node.name))] else [];
    assert AnnounceEvents(id, NodeKind, props) == [NodeAdded(node)] + detected + appeared;
    assert forall e :: e in [NodeAdded(node)] + detected + appeared <==> e == NodeAdded(node) || e in detected || e in appeared;
  }

  predicate IsMicrophone(name: string, props: Props) {
    || name == "wave3-source"
    || (&& Says(props, "media.class", "Audio/Source")
        && (StartsWith(name, "wave3-") || Contains(name, "Elgato") || Contains(name, "Wave:3"))
        && (Contains(name, "Elgato") || Contains(name, "Wave")))
  }

  /** A node's removal is sent under its last name, after the microphone's if it was one; the
      removal of anything else is a link's, and takes link and port of that id out. */
  lemma WithdrawalSays(c: Cache, names: map<nat, string>, id: nat)
    ensures id in names ==>
      && Withdrawn(c, names, id) == c
      && WithdrawEvents(names, id) == if WasMicrophone(names[id]) then [Wave3Removed, NodeRemoved(id, names[id])]
                                      else [NodeRemoved(id, names[id])]
    ensures id !in names ==>
      && Withdrawn(c, names, id) == Cache(c.nodes, c.ports - {id}, c.links - {id})
      && WithdrawEvents(names, id) == [LinkRemoved(id)]
  {
  }

  predicate WasMicrophone(name: string) {
    || name == "wave3-source"
    || (Contains(name, "Elgato") && (StartsWith(name, "alsa_input") || (Contains(name, "Wave") && Contains(name, "input"))))
  }

  /** What the daemon does to the cache when it reads an event. */
  function Handled(cache: Cache, e: GraphEvent): Cache {
    match e
    case NodeRemoved(id, _) => cache.(nodes := cache.nodes - {id})
    case PortRemoved(id) => cache.(ports := cache.ports - {id})
    case _ => cache
  }

  /** The PipeWire thread's side: its name table, and the events it sends. */
  /** Reading an event, the daemon takes out the node or port that is gone, and nothing else. */
  lemma HandledSays(c: Cache, e: GraphEvent)
    ensures forall id, name :: e == NodeRemoved(id, name) ==> Handled(c, e) == Cache(c.nodes - {id}, c.ports, c.links)
    ensures forall id :: e == PortRemoved(id) ==> Handled(c, e) == Cache(c.nodes, c.ports - {id}, c.links)
    ensures !e.NodeRemoved? && !e.PortRemoved? ==> Handled(c, e) == c
  {
  }

  class RegistryListener {
    const graph: GraphManager
    var names: map<nat, string>
    var sent: seq<GraphEvent>

    constructor (graph: GraphManager)
      ensures this.graph == graph && names == map[] && sent == [Connected]
    {
      this.graph, names, sent := graph, map[], [Connected];
    }

    method HandleGlobal(id: nat, kind: Kind, props: Props)
      modifies this`names, this`sent, graph`nodes, graph`ports, graph`links
      ensures graph.View() == Announced(old(graph.View()), id, kind, props)
      ensures sent == old(sent) + AnnounceEvents(id, kind, props)
      ensures names == if kind.NodeKind? then old(names)[id := NodeOf(id, props).name] else old(names)
    {
      match kind {
        case NodeKind =>
          var node := NodeOf(id, props);
          names := names[id := node.name];
          graph.AddNode(node);
          sent := sent + [NodeAdded(node)];
          if IsWave3Source(node) {
            sent := sent + [Wave3Detected(GetOr(props, "device.serial", "unknown"))];
          }
          if node.mediaClass == Some("Stream/Output/Audio") && !node.managed {
            sent := sent + [ClientAppeared(id, GetOr(props, "application.name", node.name))];
          }
        case PortKind =>
          var port := PortOf(id, props);
          graph.AddPort(port);
          sent := sent + [PortAdded(port)];
        case LinkKind =>
          var link := LinkOf(id, props);
          graph.AddLink(link);
          sent := sent + [LinkCreated(id, link.outputNode, link.inputNode)];
        case OtherKind =>
      }
    }

    method HandleGlobalRemove(id: nat)
      modifies this`names, this`sent, graph`ports, graph`links
      ensures graph.View() == Withdrawn(old(graph.View()), old(names), id)
      ensures sent == old(sent) + WithdrawEvents(old(names), id)
      ensures names == old(names) - {id}
    {
      if id in names {
        var name := names[id];
        names := names - {id};
        if WasWave3Source(name) { sent := sent + [Wave3Removed]; }
        sent := sent + [NodeRemoved(id, name)];
      } else {
        graph.RemoveLink(id);
        graph.RemovePort(id);
        sent := sent + [LinkRemoved(id)];
      }
    }
  }

  /** The graph-event arm of the daemon's loop, as far as it touches the cache. */
  method HandleGraphEvent(graph: GraphManager, e: GraphEvent)
    modifies graph`nodes, graph`ports
    ensures graph.View() == Handled(old(graph.View()), e)
  {
    match e {
      case NodeRemoved(id, _) => graph.RemoveNode(id);
      case PortRemoved(id) => graph.RemovePort(id);
      case _ =>
    }
  }
}

/** Both threads and the bounded event queue between them. */
module GraphCache {
  import opened Prelude
  import opened Graph
  import opened Registry

  const EVENT_QUEUE: nat := 256

  datatype Object = Object(kind: Kind, props: Props)

  /** `live`: what the registry currently holds. `outbox`: what the running callback has
      still to send; `blocking_send` keeps the thread inside the callback until it fits.
      `connected`: the daemon has left its wait for `Connected`. */
  datatype World = World(
    live: map<nat, Object>,
    names: map<nat, string>,
    cache: Cache,
    outbox: seq<GraphEvent>,
    queue: seq<GraphEvent>,
    connected: bool)

  const START := World(map[], map[], EMPTY, [Connected], [], false)

  datatype Action =
    | Announce(id: nat, kind: Kind, props: Props)
    | Withdraw(id: nat)
    | Flush
    | Consume

  predicate Enabled(w: World, a: Action) {
    match a
    case Announce(id, _, _) => w.outbox == [] && Listening(w) && id !in w.live
    case Withdraw(id) => w.outbox == [] && Listening(w) && id in w.live
    case Flush => w.outbox != [] && |w.queue| < EVENT_QUEUE
    case Consume => w.queue != []
  }

  /** The listener is registered after `Connected` went out. */
  predicate Listening(w: World) {
    w.connected || Connected in w.queue
  }

  function Next(w: World, a: Action): World
    requires Enabled(w, a)
  {
    match a
    case Announce(id, kind, props) =>
      w.(live := w.live[id := Object(kind, props)],
         names := if kind.NodeKind? then w.names[id := NodeOf(id, props).name] else w.names,
         cache := Announced(w.cache, id, kind, props),
         outbox := AnnounceEvents(id, kind, props))
    case Withdraw(id) =>
      w.(live := w.live - {id},
         names := w.names - {id},
         cache := Withdrawn(w.cache, w.names, id),
         outbox := WithdrawEvents(w.names, id))
    case Flush =>
      w.(queue := w.queue + [w.outbox[0]], outbox := w.outbox[1..])
    case Consume =>
      var e := w.queue[0];
      var u := w.(queue := w.queue[1..]);
      if w.connected then u.(cache := Handled(w.cache, e))
      else u.(connected := e.Connected?)   // while waiting, other events are thrown away
  }

  /** Ids whose `NodeRemoved` is on its way to the daemon. */
  function Departing(events: seq<GraphEvent>): set<nat> {
    set i | 0 <= i < |events| && events[i].NodeRemoved? :: events[i].id
  }

  function Travelling(w: World): seq<GraphEvent> {
    w.queue + w.outbox
  }

  function LiveNodes(w: World): set<nat> {
    set id | id in w.live && w.live[id].kind.NodeKind?
  }

  function LivePorts(w: World): set<nat> {
    set id | id in w.live && w.live[id].kind.PortKind?
  }

  function LiveLinks(w: World): set<nat> {
    set id | id in w.live && w.live[id].kind.LinkKind?
  }

  predicate OncePerNode(events: seq<GraphEvent>) {
    forall i, j :: 0 <= i < j < |events| && events[i].NodeRemoved? && events[j].NodeRemoved? ==>
      events[i].id != events[j].id
  }

  /** The runtime never sends this event; the daemon would drop a live port on it. */
  predicate NoPortRemoved(events: seq<GraphEvent>) {
    forall i :: 0 <= i < |events| ==> !events[i].PortRemoved?
  }

  predicate KeysInv(w: World) {
    && w.cache.nodes.Keys == LiveNodes(w) + Departing(Travelling(w))
    && w.cache.ports.Keys == LivePorts(w)
    && w.cache.links.Keys == LiveLinks(w)
  }

  predicate CacheInv(w: World) {
    && KeysInv(w)
    && (forall id :: id in w.live ==> Shows(w.cache, id, w.live[id]))
  }

  predicate ThreadInv(w: World) {
    && w.names.Keys == LiveNodes(w)
    && LiveNodes(w) !! Departing(Travelling(w))
    && OncePerNode(Travelling(w))
    && NoPortRemoved(Travelling(w))
    && |w.queue| <= EVENT_QUEUE
  }

  /** Until the daemon has seen it, `Connected` is the next event it will read. */
  predicate HandshakeInv(w: World) {
    !w.connected ==>
      || (w.queue == [] && w.outbox == [Connected] && w.live == map[])
      || (w.queue != [] && w.queue[0] == Connected)
  }

  predicate Inv(w: World) {
    CacheInv(w) && ThreadInv(w) && HandshakeInv(w)
  }

  /** The assumption on the registry: an id is not handed out again while the removal of
      its former owner is still travelling. */
  predicate Careful(w: World, a: Action) {
    a.Announce? ==> a.id !in Departing(Travelling(w))
  }

  lemma DepartingConcat(xs: seq<GraphEvent>, ys: seq<GraphEvent>)
    ensures Departing(xs + ys) == Departing(xs) + Departing(ys)
  {
    forall id | id in Departing(xs) + Departing(ys) ensures id in Departing(xs + ys) {
      if id in Departing(xs) {
        var i :| 0 <= i < |xs| && xs[i].NodeRemoved? && xs[i].id == id;
        assert (xs + ys)[i] == xs[i];
      } else {
        var i :| 0 <= i < |ys| && ys[i].NodeRemoved? && ys[i].id == id;
        assert (xs + ys)[|xs| + i] == ys[i];
      }
    }
  }

  lemma DepartingHead(xs: seq<GraphEvent>)
    requires xs != []
    ensures Departing(xs) == (if xs[0].NodeRemoved? then {xs[0].id} else {}) + Departing(xs[1..])
  {
    assert xs == [xs[0]] + xs[1..];
    DepartingConcat([xs[0]], xs[1..]);
    assert Departing([xs[0]]) == if xs[0].NodeRemoved? then {xs[0].id} else {};
  }

  lemma DepartingTail(xs: seq<GraphEvent>)
    requires xs != [] && OncePerNode(xs)
    ensures OncePerNode(xs[1..])
    ensures xs[0].NodeRemoved? ==> xs[0].id !in Departing(xs[1..])
  {
    forall i, j | 0 <= i < j < |xs[1..]| && xs[1..][i].NodeRemoved? && xs[1..][j].NodeRemoved?
      ensures xs[1..][i].id != xs[1..][j].id
    {
      assert xs[i + 1].NodeRemoved? && xs[j + 1].NodeRemoved?;
    }
    if xs[0].NodeRemoved? {
      forall j | 0 <= j < |xs[1..]| && xs[1..][j].NodeRemoved? ensures xs[1..][j].id != xs[0].id {
        assert xs[j + 1].NodeRemoved?;
      }
    }
  }

  lemma SendBatch(xs: seq<GraphEvent>, ys: seq<GraphEvent>)
    requires OncePerNode(xs) && NoPortRemoved(xs)
    requires OncePerNode(ys) && NoPortRemoved(ys)
    requires Departing(xs) !! Departing(ys)
    ensures OncePerNode(xs + ys) && NoPortRemoved(xs + ys)
  {
    var zs := xs + ys;
    forall i, j | 0 <= i < j < |zs| && zs[i].NodeRemoved? && zs[j].NodeRemoved? ensures zs[i].id != zs[j].id {
      if i < |xs| <= j {
        assert xs[i].id in Departing(xs);
        assert ys[j - |xs|].id in Departing(ys);
      }
    }
  }

  lemma AnnounceBatch(id: nat, kind: Kind, props: Props)
    ensures var es := AnnounceEvents(id, kind, props);
      Departing(es) == {} && OncePerNode(es) && NoPortRemoved(es)
  {
  }

  lemma AnnounceLive(w: World, id: nat, kind: Kind, props: Props)
    requires Enabled(w, Announce(id, kind, props))
    ensures var t := Next(w, Announce(id, kind, props));
      && LiveNodes(t) == LiveNodes(w) + (if kind.NodeKind? then {id} else {})
      && LivePorts(t) == LivePorts(w) + (if kind.PortKind? then {id} else {})
      && LiveLinks(t) == LiveLinks(w) + (if kind.LinkKind? then {id} else {})
      && Travelling(w) == w.queue && Departing(Travelling(t)) == Departing(Travelling(w))
  {
    DepartingConcat(w.queue, AnnounceEvents(id, kind, props));
    AnnounceBatch(id, kind, props);
  }

  /** Sending a batch of events keeps the thread's side in order. */
  lemma SentKeepsThread(w: World, t: World, es: seq<GraphEvent>)
    requires ThreadInv(w) && w.outbox == [] && t.queue == w.queue && t.outbox == es
    requires OncePerNode(es) && NoPortRemoved(es) && Departing(w.queue) !! Departing(es)
    requires t.names.Keys == LiveNodes(t) && LiveNodes(t) !! Departing(w.queue) + Departing(es)
    ensures ThreadInv(t)
  {
    assert Travelling(w) == w.queue && Travelling(t) == w.queue + es;
    DepartingConcat(w.queue, es);
    SendBatch(w.queue, es);
  }

  lemma AnnounceKeepsThread(w: World, id: nat, kind: Kind, props: Props)
    requires ThreadInv(w) && Enabled(w, Announce(id, kind, props)) && Careful(w, Announce(id, kind, props))
    ensures ThreadInv(Next(w, Announce(id, kind, props)))
  {
    AnnounceLive(w, id, kind, props);
    AnnounceBatch(id, kind, props);
    SentKeepsThread(w, Next(w, Announce(id, kind, props)), AnnounceEvents(id, kind, props));
  }

  /** The cache says of a live object what was announced. */
  predicate Shows(cache: Cache, id: nat, o: Object) {
    match o.kind
    case NodeKind => id in cache.nodes && cache.nodes[id] == NodeOf(id, o.props)
    case PortKind => id in cache.ports && cache.ports[id] == PortOf(id, o.props)
    case LinkKind => id in cache.links && cache.links[id] == LinkOf(id, o.props)
    case OtherKind => true
  }

  lemma AnnounceShows(c: Cache, id: nat, kind: Kind, props: Props, other: nat, o: Object)
    ensures Shows(Announced(c, id, kind, props), id, Object(kind, props))
    ensures other != id && Shows(c, other, o) ==> Shows(Announced(c, id, kind, props), other, o)
  {
  }

  lemma AnnounceKeepsCache(w: World, id: nat, kind: Kind, props: Props)
    requires CacheInv(w) && Enabled(w, Announce(id, kind, props))
    ensures CacheInv(Next(w, Announce(id, kind, props)))
  {
    var t := Next(w, Announce(id, kind, props));
    AnnounceLive(w, id, kind, props);
    forall x | x in t.live ensures Shows(t.cache, x, t.live[x]) {
      AnnounceShows(w.cache, id, kind, props, x, t.live[x]);
    }
  }

  lemma WithdrawBatch(names: map<nat, string>, id: nat)
    ensures Departing(WithdrawEvents(names, id)) == if id in names then {id} else {}
    ensures OncePerNode(WithdrawEvents(names, id)) && NoPortRemoved(WithdrawEvents(names, id))
  {
    if id in names {
      var es := WithdrawEvents(names, id);
      assert es[|es| - 1] == NodeRemoved(id, names[id]);
    }
  }

  lemma WithdrawLive(w: World, id: nat)
    requires Enabled(w, Withdraw(id))
    ensures var t := Next(w, Withdraw(id));
      && LiveNodes(t) == LiveNodes(w) - {id} && LivePorts(t) == LivePorts(w) - {id} && LiveLinks(t) == LiveLinks(w) - {id}
      && Travelling(w) == w.queue
      && Departing(Travelling(t)) == Departing(w.queue) + (if id in w.names then {id} else {})
  {
    WithdrawBatch(w.names, id);
    DepartingConcat(w.queue, WithdrawEvents(w.names, id));
  }

  lemma WithdrawShows(c: Cache, names: map<nat, string>, id: nat, other: nat, o: Object)
    requires other != id && Shows(c, other, o)
    ensures Shows(Withdrawn(c, names, id), other, o)
  {
  }

  lemma WithdrawKeepsKeys(w: World, id: nat)
    requires KeysInv(w) && w.names.Keys == LiveNodes(w) && Enabled(w, Withdraw(id))
    ensures KeysInv(Next(w, Withdraw(id)))
  {
    WithdrawLive(w, id);
    if id in w.names {
      assert id in LiveNodes(w) && id !in LivePorts(w) && id !in LiveLinks(w);
    } else {
      assert id !in LiveNodes(w);
    }
  }

  lemma WithdrawKeepsCache(w: World, id: nat)
    requires CacheInv(w) && w.names.Keys == LiveNodes(w) && Enabled(w, Withdraw(id))
    ensures CacheInv(Next(w, Withdraw(id)))
  {
    var t := Next(w, Withdraw(id));
    WithdrawKeepsKeys(w, id);
    forall x | x in t.live ensures Shows(t.cache, x, t.live[x]) {
      WithdrawShows(w.cache, w.names, id, x, w.live[x]);
    }
  }

  lemma WithdrawKeepsThread(w: World, id: nat)
    requires ThreadInv(w) && Enabled(w, Withdraw(id))
    ensures ThreadInv(Next(w, Withdraw(id)))
  {
    WithdrawLive(w, id);
    WithdrawBatch(w.names, id);
    SentKeepsThread(w, Next(w, Withdraw(id)), WithdrawEvents(w.names, id));
  }

  lemma ConsumeKeepsThread(w: World)
    requires ThreadInv(w) && Enabled(w, Consume)
    ensures ThreadInv(Next(w, Consume)) && Travelling(Next(w, Consume)) == Travelling(w)[1..]
    ensures LiveNodes(Next(w, Consume)) == LiveNodes(w)
  {
    var t, es := Next(w, Consume), Travelling(w);
    assert es[0] == w.queue[0] && es[1..] == Travelling(t);
    DepartingHead(es);
    DepartingTail(es);
    assert LiveNodes(t) == LiveNodes(w);
  }

  lemma HandledKeepsCache(w: World)
    requires CacheInv(w) && ThreadInv(w) && w.connected && w.queue != []
    ensures CacheInv(Next(w, Consume))
  {
    var t, es := Next(w, Consume), Travelling(w);
    ConsumeKeepsThread(w);
    DepartingHead(es);
    DepartingTail(es);
    assert LivePorts(t) == LivePorts(w) && LiveLinks(t) == LiveLinks(w);
    assert es[0] == w.queue[0] && !es[0].PortRemoved?;
    forall x | x in t.live ensures Shows(t.cache, x, t.live[x]) {
      assert Shows(w.cache, x, w.live[x]);
      assert w.live[x].kind.NodeKind? ==> x in LiveNodes(w);
    }
  }

  lemma ConsumeKeeps(w: World)
    requires Inv(w) && Enabled(w, Consume)
    ensures Inv(Next(w, Consume))
  {
    var t := Next(w, Consume);
    ConsumeKeepsThread(w);
    if w.connected {
      HandledKeepsCache(w);
    } else {
      assert w.queue[0] == Connected;
      DepartingHead(Travelling(w));
      assert LivePorts(t) == LivePorts(w) && LiveLinks(t) == LiveLinks(w);
    }
  }

  /** Every step of either thread keeps the invariant. */
  lemma StepKeeps(w: World, a: Action)
    requires Inv(w) && Enabled(w, a) && Careful(w, a)
    ensures Inv(Next(w, a))
  {
    match a
    case Announce(id, kind, props) =>
      AnnounceKeepsThread(w, id, kind, props);
      AnnounceKeepsCache(w, id, kind, props);
    case Withdraw(id) =>
      WithdrawKeepsCache(w, id);
      WithdrawKeepsThread(w, id);
    case Flush =>
      assert Travelling(Next(w, a)) == Travelling(w);
      assert LiveNodes(Next(w, a)) == LiveNodes(w);
      assert LivePorts(Next(w, a)) == LivePorts(w);
      assert LiveLinks(Next(w, a)) == LiveLinks(w);
    case Consume => ConsumeKeeps(w);
  }

  ghost predicate CarefulRun(w: World, actions: seq<Action>, t: World)
    decreases |actions|
  {
    if actions == [] then w == t
    else Enabled(w, actions[0]) && Careful(w, actions[0]) && CarefulRun(Next(w, actions[0]), actions[1..], t)
  }

  lemma {:induction false} RunKeeps(w: World, actions: seq<Action>, t: World)
    requires Inv(w) && CarefulRun(w, actions, t)
    ensures Inv(t)
    decreases |actions|
  {
    if actions != [] {
      StepKeeps(w, actions[0]);
      RunKeeps(Next(w, actions[0]), actions[1..], t);
    }
  }

  lemma StartInv()
    ensures Inv(START)
  {
    assert Travelling(START) == [Connected];
  }

  /** For every interleaving: cached nodes are the live ones plus those whose removal is
      travelling, no live node is missing or stale, and ports and links agree exactly. */
  lemma CacheAgrees(actions: seq<Action>, w: World)
    requires CarefulRun(START, actions, w)
    ensures w.cache.nodes.Keys == LiveNodes(w) + Departing(Travelling(w))
    ensures LiveNodes(w) !! Departing(Travelling(w))
    ensures forall id :: id in LiveNodes(w) ==> w.cache.nodes[id] == NodeOf(id, w.live[id].props)
    ensures w.cache.ports == map id | id in LivePorts(w) :: PortOf(id, w.live[id].props)
    ensures w.cache.links == map id | id in LiveLinks(w) :: LinkOf(id, w.live[id].props)
  {
    StartInv();
    RunKeeps(START, actions, w);
  }

  /** With nothing travelling the whole cache is the registry. */
  lemma QuietCacheIsExact(actions: seq<Action>, w: World)
    requires CarefulRun(START, actions, w) && w.queue == [] && w.outbox == []
    ensures w.cache.nodes == map id | id in LiveNodes(w) :: NodeOf(id, w.live[id].props)
  {
    CacheAgrees(actions, w);
    assert Departing(Travelling(w)) == {};
  }

  /** The daemon's wait for `Connected` never throws an event away. */
  lemma HandshakeLosesNothing(actions: seq<Action>, w: World)
    requires CarefulRun(START, actions, w) && !w.connected && Enabled(w, Consume)
    ensures w.queue[0] == Connected && Next(w, Consume).connected
  {
    StartInv();
    RunKeeps(START, actions, w);
  }

  /** The daemon reads on while the registry is silent. */
  function Settled(w: World): World
    decreases |w.outbox|, |w.queue|
  {
    if w.queue != [] then Settled(Next(w, Consume))
    else if w.outbox != [] then Settled(Next(w, Flush))
    else w
  }

  lemma {:induction false} SettledCache(w: World)
    requires w.connected && |w.queue| <= EVENT_QUEUE && NoPortRemoved(Travelling(w))
    ensures Settled(w).cache == w.cache.(nodes := w.cache.nodes - Departing(Travelling(w)))
    ensures Settled(w).live == w.live
    decreases |w.outbox|, |w.queue|
  {
    var es := Travelling(w);
    if w.queue != [] {
      assert es[0] == w.queue[0] && es[1..] == Travelling(Next(w, Consume));
      DepartingHead(es);
      assert forall i :: 0 <= i < |es[1..]| ==> es[1..][i] == es[i + 1];
      SettledCache(Next(w, Consume));
    } else if w.outbox != [] {
      assert Travelling(Next(w, Flush)) == es;
      SettledCache(Next(w, Flush));
    }
  }

  /** The assumption is needed for every single announcement: a node announced under an id
      is still cached once the daemon has caught up exactly when that id was not travelling. */
  lemma ReuseLosesExactly(w: World, id: nat, props: Props)
    requires Inv(w) && w.connected && Enabled(w, Announce(id, NodeKind, props))
    ensures var t := Settled(Next(w, Announce(id, NodeKind, props)));
      && id in LiveNodes(t)
      && (id in t.cache.nodes <==> Careful(w, Announce(id, NodeKind, props)))
  {
    var t := Next(w, Announce(id, NodeKind, props));
    AnnounceLive(w, id, NodeKind, props);
    assert Travelling(w) == w.queue;
    assert NoPortRemoved(Travelling(t)) by {
      forall i | 0 <= i < |Travelling(t)| ensures !Travelling(t)[i].PortRemoved? {
        assert i < |w.queue| ==> Travelling(t)[i] == Travelling(w)[i];
      }
    }
    SettledCache(t);
  }

  lemma {:induction false} CarefulSnoc(w: World, actions: seq<Action>, t: World, a: Action)
    requires CarefulRun(w, actions, t) && Enabled(t, a) && Careful(t, a)
    ensures CarefulRun(w, actions + [a], Next(t, a))
    decreases |actions|
  {
    if actions == [] {
      assert ([] + [a])[1..] == [];
      assert CarefulRun(Next(t, a), [], Next(t, a));
    } else {
      assert (actions + [a])[1..] == actions[1..] + [a];
      CarefulSnoc(Next(w, actions[0]), actions[1..], t, a);
    }
  }

  ghost predicate CarefullyReachable(w: World) {
    exists actions :: CarefulRun(START, actions, w)
  }

  lemma CarefulStep(w: World, a: Action)
    requires CarefullyReachable(w) && Enabled(w, a) && Careful(w, a)
    ensures CarefullyReachable(Next(w, a))
  {
    var actions :| CarefulRun(START, actions, w);
    CarefulSnoc(START, actions, w, a);
  }

  /** Such an announcement, after careful ones only: node 7 comes and goes, and the id is handed
      out again before the daemon has read of either. */
  lemma ReuseHappens() returns (w: World, id: nat)
    ensures CarefullyReachable(w) && Inv(w) && w.connected
    ensures Enabled(w, Announce(id, NodeKind, map[])) && !Careful(w, Announce(id, NodeKind, map[]))
    ensures id !in Settled(Next(w, Announce(id, NodeKind, map[]))).cache.nodes
  {
    id := 7;
    w := START;
    assert CarefulRun(START, [], START);
    CarefulStep(w, Flush);
    w := Next(w, Flush);
    CarefulStep(w, Consume);
    w := Next(w, Consume);
    NodeComes(id, map[]);
    assert w == World(map[], map[], EMPTY, [], [], true);
    CarefulStep(w, Announce(id, NodeKind, map[]));
    w := Next(w, Announce(id, NodeKind, map[]));
    CarefulStep(w, Flush);
    w := Next(w, Flush);
    CarefulStep(w, Withdraw(id));
    w := Next(w, Withdraw(id));
    CarefulStep(w, Flush);
    w := Next(w, Flush);
    assert w.queue[1].NodeRemoved? && w.queue[1].id == id;
    var actions :| CarefulRun(START, actions, w);
    StartInv();
    RunKeeps(START, actions, w);
    ReuseLosesExactly(w, id, map[]);
  }

  lemma UnknownIsNoElgato()
    ensures !Contains("unknown", "Elgato")
  {
    var s := "unknown";
    forall i | 0 <= i <= |s| ensures !OccursAt(s, "Elgato", i) {
      assert i + 6 <= |s| ==> s[i..i + 6][0] == s[i] && s[i] != 'E';
    }
  }

  lemma NodeComes(id: nat, props: Props)
    requires props == map[]
    ensures AnnounceEvents(id, NodeKind, props) == [NodeAdded(NodeOf(id, props))]
    ensures !WasWave3Source(NodeOf(id, props).name)
  {
    var node := NodeOf(id, props);
    UnknownIsNoElgato();
    assert node.name == "unknown" && |node.name| == 7 && node.mediaClass == None;
    assert !IsWave3Source(node);
  }
}
