/** The cached PipeWire graph. */
module Graph {
  import opened Prelude

  datatype NodeInfo = NodeInfo(
    id: nat,
    name: string,
    mediaClass: Option<string>,
    applicationName: Option<string>,
    binaryName: Option<string>,
    managed: bool,
    properties: map<string, string>)
  {
    predicate IsSink() {
      mediaClass == Some("Audio/Sink")
    }

    predicate IsWave3() {
      StartsWith(name, "wave3-") || Contains(name, "Elgato") || Contains(name, "Wave:3")
    }

    /** The device-property fallback of `find_wave3_sink`. */
    predicate IsWave3Sink() {
      && IsSink()
      && (|| (Has("device.vendor.id", "0x0fd9") && Has("device.product.id", "0x0070"))
          || (Contains(name, "Elgato") && Contains(name, "Wave"))
          || (StartsWith(name, "alsa_output") && IsWave3()))
    }

    predicate Has(key: string, value: string) {
      key in properties && properties[key] == value
    }
  }

  datatype Direction = Input | Output

  datatype PortInfo = PortInfo(id: nat, name: string, direction: Direction, nodeId: nat, channel: Option<string>)

  datatype LinkInfo = LinkInfo(id: nat, outputNode: nat, outputPort: nat, inputNode: nat, inputPort: nat)

  datatype Cache = Cache(
    nodes: map<nat, NodeInfo>,
    ports: map<nat, PortInfo>,
    links: map<nat, LinkInfo>)

  const EMPTY := Cache(map[], map[], map[])

  predicate HasName(nodes: map<nat, NodeInfo>, name: string) {
    exists id :: id in nodes && nodes[id].name == name
  }

  predicate Linked(links: map<nat, LinkInfo>, output: nat, input: nat) {
    exists id :: id in links && links[id].outputNode == output && links[id].inputNode == input
  }

  predicate UniqueNames(nodes: map<nat, NodeInfo>) {
    forall i, j :: i in nodes && j in nodes && nodes[i].name == nodes[j].name ==> i == j
  }

  predicate WellKeyed(nodes: map<nat, NodeInfo>) {
    forall id :: id in nodes ==> nodes[id].id == id
  }

  /** What `get_node_by_name` may answer; several nodes may share a name. */
  ghost predicate IsNodeNamed(nodes: map<nat, NodeInfo>, name: string, r: Option<NodeInfo>) {
    match r
    case None => !HasName(nodes, name)
    case Some(n) => n.name == name && exists id :: id in nodes && nodes[id] == n
  }

  /** What `find_wave3_sink` may answer: the custom name wins over the fallback,
      and the map's order decides among several fallback candidates. */
  ghost predicate IsWave3Choice(nodes: map<nat, NodeInfo>, r: Option<NodeInfo>) {
    if HasName(nodes, "wave3-sink") then r.Some? && IsNodeNamed(nodes, "wave3-sink", r)
    else match r
      case None => forall id :: id in nodes ==> !nodes[id].IsWave3Sink()
      case Some(n) => n.IsWave3Sink() && exists id :: id in nodes && nodes[id] == n
  }

  class GraphManager {
    var nodes: map<nat, NodeInfo>
    var ports: map<nat, PortInfo>
    var links: map<nat, LinkInfo>

    function View(): Cache reads this {
      Cache(nodes, ports, links)
    }

    constructor ()
      ensures View() == EMPTY
    {
      nodes, ports, links := map[], map[], map[];
    }

    method AddNode(node: NodeInfo)
      modifies this`nodes
      ensures nodes == old(nodes)[node.id := node]
      ensures old(WellKeyed(nodes)) ==> WellKeyed(nodes)
    {
      nodes := nodes[node.id := node];
    }

    method RemoveNode(id: nat)
      modifies this`nodes
      ensures nodes == old(nodes) - {id}
    {
      nodes := nodes - {id};
    }

    method AddPort(port: PortInfo)
      modifies this`ports
      ensures ports == old(ports)[port.id := port]
    {
      ports := ports[port.id := port];
    }

    method RemovePort(id: nat)
      modifies this`ports
      ensures ports == old(ports) - {id}
    {
      ports := ports - {id};
    }

    method AddLink(link: LinkInfo)
      modifies this`links
      ensures links == old(links)[link.id := link]
    {
      links := links[link.id := link];
    }

    method RemoveLink(id: nat)
      modifies this`links
      ensures links == old(links) - {id}
    {
      links := links - {id};
    }

    method GetNodeByName(name: string) returns (r: Option<NodeInfo>)
      ensures IsNodeNamed(nodes, name, r)
    {
      if id :| id in nodes && nodes[id].name == name {
        r := Some(nodes[id]);
      } else {
        r := None;
      }
    }

    method HasLink(output: nat, input: nat) returns (r: bool)
      ensures r == Linked(links, output, input)
    {
      r := exists id :: id in links && links[id].outputNode == output && links[id].inputNode == input;
    }

    method FindWave3Sink() returns (r: Option<NodeInfo>)
      ensures IsWave3Choice(nodes, r)
    {
      r := GetNodeByName("wave3-sink");
      if r.None? {
        if id :| id in nodes && nodes[id].IsWave3Sink() {
          r := Some(nodes[id]);
        }
      }
    }
  }
}
