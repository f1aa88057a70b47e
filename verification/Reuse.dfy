/** Nodes that the runtime finds instead of making, and what that does to their controls. */
module Reuse {
  import opened Prelude
  import opened Graph
  import opened Mixing
  import F = Factory

  const NONE := F.Proxies(map[], map[])

  class Runtime {
    const graph: GraphManager
    const thread: F.RequestHandler

    constructor (graph: GraphManager, thread: F.RequestHandler)
      ensures this.graph == graph && this.thread == thread
    {
      this.graph, this.thread := graph, thread;
    }

    /** `create_sink` and `create_volume_filter`, with the thread's answer in time: the id the
        daemon records is the registry's for a node found, a proxy's for a node made. */
    method CreateNode(r: F.Request, o: F.CoreOutcome) returns (id: Option<nat>, ghost found: Option<NodeInfo>)
      requires Creates(r)
      modifies thread
      ensures IsNodeNamed(graph.nodes, r.name, found)
      ensures if found.Some? && found.value.managed then id == Some(found.value.id) && thread.View() == old(thread.View())
        else id == GrantedId(o) && thread.View() == F.Effect(old(thread.View()), r, o)
    {
      var existing := graph.GetNodeByName(r.name);
      found := existing;
      if existing.Some? && existing.value.managed { return Some(existing.value.id), found; }
      thread.Handle(r, o);
      id := if o.Granted? then Some(o.id) else None;
    }
  }

  predicate Creates(r: F.Request) {
    r.CreateSink? || r.CreateVolumeFilter?
  }

  function GrantedId(o: F.CoreOutcome): Option<nat> {
    if o.Granted? then Some(o.id) else None
  }

  /** A request and what libpipewire made of it. */
  datatype Asked = Asked(r: F.Request, o: F.CoreOutcome)

  function After(p: F.Proxies, asked: seq<Asked>): F.Proxies {
    if asked == [] then p
    else F.Effect(After(p, asked[..|asked| - 1]), asked[|asked| - 1].r, asked[|asked| - 1].o)
  }

  /** Some creation was granted this proxy id. */
  predicate IsOurs(asked: seq<Asked>, id: nat) {
    exists k :: 0 <= k < |asked| && Creates(asked[k].r) && asked[k].o == F.Granted(id)
  }

  /** The runtime handle has no call that destroys a node. */
  predicate NoneDestroyed(asked: seq<Asked>) {
    forall k :: 0 <= k < |asked| ==> !asked[k].r.DestroyNode?
  }

  lemma {:induction false} ProxiesAreOurs(asked: seq<Asked>, id: nat)
    requires NoneDestroyed(asked)
    ensures id in After(NONE, asked).nodes <==> IsOurs(asked, id)
  {
    if asked != [] {
      var most, last := asked[..|asked| - 1], asked[|asked| - 1];
      ProxiesAreOurs(most, id);
      assert asked == most + [last];
      assert IsOurs(asked, id) <==> IsOurs(most, id) || (Creates(last.r) && last.o == F.Granted(id));
    }
  }

  /** After any requests of a session: setting a node's volume or mute gets through to
      libpipewire exactly when the node's recorded id is one that the session's own creations
      were granted, and otherwise fails and moves nothing. A node that was found is recorded under
      its registry id: unless that happens to be one of the granted ids, it has no control. */
  lemma ControlsReachOwnNodesOnly(asked: seq<Asked>, id: nat, volume: real, muted: bool, o: F.CoreOutcome)
    requires NoneDestroyed(asked)
    ensures var p := After(NONE, asked);
      && (F.Reply(p, F.SetNodeVolume(id, volume), o) == F.VolumeSet(id) <==> IsOurs(asked, id) && o.Granted?)
      && (F.Reply(p, F.SetNodeMute(id, muted), o) == F.MuteSet(id) <==> IsOurs(asked, id) && o.Granted?)
      && (!IsOurs(asked, id) ==>
            && F.Effect(p, F.SetNodeVolume(id, volume), o) == p
            && F.Effect(p, F.SetNodeMute(id, muted), o) == p)
  {
    ProxiesAreOurs(asked, id);
  }

  /** And when it happens to be one, it is the node granted that id that moves: the two nodes
      share a control, which is in truth the other's alone. */
  lemma CollisionMovesAnotherNode(found: NodeInfo, made: string, volume: real, muted: bool)
    ensures var asked := [Asked(F.CreateSink(made), F.Granted(found.id))];
      var p := After(NONE, asked);
      var q := After(NONE, asked + [Asked(F.SetNodeVolume(found.id, volume), F.Granted(0)),
                                    Asked(F.SetNodeMute(found.id, muted), F.Granted(0))]);
      && F.Reply(NONE, F.CreateSink(made), F.Granted(found.id)) == F.NodeCreated(found.id, made)
      && F.Reply(p, F.SetNodeVolume(found.id, volume), F.Granted(0)) == F.VolumeSet(found.id)
      && q.nodes == p.nodes[found.id := Fader(volume, muted)]
  {
    var a, b, c := Asked(F.CreateSink(made), F.Granted(found.id)),
      Asked(F.SetNodeVolume(found.id, volume), F.Granted(0)), Asked(F.SetNodeMute(found.id, muted), F.Granted(0));
    assert [a][..0] == [] && [a, b][..1] == [a] && [a, b, c][..2] == [a, b];
    assert [a] + [b, c] == [a, b, c];
  }

  // ---- Links -----------------------------------------------------------------------------

  predicate GrantsLink(x: Asked, id: nat, output: nat, input: nat) {
    x.r.CreateLink? && x.r.outputNode == output && x.r.inputNode == input && x.o == F.Granted(id)
  }

  /** Something takes the link of that id away: its own destruction, that of all links between
      the two nodes, or another link under the same id. */
  predicate EndsLink(x: Asked, id: nat, output: nat, input: nat) {
    || x.r == F.DestroyLink(id)
    || x.r == F.DestroyLinksBetween(output, input)
    || (x.r.CreateLink? && x.o == F.Granted(id))
  }

  /** The id was granted to a link from `output` to `input`, and nothing ended that since. */
  predicate IsHeld(asked: seq<Asked>, id: nat, output: nat, input: nat) {
    exists k :: 0 <= k < |asked| && HeldSince(asked, k, id, output, input)
  }

  predicate HeldSince(asked: seq<Asked>, k: nat, id: nat, output: nat, input: nat)
    requires k < |asked|
  {
    && GrantsLink(asked[k], id, output, input)
    && forall j :: k < j < |asked| ==> !EndsLink(asked[j], id, output, input)
  }

  lemma HeldOneMore(asked: seq<Asked>, x: Asked, id: nat, output: nat, input: nat)
    ensures IsHeld(asked + [x], id, output, input) <==>
      GrantsLink(x, id, output, input) || (IsHeld(asked, id, output, input) && !EndsLink(x, id, output, input))
  {
    var all := asked + [x];
    if IsHeld(all, id, output, input) {
      var k :| 0 <= k < |all| && HeldSince(all, k, id, output, input);
      if k < |asked| {
        assert all[|asked|] == x;
        assert forall j :: k < j < |asked| ==> all[j] == asked[j];
        assert HeldSince(asked, k, id, output, input);
      }
    }
    if GrantsLink(x, id, output, input) {
      assert HeldSince(all, |asked|, id, output, input);
    } else if IsHeld(asked, id, output, input) && !EndsLink(x, id, output, input) {
      var k :| 0 <= k < |asked| && HeldSince(asked, k, id, output, input);
      assert HeldSince(all, k, id, output, input);
    }
  }

  predicate Holds(p: F.Proxies, id: nat, output: nat, input: nat) {
    id in p.links && p.links[id] == (output, input)
  }

  lemma StepHolds(p: F.Proxies, x: Asked, id: nat, output: nat, input: nat)
    ensures Holds(F.Effect(p, x.r, x.o), id, output, input) <==>
      GrantsLink(x, id, output, input) || (Holds(p, id, output, input) && !EndsLink(x, id, output, input))
  {
  }

  /** After any requests of a session: the thread holds a link under an id, from one node to the
      other, exactly when a creation of such a link was granted that id and nothing ended it. */
  lemma {:induction false} LinkIsHeldExactlyWhen(asked: seq<Asked>, id: nat, output: nat, input: nat)
    ensures Holds(After(NONE, asked), id, output, input) <==> IsHeld(asked, id, output, input)
  {
    if asked != [] {
      var most, last := asked[..|asked| - 1], asked[|asked| - 1];
      assert asked == most + [last];
      LinkIsHeldExactlyWhen(most, id, output, input);
      StepHolds(After(NONE, most), last, id, output, input);
      HeldOneMore(most, last, id, output, input);
    }
  }

  /** So destroying the links from one node to another takes just those held, in that direction,
      leaves every other link, and replies with their number. */
  lemma DestroysJustTheHeld(asked: seq<Asked>, output: nat, input: nat, o: F.CoreOutcome)
    ensures var p := After(NONE, asked);
      var held := set id | id in p.links && IsHeld(asked, id, output, input);
      && (forall id :: IsHeld(asked, id, output, input) ==> id in held)
      && F.Reply(p, F.DestroyLinksBetween(output, input), o) == F.LinksDestroyed(|held|)
      && F.Effect(p, F.DestroyLinksBetween(output, input), o) == F.Proxies(p.nodes, p.links - held)
  {
    var p := After(NONE, asked);
    forall id ensures Holds(p, id, output, input) <==> IsHeld(asked, id, output, input) {
      LinkIsHeldExactlyWhen(asked, id, output, input);
    }
    var held := set id | id in p.links && IsHeld(asked, id, output, input);
    assert forall id :: id in held <==> id in p.links && p.links[id] == (output, input);
    assert held == F.LinksBetween(p, output, input);
  }

  /** A creation is answered with the id it was granted, and refused with the reason given. */
  lemma CreationsAreAnswered(p: F.Proxies, name: string, output: nat, op: string, input: nat, ip: string, id: nat, reason: string)
    ensures F.Reply(p, F.CreateSink(name), F.Granted(id)) == F.NodeCreated(id, name)
    ensures F.Reply(p, F.CreateVolumeFilter(name), F.Granted(id)) == F.NodeCreated(id, name)
    ensures F.Reply(p, F.CreateLink(output, op, input, ip), F.Granted(id)) == F.LinkCreated(id)
    ensures forall r: F.Request | r.CreateSink? || r.CreateVolumeFilter? || r.CreateLink? ::
      F.Reply(p, r, F.Refused(reason)) == F.Failed(reason) && F.Effect(p, r, F.Refused(reason)) == p
  {
  }
}
