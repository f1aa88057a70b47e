/** Moving an application's output to a channel. */
module AppRouting {
  import opened Prelude
  import opened Naming
  import opened Graph
  import F = Factory

  /** PipeWire's links by registry id, and, by proxy id, the link each proxy of ours keeps alive. */
  datatype Pw = Pw(links: map<nat, LinkInfo>, proxies: map<nat, nat>)

  /** The link that a request to destroy `id` takes away: the handler reads the id as a proxy's
      first, and as a registry id only when it holds no such proxy. */
  function Target(proxies: map<nat, nat>, id: nat): nat {
    if id in proxies then proxies[id] else id
  }

  function Targets(proxies: map<nat, nat>, ids: set<nat>): set<nat> {
    set id | id in ids :: Target(proxies, id)
  }

  function DestroyLink(s: Pw, id: nat): Pw {
    Pw(s.links - {Target(s.proxies, id)}, s.proxies - {id})
  }

  /** This is the link request of the PipeWire thread, with the link each proxy keeps alive. */
  lemma AsTheHandlerDoes(p: F.Proxies, s: Pw, id: nat, o: F.CoreOutcome)
    requires p.links.Keys == s.proxies.Keys
    ensures F.Reply(p, F.DestroyLink(id), o) == F.LinkDestroyed(id)
    ensures F.Effect(p, F.DestroyLink(id), o).links.Keys == DestroyLink(s, id).proxies.Keys
  {
  }

  /** What is left when all of `ids` were destroyed, in whatever order. */
  function Cut(s: Pw, ids: set<nat>): Pw {
    Pw(s.links - Targets(s.proxies, ids), s.proxies - ids)
  }

  lemma CutOneMore(s: Pw, done: set<nat>, id: nat)
    requires id !in done
    ensures DestroyLink(Cut(s, done), id) == Cut(s, done + {id})
  {
    assert Targets(s.proxies, done + {id}) == Targets(s.proxies, done) + {Target(s.proxies, id)};
    assert Target(Cut(s, done).proxies, id) == Target(s.proxies, id);
    assert (s.links - Targets(s.proxies, done)) - {Target(s.proxies, id)} == s.links - Targets(s.proxies, done + {id});
    assert (s.proxies - done) - {id} == s.proxies - (done + {id});
  }

  /** The links `route_app_to_channel` means to destroy: out of the application, to elsewhere. */
  function Unwanted(links: map<nat, LinkInfo>, app: nat, channel: nat): set<nat> {
    set id | id in links && links[id].outputNode == app && links[id].inputNode != channel
  }

  /** A link request's outcome: the new link's registry id and proxy id. */
  datatype Created = Created(id: nat, proxy: nat)

  function NewLink(s: Pw, app: nat, channel: nat, c: Option<Created>): Pw {
    match c
    case None => s
    case Some(Created(id, proxy)) => Pw(s.links[id := LinkInfo(id, app, 0, channel, 0)], s.proxies[proxy := id])
  }

  class Router {
    const graph: GraphManager
    var links: map<nat, LinkInfo>
    var proxies: map<nat, nat>

    function View(): Pw reads this {
      Pw(links, proxies)
    }

    constructor (graph: GraphManager, s: Pw)
      ensures this.graph == graph && View() == s
    {
      this.graph, links, proxies := graph, s.links, s.proxies;
    }

    method Destroy(id: nat)
      modifies this
      ensures View() == DestroyLink(old(View()), id)
    {
      links, proxies := links - {Target(proxies, id)}, proxies - {id};
    }

    /** Destroys go through in any order; each finds the proxies the others left. */
    method CutLinks(ids: set<nat>)
      modifies this
      ensures View() == Cut(old(View()), ids)
    {
      ghost var was, done := View(), {};
      var rest := ids;
      while rest != {}
        invariant done == ids - rest && rest <= ids
        invariant View() == Cut(was, done)
        decreases |rest|
      {
        var id :| id in rest;
        CutOneMore(was, done, id);
        Destroy(id);
        rest, done := rest - {id}, done + {id};
      }
      assert done == ids;
    }

    /** `left`, `mono` and `right` are what the three link requests would give; mono is asked
        for only when left fails. */
    method Route(app: nat, channel: string, left: Option<Created>, mono: Option<Created>, right: Option<Created>)
      returns (r: Result<seq<nat>>, ghost target: Option<NodeInfo>)
      modifies this
      ensures IsNodeNamed(graph.nodes, NodeName(channel), target)
      ensures r.Err? && (target.None? || app !in graph.nodes) ==> View() == old(View())
      ensures target.Some? && app in graph.nodes ==>
        View() == Routed(old(View()), old(graph.links), app, target.value.id, left, mono, right)
      ensures r.Ok? <==> target.Some? && app in graph.nodes && (left.Some? || mono.Some? || right.Some?)
      ensures r.Ok? ==> r.ok == ProxyOf(if left.Some? then left else mono) + ProxyOf(right)
      ensures r.Ok? ==> PlaysInto(links, app, target.value.id)
    {
      target := None;
      var node := graph.GetNodeByName(NodeName(channel));
      target := node;
      if node.None? { return Err("Node not found: " + NodeName(channel)), target; }
      if app !in graph.nodes { return Err("Node not found: App node"), target; }
      CutLinks(Unwanted(graph.links, app, node.value.id));
      var created := [];
      var first := if left.Some? then left else mono;
      if first.Some? {
        created := created + [first.value.proxy];
        links, proxies := links[first.value.id := LinkInfo(first.value.id, app, 0, node.value.id, 0)],
          proxies[first.value.proxy := first.value.id];
      }
      if right.Some? {
        created := created + [right.value.proxy];
        links, proxies := links[right.value.id := LinkInfo(right.value.id, app, 0, node.value.id, 0)],
          proxies[right.value.proxy := right.value.id];
      }
      NewLinksAreMade(old(View()), old(graph.links), app, node.value.id, left, mono, right);
      r := if created == [] then Err("No links could be created from app to channel") else Ok(created);
    }
  }

  /** `cached` is the graph cache's list of links at the time of the call. */
  function Routed(s: Pw, cached: map<nat, LinkInfo>, app: nat, channel: nat,
      left: Option<Created>, mono: Option<Created>, right: Option<Created>): Pw
  {
    var unwanted := Unwanted(cached, app, channel);
    NewLink(NewLink(Cut(s, unwanted), app, channel, if left.Some? then left else mono), app, channel, right)
  }

  function ProxyOf(c: Option<Created>): seq<nat> {
    if c.Some? then [c.value.proxy] else []
  }

  predicate PlaysInto(links: map<nat, LinkInfo>, app: nat, channel: nat) {
    exists id :: id in links && links[id].outputNode == app && links[id].inputNode == channel
  }

  /** The request was granted a link from `app` to `channel`, kept alive by its own proxy. */
  predicate IsMade(t: Pw, app: nat, channel: nat, c: Created) {
    && c.id in t.links && t.links[c.id].id == c.id
    && t.links[c.id].outputNode == app && t.links[c.id].inputNode == channel
    && c.proxy in t.proxies && t.proxies[c.proxy] == c.id
  }

  predicate DifferentIds(a: Option<Created>, b: Option<Created>) {
    a.Some? && b.Some? ==> a.value.id != b.value.id && a.value.proxy != b.value.proxy
  }

  /** Each request granted leaves its own link; mono counts only when left failed; and nothing
      else is added. So the application plays into the channel once any of them was granted. */
  lemma NewLinksAreMade(s: Pw, cached: map<nat, LinkInfo>, app: nat, channel: nat,
      left: Option<Created>, mono: Option<Created>, right: Option<Created>)
    ensures var t := Routed(s, cached, app, channel, left, mono, right);
      var first := if left.Some? then left else mono;
      && (DifferentIds(first, right) && first.Some? ==> IsMade(t, app, channel, first.value))
      && (right.Some? ==> IsMade(t, app, channel, right.value))
      && (first.Some? || right.Some? ==> PlaysInto(t.links, app, channel))
      && (forall id :: id in t.links && id !in s.links ==>
            (first.Some? && id == first.value.id) || (right.Some? && id == right.value.id))
      && (forall proxy :: proxy in t.proxies && proxy !in s.proxies ==>
            (first.Some? && proxy == first.value.proxy) || (right.Some? && proxy == right.value.proxy))
  {
    var t := Routed(s, cached, app, channel, left, mono, right);
    var first := if left.Some? then left else mono;
    if right.Some? {
      assert right.value.id in t.links && t.links[right.value.id].outputNode == app;
    } else if first.Some? {
      assert first.value.id in t.links && t.links[first.value.id].outputNode == app;
    }
  }

  predicate FreshIds(s: Pw, c: Option<Created>) {
    c.Some? ==> c.value.id !in s.links
  }

  /** The application plays into the channel and nowhere else. */
  predicate PlaysOnlyInto(links: map<nat, LinkInfo>, app: nat, channel: nat) {
    forall id :: id in links && links[id].outputNode == app ==> links[id].inputNode == channel
  }

  /** Every link but the application's unwanted ones is still there. */
  predicate OthersKept(before: map<nat, LinkInfo>, after: map<nat, LinkInfo>, app: nat, channel: nat) {
    forall id :: id in before && id !in Unwanted(before, app, channel) ==> id in after && after[id] == before[id]
  }

  predicate Injective(proxies: map<nat, nat>, ids: set<nat>) {
    forall a, b :: a in ids && b in ids && Target(proxies, a) == Target(proxies, b) ==> a == b
  }

  /** An unwanted link's registry id that is a proxy id too is that of an unwanted link's proxy,
      and no two of the unwanted ids stand for one link. */
  predicate HarmlessCollisions(s: Pw, unwanted: set<nat>) {
    && (forall id :: id in unwanted && id in s.proxies ==> s.proxies[id] in unwanted)
    && Injective(s.proxies, unwanted)
  }

  lemma TargetsOneMore(proxies: map<nat, nat>, ids: set<nat>, id: nat)
    requires id in ids
    ensures Targets(proxies, ids) == Targets(proxies, ids - {id}) + {Target(proxies, id)}
  {
    forall t | t in Targets(proxies, ids) ensures t in Targets(proxies, ids - {id}) + {Target(proxies, id)} {
      var k :| k in ids && Target(proxies, k) == t;
      assert k in ids - {id} || k == id;
    }
  }

  lemma InjectiveOneMore(proxies: map<nat, nat>, ids: set<nat>, id: nat)
    requires id in ids
    ensures Injective(proxies, ids) <==> Injective(proxies, ids - {id}) && Target(proxies, id) !in Targets(proxies, ids - {id})
  {
    if Target(proxies, id) in Targets(proxies, ids - {id}) {
      var twin :| twin in ids - {id} && Target(proxies, twin) == Target(proxies, id);
      assert !Injective(proxies, ids);
    }
  }

  lemma {:induction false} TargetsCount(proxies: map<nat, nat>, ids: set<nat>)
    ensures if Injective(proxies, ids) then |Targets(proxies, ids)| == |ids| else |Targets(proxies, ids)| < |ids|
    decreases |ids|
  {
    if ids == {} {
      assert Targets(proxies, ids) == {};
    } else {
      var id :| id in ids;
      TargetsCount(proxies, ids - {id});
      TargetsOneMore(proxies, ids, id);
      InjectiveOneMore(proxies, ids, id);
    }
  }

  lemma SameSizeSubset(a: set<nat>, b: set<nat>)
    requires a <= b && |b| <= |a|
    ensures a == b
  {
    assert b == a + (b - a) && |b| == |a| + |b - a|;
  }

  /** So the ids, as they are read, name just the unwanted links. */
  lemma TargetsPermute(s: Pw, unwanted: set<nat>)
    requires unwanted <= s.links.Keys
    ensures Targets(s.proxies, unwanted) * s.links.Keys == unwanted <==> HarmlessCollisions(s, unwanted)
  {
    var targets := Targets(s.proxies, unwanted);
    TargetsCount(s.proxies, unwanted);
    if targets * s.links.Keys == unwanted {
      SameSizeSubset(unwanted, targets);
      forall id | id in unwanted && id in s.proxies ensures s.proxies[id] in unwanted {
        assert Target(s.proxies, id) in targets;
      }
    }
    if HarmlessCollisions(s, unwanted) {
      assert Injective(s.proxies, unwanted);
      SameSizeSubset(targets, unwanted);
    }
  }

  /** With the cache up to date, re-routing moves the application, and nothing else, exactly when
      the collisions between registry and proxy ids among its unwanted links are harmless. */
  lemma RoutesExactlyWhen(s: Pw, app: nat, channel: nat, left: Option<Created>, mono: Option<Created>, right: Option<Created>)
    requires FreshIds(s, left) && FreshIds(s, mono) && FreshIds(s, right)
    ensures var t := Routed(s, s.links, app, channel, left, mono, right);
      PlaysOnlyInto(t.links, app, channel) && OthersKept(s.links, t.links, app, channel) <==>
      HarmlessCollisions(s, Unwanted(s.links, app, channel))
    ensures left.Some? || mono.Some? || right.Some? ==>
      PlaysInto(Routed(s, s.links, app, channel, left, mono, right).links, app, channel)
  {
    NewLinksAreMade(s, s.links, app, channel, left, mono, right);
    TargetsPermute(s, Unwanted(s.links, app, channel));
    CutsExactly(s, app, channel, left, mono, right);
  }

  lemma CutsExactly(s: Pw, app: nat, channel: nat, left: Option<Created>, mono: Option<Created>, right: Option<Created>)
    requires FreshIds(s, left) && FreshIds(s, mono) && FreshIds(s, right)
    ensures var t := Routed(s, s.links, app, channel, left, mono, right);
      PlaysOnlyInto(t.links, app, channel) && OthersKept(s.links, t.links, app, channel) <==>
      Targets(s.proxies, Unwanted(s.links, app, channel)) * s.links.Keys == Unwanted(s.links, app, channel)
  {
    var t, unwanted := Routed(s, s.links, app, channel, left, mono, right), Unwanted(s.links, app, channel);
    var gone := Targets(s.proxies, unwanted);
    assert forall id :: id in s.links ==> (id in t.links <==> id !in gone);
    assert forall id :: id in s.links && id in t.links ==> t.links[id] == s.links[id];
    assert forall id :: id in t.links && id !in s.links ==> t.links[id].inputNode == channel;
    if PlaysOnlyInto(t.links, app, channel) && OthersKept(s.links, t.links, app, channel) {
      forall id ensures id in gone * s.links.Keys <==> id in unwanted { }
    } else if !PlaysOnlyInto(t.links, app, channel) {
      var id :| id in t.links && t.links[id].outputNode == app && t.links[id].inputNode != channel;
      assert id in unwanted && id !in gone;
    } else {
      var id :| id in s.links && id !in unwanted && !(id in t.links && t.links[id] == s.links[id]);
      assert id in gone;
    }
  }

  /** In particular when no unwanted link's registry id is a proxy id; and a single unwanted link
      is cut exactly when its id is none, or its own proxy's. */
  lemma RoutesWithoutCollision(s: Pw, app: nat, channel: nat)
    ensures (forall id :: id in Unwanted(s.links, app, channel) ==> id !in s.proxies)
      ==> HarmlessCollisions(s, Unwanted(s.links, app, channel))
    ensures forall only :: Unwanted(s.links, app, channel) == {only} ==>
      (HarmlessCollisions(s, {only}) <==> (only in s.proxies ==> s.proxies[only] == only))
  {
  }

  /** The two id spaces can collide: then an unrelated link is cut instead, and the application
      goes on playing into its old channel as well. */
  lemma CollisionCutsTheWrongLink(app: nat, was: nat, now: nat, a: nat, b: nat, appLink: nat, other: nat, fresh0: nat)
    requires was != now && appLink != other && a != app && fresh0 != appLink && fresh0 != other
    ensures var s := Pw(
        map[appLink := LinkInfo(appLink, app, 0, was, 0), other := LinkInfo(other, a, 0, b, 0)],
        map[appLink := other]);
      var t := Routed(s, s.links, app, now, Some(Created(fresh0, fresh0)), None, None);
      appLink in t.links && other !in t.links && !PlaysOnlyInto(t.links, app, now)
  {
    var s := Pw(
      map[appLink := LinkInfo(appLink, app, 0, was, 0), other := LinkInfo(other, a, 0, b, 0)],
      map[appLink := other]);
    assert Unwanted(s.links, app, now) == {appLink};
    assert Targets(s.proxies, {appLink}) == {other};
    var t := Routed(s, s.links, app, now, Some(Created(fresh0, fresh0)), None, None);
    assert t.links[appLink].outputNode == app && t.links[appLink].inputNode == was;
  }
}
