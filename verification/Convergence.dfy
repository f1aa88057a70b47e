/** Carrying out the reconciler's actions, twice, leaves it nothing to do. */
module Convergence {
  import opened Prelude
  import opened Graph
  import opened Reconciliation

  /** A graph and the next id PipeWire will hand out. */
  datatype Session = Session(cache: Cache, next: nat)

  predicate Valid(g: Session) {
    && WellKeyed(g.cache.nodes) && UniqueNames(g.cache.nodes)
    && (forall id :: id in g.cache.nodes ==> id < g.next)
    && (forall id :: id in g.cache.links ==>
          id < g.next && g.cache.links[id].outputNode < g.next && g.cache.links[id].inputNode < g.next)
  }

  /** A virtual sink as the runtime creates it and the registry announces it. */
  function Made(id: nat, p: SinkProps): NodeInfo {
    NodeInfo(id, p.name, Some("Audio/Sink"), None, None, true, map[
      "factory.name" := "support.null-audio-sink",
      "node.name" := p.name,
      "node.description" := p.description,
      "media.class" := "Audio/Sink",
      "undertone.managed" := "true"])
  }

  /** `create_sink` reuses a managed node of that name. */
  ghost function Apply(g: Session, a: Action): Session {
    match a
    case CreateSink(p) =>
      if HasName(g.cache.nodes, p.name) && g.cache.nodes[IdOf(g.cache.nodes, p.name)].managed then g
      else Session(g.cache.(nodes := g.cache.nodes[g.next := Made(g.next, p)]), g.next + 1)
    case CreateLink(o, _, i, _) =>
      if EndsExist(g.cache.nodes, Edge(o, i)) then
        var link := LinkInfo(g.next, IdOf(g.cache.nodes, o), 0, IdOf(g.cache.nodes, i), 0);
        Session(g.cache.(links := g.cache.links[g.next := link]), g.next + 1)
      else g
    case DestroyNode(id) => g.(cache := g.cache.(nodes := g.cache.nodes - {id}))
    case DestroyLink(id) => g.(cache := g.cache.(links := g.cache.links - {id}))
    case Warn(_) => g
  }

  ghost function ApplyAll(g: Session, actions: seq<Action>): Session {
    if actions == [] then g else Apply(ApplyAll(g, actions[..|actions| - 1]), actions[|actions| - 1])
  }

  lemma {:induction false} ApplyConcat(g: Session, xs: seq<Action>, ys: seq<Action>)
    ensures ApplyAll(g, xs + ys) == ApplyAll(ApplyAll(g, xs), ys)
    decreases |ys|
  {
    if ys == [] {
      assert xs + ys == xs;
    } else {
      assert (xs + ys)[..|xs + ys| - 1] == xs + ys[..|ys| - 1];
      ApplyConcat(g, xs, ys[..|ys| - 1]);
    }
  }

  // ---- Creating nodes ------------------------------------------------------

  predicate Submap<V(==)>(m: map<nat, V>, n: map<nat, V>) {
    forall id :: id in m ==> id in n && n[id] == m[id]
  }

  /** `node` was made for a wanted node that `nodes` lacked. */
  ghost predicate MadeFor(nodes: map<nat, NodeInfo>, wanted: seq<SinkProps>, node: NodeInfo) {
    exists i :: 0 <= i < |wanted| && !HasName(nodes, wanted[i].name)
      && node == Made(node.id, wanted[i])
  }

  ghost predicate NodesGrown(g: Session, t: Session, wanted: seq<SinkProps>) {
    && Submap(g.cache.nodes, t.cache.nodes) && g.next <= t.next
    && (forall id :: id in t.cache.nodes && id !in g.cache.nodes ==>
          id >= g.next && MadeFor(g.cache.nodes, wanted, t.cache.nodes[id]))
  }

  lemma {:induction false} ApplyCreates(g: Session, wanted: seq<SinkProps>)
    requires Valid(g)
    ensures var t := ApplyAll(g, Creates(g.cache.nodes, wanted));
      && Valid(t) && AllPresent(t.cache.nodes, wanted)
      && NodesGrown(g, t, wanted) && t.cache.links == g.cache.links
  {
    if wanted != [] {
      var most, last := wanted[..|wanted| - 1], wanted[|wanted| - 1];
      ApplyCreates(g, most);
      ApplyConcat(g, Creates(g.cache.nodes, most), CreateIfMissing(g.cache.nodes, last));
      LastCreate(g, ApplyAll(g, Creates(g.cache.nodes, most)), ApplyAll(g, Creates(g.cache.nodes, wanted)), wanted);
    }
  }

  lemma GrownByOne(g: Session, u: Session, t: Session, wanted: seq<SinkProps>)
    requires wanted != [] && NodesGrown(g, u, wanted) && u.next !in u.cache.nodes
    requires !HasName(g.cache.nodes, wanted[|wanted| - 1].name)
    requires t.cache.nodes == u.cache.nodes[u.next := Made(u.next, wanted[|wanted| - 1])]
    requires u.next <= t.next
    ensures NodesGrown(g, t, wanted)
  {
    forall id | id in t.cache.nodes && id !in g.cache.nodes
      ensures MadeFor(g.cache.nodes, wanted, t.cache.nodes[id])
    {
      if id != u.next { assert t.cache.nodes[id] == u.cache.nodes[id]; }
    }
  }

  lemma LastCreate(g: Session, u: Session, t: Session, wanted: seq<SinkProps>)
    requires wanted != [] && Valid(g) && Valid(u)
    requires AllPresent(u.cache.nodes, wanted[..|wanted| - 1]) && NodesGrown(g, u, wanted[..|wanted| - 1])
    requires t == ApplyAll(u, CreateIfMissing(g.cache.nodes, wanted[|wanted| - 1]))
    ensures Valid(t) && AllPresent(t.cache.nodes, wanted)
    ensures NodesGrown(g, t, wanted) && t.cache.links == u.cache.links
  {
    var most, last := wanted[..|wanted| - 1], wanted[|wanted| - 1];
    ApplyFew(u, last);
    GrownForMore(g, u, most, wanted);
    if HasName(g.cache.nodes, last.name) {
      HasNameKept(g.cache.nodes, u.cache.nodes, last.name);
      PresentSnoc(u.cache.nodes, wanted);
    } else {
      CreateLast(g, u, wanted);
    }
  }

  lemma CreateLast(g: Session, u: Session, wanted: seq<SinkProps>)
    requires wanted != [] && Valid(u)
    requires AllPresent(u.cache.nodes, wanted[..|wanted| - 1]) && NodesGrown(g, u, wanted)
    requires !HasName(g.cache.nodes, wanted[|wanted| - 1].name)
    ensures var t := Apply(u, CreateSink(wanted[|wanted| - 1]));
      && Valid(t) && AllPresent(t.cache.nodes, wanted)
      && NodesGrown(g, t, wanted) && t.cache.links == u.cache.links
  {
    var last := wanted[|wanted| - 1];
    var t := Apply(u, CreateSink(last));
    if HasName(u.cache.nodes, last.name) {
      NewcomersAreManaged(g, u, wanted, last.name);
      PresentSnoc(u.cache.nodes, wanted);
    } else {
      CreateOne(u, last);
      GrownByOne(g, u, t, wanted);
      PresentKept(u.cache.nodes, t.cache.nodes, wanted[..|wanted| - 1]);
      PresentSnoc(t.cache.nodes, wanted);
    }
  }

  lemma NameIsNew(m: map<nat, NodeInfo>, n: map<nat, NodeInfo>, id: nat)
    requires Submap(m, n) && id in n && !HasName(m, n[id].name)
    ensures id !in m
  {
  }

  /** A name asked for twice is made once: the second request finds the first one's node. */
  lemma NewcomersAreManaged(g: Session, u: Session, wanted: seq<SinkProps>, name: string)
    requires NodesGrown(g, u, wanted)
    requires !HasName(g.cache.nodes, name) && HasName(u.cache.nodes, name)
    ensures u.cache.nodes[IdOf(u.cache.nodes, name)].managed
  {
    var id := IdOf(u.cache.nodes, name);
    NameIsNew(g.cache.nodes, u.cache.nodes, id);
    assert MadeFor(g.cache.nodes, wanted, u.cache.nodes[id]);
  }

  lemma PresentSnoc(nodes: map<nat, NodeInfo>, wanted: seq<SinkProps>)
    requires wanted != [] && AllPresent(nodes, wanted[..|wanted| - 1])
    requires HasName(nodes, wanted[|wanted| - 1].name)
    ensures AllPresent(nodes, wanted)
  {
    var most := wanted[..|wanted| - 1];
    forall i | 0 <= i < |wanted| ensures HasName(nodes, wanted[i].name) {
      if i < |most| { assert HasName(nodes, most[i].name); }
    }
  }

  lemma ApplyFew(u: Session, p: SinkProps)
    ensures ApplyAll(u, []) == u
    ensures ApplyAll(u, [CreateSink(p)]) == Apply(u, CreateSink(p))
  {
    assert [CreateSink(p)][..0] == [];
  }

  lemma HasNameKept(m: map<nat, NodeInfo>, n: map<nat, NodeInfo>, name: string)
    requires Submap(m, n) && HasName(m, name)
    ensures HasName(n, name)
  {
    var id :| id in m && m[id].name == name;
    assert id in n && n[id].name == name;
  }

  lemma PresentKept(m: map<nat, NodeInfo>, n: map<nat, NodeInfo>, wanted: seq<SinkProps>)
    requires Submap(m, n)
    ensures AllPresent(m, wanted) ==> AllPresent(n, wanted)
  {
    if AllPresent(m, wanted) {
      forall i | 0 <= i < |wanted| ensures HasName(n, wanted[i].name) {
        HasNameKept(m, n, wanted[i].name);
      }
    }
  }

  lemma GrownForMore(g: Session, t: Session, xs: seq<SinkProps>, ys: seq<SinkProps>)
    requires NodesGrown(g, t, xs) && |xs| <= |ys| && forall i :: 0 <= i < |xs| ==> xs[i] == ys[i]
    ensures NodesGrown(g, t, ys)
  {
    forall id | id in t.cache.nodes && id !in g.cache.nodes ensures MadeFor(g.cache.nodes, ys, t.cache.nodes[id]) {
      var node := t.cache.nodes[id];
      assert MadeFor(g.cache.nodes, xs, node);
      var i :| 0 <= i < |xs| && !HasName(g.cache.nodes, xs[i].name)
        && node == Made(node.id, xs[i]);
      assert ys[i] == xs[i];
    }
  }

  lemma CreateOne(g: Session, p: SinkProps)
    requires Valid(g) && !HasName(g.cache.nodes, p.name)
    ensures var t := Apply(g, CreateSink(p));
      && Valid(t) && HasName(t.cache.nodes, p.name)
      && t.cache.nodes == g.cache.nodes[g.next := Made(g.next, p)] && t.cache.links == g.cache.links
      && t.next == g.next + 1 && g.next !in g.cache.nodes
  {
    assert Apply(g, CreateSink(p)).cache.nodes[g.next].name == p.name;
  }

  // ---- Creating links -----------------------------------------------------

  lemma SameId(m: map<nat, NodeInfo>, n: map<nat, NodeInfo>, name: string)
    requires Submap(m, n) && UniqueNames(n) && HasName(m, name)
    ensures HasName(n, name) && IdOf(n, name) == IdOf(m, name)
  {
    HasNameKept(m, n, name);
  }

  lemma EdgeKept(c: Cache, d: Cache, e: Edge)
    requires Submap(c.nodes, d.nodes) && Submap(c.links, d.links) && UniqueNames(d.nodes)
    ensures EdgeLinked(c, e) ==> EdgeLinked(d, e)
  {
    if EdgeLinked(c, e) {
      SameId(c.nodes, d.nodes, e.output);
      SameId(c.nodes, d.nodes, e.input);
      var l :| l in c.links && c.links[l].outputNode == IdOf(c.nodes, e.output)
               && c.links[l].inputNode == IdOf(c.nodes, e.input);
      assert l in d.links && d.links[l] == c.links[l];
    }
  }

  ghost predicate Joins(link: LinkInfo, nodes: map<nat, NodeInfo>, e: Edge) {
    && EndsExist(nodes, e)
    && link.outputNode == IdOf(nodes, e.output) && link.inputNode == IdOf(nodes, e.input)
  }

  /** A link of `t` that `g` lacks joins a demanded pair that `base` had unlinked. */
  ghost predicate LinkFor(base: Cache, nodes: map<nat, NodeInfo>, edges: seq<Edge>, link: LinkInfo) {
    exists i :: 0 <= i < |edges| && EndsExist(base.nodes, edges[i]) && !EdgeLinked(base, edges[i])
      && Joins(link, nodes, edges[i])
  }

  lemma LinkOne(g: Session, a: Action)
    requires Valid(g) && a.CreateLink? && EndsExist(g.cache.nodes, Edge(a.outputNode, a.inputNode))
    ensures var t := Apply(g, a);
      && Valid(t) && t.cache.nodes == g.cache.nodes && t.next == g.next + 1
      && g.next !in g.cache.links && t.cache.links.Keys == g.cache.links.Keys + {g.next}
      && Submap(g.cache.links, t.cache.links)
      && t.cache.links[g.next].outputNode == IdOf(g.cache.nodes, a.outputNode)
      && t.cache.links[g.next].inputNode == IdOf(g.cache.nodes, a.inputNode)
      && EdgeLinked(t.cache, Edge(a.outputNode, a.inputNode))
  {
  }

  lemma LinkPair(g: Session, e: Edge)
    requires Valid(g) && EndsExist(g.cache.nodes, e)
    ensures var t := ApplyAll(g, StereoPair(e));
      && Valid(t) && t.cache.nodes == g.cache.nodes && g.next <= t.next
      && Submap(g.cache.links, t.cache.links) && EdgeLinked(t.cache, e)
      && (forall l :: l in t.cache.links && l !in g.cache.links ==>
            t.cache.links[l].outputNode == IdOf(g.cache.nodes, e.output)
            && t.cache.links[l].inputNode == IdOf(g.cache.nodes, e.input))
  {
    var pair := StereoPair(e);
    assert pair[..1] == [pair[0]] && [pair[0]][..0] == [];
    var u := Apply(g, pair[0]);
    assert ApplyAll(g, []) == g && ApplyAll(g, [pair[0]]) == u;
    assert ApplyAll(g, pair) == Apply(u, pair[1]);
    LinkOne(g, pair[0]);
    LinkOne(u, pair[1]);
  }

  ghost predicate LinksGrown(base: Cache, g: Session, t: Session, edges: seq<Edge>) {
    && Submap(g.cache.links, t.cache.links)
    && (forall l :: l in t.cache.links && l !in g.cache.links ==>
          LinkFor(base, t.cache.nodes, edges, t.cache.links[l]))
  }

  lemma {:induction false} ApplyLinks(base: Cache, g: Session, edges: seq<Edge>)
    requires Valid(g) && Submap(base.nodes, g.cache.nodes) && Submap(base.links, g.cache.links)
    ensures var t := ApplyAll(g, Links(base, edges));
      && Valid(t) && t.cache.nodes == g.cache.nodes && g.next <= t.next
      && LinksGrown(base, g, t, edges)
      && (forall i :: 0 <= i < |edges| && EndsExist(base.nodes, edges[i]) ==> EdgeLinked(t.cache, edges[i]))
  {
    if edges != [] {
      var most, last := edges[..|edges| - 1], edges[|edges| - 1];
      ApplyLinks(base, g, most);
      var u := ApplyAll(g, Links(base, most));
      ApplyConcat(g, Links(base, most), LinkIfMissing(base, last));
      var t := ApplyAll(g, Links(base, edges));
      assert forall i :: 0 <= i < |most| ==> most[i] == edges[i];
      LastLink(base, g, u, t, edges);
    }
  }

  /** What carrying out the action for the last pair does. */
  lemma LinkLast(base: Cache, u: Session, last: Edge)
    requires Valid(u) && Submap(base.nodes, u.cache.nodes) && Submap(base.links, u.cache.links)
    ensures var t := ApplyAll(u, LinkIfMissing(base, last));
      && Valid(t) && t.cache.nodes == u.cache.nodes && u.next <= t.next && Submap(u.cache.links, t.cache.links)
      && (EndsExist(base.nodes, last) ==> EdgeLinked(t.cache, last))
      && (forall l :: l in t.cache.links && l !in u.cache.links ==>
            EndsExist(base.nodes, last) && !EdgeLinked(base, last) && Joins(t.cache.links[l], t.cache.nodes, last))
  {
    if EndsExist(base.nodes, last) {
      SameId(base.nodes, u.cache.nodes, last.output);
      SameId(base.nodes, u.cache.nodes, last.input);
      if EdgeLinked(base, last) { EdgeKept(base, u.cache, last); } else { LinkPair(u, last); }
    }
  }

  lemma LastLink(base: Cache, g: Session, u: Session, t: Session, edges: seq<Edge>)
    requires edges != [] && Valid(g) && Valid(u) && u.cache.nodes == g.cache.nodes && g.next <= u.next
    requires Submap(base.nodes, g.cache.nodes) && Submap(base.links, g.cache.links)
    requires LinksGrown(base, g, u, edges[..|edges| - 1])
    requires forall i :: 0 <= i < |edges| - 1 && EndsExist(base.nodes, edges[i]) ==> EdgeLinked(u.cache, edges[i])
    requires t == ApplyAll(u, LinkIfMissing(base, edges[|edges| - 1]))
    ensures Valid(t) && t.cache.nodes == g.cache.nodes && g.next <= t.next
    ensures LinksGrown(base, g, t, edges)
    ensures forall i :: 0 <= i < |edges| && EndsExist(base.nodes, edges[i]) ==> EdgeLinked(t.cache, edges[i])
  {
    LinkLast(base, u, edges[|edges| - 1]);
    forall i | 0 <= i < |edges| && EndsExist(base.nodes, edges[i]) ensures EdgeLinked(t.cache, edges[i]) {
      if i < |edges| - 1 { EdgeKept(u.cache, t.cache, edges[i]); }
    }
    LinksGrownByLast(base, g, u, t, edges);
  }

  lemma LinksGrownByLast(base: Cache, g: Session, u: Session, t: Session, edges: seq<Edge>)
    requires edges != [] && u.cache.nodes == g.cache.nodes == t.cache.nodes
    requires LinksGrown(base, g, u, edges[..|edges| - 1])
    requires Submap(u.cache.links, t.cache.links)
    requires forall l :: l in t.cache.links && l !in u.cache.links ==>
      var last := edges[|edges| - 1];
      EndsExist(base.nodes, last) && !EdgeLinked(base, last) && Joins(t.cache.links[l], t.cache.nodes, last)
    ensures LinksGrown(base, g, t, edges)
  {
    var most := edges[..|edges| - 1];
    forall l | l in t.cache.links && l !in g.cache.links
      ensures LinkFor(base, t.cache.nodes, edges, t.cache.links[l])
    {
      if l in u.cache.links {
        assert LinkFor(base, u.cache.nodes, most, u.cache.links[l]);
        var i :| 0 <= i < |most| && EndsExist(base.nodes, most[i]) && !EdgeLinked(base, most[i])
          && Joins(u.cache.links[l], u.cache.nodes, most[i]);
        assert edges[i] == most[i];
      }
    }
  }

  // ---- Rounds -----------------------------------------------------------------

  ghost function Round(g: Session, l: Layout, w: Option<NodeInfo>): Session {
    ApplyAll(g, Reconcile(g.cache, l, w))
  }

  lemma WarningsDoNothing(g: Session, w: Option<NodeInfo>)
    ensures ApplyAll(g, Warnings(w)) == g
  {
    assert [WAVE3_MISSING][..0] == [] && ApplyAll(g, []) == g;
  }

  /** One round makes every demanded node, links every demanded pair it found, and changes
      nothing else; channels may even repeat a name. */
  lemma RoundResult(g: Session, l: Layout, w: Option<NodeInfo>)
    requires Valid(g)
    ensures var t, es := Round(g, l, w), Edges(l, w);
      && Valid(t) && AllPresent(t.cache.nodes, Roles(l)) && NodesGrown(g, t, Roles(l))
      && LinksGrown(g.cache, g, t, es)
      && (forall i :: 0 <= i < |es| && EndsExist(g.cache.nodes, es[i]) ==> EdgeLinked(t.cache, es[i]))
  {
    var cs, ls := Creates(g.cache.nodes, Roles(l)), Links(g.cache, Edges(l, w));
    ApplyCreates(g, Roles(l));
    var u := ApplyAll(g, cs);
    ApplyConcat(g, cs, Warnings(w));
    WarningsDoNothing(u, w);
    ApplyConcat(g, cs + Warnings(w), ls);
    ApplyLinks(g.cache, u, Edges(l, w));
  }

  lemma CompleteKeepsNodes(g: Session, t: Session, wanted: seq<SinkProps>)
    requires NodesGrown(g, t, wanted) && AllPresent(g.cache.nodes, wanted)
    ensures t.cache.nodes == g.cache.nodes
  {
    forall id | id in t.cache.nodes ensures id in g.cache.nodes {
      assert !MadeFor(g.cache.nodes, wanted, t.cache.nodes[id]);
    }
  }

  lemma ChoiceHasName(nodes: map<nat, NodeInfo>, w: Option<NodeInfo>)
    requires IsWave3Choice(nodes, w) && w.Some?
    ensures HasName(nodes, w.value.name)
  {
  }

  /** With all nodes there, a round makes no node and links everything. */
  lemma CompleteRound(g: Session, l: Layout, w: Option<NodeInfo>)
    requires Valid(g) && AllPresent(g.cache.nodes, Roles(l)) && IsWave3Choice(g.cache.nodes, w)
    ensures Round(g, l, w).cache.nodes == g.cache.nodes
    ensures AllLinked(Round(g, l, w).cache, Edges(l, w))
  {
    var t, es := Round(g, l, w), Edges(l, w);
    RoundResult(g, l, w);
    CompleteKeepsNodes(g, t, Roles(l));
    if w.Some? { ChoiceHasName(g.cache.nodes, w); }
    forall k | 0 <= k < |es| ensures EdgeLinked(t.cache, es[k]) {
      EdgesJoinRoles(g.cache.nodes, l, w, k);
    }
  }

  lemma NothingLeft(cache: Cache, l: Layout, w: Option<NodeInfo>)
    requires AllPresent(cache.nodes, Roles(l)) && AllLinked(cache, Edges(l, w))
    ensures Reconcile(cache, l, w) == Warnings(w)
  {
    CreatesEmpty(cache.nodes, Roles(l));
    LinksEmpty(cache, Edges(l, w));
  }

  /** A pair that is not among the demanded ones is not linked by a round. */
  lemma StaysUnlinked(g: Session, t: Session, edges: seq<Edge>, e: Edge)
    requires t.cache.nodes == g.cache.nodes && LinksGrown(g.cache, g, t, edges)
    requires e !in edges && !EdgeLinked(g.cache, e)
    ensures !EdgeLinked(t.cache, e)
  {
    if EndsExist(t.cache.nodes, e) {
      var o, i := IdOf(t.cache.nodes, e.output), IdOf(t.cache.nodes, e.input);
      forall k | k in t.cache.links ensures t.cache.links[k].outputNode != o || t.cache.links[k].inputNode != i {
        if k !in g.cache.links { JoinsAnother(g.cache, t.cache.nodes, edges, t.cache.links[k], e); }
      }
    }
  }

  lemma JoinsAnother(base: Cache, nodes: map<nat, NodeInfo>, edges: seq<Edge>, link: LinkInfo, e: Edge)
    requires LinkFor(base, nodes, edges, link) && EndsExist(nodes, e) && e !in edges
    ensures link.outputNode != IdOf(nodes, e.output) || link.inputNode != IdOf(nodes, e.input)
  {
    var i :| 0 <= i < |edges| && Joins(link, nodes, edges[i]);
    JoinsOne(nodes, link, edges[i], e);
  }

  lemma JoinsOne(nodes: map<nat, NodeInfo>, link: LinkInfo, e: Edge, f: Edge)
    requires Joins(link, nodes, e) && EndsExist(nodes, f) && e != f
    ensures !Joins(link, nodes, f)
  {
    assert nodes[IdOf(nodes, e.output)].name == e.output && nodes[IdOf(nodes, f.output)].name == f.output;
    assert nodes[IdOf(nodes, e.input)].name == e.input && nodes[IdOf(nodes, f.input)].name == f.input;
  }

  /** After round two, made with the Wave:3 choice `w1`, a search that answers `w2` finds
      nothing to do exactly when `w2` was linked, in that round or before. */
  lemma SettledExactlyWhen(g: Session, l: Layout, w1: Option<NodeInfo>, w2: Option<NodeInfo>)
    requires Valid(g) && AllPresent(g.cache.nodes, Roles(l))
    requires IsWave3Choice(g.cache.nodes, w1) && IsWave3Choice(g.cache.nodes, w2)
    ensures Reconcile(Round(g, l, w1).cache, l, w2) == Warnings(w2) <==>
      (w2.Some? ==> AlreadyOrNow(g.cache, Edges(l, w1), Edge(l.monitorMix.name, w2.value.name)))
  {
    var t := Round(g, l, w1);
    RoundResult(g, l, w1);
    CompleteRound(g, l, w1);
    if w2.Some? {
      var e := Edge(l.monitorMix.name, w2.value.name);
      if AlreadyOrNow(g.cache, Edges(l, w1), e) {
        LinkedEitherWay(g.cache, t.cache, Edges(l, w1), e);
        SameDemandElsewhere(t.cache, l, w1, w2);
        NothingLeft(t.cache, l, w2);
      } else {
        StaysUnlinked(g, t, Edges(l, w1), e);
        UnlinkedIsUnsettled(t.cache, l, w2);
      }
    } else {
      SameDemandElsewhere(t.cache, l, w1, w2);
      NothingLeft(t.cache, l, w2);
    }
  }

  ghost predicate AlreadyOrNow(before: Cache, edges: seq<Edge>, e: Edge) {
    e in edges || EdgeLinked(before, e)
  }

  lemma LinkedEitherWay(c: Cache, d: Cache, edges: seq<Edge>, e: Edge)
    requires c.nodes == d.nodes && Submap(c.links, d.links) && UniqueNames(d.nodes)
    requires AllLinked(d, edges) && AlreadyOrNow(c, edges, e)
    ensures EdgeLinked(d, e)
  {
    if e in edges {
      var i :| 0 <= i < |edges| && edges[i] == e;
    } else {
      EdgeKept(c, d, e);
    }
  }

  /** Only the last demanded pair depends on the Wave:3. */
  lemma SameDemandElsewhere(cache: Cache, l: Layout, v: Option<NodeInfo>, w: Option<NodeInfo>)
    requires AllLinked(cache, Edges(l, v))
    requires w.Some? ==> EdgeLinked(cache, Edge(l.monitorMix.name, w.value.name))
    ensures AllLinked(cache, Edges(l, w))
  {
    DemandSize(l, v);
    DemandSize(l, w);
    forall k | 0 <= k < |Edges(l, w)| ensures EdgeLinked(cache, Edges(l, w)[k]) {
      EdgesSplit(l, w, k);
      if k < 2 * |l.channels| + 1 {
        EdgesSplit(l, v, k);
        assert Edges(l, v)[k] == Edges(l, w)[k];
      }
    }
  }

  lemma UnlinkedIsUnsettled(cache: Cache, l: Layout, w: Option<NodeInfo>)
    requires w.Some? && IsWave3Choice(cache.nodes, w) && !EdgeLinked(cache, Edge(l.monitorMix.name, w.value.name))
    ensures Reconcile(cache, l, w) != []
  {
    DemandSize(l, w);
    EdgesSplit(l, w, 2 * |l.channels| + 1);
    assert !AllLinked(cache, Edges(l, w));
    HealthyExactlyWhenNothingToDo(cache, l, w);
  }

  // ---- Progress -------------------------------------------------------------------

  function MissingNodes(nodes: map<nat, NodeInfo>, wanted: seq<SinkProps>): nat {
    if wanted == [] then 0
    else MissingNodes(nodes, wanted[..|wanted| - 1]) + (if HasName(nodes, wanted[|wanted| - 1].name) then 0 else 1)
  }

  ghost function MissingLinks(cache: Cache, edges: seq<Edge>): nat {
    if edges == [] then 0
    else MissingLinks(cache, edges[..|edges| - 1]) + (if EdgeLinked(cache, edges[|edges| - 1]) then 0 else 1)
  }

  /** What the demand lacks: nodes and linked pairs. */
  ghost function Missing(cache: Cache, l: Layout, w: Option<NodeInfo>): nat {
    MissingNodes(cache.nodes, Roles(l)) + MissingLinks(cache, Edges(l, w))
  }

  lemma {:induction false} NoNodeMissing(nodes: map<nat, NodeInfo>, wanted: seq<SinkProps>)
    ensures MissingNodes(nodes, wanted) == 0 <==> AllPresent(nodes, wanted)
  {
    if wanted != [] {
      var most := wanted[..|wanted| - 1];
      NoNodeMissing(nodes, most);
      assert forall i :: 0 <= i < |most| ==> most[i] == wanted[i];
    }
  }

  lemma {:induction false} NoLinkMissing(cache: Cache, edges: seq<Edge>)
    ensures MissingLinks(cache, edges) == 0 <==> AllLinked(cache, edges)
  {
    if edges != [] {
      var most := edges[..|edges| - 1];
      NoLinkMissing(cache, most);
      assert forall i :: 0 <= i < |most| ==> most[i] == edges[i];
    }
  }

  lemma {:induction false} NoMoreLinksMissing(c: Cache, d: Cache, edges: seq<Edge>)
    requires Submap(c.nodes, d.nodes) && Submap(c.links, d.links) && UniqueNames(d.nodes)
    ensures MissingLinks(d, edges) <= MissingLinks(c, edges)
  {
    if edges != [] {
      NoMoreLinksMissing(c, d, edges[..|edges| - 1]);
      EdgeKept(c, d, edges[|edges| - 1]);
    }
  }

  /** While anything demanded is missing, a round leaves strictly less of it missing. */
  lemma EveryRoundProgresses(g: Session, l: Layout, w: Option<NodeInfo>)
    requires Valid(g) && IsWave3Choice(g.cache.nodes, w)
    ensures Missing(g.cache, l, w) > 0 ==> Missing(Round(g, l, w).cache, l, w) < Missing(g.cache, l, w)
  {
    var t := Round(g, l, w);
    RoundResult(g, l, w);
    NoNodeMissing(g.cache.nodes, Roles(l));
    NoNodeMissing(t.cache.nodes, Roles(l));
    NoMoreLinksMissing(g.cache, t.cache, Edges(l, w));
    if AllPresent(g.cache.nodes, Roles(l)) {
      CompleteRound(g, l, w);
      NoLinkMissing(t.cache, Edges(l, w));
    }
  }

  // ---- The Wave:3 choice does not change ---------------------------------------

  /** The search has one possible outcome: the sink carries its custom name, or at most
      one node answers the fallback description. */
  predicate Unambiguous(nodes: map<nat, NodeInfo>) {
    || HasName(nodes, "wave3-sink")
    || forall i, j :: i in nodes && j in nodes && nodes[i].IsWave3Sink() && nodes[j].IsWave3Sink() ==> i == j
  }

  /** A virtual sink of this name would be taken for the Wave:3. */
  predicate PassesForWave3(name: string) {
    || name == "wave3-sink"
    || (Contains(name, "Elgato") && Contains(name, "Wave"))
    || (StartsWith(name, "alsa_output") && (Contains(name, "Elgato") || Contains(name, "Wave:3")))
  }

  predicate NoImpostor(l: Layout) {
    forall i :: 0 <= i < |Roles(l)| ==> !PassesForWave3(Roles(l)[i].name)
  }

  lemma OneStart(name: string)
    requires StartsWith(name, "alsa_output")
    ensures !StartsWith(name, "wave3-")
  {
    assert name[..11][0] == name[0] == 'a';
    assert |name| >= 6 ==> name[..6][0] == name[0];
  }

  lemma MadeIsNotWave3(id: nat, p: SinkProps)
    requires !PassesForWave3(p.name)
    ensures !Made(id, p).IsWave3Sink() && Made(id, p).name != "wave3-sink"
  {
    if StartsWith(p.name, "alsa_output") { OneStart(p.name); }
  }

  lemma NewcomerIsNotWave3(nodes: map<nat, NodeInfo>, l: Layout, node: NodeInfo)
    requires NoImpostor(l) && MadeFor(nodes, Roles(l), node)
    ensures !node.IsWave3Sink() && node.name != "wave3-sink"
  {
    var i :| 0 <= i < |Roles(l)| && !HasName(nodes, Roles(l)[i].name) && node == Made(node.id, Roles(l)[i]);
    MadeIsNotWave3(node.id, Roles(l)[i]);
  }

  lemma ChoiceIsStable(g: Session, t: Session, l: Layout, w: Option<NodeInfo>, x: Option<NodeInfo>)
    requires Valid(g) && Valid(t) && NoImpostor(l) && NodesGrown(g, t, Roles(l))
    requires Unambiguous(g.cache.nodes)
    requires IsWave3Choice(g.cache.nodes, w) && IsWave3Choice(t.cache.nodes, x)
    ensures w == x && Unambiguous(t.cache.nodes)
  {
    var m, n := g.cache.nodes, t.cache.nodes;
    forall id | id in n && id !in m ensures !n[id].IsWave3Sink() && n[id].name != "wave3-sink" {
      NewcomerIsNotWave3(m, l, n[id]);
    }
    if HasName(m, "wave3-sink") {
      HasNameKept(m, n, "wave3-sink");
    } else {
      assert !HasName(n, "wave3-sink");
    }
  }

  lemma OneChoice(nodes: map<nat, NodeInfo>, w: Option<NodeInfo>, x: Option<NodeInfo>)
    requires UniqueNames(nodes) && Unambiguous(nodes)
    requires IsWave3Choice(nodes, w) && IsWave3Choice(nodes, x)
    ensures w == x
  {
  }

  /** From any graph, for any channels: after carrying out the actions twice, `reconcile` has
      nothing left but to report a missing Wave:3. */
  lemma TwoRoundsSettle(g: Session, l: Layout, w0: Option<NodeInfo>, w1: Option<NodeInfo>, w2: Option<NodeInfo>)
    requires Valid(g) && NoImpostor(l) && Unambiguous(g.cache.nodes)
    requires IsWave3Choice(g.cache.nodes, w0)
    requires IsWave3Choice(Round(g, l, w0).cache.nodes, w1)
    requires IsWave3Choice(Round(Round(g, l, w0), l, w1).cache.nodes, w2)
    ensures var t := Round(Round(g, l, w0), l, w1);
      && Reconcile(t.cache, l, w2) == Warnings(w2) && w2 == w0
      && Valid(t) && NodesGrown(g, t, Roles(l)) && Submap(g.cache.links, t.cache.links)
  {
    var t1 := Round(g, l, w0);
    RoundResult(g, l, w0);
    ChoiceIsStable(g, t1, l, w0, w1);
    RoundResult(t1, l, w1);
    CompleteRound(t1, l, w1);
    OneChoice(t1.cache.nodes, w1, w2);
    NothingLeft(Round(t1, l, w1).cache, l, w1);
  }

  /** The condition on the Wave:3 is needed: a second candidate, not linked yet, that the
      search answers with after round two leaves it something to do. */
  lemma AmbiguousSinkUnsettles(g: Session, l: Layout, a: NodeInfo, b: NodeInfo)
    requires Valid(g) && AllPresent(g.cache.nodes, Roles(l))
    requires a.name != b.name && IsWave3Choice(g.cache.nodes, Some(a)) && IsWave3Choice(g.cache.nodes, Some(b))
    requires !EdgeLinked(g.cache, Edge(l.monitorMix.name, b.name))
    requires forall i :: 0 <= i < |Roles(l)| ==> Roles(l)[i].name != b.name
    ensures Reconcile(Round(g, l, Some(a)).cache, l, Some(b)) != Warnings(Some(b))
  {
    var e, es := Edge(l.monitorMix.name, b.name), Edges(l, Some(a));
    DemandSize(l, Some(a));
    forall k | 0 <= k < |es| ensures es[k] != e {
      EdgeInputs(l, a, k);
    }
    SettledExactlyWhen(g, l, Some(a), Some(b));
  }

  lemma EdgeInputs(l: Layout, a: NodeInfo, k: nat)
    requires k < |Edges(l, Some(a))|
    ensures var input := Edges(l, Some(a))[k].input;
      input == a.name || exists i :: 0 <= i < |Roles(l)| && Roles(l)[i].name == input
  {
    var n := |l.channels|;
    DemandSize(l, Some(a));
    EdgesSplit(l, Some(a), k);
    RolesSplit(l, n);
    RolesSplit(l, n + 1);
    RolesSplit(l, n + 2);
    assert Roles(l)[n] == l.streamMix && Roles(l)[n + 1] == l.streamOut && Roles(l)[n + 2] == l.monitorMix;
  }

  // ---- Any number of rounds ------------------------------------------------------------

  /** The nodes the search may answer with ... */
  ghost function Candidates(nodes: map<nat, NodeInfo>): set<nat> {
    set id | id in nodes && IsWave3Choice(nodes, Some(nodes[id]))
  }

  ghost predicate Fed(cache: Cache, l: Layout, id: nat)
    requires id in cache.nodes
  {
    EdgeLinked(cache, Edge(l.monitorMix.name, cache.nodes[id].name))
  }

  /** ... and those among them the monitor mix does not feed yet. */
  ghost function Unfed(cache: Cache, l: Layout): set<nat> {
    set id | id in Candidates(cache.nodes) && !Fed(cache, l, id)
  }

  /** All nodes are there, and all pairs linked but for the headphones. */
  ghost predicate AllButWave3(g: Session, l: Layout) {
    Valid(g) && AllPresent(g.cache.nodes, Roles(l)) && AllLinked(g.cache, Edges(l, None))
  }

  ghost predicate IsBusy(g: Session, l: Layout, w: Option<NodeInfo>) {
    Reconcile(g.cache, l, w) != Warnings(w)
  }

  lemma SameEdges(cache: Cache, l: Layout, w: Option<NodeInfo>)
    requires AllLinked(cache, Edges(l, w))
    ensures AllLinked(cache, Edges(l, None))
    ensures w.Some? ==> EdgeLinked(cache, Edge(l.monitorMix.name, w.value.name))
  {
    SameDemandElsewhere(cache, l, w, None);
    if w.Some? {
      DemandSize(l, w);
      EdgesSplit(l, w, 2 * |l.channels| + 1);
    }
  }

  /** Then a search leaves nothing to do exactly when what it answers is fed. */
  lemma IdleExactlyWhen(g: Session, l: Layout, w: Option<NodeInfo>)
    requires AllButWave3(g, l) && IsWave3Choice(g.cache.nodes, w)
    ensures IsBusy(g, l, w) <==> w.Some? && !EdgeLinked(g.cache, Edge(l.monitorMix.name, w.value.name))
  {
    if w.Some? && !EdgeLinked(g.cache, Edge(l.monitorMix.name, w.value.name)) {
      UnlinkedIsUnsettled(g.cache, l, w);
    } else {
      SameDemandElsewhere(g.cache, l, None, w);
      NothingLeft(g.cache, l, w);
    }
  }

  lemma FedStaysFed(g: Session, t: Session, l: Layout)
    requires Valid(t) && t.cache.nodes == g.cache.nodes && Submap(g.cache.links, t.cache.links)
    ensures Unfed(t.cache, l) <= Unfed(g.cache, l)
  {
    forall id | id in Unfed(t.cache, l) ensures id in Unfed(g.cache, l) {
      EdgeKept(g.cache, t.cache, Edge(l.monitorMix.name, g.cache.nodes[id].name));
    }
  }

  /** A round over all nodes feeds the candidate it was given, and those fed stay so. */
  lemma RoundFeeds(g: Session, l: Layout, w: Option<NodeInfo>)
    requires Valid(g) && AllPresent(g.cache.nodes, Roles(l)) && IsWave3Choice(g.cache.nodes, w)
    ensures var t := Round(g, l, w);
      && AllButWave3(t, l) && t.cache.nodes == g.cache.nodes && Unfed(t.cache, l) <= Unfed(g.cache, l)
      && (w.Some? ==> exists id :: id in Candidates(t.cache.nodes) && t.cache.nodes[id] == w.value && Fed(t.cache, l, id))
  {
    var t := Round(g, l, w);
    RoundResult(g, l, w);
    CompleteRound(g, l, w);
    SameEdges(t.cache, l, w);
    FedStaysFed(g, t, l);
    if w.Some? {
      var id :| id in g.cache.nodes && g.cache.nodes[id] == w.value;
      assert id in Candidates(t.cache.nodes) && Fed(t.cache, l, id);
    }
  }

  /** So from then on every round with anything to do leaves fewer candidates unfed. */
  lemma BusyRoundFeedsAnother(g: Session, l: Layout, w: Option<NodeInfo>)
    requires AllButWave3(g, l) && IsWave3Choice(g.cache.nodes, w) && IsBusy(g, l, w)
    ensures Unfed(Round(g, l, w).cache, l) < Unfed(g.cache, l)
  {
    var t := Round(g, l, w);
    RoundFeeds(g, l, w);
    IdleExactlyWhen(g, l, w);
    var id :| id in Candidates(t.cache.nodes) && t.cache.nodes[id] == w.value && Fed(t.cache, l, id);
    assert id in Unfed(g.cache, l) && id !in Unfed(t.cache, l);
  }

  /** Each of the searches' answers is one the search may give in its graph. */
  ghost predicate Choices(g: Session, l: Layout, ws: seq<Option<NodeInfo>>)
    decreases |ws|
  {
    ws == [] || (IsWave3Choice(g.cache.nodes, ws[0]) && Choices(Round(g, l, ws[0]), l, ws[1..]))
  }

  /** How many of the rounds have anything to do. */
  ghost function BusyRounds(g: Session, l: Layout, ws: seq<Option<NodeInfo>>): nat
    decreases |ws|
  {
    if ws == [] then 0
    else (if IsBusy(g, l, ws[0]) then 1 else 0) + BusyRounds(Round(g, l, ws[0]), l, ws[1..])
  }

  lemma SmallerSet(a: set<nat>, b: set<nat>)
    ensures a <= b ==> |a| <= |b|
    ensures a < b ==> |a| < |b|
  {
    if a <= b { assert b == a + (b - a) && |b| == |a| + |b - a|; }
  }

  lemma {:induction false} LateRounds(g: Session, l: Layout, ws: seq<Option<NodeInfo>>)
    requires AllButWave3(g, l) && Choices(g, l, ws)
    ensures BusyRounds(g, l, ws) <= |Unfed(g.cache, l)|
    decreases |ws|
  {
    if ws != [] {
      var t := Round(g, l, ws[0]);
      RoundFeeds(g, l, ws[0]);
      if IsBusy(g, l, ws[0]) { BusyRoundFeedsAnother(g, l, ws[0]); }
      SmallerSet(Unfed(t.cache, l), Unfed(g.cache, l));
      LateRounds(t, l, ws[1..]);
    }
  }

  function AtLeastOne(n: nat): nat {
    if n == 0 then 1 else n
  }

  lemma CompleteRounds(g: Session, l: Layout, ws: seq<Option<NodeInfo>>)
    requires Valid(g) && AllPresent(g.cache.nodes, Roles(l)) && Choices(g, l, ws)
    ensures BusyRounds(g, l, ws) <= AtLeastOne(|Candidates(g.cache.nodes)|)
  {
    if ws != [] {
      var t, all := Round(g, l, ws[0]), Candidates(g.cache.nodes);
      RoundFeeds(g, l, ws[0]);
      LateRounds(t, l, ws[1..]);
      if ws[0].Some? {
        var id :| id in all && t.cache.nodes[id] == ws[0].value && Fed(t.cache, l, id);
        assert Unfed(t.cache, l) <= all - {id};
        SmallerSet(Unfed(t.cache, l), all - {id});
      } else {
        assert all == {};
        assert Unfed(t.cache, l) == {};
      }
    }
  }

  /** Ambiguity costs rounds, but no run of rounds is busy for ever: from any graph, for any
      channels and whatever the searches answer, at most one round and one more for each
      candidate - two, if there are fewer - have anything to do. */
  lemma EveryRunOfRoundsSettles(g: Session, l: Layout, ws: seq<Option<NodeInfo>>)
    requires Valid(g) && Choices(g, l, ws) && ws != []
    ensures BusyRounds(g, l, ws) <= 1 + AtLeastOne(|Candidates(Round(g, l, ws[0]).cache.nodes)|)
  {
    RoundResult(g, l, ws[0]);
    CompleteRounds(Round(g, l, ws[0]), l, ws[1..]);
  }
}
