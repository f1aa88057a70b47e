/** The PipeWire thread's request handler and the daemon's blocking calls to it. */
module Factory {
  import opened Prelude
  import opened Mixing

  datatype Request =
    | CreateSink(name: string)
    | CreateVolumeFilter(name: string)
    | CreateLink(outputNode: nat, outputPort: string, inputNode: nat, inputPort: string)
    | SetNodeVolume(id: nat, volume: real)
    | SetNodeMute(id: nat, muted: bool)
    | DestroyNode(id: nat)
    | DestroyLink(id: nat)
    | DestroyLinksBetween(outputNode: nat, inputNode: nat)
    | Shutdown

  datatype Response =
    | NodeCreated(id: nat, name: string)
    | LinkCreated(id: nat)
    | VolumeSet(id: nat)
    | MuteSet(id: nat)
    | NodeDestroyed(id: nat)
    | LinkDestroyed(id: nat)
    | LinksDestroyed(count: nat)
    | Failed(reason: string)

  /** The monitor volume and mute last set on a node, and the nodes a link joins; a new node
      plays at unity, unmuted. */
  datatype Proxies = Proxies(nodes: map<nat, Fader>, links: map<nat, (nat, nat)>)

  /** What libpipewire made of the attempt: the proxy id it allotted, or an error. */
  datatype CoreOutcome = Granted(id: nat) | Refused(reason: string)

  function LinksBetween(p: Proxies, output: nat, input: nat): set<nat> {
    set id | id in p.links && p.links[id] == (output, input)
  }

  function Reply(p: Proxies, r: Request, o: CoreOutcome): Response
    requires r != Shutdown
  {
    match r
    case CreateSink(name) => if o.Granted? then NodeCreated(o.id, name) else Failed(o.reason)
    case CreateVolumeFilter(name) => if o.Granted? then NodeCreated(o.id, name) else Failed(o.reason)
    case CreateLink(_, _, _, _) => if o.Granted? then LinkCreated(o.id) else Failed(o.reason)
    case SetNodeVolume(id, _) =>
      if id !in p.nodes then Failed("not found in proxies")
      else if o.Granted? then VolumeSet(id) else Failed(o.reason)
    case SetNodeMute(id, _) =>
      if id !in p.nodes then Failed("not found in proxies")
      else if o.Granted? then MuteSet(id) else Failed(o.reason)
    case DestroyNode(id) => if id in p.nodes then NodeDestroyed(id) else Failed("not found")
    case DestroyLink(id) => LinkDestroyed(id)   // a link of ours, or a request to the registry
    case DestroyLinksBetween(output, input) => LinksDestroyed(|LinksBetween(p, output, input)|)
  }

  function Effect(p: Proxies, r: Request, o: CoreOutcome): Proxies {
    match r
    case CreateSink(_) => if o.Granted? then p.(nodes := p.nodes[o.id := UNITY]) else p
    case CreateVolumeFilter(_) => if o.Granted? then p.(nodes := p.nodes[o.id := UNITY]) else p
    case CreateLink(output, _, input, _) => if o.Granted? then p.(links := p.links[o.id := (output, input)]) else p
    case SetNodeVolume(id, v) =>
      if id in p.nodes && o.Granted? then p.(nodes := p.nodes[id := p.nodes[id].(volume := v)]) else p
    case SetNodeMute(id, m) =>
      if id in p.nodes && o.Granted? then p.(nodes := p.nodes[id := p.nodes[id].(muted := m)]) else p
    case DestroyNode(id) => p.(nodes := p.nodes - {id})
    case DestroyLink(id) => p.(links := p.links - {id})
    case DestroyLinksBetween(output, input) => p.(links := p.links - LinksBetween(p, output, input))
    case Shutdown => p
  }

  /** The closure attached to the thread's loop. */
  class RequestHandler {
    var nodeProxies: map<nat, Fader>
    var linkProxies: map<nat, (nat, nat)>
    var responses: seq<Response>
    var quitting: bool

    function View(): Proxies reads this {
      Proxies(nodeProxies, linkProxies)
    }

    constructor ()
      ensures View() == Proxies(map[], map[]) && responses == [] && !quitting
    {
      nodeProxies, linkProxies, responses, quitting := map[], map[], [], false;
    }

    method Handle(r: Request, o: CoreOutcome)
      modifies this
      ensures View() == Effect(old(View()), r, o)
      ensures responses == old(responses) + (if r == Shutdown then [] else [Reply(old(View()), r, o)])
      ensures quitting == (old(quitting) || r == Shutdown)
    {
      match r {
        case CreateSink(name) => CreateNode(name, o);
        case CreateVolumeFilter(name) => CreateNode(name, o);
        case CreateLink(output, _, input, _) =>
          match o {
            case Granted(id) =>
              linkProxies := linkProxies[id := (output, input)];
              responses := responses + [LinkCreated(id)];
            case Refused(reason) =>
              responses := responses + [Failed(reason)];
          }
        case SetNodeVolume(id, volume) =>
          if id !in nodeProxies {
            responses := responses + [Failed("not found in proxies")];
          } else if o.Refused? {
            responses := responses + [Failed(o.reason)];
          } else {
            nodeProxies := nodeProxies[id := nodeProxies[id].(volume := volume)];
            responses := responses + [VolumeSet(id)];
          }
        case SetNodeMute(id, muted) =>
          if id !in nodeProxies {
            responses := responses + [Failed("not found in proxies")];
          } else if o.Refused? {
            responses := responses + [Failed(o.reason)];
          } else {
            nodeProxies := nodeProxies[id := nodeProxies[id].(muted := muted)];
            responses := responses + [MuteSet(id)];
          }
        case DestroyNode(id) =>
          if id in nodeProxies {
            responses := responses + [NodeDestroyed(id)];
          } else {
            responses := responses + [Failed("not found")];
          }
          nodeProxies := nodeProxies - {id};
        case DestroyLink(id) =>
          linkProxies := linkProxies - {id};
          responses := responses + [LinkDestroyed(id)];
        case DestroyLinksBetween(output, input) =>
          var idsToRemove := set id | id in linkProxies && linkProxies[id] == (output, input);
          assert idsToRemove == LinksBetween(old(View()), output, input);
          var count := |idsToRemove|;
          while idsToRemove != {}
            invariant linkProxies - idsToRemove == old(linkProxies) - LinksBetween(old(View()), output, input)
            invariant nodeProxies == old(nodeProxies) && responses == old(responses) && quitting == old(quitting)
            decreases idsToRemove
          {
            var id :| id in idsToRemove;
            linkProxies := linkProxies - {id};
            idsToRemove := idsToRemove - {id};
          }
          assert linkProxies - {} == linkProxies;
          responses := responses + [LinksDestroyed(count)];
        case Shutdown =>
          quitting := true;
      }
    }

    method CreateNode(name: string, o: CoreOutcome)
      modifies this`nodeProxies, this`responses
      ensures View() == Effect(old(View()), CreateSink(name), o)
      ensures responses == old(responses) + [Reply(old(View()), CreateSink(name), o)]
    {
      match o {
        case Granted(id) =>
          nodeProxies := nodeProxies[id := UNITY];
          responses := responses + [NodeCreated(id, name)];
        case Refused(reason) =>
          responses := responses + [Failed(reason)];
      }
    }
  }

  /** What a call hands back to the daemon. */
  datatype CallResult = Node(id: nat, name: string) | Link(id: nat) | Done | Count(count: nat) | Error(reason: string)

  const UNEXPECTED := Error("Unexpected response")

  function Interpret(r: Request, a: Response): CallResult {
    match a
    case Failed(reason) => Error(reason)
    case NodeCreated(id, name) => if r.CreateSink? || r.CreateVolumeFilter? then Node(id, name) else UNEXPECTED
    case LinkCreated(id) => if r.CreateLink? then Link(id) else UNEXPECTED
    case VolumeSet(_) => if r.SetNodeVolume? then Done else UNEXPECTED
    case MuteSet(_) => if r.SetNodeMute? then Done else UNEXPECTED
    case LinkDestroyed(_) => if r.DestroyLink? then Done else UNEXPECTED
    case LinksDestroyed(count) => if r.DestroyLinksBetween? then Count(count) else UNEXPECTED
    case NodeDestroyed(_) => UNEXPECTED
  }

  /** The content of a response, for a call that expects its kind. */
  function Content(a: Response): CallResult {
    match a
    case Failed(reason) => Error(reason)
    case NodeCreated(id, name) => Node(id, name)
    case LinkCreated(id) => Link(id)
    case LinksDestroyed(count) => Count(count)
    case _ => Done
  }

  /** `a` is an answer to `r`: of its kind, about its object, or an error. */
  predicate Answers(r: Request, a: Response) {
    match a
    case Failed(_) => true
    case NodeCreated(_, name) => (r.CreateSink? || r.CreateVolumeFilter?) && r.name == name
    case LinkCreated(_) => r.CreateLink?
    case VolumeSet(id) => r.SetNodeVolume? && r.id == id
    case MuteSet(id) => r.SetNodeMute? && r.id == id
    case NodeDestroyed(id) => r.DestroyNode? && r.id == id
    case LinkDestroyed(id) => r.DestroyLink? && r.id == id
    case LinksDestroyed(_) => r.DestroyLinksBetween?
  }

  lemma ReplyAnswers(p: Proxies, r: Request, o: CoreOutcome)
    requires r != Shutdown
    ensures Answers(r, Reply(p, r, o))
  {
  }

  // ---- The daemon's calls, one at a time, over two unbounded queues ---------

  /** How a finished call ended: nothing came in time, or it took the `k`-th response. */
  datatype Ending = TimedOut | Got(k: nat)

  datatype Bridge = Bridge(
    calls: seq<Request>,      // history: every request sent, shutdown excepted
    emitted: seq<Response>,   // history: every response sent
    endings: seq<Ending>,     // history: how each finished call ended
    inbox: seq<Request>,
    replies: seq<Response>,
    waiting: bool,
    quitting: bool,
    dead: bool,
    proxies: Proxies)

  const IDLE := Bridge([], [], [], [], [], false, false, false, Proxies(map[], map[]))

  datatype Action =
    | Call(r: Request)
    | AskShutdown
    | Process(o: CoreOutcome)
    | Receive
    | TimeOut
    | Exit

  predicate Callable(r: Request) {
    r != Shutdown && !r.DestroyNode?   // no call of the runtime handle sends `DestroyNode`
  }

  predicate Enabled(b: Bridge, a: Action) {
    match a
    case Call(r) => !b.waiting && !b.dead && Callable(r)
    case AskShutdown => !b.waiting && !b.dead
    case Process(_) => !b.dead && b.inbox != []
    case Receive => b.waiting && b.replies != []
    case TimeOut => b.waiting && b.replies == []
    case Exit => b.quitting && !b.dead
  }

  function Next(b: Bridge, a: Action): Bridge
    requires Enabled(b, a)
  {
    match a
    case Call(r) => b.(calls := b.calls + [r], inbox := b.inbox + [r], waiting := true)
    case AskShutdown => b.(inbox := b.inbox + [Shutdown])
    case Process(o) =>
      var r := b.inbox[0];
      if r == Shutdown then b.(inbox := b.inbox[1..], quitting := true)
      else
        var a := Reply(b.proxies, r, o);
        b.(inbox := b.inbox[1..], emitted := b.emitted + [a], replies := b.replies + [a],
           proxies := Effect(b.proxies, r, o))
    case Receive =>
      b.(endings := b.endings + [Got(Taken(b.endings))], replies := b.replies[1..], waiting := false)
    case TimeOut => b.(endings := b.endings + [TimedOut], waiting := false)
    case Exit => b.(dead := true)
  }

  /** Responses consumed so far: the receiver takes them in order. */
  function Taken(endings: seq<Ending>): nat {
    |endings| - Timeouts(endings)
  }

  function Timeouts(endings: seq<Ending>): (t: nat)
    ensures t <= |endings|
  {
    if endings == [] then 0
    else Timeouts(endings[..|endings| - 1]) + (if endings[|endings| - 1].TimedOut? then 1 else 0)
  }

  lemma TimeoutsSnoc(endings: seq<Ending>, e: Ending)
    ensures Timeouts(endings + [e]) == Timeouts(endings) + (if e.TimedOut? then 1 else 0)
  {
    assert (endings + [e])[..|endings|] == endings;
  }

  function Requests(inbox: seq<Request>): seq<Request> {
    if inbox == [] then [] else (if inbox[0] == Shutdown then [] else [inbox[0]]) + Requests(inbox[1..])
  }

  lemma {:induction false} RequestsSnoc(inbox: seq<Request>, r: Request)
    ensures Requests(inbox + [r]) == Requests(inbox) + (if r == Shutdown then [] else [r])
  {
    if inbox == [] {
      assert [] + [r] == [r] && [r][1..] == [];
    } else {
      assert (inbox + [r])[1..] == inbox[1..] + [r];
      RequestsSnoc(inbox[1..], r);
    }
  }

  /** One response per request, in order. */
  predicate PairInv(b: Bridge) {
    && |b.emitted| <= |b.calls| && Requests(b.inbox) == b.calls[|b.emitted|..]
    && (forall k :: 0 <= k < |b.calls| ==> Callable(b.calls[k]))
    && (forall k :: 0 <= k < |b.emitted| ==> Answers(b.calls[k], b.emitted[k]))
  }

  /** Responses not taken yet are still queued. */
  predicate ReplyInv(b: Bridge) {
    && Taken(b.endings) <= |b.emitted| && b.replies == b.emitted[Taken(b.endings)..]
    && |b.calls| == |b.endings| + (if b.waiting then 1 else 0)
  }

  predicate EndingInv(endings: seq<Ending>) {
    forall n :: 0 <= n < |endings| && endings[n].Got? ==>
      endings[n].k == Taken(endings[..n]) < Taken(endings)
  }

  predicate Inv(b: Bridge) {
    PairInv(b) && ReplyInv(b) && EndingInv(b.endings)
  }

  lemma EndingStep(endings: seq<Ending>, e: Ending)
    requires EndingInv(endings) && (e.Got? ==> e.k == Taken(endings))
    ensures EndingInv(endings + [e])
    ensures Taken(endings + [e]) == Taken(endings) + (if e.Got? then 1 else 0)
  {
    var longer := endings + [e];
    TimeoutsSnoc(endings, e);
    forall n | 0 <= n < |longer| && longer[n].Got? ensures longer[n].k == Taken(longer[..n]) < Taken(longer) {
      assert longer[..n] == endings[..n];
      if n == |endings| { assert endings[..n] == endings; }
    }
  }

  lemma ProcessKeeps(b: Bridge, o: CoreOutcome)
    requires PairInv(b) && Enabled(b, Process(o)) && b.inbox[0] != Shutdown
    ensures PairInv(Next(b, Process(o)))
  {
    var r, t := b.inbox[0], Next(b, Process(o));
    var a := Reply(b.proxies, r, o);
    ReplyAnswers(b.proxies, r, o);
    assert Requests(b.inbox) == [r] + Requests(b.inbox[1..]);
    assert b.calls[|b.emitted|..][0] == r;
    assert b.calls[|b.emitted|..][1..] == b.calls[|b.emitted| + 1..];
    assert t.emitted == b.emitted + [a] && t.calls == b.calls;
  }

  lemma ProcessKeepsReplies(b: Bridge, o: CoreOutcome)
    requires ReplyInv(b) && Enabled(b, Process(o))
    ensures ReplyInv(Next(b, Process(o)))
  {
    var t := Next(b, Process(o));
    assert t.endings == b.endings && t.calls == b.calls;
    if b.inbox[0] != Shutdown {
      var a := Reply(b.proxies, b.inbox[0], o);
      assert t.replies == b.replies + [a] && t.emitted == b.emitted + [a];
    }
  }

  lemma CallKeeps(b: Bridge, r: Request)
    requires PairInv(b) && Callable(r)
    ensures PairInv(b.(calls := b.calls + [r], inbox := b.inbox + [r], waiting := true))
  {
    RequestsSnoc(b.inbox, r);
    assert (b.calls + [r])[|b.emitted|..] == b.calls[|b.emitted|..] + [r];
  }

  lemma EndKeeps(b: Bridge, e: Ending)
    requires ReplyInv(b) && EndingInv(b.endings) && b.waiting
    requires e.Got? ==> e.k == Taken(b.endings) && b.replies != []
    ensures ReplyInv(b.(endings := b.endings + [e], replies := if e.Got? then b.replies[1..] else b.replies, waiting := false))
    ensures EndingInv(b.endings + [e])
  {
    EndingStep(b.endings, e);
  }

  lemma StepKeepsPairs(b: Bridge, a: Action)
    requires PairInv(b) && Enabled(b, a)
    ensures PairInv(Next(b, a))
  {
    match a
    case Call(r) => CallKeeps(b, r);
    case AskShutdown => RequestsSnoc(b.inbox, Shutdown);
    case Process(o) => if b.inbox[0] != Shutdown { ProcessKeeps(b, o); }
    case _ =>
  }

  lemma StepKeepsReplies(b: Bridge, a: Action)
    requires ReplyInv(b) && EndingInv(b.endings) && Enabled(b, a)
    ensures ReplyInv(Next(b, a)) && EndingInv(Next(b, a).endings)
  {
    match a
    case Process(o) => ProcessKeepsReplies(b, o);
    case Receive => EndKeeps(b, Got(Taken(b.endings)));
    case TimeOut => EndKeeps(b, TimedOut);
    case _ =>
  }

  lemma StepKeeps(b: Bridge, a: Action)
    requires Inv(b) && Enabled(b, a)
    ensures Inv(Next(b, a))
  {
    StepKeepsPairs(b, a);
    StepKeepsReplies(b, a);
  }

  ghost predicate IsRun(b: Bridge, actions: seq<Action>, c: Bridge)
    decreases |actions|
  {
    if actions == [] then b == c
    else Enabled(b, actions[0]) && IsRun(Next(b, actions[0]), actions[1..], c)
  }

  lemma {:induction false} RunKeeps(b: Bridge, actions: seq<Action>, c: Bridge)
    requires Inv(b) && IsRun(b, actions, c)
    ensures Inv(c)
    decreases |actions|
  {
    if actions != [] {
      StepKeeps(b, actions[0]);
      RunKeeps(Next(b, actions[0]), actions[1..], c);
    }
  }

  ghost predicate Reachable(b: Bridge) {
    exists actions :: IsRun(IDLE, actions, b)
  }

  lemma IdleInv()
    ensures Inv(IDLE)
  {
    assert Taken([]) == 0 && Requests([]) == [];
  }

  lemma ReachableInv(b: Bridge)
    requires Reachable(b)
    ensures Inv(b)
  {
    IdleInv();
    var actions :| IsRun(IDLE, actions, b);
    RunKeeps(IDLE, actions, b);
  }

  /** The pairing law: the call that ends after `t` timeouts takes the answer to the call
      `t` places earlier. */
  lemma CallTakesShiftedAnswer(b: Bridge, n: nat)
    requires Reachable(b) && n < |b.endings| && b.endings[n].Got?
    ensures var t := Timeouts(b.endings[..n]);
      && 0 <= n - t < |b.emitted| <= |b.calls|
      && b.endings[n] == Got(n - t)
      && Answers(b.calls[n - t], b.emitted[n - t])
  {
    ReachableInv(b);
    assert |b.endings[..n]| == n;
  }

  /** A call gets the answer to its own request exactly when no earlier call timed out,
      and then never reports an unexpected response. */
  lemma OwnAnswerExactlyWithoutTimeouts(b: Bridge, n: nat)
    requires Reachable(b) && n < |b.endings| && b.endings[n].Got?
    ensures b.endings[n].k == n <==> Timeouts(b.endings[..n]) == 0
    ensures Timeouts(b.endings[..n]) == 0 ==>
      && n < |b.emitted| <= |b.calls|
      && Answers(b.calls[n], b.emitted[n])
      && Interpret(b.calls[n], b.emitted[n]) == Content(b.emitted[n])
  {
    CallTakesShiftedAnswer(b, n);
    ReachableInv(b);
    if Timeouts(b.endings[..n]) == 0 { assert Callable(b.calls[n]); }
  }

  /** Between calls, what is queued in either direction is one item per timeout so far. */
  lemma LeftoversCountTimeouts(b: Bridge)
    requires Reachable(b) && !b.waiting
    ensures |b.replies| + |Requests(b.inbox)| == Timeouts(b.endings)
  {
    ReachableInv(b);
  }

  /** While the thread lives, a waiting call still has an answer coming. */
  lemma AnswerIsComing(b: Bridge)
    requires Reachable(b) && b.waiting
    ensures b.replies != [] || b.inbox != []
  {
    ReachableInv(b);
    assert |b.endings| < |b.calls|;
  }

  lemma {:induction false} RunSnoc(b: Bridge, actions: seq<Action>, c: Bridge, a: Action)
    requires IsRun(b, actions, c) && Enabled(c, a)
    ensures IsRun(b, actions + [a], Next(c, a))
    decreases |actions|
  {
    if actions == [] {
      assert ([] + [a])[1..] == [];
      assert IsRun(Next(c, a), [], Next(c, a));
    } else {
      assert (actions + [a])[1..] == actions[1..] + [a];
      RunSnoc(Next(b, actions[0]), actions[1..], c, a);
    }
  }

  lemma ReachableStep(b: Bridge, a: Action)
    requires Reachable(b) && Enabled(b, a)
    ensures Reachable(Next(b, a))
  {
    var actions :| IsRun(IDLE, actions, b);
    RunSnoc(IDLE, actions, b, a);
  }

  /** Such a run: the call for the first sink gives up, and the call for the second is told of
      the first one's node as if it were its own. */
  lemma ShiftHappens(first: string, second: string, id: nat) returns (b: Bridge)
    ensures Reachable(b) && b.calls == [CreateSink(first), CreateSink(second)]
    ensures b.endings == [TimedOut, Got(0)] && b.emitted == [NodeCreated(id, first)]
    ensures Interpret(b.calls[1], b.emitted[b.endings[1].k]) == Node(id, first)
  {
    assert IsRun(IDLE, [], IDLE);
    b := IDLE;
    ReachableStep(b, Call(CreateSink(first)));
    b := Next(b, Call(CreateSink(first)));
    ReachableStep(b, TimeOut);
    b := Next(b, TimeOut);
    ReachableStep(b, Call(CreateSink(second)));
    b := Next(b, Call(CreateSink(second)));
    ReachableStep(b, Process(Granted(id)));
    b := Next(b, Process(Granted(id)));
    TimeoutsSnoc([], TimedOut);
    assert [] + [TimedOut] == [TimedOut];
    ReachableStep(b, Receive);
    b := Next(b, Receive);
  }

  // ---- Ending the thread ------------------------------------------------------------------

  function Processed(b: Bridge, outcomes: seq<CoreOutcome>): Bridge
    requires !b.dead && |outcomes| <= |b.inbox|
    decreases |outcomes|
  {
    if outcomes == [] then b else Processed(Next(b, Process(outcomes[0])), outcomes[1..])
  }

  lemma {:induction false} ProcessedReaches(b: Bridge, outcomes: seq<CoreOutcome>, k: nat)
    requires !b.dead && |outcomes| == |b.inbox| && k < |b.inbox| && b.inbox[k] == Shutdown
    ensures Processed(b, outcomes).inbox == [] && Processed(b, outcomes).quitting && !Processed(b, outcomes).dead
    decreases |outcomes|
  {
    var t := Next(b, Process(outcomes[0]));
    if k > 0 {
      ProcessedReaches(t, outcomes[1..], k - 1);
    } else {
      StaysQuitting(t, outcomes[1..]);
    }
  }

  lemma {:induction false} StaysQuitting(b: Bridge, outcomes: seq<CoreOutcome>)
    requires !b.dead && b.quitting && |outcomes| == |b.inbox|
    ensures Processed(b, outcomes).inbox == [] && Processed(b, outcomes).quitting && !Processed(b, outcomes).dead
    decreases |outcomes|
  {
    if outcomes != [] { StaysQuitting(Next(b, Process(outcomes[0])), outcomes[1..]); }
  }

  /** Asked to shut down, the thread answers what was asked before, and then can end. */
  lemma ShutdownIsObeyed(b: Bridge, outcomes: seq<CoreOutcome>)
    requires Enabled(b, AskShutdown) && |outcomes| == |b.inbox| + 1
    ensures var t := Processed(Next(b, AskShutdown), outcomes); Enabled(t, Exit) && Next(t, Exit).dead
  {
    ProcessedReaches(Next(b, AskShutdown), outcomes, |b.inbox|);
  }

  /** A node made in one call can be set in the next, and once destroyed no more. */
  lemma CallsSeeEarlierOnes(name: string, id: nat, volume: real) returns (b: Bridge)
    ensures Reachable(b) && b.calls == [CreateSink(name), SetNodeVolume(id, volume)]
    ensures b.emitted == [NodeCreated(id, name), VolumeSet(id)]
    ensures b.proxies.nodes == map[id := Fader(volume, false)]
  {
    assert IsRun(IDLE, [], IDLE);
    b := IDLE;
    ReachableStep(b, Call(CreateSink(name)));
    b := Next(b, Call(CreateSink(name)));
    ReachableStep(b, Process(Granted(id)));
    b := Next(b, Process(Granted(id)));
    assert Taken([]) == 0;
    ReachableStep(b, Receive);
    b := Next(b, Receive);
    ReachableStep(b, Call(SetNodeVolume(id, volume)));
    b := Next(b, Call(SetNodeVolume(id, volume)));
    ReachableStep(b, Process(Granted(id)));
    b := Next(b, Process(Granted(id)));
  }

  lemma DestroyedNodeIsGone(p: Proxies, id: nat, o: CoreOutcome)
    ensures Reply(p, DestroyNode(id), o) == NodeDestroyed(id) <==> id in p.nodes
    ensures Effect(p, DestroyNode(id), o) == Proxies(p.nodes - {id}, p.links)
  {
  }
}
