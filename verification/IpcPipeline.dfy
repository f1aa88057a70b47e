/** All handlers, the shared request queue, and the daemon's request arm. */
module IpcPipeline {
  import opened Prelude
  import opened IpcHandler

  const REQUEST_QUEUE: nat := 64
  const RESPONSE_QUEUE: nat := 16

  /** A connection: what its peer sent and is not read yet, whether the peer closed
      its side, its handler, and its bounded response queue. */
  datatype Client = Client(unread: seq<Line>, closed: bool, h: Handler, responses: seq<Response>)

  datatype Ticket = Ticket(client: nat, request: Request)
  datatype Reply = Reply(client: nat, response: Response)

  /** `main` is the reply the daemon is trying to hand over. */
  datatype System = System(clients: seq<Client>, requests: seq<Ticket>, main: Option<Reply>)

  const INIT := System([], [], None)

  datatype Action =
    | Connect
    | Send(c: nat, line: Line)
    | Close(c: nat)
    | Event(c: nat, event: string, delivery: Delivery)
    | Read(c: nat)
    | ReadFails(c: nat)
    | Enqueue(c: nat)
    | Take(body: string)
    | HandOver
    | Answer(c: nat, delivery: Delivery)

  /** Steps the daemon takes by itself once nobody sends anything. */
  predicate Internal(a: Action) {
    a.Read? || a.ReadFails? || a.Enqueue? || a.Take? || a.HandOver? || a.Answer?
  }

  function NextArm(cl: Client): Arm {
    if cl.unread == [] then ReadEof else ReadLine(cl.unread[0])
  }

  predicate Enabled(s: System, a: Action) {
    match a
    case Connect => true
    case Send(c, _) => c < |s.clients| && !s.clients[c].closed
    case Close(c) => c < |s.clients| && !s.clients[c].closed
    case Event(c, e, d) => c < |s.clients| && Ready(s.clients[c].h, Forward(e, d))
    case Read(c) =>
      && c < |s.clients|
      && (s.clients[c].unread != [] || s.clients[c].closed)
      && Ready(s.clients[c].h, NextArm(s.clients[c]))
    case ReadFails(c) => c < |s.clients| && Ready(s.clients[c].h, ReadError)
    case Enqueue(c) => c < |s.clients| && Ready(s.clients[c].h, Enqueued) && |s.requests| < REQUEST_QUEUE
    case Take(_) => s.main.None? && s.requests != []
    case HandOver =>
      && s.main.Some?
      && var c := s.main.value.client;
      && c < |s.clients|
      && (s.clients[c].h.status != Serving || |s.clients[c].responses| < RESPONSE_QUEUE)
    case Answer(c, d) =>
      && c < |s.clients|
      && s.clients[c].responses != []
      && Ready(s.clients[c].h, Deliver(s.clients[c].responses[0], d))
  }

  /** A handler that stops drops its receiver, and with it the queued responses. */
  function Settle(cl: Client): Client {
    if cl.h.status == Serving then cl else cl.(responses := [])
  }

  function TakeTurn(s: System, c: nat, arm: Arm): System
    requires c < |s.clients| && Ready(s.clients[c].h, arm)
  {
    s.(clients := s.clients[c := Settle(s.clients[c].(h := Turn(s.clients[c].h, arm)))])
  }

  function Next(s: System, a: Action): System
    requires Enabled(s, a)
  {
    match a
    case Connect => s.(clients := s.clients + [Client([], false, FRESH, [])])
    case Send(c, line) => s.(clients := s.clients[c := s.clients[c].(unread := s.clients[c].unread + [line])])
    case Close(c) => s.(clients := s.clients[c := s.clients[c].(closed := true)])
    case Event(c, e, d) => TakeTurn(s, c, Forward(e, d))
    case Read(c) =>
      var cl := s.clients[c];
      var t := TakeTurn(s, c, NextArm(cl));
      if cl.unread == [] then t else t.(clients := t.clients[c := t.clients[c].(unread := cl.unread[1..])])
    case ReadFails(c) => TakeTurn(s, c, ReadError)
    case Enqueue(c) =>
      TakeTurn(s, c, Enqueued).(requests := s.requests + [Ticket(c, s.clients[c].h.held.value)])
    case Take(body) =>
      var t := s.requests[0];
      s.(requests := s.requests[1..], main := Some(Reply(t.client, Response(t.request.id, body))))
    case HandOver =>
      var Reply(c, r) := s.main.value;
      if s.clients[c].h.status != Serving then s.(main := None)
      else s.(main := None, clients := s.clients[c := s.clients[c].(responses := s.clients[c].responses + [r])])
    case Answer(c, d) =>
      var cl := s.clients[c];
      TakeTurn(s.(clients := s.clients[c := cl.(responses := cl.responses[1..])]), c, Deliver(cl.responses[0], d))
  }

  predicate Legal(s: System, actions: seq<Action>)
    decreases |actions|
  {
    actions == [] || (Enabled(s, actions[0]) && Legal(Next(s, actions[0]), actions[1..]))
  }

  function Run(s: System, actions: seq<Action>): System
    requires Legal(s, actions)
    decreases |actions|
  {
    if actions == [] then s else Run(Next(s, actions[0]), actions[1..])
  }

  ghost predicate Reachable(s: System) {
    exists actions :: Legal(INIT, actions) && Run(INIT, actions) == s
  }

  // ---- Where a client's requests are ------------------------------------

  function QueuedIds(requests: seq<Ticket>, c: nat): seq<nat> {
    if requests == [] then []
    else OwnId(requests[0], c) + QueuedIds(requests[1..], c)
  }

  function MainIds(main: Option<Reply>, c: nat): seq<nat> {
    if main.Some? && main.value.client == c then [main.value.response.id] else []
  }

  function HeldIds(h: Handler): seq<nat> {
    if h.held.Some? then [h.held.value.id] else []
  }

  /** Ids of client `c` still under way, oldest first. */
  function InFlight(s: System, c: nat): seq<nat>
    requires c < |s.clients|
  {
    ResponseIds(s.clients[c].responses) + Upstream(s, c)
  }

  /** The part of `InFlight` the client's response queue has not seen yet. */
  function Upstream(s: System, c: nat): seq<nat>
    requires c < |s.clients|
  {
    MainIds(s.main, c) + QueuedIds(s.requests, c) + HeldIds(s.clients[c].h)
  }

  function OwnId(t: Ticket, c: nat): seq<nat> {
    if t.client == c then [t.request.id] else []
  }

  lemma {:induction false} QueuedSnoc(requests: seq<Ticket>, t: Ticket, c: nat)
    ensures QueuedIds(requests + [t], c) == QueuedIds(requests, c) + OwnId(t, c)
  {
    if requests == [] {
      assert requests + [t] == [t] && [t][1..] == [];
    } else {
      var head, rest := OwnId(requests[0], c), requests[1..];
      assert (requests + [t])[1..] == rest + [t];
      QueuedSnoc(rest, t, c);
      assert head + (QueuedIds(rest, c) + OwnId(t, c)) == (head + QueuedIds(rest, c)) + OwnId(t, c);
    }
  }

  ghost predicate ClientInv(s: System, c: nat)
    requires c < |s.clients|
  {
    var cl := s.clients[c];
    && (cl.h.status != Aborted ==>
          && Consistent(cl.h)
          && RequestIds(cl.h.accepted) == Answered(cl.h.log) + InFlight(s, c))
    && Answered(cl.h.log) <= RequestIds(cl.h.accepted)
    && |cl.responses| <= RESPONSE_QUEUE
    && (cl.h.status != Serving ==> cl.responses == [] && cl.h.held.None?)
    && (cl.h.eof ==> cl.unread == [] && cl.closed)
  }

  ghost predicate Inv(s: System) {
    && |s.requests| <= REQUEST_QUEUE
    && (forall i :: 0 <= i < |s.requests| ==> s.requests[i].client < |s.clients|)
    && (s.main.Some? ==> s.main.value.client < |s.clients|)
    && (forall c :: 0 <= c < |s.clients| ==> ClientInv(s, c))
  }

  lemma QueuedHead(requests: seq<Ticket>, c: nat)
    requires requests != []
    ensures QueuedIds(requests, c)
         == OwnId(requests[0], c) + QueuedIds(requests[1..], c)
  {
  }

  /** Untouched clients: their view only depends on what concerns them. */
  lemma OthersKeep(s: System, t: System, c: nat)
    requires c < |s.clients| && c < |t.clients| && ClientInv(s, c)
    requires t.clients[c] == s.clients[c]
    requires MainIds(s.main, c) + QueuedIds(s.requests, c) == MainIds(t.main, c) + QueuedIds(t.requests, c)
    ensures ClientInv(t, c)
  {
    var cl := s.clients[c];
    assert Upstream(s, c) == (MainIds(s.main, c) + QueuedIds(s.requests, c)) + HeldIds(cl.h);
    assert Upstream(t, c) == (MainIds(t.main, c) + QueuedIds(t.requests, c)) + HeldIds(cl.h);
  }

  lemma ReadRequestKeeps(s: System, c: nat, r: Request)
    requires Enabled(s, Read(c)) && ClientInv(s, c)
    requires s.clients[c].unread != [] && s.clients[c].unread[0] == Valid(r)
    ensures ClientInv(Next(s, Read(c)), c)
  {
    var t, cl := Next(s, Read(c)), s.clients[c];
    TurnKeepsConsistent(cl.h, NextArm(cl));
    assert RequestIds(cl.h.accepted + [r]) == RequestIds(cl.h.accepted) + [r.id];
    assert InFlight(t, c) == InFlight(s, c) + [r.id];
  }

  lemma ReadMalformedKeeps(s: System, c: nat)
    requires Enabled(s, Read(c)) && ClientInv(s, c)
    requires s.clients[c].unread != [] && s.clients[c].unread[0] == Malformed
    ensures ClientInv(Next(s, Read(c)), c)
  {
    var t, cl := Next(s, Read(c)), s.clients[c];
    assert t.clients[c] == cl.(unread := cl.unread[1..]);
    assert InFlight(t, c) == InFlight(s, c);
  }

  lemma ReadEofKeeps(s: System, c: nat)
    requires Enabled(s, Read(c)) && ClientInv(s, c) && s.clients[c].unread == []
    ensures ClientInv(Next(s, Read(c)), c)
  {
    var t, cl := Next(s, Read(c)), s.clients[c];
    TurnKeepsConsistent(cl.h, ReadEof);
    assert |RequestIds(cl.h.accepted)| == |Answered(cl.h.log)| + |InFlight(s, c)|;
    assert Upstream(t, c) == Upstream(s, c);
    assert cl.h.pending == 0 ==> ResponseIds(cl.responses) == [];
    assert InFlight(t, c) == InFlight(s, c);
  }

  lemma ReadKeeps(s: System, c: nat)
    requires Enabled(s, Read(c)) && ClientInv(s, c)
    ensures ClientInv(Next(s, Read(c)), c)
  {
    var unread := s.clients[c].unread;
    if unread == [] {
      ReadEofKeeps(s, c);
    } else {
      match unread[0]
      case Valid(r) => ReadRequestKeeps(s, c, r);
      case Malformed => ReadMalformedKeeps(s, c);
    }
  }

  lemma EnqueueKeeps(s: System, c: nat)
    requires Enabled(s, Enqueue(c)) && ClientInv(s, c)
    ensures ClientInv(Next(s, Enqueue(c)), c)
  {
    var t, cl := Next(s, Enqueue(c)), s.clients[c];
    TurnKeepsConsistent(cl.h, Enqueued);
    QueuedSnoc(s.requests, Ticket(c, cl.h.held.value), c);
    assert InFlight(t, c) == InFlight(s, c);
  }

  lemma TakeKeeps(s: System, content: string, c: nat)
    requires Enabled(s, Take(content)) && c < |s.clients| && ClientInv(s, c)
    ensures ClientInv(Next(s, Take(content)), c)
  {
    QueuedHead(s.requests, c);
    OthersKeep(s, Next(s, Take(content)), c);
  }

  /** A handler leaves only when nothing of its client is under way anywhere. */
  lemma NothingLeftBehind(s: System, c: nat)
    requires c < |s.clients| && ClientInv(s, c) && s.clients[c].h.status == Left
    ensures InFlight(s, c) == []
  {
    assert |RequestIds(s.clients[c].h.accepted)| == |Answered(s.clients[c].h.log)| + |InFlight(s, c)|;
  }

  lemma HandOverKeeps(s: System, c: nat)
    requires Enabled(s, HandOver) && c < |s.clients| && ClientInv(s, c)
    ensures ClientInv(Next(s, HandOver), c)
  {
    var t := Next(s, HandOver);
    var Reply(d, r) := s.main.value;
    var cl := s.clients[c];
    if d != c {
      OthersKeep(s, t, c);
    } else if cl.h.status == Serving {
      assert ResponseIds(cl.responses + [r]) == ResponseIds(cl.responses) + [r.id];
      assert InFlight(t, c) == InFlight(s, c);
    } else if cl.h.status == Left {
      NothingLeftBehind(s, c);
      assert false;
    }
  }

  lemma OldestFirst(s: System, c: nat)
    requires c < |s.clients| && ClientInv(s, c) && s.clients[c].responses != []
    requires s.clients[c].h.status == Serving
    ensures var cl := s.clients[c];
      && InFlight(s, c) == [cl.responses[0].id] + InFlight(s, c)[1..]
      && cl.h.pending == |InFlight(s, c)|
      && RequestIds(cl.h.accepted) == (Answered(cl.h.log) + [cl.responses[0].id]) + InFlight(s, c)[1..]
  {
    var cl := s.clients[c];
    assert InFlight(s, c)[0] == cl.responses[0].id;
    assert |RequestIds(cl.h.accepted)| == |Answered(cl.h.log)| + |InFlight(s, c)|;
  }

  lemma AnswerAdvances(s: System, c: nat, d: Delivery)
    requires Enabled(s, Answer(c, d)) && d != WriteFailed && ClientInv(s, c)
    ensures var t := Next(s, Answer(c, d));
      && |t.clients[c].responses| <= RESPONSE_QUEUE
      && InFlight(t, c) == InFlight(s, c)[1..]
  {
    var t, cl := Next(s, Answer(c, d)), s.clients[c];
    OldestFirst(s, c);
    assert ResponseIds(cl.responses)[1..] == ResponseIds(cl.responses[1..]);
    assert Upstream(t, c) == Upstream(s, c);
    if t.clients[c].h.status == Left {
      assert |InFlight(s, c)| == 1;
      assert t.clients[c].responses == cl.responses[1..];
    }
  }

  lemma AnswerKeeps(s: System, c: nat, d: Delivery)
    requires Enabled(s, Answer(c, d)) && ClientInv(s, c)
    ensures ClientInv(Next(s, Answer(c, d)), c)
  {
    var t, cl := Next(s, Answer(c, d)), s.clients[c];
    var r := cl.responses[0];
    OldestFirst(s, c);
    TurnKeepsConsistent(cl.h, Deliver(r, d));
    if d != WriteFailed {
      AnswerAdvances(s, c, d);
      AnsweredSnoc(cl.h.log, if d == Sent then Wrote(r) else Lost(r));
      assert t.clients[c].h == Turn(cl.h, Deliver(r, d));
    }
  }

  lemma EventKeeps(s: System, c: nat, e: string, d: Delivery)
    requires Enabled(s, Event(c, e, d)) && ClientInv(s, c)
    ensures ClientInv(Next(s, Event(c, e, d)), c)
  {
    var t, cl := Next(s, Event(c, e, d)), s.clients[c];
    TurnKeepsConsistent(cl.h, Forward(e, d));
    if d == Sent {
      AnsweredSnoc(cl.h.log, Forwarded(e));
      assert InFlight(t, c) == InFlight(s, c);
    }
  }

  /** The client a step is about; the daemon's own steps are about all of them. */
  predicate Concerns(a: Action, c: nat) {
    match a
    case Connect => false
    case Send(d, _) => c == d
    case Close(d) => c == d
    case Event(d, _, _) => c == d
    case Read(d) => c == d
    case ReadFails(d) => c == d
    case Enqueue(d) => c == d
    case Answer(d, _) => c == d
    case Take(_) => true
    case HandOver => true
  }

  lemma OwnStepKeeps(s: System, a: Action, c: nat)
    requires Enabled(s, a) && c < |s.clients| && Concerns(a, c) && ClientInv(s, c)
    ensures ClientInv(Next(s, a), c)
  {
    match a
    case Take(body) => TakeKeeps(s, body, c);
    case HandOver => HandOverKeeps(s, c);
    case Enqueue(_) => EnqueueKeeps(s, c);
    case Read(_) => ReadKeeps(s, c);
    case Answer(_, how) => AnswerKeeps(s, c, how);
    case Event(_, e, how) => EventKeeps(s, c, e, how);
    case ReadFails(_) =>
    case Send(_, _) => assert InFlight(Next(s, a), c) == InFlight(s, c);
    case Close(_) => assert InFlight(Next(s, a), c) == InFlight(s, c);
  }

  lemma OthersStepKeeps(s: System, a: Action, c: nat)
    requires Enabled(s, a) && c < |s.clients| && !Concerns(a, c) && ClientInv(s, c)
    ensures ClientInv(Next(s, a), c)
  {
    var t := Next(s, a);
    assert t.clients[c] == s.clients[c] && t.main == s.main;
    if a.Enqueue? { QueuedSnoc(s.requests, Ticket(a.c, s.clients[a.c].h.held.value), c); }
    OthersKeep(s, t, c);
  }

  /** Every step of every party keeps the invariant. */
  lemma StepKeeps(s: System, a: Action)
    requires Inv(s) && Enabled(s, a)
    ensures Inv(Next(s, a))
  {
    var t := Next(s, a);
    forall c | 0 <= c < |t.clients| ensures ClientInv(t, c) {
      if c == |s.clients| {
        NoTickets(s.requests, c);
        assert InFlight(t, c) == [];
      } else if Concerns(a, c) {
        assert ClientInv(s, c);
        OwnStepKeeps(s, a, c);
      } else {
        assert ClientInv(s, c);
        OthersStepKeeps(s, a, c);
      }
    }
  }

  lemma {:induction false} NoTickets(requests: seq<Ticket>, c: nat)
    requires forall i :: 0 <= i < |requests| ==> requests[i].client < c
    ensures QueuedIds(requests, c) == []
  {
    if requests != [] { NoTickets(requests[1..], c); }
  }

  lemma {:induction false} RunKeeps(s: System, actions: seq<Action>)
    requires Inv(s) && Legal(s, actions)
    ensures Inv(Run(s, actions))
    decreases |actions|
  {
    if actions != [] {
      StepKeeps(s, actions[0]);
      RunKeeps(Next(s, actions[0]), actions[1..]);
    }
  }

  lemma ReachableInv(s: System)
    requires Reachable(s)
    ensures Inv(s)
  {
    var actions :| Legal(INIT, actions) && Run(INIT, actions) == s;
    RunKeeps(INIT, actions);
  }
}
