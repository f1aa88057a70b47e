/** What reaches whom: a client's lines, requests, responses and events over a whole run. */
module IpcHistory {
  import opened Prelude
  import opened IpcHandler
  import opened IpcPipeline
  import opened IpcGuarantees

  // ---- What ends a handler ------------------------------------------------------------------

  predicate Fails(arm: Arm) {
    match arm
    case ReadError => true
    case Deliver(_, delivery) => delivery == WriteFailed
    case Forward(_, delivery) => delivery == WriteFailed
    case _ => false
  }

  /** An error of the socket, and nothing else, makes a handler give up. */
  lemma AbortsExactlyWhen(h: Handler, arm: Arm)
    requires Ready(h, arm)
    ensures Turn(h, arm).status == Aborted <==> Fails(arm)
  {
  }

  /** A line that is no request is skipped without a trace. */
  lemma MalformedIsSkipped(h: Handler)
    requires Ready(h, ReadLine(Malformed))
    ensures Turn(h, ReadLine(Malformed)) == h
  {
  }

  /** While it waits for room in the request queue a handler does nothing else, and once its client
      has closed its side it reads nothing and forwards nothing any more. */
  lemma WhatAHandlerWaitsFor(h: Handler, arm: Arm)
    requires Ready(h, arm)
    ensures h.held.Some? <==> arm == Enqueued
    ensures h.eof ==> arm == Enqueued || arm.Deliver?
  {
  }

  predicate IsAborted(s: System, c: nat) {
    c < |s.clients| && s.clients[c].h.status == Aborted
  }

  /** The socket of client `c` fails in this step. */
  predicate FailsFor(a: Action, c: nat) {
    match a
    case ReadFails(d) => d == c
    case Answer(d, delivery) => d == c && delivery == WriteFailed
    case Event(d, _, delivery) => d == c && delivery == WriteFailed
    case _ => false
  }

  lemma StepAborts(s: System, a: Action, c: nat)
    requires Enabled(s, a)
    ensures IsAborted(Next(s, a), c) <==> IsAborted(s, c) || FailsFor(a, c)
  {
  }

  predicate SomeFailure(actions: seq<Action>, c: nat) {
    exists i :: 0 <= i < |actions| && FailsFor(actions[i], c)
  }

  /** Over every run a handler has given up exactly when its client's socket failed. */
  lemma {:induction false} AbortedExactlyWhen(s: System, actions: seq<Action>, c: nat)
    requires Legal(s, actions)
    ensures IsAborted(Run(s, actions), c) <==> IsAborted(s, c) || SomeFailure(actions, c)
    decreases |actions|
  {
    if actions != [] {
      var a, rest := actions[0], actions[1..];
      StepAborts(s, a, c);
      AbortedExactlyWhen(Next(s, a), rest, c);
      assert SomeFailure(actions, c) <==> FailsFor(a, c) || SomeFailure(rest, c) by {
        if SomeFailure(rest, c) {
          var i :| 0 <= i < |rest| && FailsFor(rest[i], c);
          assert actions[i + 1] == rest[i];
        }
      }
    }
  }

  // ---- What a run does for one client ---------------------------------------------------------

  /** Of one client: the lines it sent, the requests the daemon took, the responses it made of
      them, and the events written to it. */
  datatype Track = Track(sent: seq<Line>, taken: seq<Request>, made: seq<Response>, events: seq<string>)

  const NOTHING := Track([], [], [], [])

  function Note(t: Track, s: System, a: Action, c: nat): Track
    requires Enabled(s, a)
  {
    match a
    case Send(d, line) => if d == c then t.(sent := t.sent + [line]) else t
    case Event(d, e, Sent) => if d == c then t.(events := t.events + [e]) else t
    case Take(body) =>
      var ticket := s.requests[0];
      if ticket.client == c then
        t.(taken := t.taken + [ticket.request], made := t.made + [Response(ticket.request.id, body)])
      else t
    case _ => t
  }

  function Tracked(t: Track, s: System, actions: seq<Action>, c: nat): Track
    requires Legal(s, actions)
    decreases |actions|
  {
    if actions == [] then t else Tracked(Note(t, s, actions[0], c), Next(s, actions[0]), actions[1..], c)
  }

  function Requests(lines: seq<Line>): seq<Request> {
    if lines == [] then []
    else Requests(lines[..|lines| - 1]) + (if lines[|lines| - 1].Valid? then [lines[|lines| - 1].request] else [])
  }

  function QueuedRequests(tickets: seq<Ticket>, c: nat): seq<Request> {
    if tickets == [] then []
    else OwnRequest(tickets[0], c) + QueuedRequests(tickets[1..], c)
  }

  function HeldRequest(h: Handler): seq<Request> {
    if h.held.Some? then [h.held.value] else []
  }

  function MainResponse(main: Option<Reply>, c: nat): seq<Response> {
    if main.Some? && main.value.client == c then [main.value.response] else []
  }

  /** The responses a handler has written or lost, in order. */
  function DealtWith(log: seq<Output>): seq<Response> {
    if log == [] then []
    else
      var last := log[|log| - 1];
      DealtWith(log[..|log| - 1]) + (if last.Forwarded? then [] else [last.response])
  }

  function ForwardedEvents(log: seq<Output>): seq<string> {
    if log == [] then []
    else
      var last := log[|log| - 1];
      ForwardedEvents(log[..|log| - 1]) + (if last.Forwarded? then [last.event] else [])
  }

  lemma LogSnoc(log: seq<Output>, o: Output)
    ensures DealtWith(log + [o]) == DealtWith(log) + (if o.Forwarded? then [] else [o.response])
    ensures ForwardedEvents(log + [o]) == ForwardedEvents(log) + (if o.Forwarded? then [o.event] else [])
  {
    assert (log + [o])[..|log|] == log;
  }

  lemma {:induction false} RequestsConcat(xs: seq<Line>, ys: seq<Line>)
    ensures Requests(xs + ys) == Requests(xs) + Requests(ys)
    decreases |ys|
  {
    if ys == [] {
      assert xs + ys == xs;
    } else {
      assert (xs + ys)[..|xs + ys| - 1] == xs + ys[..|ys| - 1];
      RequestsConcat(xs, ys[..|ys| - 1]);
    }
  }

  lemma RequestsOfOne(line: Line)
    ensures Requests([line]) == if line.Valid? then [line.request] else []
  {
    assert [line][..0] == [];
  }

  function OwnRequest(t: Ticket, c: nat): seq<Request> {
    if t.client == c then [t.request] else []
  }

  lemma {:induction false} QueuedRequestsSnoc(tickets: seq<Ticket>, t: Ticket, c: nat)
    ensures QueuedRequests(tickets + [t], c) == QueuedRequests(tickets, c) + OwnRequest(t, c)
  {
    if tickets == [] {
      assert tickets + [t] == [t] && [t][1..] == [];
    } else {
      var head, rest := OwnRequest(tickets[0], c), tickets[1..];
      assert (tickets + [t])[1..] == rest + [t];
      QueuedRequestsSnoc(rest, t, c);
      Associates(head, QueuedRequests(rest, c), OwnRequest(t, c));
    }
  }

  lemma Associates<T>(xs: seq<T>, ys: seq<T>, zs: seq<T>)
    ensures xs + (ys + zs) == (xs + ys) + zs
  {
  }

  lemma {:induction false} NoneQueued(tickets: seq<Ticket>, c: nat)
    requires forall i :: 0 <= i < |tickets| ==> tickets[i].client < c
    ensures QueuedRequests(tickets, c) == []
  {
    if tickets != [] { NoneQueued(tickets[1..], c); }
  }

  // ---- The way in -------------------------------------------------------------------------------

  /** Every request sent is accepted or still unread, every request accepted was taken by the
      daemon, is queued or held - whole and in order, whatever becomes of the handler. */
  predicate InboundOk(s: System, t: Track, c: nat)
    requires c < |s.clients|
  {
    Inbound(s.clients[c].h.accepted, s.clients[c].unread, t.sent, t.taken, QueuedRequests(s.requests, c), HeldRequest(s.clients[c].h))
  }

  predicate Inbound(accepted: seq<Request>, unread: seq<Line>, sent: seq<Line>, taken: seq<Request>,
      queued: seq<Request>, held: seq<Request>)
  {
    accepted + Requests(unread) == Requests(sent) && accepted == taken + queued + held
  }

  lemma ReadOne(accepted: seq<Request>, unread: seq<Line>, sent: seq<Line>, taken: seq<Request>, queued: seq<Request>)
    requires unread != [] && Inbound(accepted, unread, sent, taken, queued, [])
    ensures unread[0].Valid? ==>
      Inbound(accepted + [unread[0].request], unread[1..], sent, taken, queued, [unread[0].request])
    ensures unread[0].Malformed? ==> Inbound(accepted, unread[1..], sent, taken, queued, [])
  {
    var line, rest := unread[0], unread[1..];
    assert unread == [line] + rest;
    RequestsConcat([line], rest);
    RequestsOfOne(line);
    Associates(accepted, Requests([line]), Requests(rest));
    if line.Malformed? { assert accepted + [] == accepted; }
  }

  lemma ReadFacts(s: System, c: nat)
    requires Enabled(s, Read(c))
    ensures var cl, dl := s.clients[c], Next(s, Read(c)).clients[c];
      && Next(s, Read(c)).requests == s.requests && cl.h.held.None?
      && if cl.unread == [] then dl.unread == [] && dl.h.accepted == cl.h.accepted && dl.h.held.None?
         else
           && dl.unread == cl.unread[1..]
           && match cl.unread[0]
              case Valid(r) => dl.h.accepted == cl.h.accepted + [r] && dl.h.held == Some(r)
              case Malformed => dl.h.accepted == cl.h.accepted && dl.h.held.None?
  {
  }

  lemma ReadInbound(s: System, t: Track, c: nat)
    requires Enabled(s, Read(c)) && InboundOk(s, t, c)
    ensures InboundOk(Next(s, Read(c)), t, c)
  {
    var cl := s.clients[c];
    ReadFacts(s, c);
    if cl.unread != [] { ReadOne(cl.h.accepted, cl.unread, t.sent, t.taken, QueuedRequests(s.requests, c)); }
  }

  lemma EnqueueFacts(s: System, c: nat)
    requires Enabled(s, Enqueue(c))
    ensures var cl, dl := s.clients[c], Next(s, Enqueue(c)).clients[c];
      && cl.h.held.Some? && dl.unread == cl.unread && dl.h.accepted == cl.h.accepted && dl.h.held.None?
      && Next(s, Enqueue(c)).requests == s.requests + [Ticket(c, cl.h.held.value)]
  {
  }

  lemma EnqueueInbound(s: System, t: Track, c: nat)
    requires Enabled(s, Enqueue(c)) && InboundOk(s, t, c)
    ensures InboundOk(Next(s, Enqueue(c)), t, c)
  {
    var r := s.clients[c].h.held.value;
    EnqueueFacts(s, c);
    QueuedRequestsSnoc(s.requests, Ticket(c, r), c);
    Associates(t.taken, QueuedRequests(s.requests, c), [r]);
    assert t.taken + (QueuedRequests(s.requests, c) + [r]) + [] == t.taken + (QueuedRequests(s.requests, c) + [r]);
  }

  lemma SendInbound(s: System, t: Track, line: Line, c: nat)
    requires Enabled(s, Send(c, line)) && InboundOk(s, t, c)
    ensures InboundOk(Next(s, Send(c, line)), t.(sent := t.sent + [line]), c)
  {
    var cl := s.clients[c];
    RequestsConcat(cl.unread, [line]);
    RequestsConcat(t.sent, [line]);
    Associates(cl.h.accepted, Requests(cl.unread), Requests([line]));
  }

  lemma TakeInbound(s: System, t: Track, body: string, c: nat)
    requires c < |s.clients| && Enabled(s, Take(body)) && InboundOk(s, t, c)
    ensures InboundOk(Next(s, Take(body)), Note(t, s, Take(body), c), c)
  {
    var own, rest := OwnRequest(s.requests[0], c), QueuedRequests(s.requests[1..], c);
    Associates(t.taken, own, rest);
    assert t.taken + [] == t.taken;
  }

  /** Neither reads, queues nor takes anything of client `c`. */
  predicate LeavesInbound(a: Action, c: nat) {
    match a
    case Take(_) => false
    case Send(d, _) => d != c
    case Read(d) => d != c
    case Enqueue(d) => d != c
    case _ => true
  }

  lemma QuietFacts(s: System, a: Action, c: nat)
    requires c < |s.clients| && Enabled(s, a) && LeavesInbound(a, c)
    ensures var cl, dl := s.clients[c], Next(s, a).clients[c];
      dl.unread == cl.unread && dl.h.accepted == cl.h.accepted && dl.h.held == cl.h.held
    ensures if a.Enqueue? then Next(s, a).requests == s.requests + [Ticket(a.c, s.clients[a.c].h.held.value)]
      else Next(s, a).requests == s.requests
  {
  }

  lemma QuietNote(s: System, t: Track, a: Action, c: nat)
    requires Enabled(s, a) && LeavesInbound(a, c)
    ensures Note(t, s, a, c).sent == t.sent && Note(t, s, a, c).taken == t.taken
  {
  }

  lemma QuietInbound(s: System, t: Track, a: Action, c: nat)
    requires c < |s.clients| && Enabled(s, a) && LeavesInbound(a, c) && InboundOk(s, t, c)
    ensures InboundOk(Next(s, a), Note(t, s, a, c), c)
  {
    QuietFacts(s, a, c);
    QuietNote(s, t, a, c);
    if a.Enqueue? {
      QueuedRequestsSnoc(s.requests, Ticket(a.c, s.clients[a.c].h.held.value), c);
      assert QueuedRequests(s.requests, c) + [] == QueuedRequests(s.requests, c);
    }
  }

  lemma StepKeepsInbound(s: System, t: Track, a: Action, c: nat)
    requires c < |s.clients| && Enabled(s, a) && InboundOk(s, t, c)
    ensures InboundOk(Next(s, a), Note(t, s, a, c), c)
  {
    if LeavesInbound(a, c) {
      QuietInbound(s, t, a, c);
    } else {
      match a
      case Take(body) => TakeInbound(s, t, body, c);
      case Send(_, line) => SendInbound(s, t, line, c);
      case Read(_) => ReadInbound(s, t, c);
      case Enqueue(_) => EnqueueInbound(s, t, c);
    }
  }

  // ---- The way out ------------------------------------------------------------------------------

  /** Every response made was dealt with, is queued or in the daemon's hand - whole and in order -
      unless the handler gave up; and the events written are those forwarded. */
  predicate OutboundOk(s: System, t: Track, c: nat)
    requires c < |s.clients|
  {
    var cl := s.clients[c];
    && (cl.h.status != Aborted ==> t.made == DealtWith(cl.h.log) + cl.responses + MainResponse(s.main, c))
    && DealtWith(cl.h.log) <= t.made
    && ForwardedEvents(cl.h.log) == t.events
  }

  /** Dealing with the oldest response takes it from the queue, even when the handler leaves. */
  lemma AnswerFacts(s: System, d: Delivery, c: nat)
    requires Enabled(s, Answer(c, d)) && ClientInv(s, c) && d != WriteFailed
    ensures var u, cl := Next(s, Answer(c, d)), s.clients[c];
      && u.main == s.main && u.clients[c].responses == cl.responses[1..]
      && u.clients[c].h.log == cl.h.log + [if d == Sent then Wrote(cl.responses[0]) else Lost(cl.responses[0])]
  {
    OldestFirst(s, c);
    assert |InFlight(s, c)| >= |s.clients[c].responses|;
  }

  lemma FailedAnswerFacts(s: System, c: nat)
    requires Enabled(s, Answer(c, WriteFailed))
    ensures var u := Next(s, Answer(c, WriteFailed));
      u.clients[c].h.status == Aborted && u.clients[c].h.log == s.clients[c].h.log
  {
  }

  lemma AnswerOutbound(s: System, t: Track, d: Delivery, c: nat)
    requires Enabled(s, Answer(c, d)) && ClientInv(s, c) && OutboundOk(s, t, c)
    ensures OutboundOk(Next(s, Answer(c, d)), t, c)
  {
    var cl := s.clients[c];
    var r, rest := cl.responses[0], cl.responses[1..];
    if d == WriteFailed {
      FailedAnswerFacts(s, c);
    } else {
      AnswerFacts(s, d, c);
      LogSnoc(cl.h.log, if d == Sent then Wrote(r) else Lost(r));
      assert cl.responses == [r] + rest;
      Associates(DealtWith(cl.h.log), [r], rest);
      assert ForwardedEvents(cl.h.log) + [] == ForwardedEvents(cl.h.log);
    }
  }

  lemma HandOverOutbound(s: System, t: Track, c: nat)
    requires c < |s.clients| && Enabled(s, HandOver) && ClientInv(s, c) && OutboundOk(s, t, c)
    ensures OutboundOk(Next(s, HandOver), t, c)
  {
    var Reply(d, r) := s.main.value;
    var cl := s.clients[c];
    if d == c && cl.h.status == Left {
      NothingLeftBehind(s, c);
      assert false;
    } else if d == c && cl.h.status == Serving {
      assert DealtWith(cl.h.log) + cl.responses + [r] == DealtWith(cl.h.log) + (cl.responses + [r]);
    }
  }

  lemma EventOutbound(s: System, t: Track, e: string, d: Delivery, c: nat)
    requires Enabled(s, Event(c, e, d)) && OutboundOk(s, t, c)
    ensures OutboundOk(Next(s, Event(c, e, d)), Note(t, s, Event(c, e, d), c), c)
  {
    if d == Sent { LogSnoc(s.clients[c].h.log, Forwarded(e)); }
  }

  lemma EofOutbound(s: System, t: Track, c: nat)
    requires Enabled(s, Read(c)) && ClientInv(s, c) && OutboundOk(s, t, c)
    ensures OutboundOk(Next(s, Read(c)), t, c)
  {
    var cl := s.clients[c];
    if cl.unread == [] {
      assert |RequestIds(cl.h.accepted)| == |Answered(cl.h.log)| + |InFlight(s, c)|;
      assert cl.h.pending == 0 ==> cl.responses == [];
    }
  }

  lemma TakeOutbound(s: System, t: Track, body: string, c: nat)
    requires c < |s.clients| && Enabled(s, Take(body)) && OutboundOk(s, t, c)
    ensures OutboundOk(Next(s, Take(body)), Note(t, s, Take(body), c), c)
  {
  }

  lemma StepKeepsOutbound(s: System, t: Track, a: Action, c: nat)
    requires c < |s.clients| && Enabled(s, a) && ClientInv(s, c) && OutboundOk(s, t, c)
    ensures OutboundOk(Next(s, a), Note(t, s, a, c), c)
  {
    match a
    case Take(body) => TakeOutbound(s, t, body, c);
    case HandOver => HandOverOutbound(s, t, c);
    case Answer(d, how) => if d == c { AnswerOutbound(s, t, how, c); }
    case Event(d, e, how) => if d == c { EventOutbound(s, t, e, how, c); }
    case Read(d) => if d == c { EofOutbound(s, t, c); }
    case _ =>
  }

  // ---- Over every run -------------------------------------------------------------------------

  ghost predicate TrackOk(s: System, t: Track, c: nat) {
    if c < |s.clients| then InboundOk(s, t, c) && OutboundOk(s, t, c) else t == NOTHING
  }

  lemma StepKeepsTrack(s: System, t: Track, a: Action, c: nat)
    requires Inv(s) && Enabled(s, a) && TrackOk(s, t, c)
    ensures TrackOk(Next(s, a), Note(t, s, a, c), c)
  {
    if c < |s.clients| {
      assert ClientInv(s, c);
      StepKeepsInbound(s, t, a, c);
      StepKeepsOutbound(s, t, a, c);
    } else if a == Connect && c == |s.clients| {
      NoneQueued(s.requests, c);
    }
  }

  lemma {:induction false} RunKeepsTrack(s: System, t: Track, actions: seq<Action>, c: nat)
    requires Inv(s) && Legal(s, actions) && TrackOk(s, t, c)
    ensures Inv(Run(s, actions)) && TrackOk(Run(s, actions), Tracked(t, s, actions, c), c)
    decreases |actions|
  {
    if actions != [] {
      StepKeeps(s, actions[0]);
      StepKeepsTrack(s, t, actions[0], c);
      RunKeepsTrack(Next(s, actions[0]), Note(t, s, actions[0], c), actions[1..], c);
    }
  }

  /** Whatever happens: the requests a client sent are the ones taken by the daemon, queued, held
      and unread, whole and in order; what its handler dealt with are the first responses made of
      those taken; and the events it was written are those forwarded, in order. */
  lemma RequestsAndEventsArrive(actions: seq<Action>, c: nat)
    requires Legal(INIT, actions) && c < |Run(INIT, actions).clients|
    ensures var s, t := Run(INIT, actions), Tracked(NOTHING, INIT, actions, c);
      var cl := s.clients[c];
      && cl.h.accepted + Requests(cl.unread) == Requests(t.sent)
      && cl.h.accepted == t.taken + QueuedRequests(s.requests, c) + HeldRequest(cl.h)
      && DealtWith(cl.h.log) <= t.made
      && ForwardedEvents(cl.h.log) == t.events
  {
    RunKeepsTrack(INIT, NOTHING, actions, c);
  }

  lemma {:induction false} MadeOfTaken(t: Track, s: System, actions: seq<Action>, c: nat)
    requires Legal(s, actions) && ResponseIds(t.made) == RequestIds(t.taken)
    ensures ResponseIds(Tracked(t, s, actions, c).made) == RequestIds(Tracked(t, s, actions, c).taken)
    decreases |actions|
  {
    if actions != [] {
      var u := Note(t, s, actions[0], c);
      assert |ResponseIds(t.made)| == |RequestIds(t.taken)|;
      forall k | 0 <= k < |u.made| ensures |u.made| == |u.taken| && ResponseIds(u.made)[k] == RequestIds(u.taken)[k] {
        if k < |t.made| {
          assert u.made[k] == t.made[k] && u.taken[k] == t.taken[k];
          assert ResponseIds(t.made)[k] == RequestIds(t.taken)[k];
        }
      }
      MadeOfTaken(u, Next(s, actions[0]), actions[1..], c);
    }
  }

  /** While a client's socket works: its handler never gives up, the counter is the number of
      requests under way, and no response is lost on the way to it. */
  lemma WorkingSocket(actions: seq<Action>, c: nat)
    requires Legal(INIT, actions) && c < |Run(INIT, actions).clients| && !SomeFailure(actions, c)
    ensures var s, t := Run(INIT, actions), Tracked(NOTHING, INIT, actions, c);
      var cl := s.clients[c];
      && cl.h.status != Aborted
      && cl.h.pending == Occupied(s, c)
      && RequestIds(cl.h.accepted) == Answered(cl.h.log) + InFlight(s, c)
      && t.made == DealtWith(cl.h.log) + cl.responses + MainResponse(s.main, c)
      && ResponseIds(t.made) == RequestIds(t.taken)
  {
    AbortedExactlyWhen(INIT, actions, c);
    RunKeepsTrack(INIT, NOTHING, actions, c);
    MadeOfTaken(NOTHING, INIT, actions, c);
    PendingCountsInFlight(Run(INIT, actions), c);
  }

  lemma {:induction false} AnsweredIsDealtWith(log: seq<Output>)
    ensures ResponseIds(DealtWith(log)) == Answered(log)
  {
    if log != [] {
      var most, last := log[..|log| - 1], log[|log| - 1];
      AnsweredIsDealtWith(most);
      if !last.Forwarded? {
        assert ResponseIds(DealtWith(most) + [last.response]) == ResponseIds(DealtWith(most)) + [last.response.id];
      } else {
        assert DealtWith(most) + [] == DealtWith(most);
      }
    }
  }

  /** So when the handler of a working socket has left, every request its client sent was read
      and taken, and every response made of them was dealt with, in order. */
  lemma LeavingServedAll(actions: seq<Action>, c: nat)
    requires Legal(INIT, actions) && c < |Run(INIT, actions).clients| && !SomeFailure(actions, c)
    requires var h := Run(INIT, actions).clients[c].h; h.eof && h.pending == 0
    ensures var t, h := Tracked(NOTHING, INIT, actions, c), Run(INIT, actions).clients[c].h;
      && t.taken == Requests(t.sent) && t.made == DealtWith(h.log)
      && ResponseIds(t.made) == RequestIds(Requests(t.sent))
      && (h.status == Left <==> !(|h.log| > h.eofAt && h.log[|h.log| - 1].Lost?))
  {
    var s := Run(INIT, actions);
    WorkingSocket(actions, c);
    RequestsAndEventsArrive(actions, c);
    LeavesExactlyWhen(s, c);
    ReachableInv(s);
    assert ClientInv(s, c);
    assert s.clients[c].unread == [] && s.clients[c].responses == [] && s.clients[c].h.held.None?;
    EmptyQueue(s.requests, c);
  }

  lemma {:induction false} EmptyQueue(tickets: seq<Ticket>, c: nat)
    ensures QueuedIds(tickets, c) == [] ==> QueuedRequests(tickets, c) == []
  {
    if tickets != [] { EmptyQueue(tickets[1..], c); }
  }

  /** A schedule that drains a patient pipeline answers every request of every client whose
      socket worked throughout: nothing is unread, queued or held, and each of the requests sent
      has its response dealt with, in order. */
  lemma {:induction false} EveryWorkingClientIsServed(before: seq<Action>, actions: seq<Action>, c: nat)
    requires Legal(INIT, before) && Legal(Run(INIT, before), actions) && AllInternal(actions)
    requires Patient(Run(INIT, before)) && Stuck(Run(Run(INIT, before), actions))
    requires c < |Run(Run(INIT, before), actions).clients| && !SomeFailure(before + actions, c)
    ensures |actions| <= Work(Run(INIT, before)) && Legal(INIT, before + actions)
    ensures var t, cl := Tracked(NOTHING, INIT, before + actions, c), Run(Run(INIT, before), actions).clients[c];
      && cl.unread == [] && cl.responses == []
      && t.taken == Requests(t.sent) && t.made == DealtWith(cl.h.log)
      && ResponseIds(t.made) == RequestIds(Requests(t.sent))
      && (cl.closed ==> cl.h.status == Left || Stranded(cl.h))
  {
    var s, all := Run(INIT, before), before + actions;
    RunsConcat(INIT, before, actions);
    ReachableInv(s);
    EveryScheduleDrains(s, actions);
    WorkingSocket(all, c);
    RequestsAndEventsArrive(all, c);
    assert DrainedClient(Run(INIT, all).clients[c]);
    assert Requests([]) == [] && QueuedRequests([], c) == [];
  }

  lemma {:induction false} RunsConcat(s: System, xs: seq<Action>, ys: seq<Action>)
    requires Legal(s, xs) && Legal(Run(s, xs), ys)
    ensures Legal(s, xs + ys) && Run(s, xs + ys) == Run(Run(s, xs), ys)
    decreases |xs|
  {
    if xs == [] {
      assert xs + ys == ys;
    } else {
      assert (xs + ys)[0] == xs[0] && (xs + ys)[1..] == xs[1..] + ys;
      RunsConcat(Next(s, xs[0]), xs[1..], ys);
    }
  }
}
