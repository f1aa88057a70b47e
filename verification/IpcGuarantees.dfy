/** What holds over every run of the IPC pipeline. */
module IpcGuarantees {
  import opened Prelude
  import opened IpcHandler
  import opened IpcPipeline

  function Occupied(s: System, c: nat): nat
    requires c < |s.clients|
  {
    |s.clients[c].responses| + |MainIds(s.main, c)| + |QueuedIds(s.requests, c)| + |HeldIds(s.clients[c].h)|
  }

  /** Conservation and order: the counter is the number of requests under way; the answers dealt
      with are the oldest accepted requests, in order, and so are those written while none is lost. */
  lemma PendingCountsInFlight(s: System, c: nat)
    requires Reachable(s) && c < |s.clients|
    ensures var h := s.clients[c].h;
      && Answered(h.log) <= RequestIds(h.accepted)
      && (NoneLost(h.log) ==> Written(h.log) <= RequestIds(h.accepted))
      && (h.status != Aborted ==>
            && h.pending == Occupied(s, c)
            && RequestIds(h.accepted) == Answered(h.log) + InFlight(s, c))
  {
    ReachableInv(s);
    assert ClientInv(s, c);
    WrittenUnlessLost(s.clients[c].h.log);
    if s.clients[c].h.status != Aborted {
      assert |RequestIds(s.clients[c].h.accepted)| == |Answered(s.clients[c].h.log)| + |InFlight(s, c)|;
    }
  }

  /** A handler that left after EOF has dealt with everything it accepted, and its client got
      all the answers exactly when none failed to serialise. */
  lemma LeavingAnsweredAll(s: System, c: nat)
    requires Reachable(s) && c < |s.clients| && s.clients[c].h.status == Left
    ensures Answered(s.clients[c].h.log) == RequestIds(s.clients[c].h.accepted)
    ensures InFlight(s, c) == []
    ensures Written(s.clients[c].h.log) == RequestIds(s.clients[c].h.accepted) <==> NoneLost(s.clients[c].h.log)
  {
    ReachableInv(s);
    assert ClientInv(s, c);
    NothingLeftBehind(s, c);
    WrittenUnlessLost(s.clients[c].h.log);
  }

  /** "At EOF with nothing pending, the handler leaves" is not what the code does. It holds
      exactly when the handler's last output since EOF is not an answer that failed to serialise. */
  lemma LeavesExactlyWhen(s: System, c: nat)
    requires Reachable(s) && c < |s.clients|
    requires var h := s.clients[c].h; h.eof && h.pending == 0 && h.status != Aborted
    ensures var h := s.clients[c].h;
      h.status == Left <==> !(|h.log| > h.eofAt && h.log[|h.log| - 1].Lost?)
  {
    ReachableInv(s);
    assert ClientInv(s, c);
  }

  /** So a handler no response of which failed to serialise leaves for certain. */
  lemma LeavesWithoutLoss(s: System, c: nat)
    requires Reachable(s) && c < |s.clients| && NoneLost(s.clients[c].h.log)
    requires var h := s.clients[c].h; h.eof && h.pending == 0 && h.status != Aborted
    ensures s.clients[c].h.status == Left
  {
    LeavesExactlyWhen(s, c);
  }

  /** ... and when it is not so, no step of anyone lets the handler leave later. */
  lemma StrandedForGood(s: System, a: Action, c: nat)
    requires Reachable(s) && c < |s.clients| && Stranded(s.clients[c].h) && Enabled(s, a)
    ensures Next(s, a).clients[c].h == s.clients[c].h
  {
    ReachableInv(s);
    assert ClientInv(s, c);
    assert |RequestIds(s.clients[c].h.accepted)| == |Answered(s.clients[c].h.log)| + |InFlight(s, c)|;
    assert s.clients[c].responses == [];
  }

  lemma {:induction false} RunSnoc(s: System, actions: seq<Action>, a: Action)
    requires Legal(s, actions) && Enabled(Run(s, actions), a)
    ensures Legal(s, actions + [a]) && Run(s, actions + [a]) == Next(Run(s, actions), a)
    decreases |actions|
  {
    if actions == [] {
      assert Run(Next(s, a), []) == Next(s, a);
      assert ([] + [a])[1..] == [];
    } else {
      assert (actions + [a])[1..] == actions[1..] + [a];
      RunSnoc(Next(s, actions[0]), actions[1..], a);
    }
  }

  lemma ReachableStep(s: System, a: Action)
    requires Reachable(s) && Enabled(s, a)
    ensures Reachable(Next(s, a))
  {
    var actions :| Legal(INIT, actions) && Run(INIT, actions) == s;
    RunSnoc(INIT, actions, a);
  }

  /** A client with nothing unread whose handler waits in `select!`. */
  predicate Quiet(cl: Client) {
    cl.unread == [] && !cl.closed && cl.h.status == Serving && !cl.h.eof && cl.h.held.None?
  }

  /** Client `c` sends a request and the handler takes it in. */
  lemma Submit(s: System, c: nat) returns (t: System)
    requires Reachable(s) && c < |s.clients| && Quiet(s.clients[c])
    ensures Reachable(t)
    ensures t.requests == s.requests && t.main == s.main && |t.clients| == |s.clients|
    ensures forall d :: 0 <= d < |s.clients| && d != c ==> t.clients[d] == s.clients[d]
    ensures var h := s.clients[c].h;
      t.clients[c] == s.clients[c].(h := h.(
        accepted := h.accepted + [Request(0, "GetState")], pending := h.pending + 1, held := Some(Request(0, "GetState"))))
  {
    var r := Request(0, "GetState");
    ReachableStep(s, Send(c, Valid(r)));
    var u := Next(s, Send(c, Valid(r)));
    assert u.clients[c].unread == [Valid(r)];
    ReachableStep(u, Read(c));
    t := Next(u, Read(c));
  }

  /** ... and gets it into the request queue. */
  lemma SubmitQueued(s: System, c: nat) returns (t: System)
    requires Reachable(s) && c < |s.clients| && Quiet(s.clients[c]) && |s.requests| < REQUEST_QUEUE
    ensures Reachable(t)
    ensures t.requests == s.requests + [Ticket(c, Request(0, "GetState"))] && t.main == s.main
    ensures |t.clients| == |s.clients|
    ensures forall d :: 0 <= d < |s.clients| && d != c ==> t.clients[d] == s.clients[d]
    ensures var h := s.clients[c].h;
      t.clients[c] == s.clients[c].(h := h.(accepted := h.accepted + [Request(0, "GetState")], pending := h.pending + 1))
  {
    var u := Submit(s, c);
    ReachableStep(u, Enqueue(c));
    t := Next(u, Enqueue(c));
  }

  lemma StrandingHappens() returns (s: System)
    ensures Reachable(s) && |s.clients| == 1 && Stranded(s.clients[0].h)
  {
    assert Legal(INIT, []) && Run(INIT, []) == INIT;
    ReachableStep(INIT, Connect);
    var s1 := Next(INIT, Connect);
    var s2 := SubmitQueued(s1, 0);
    ReachableStep(s2, Take(""));
    var s3 := Next(s2, Take(""));
    ReachableStep(s3, Close(0));
    var s4 := Next(s3, Close(0));
    ReachableStep(s4, Read(0));
    var s5 := Next(s4, Read(0));
    ReachableStep(s5, HandOver);
    var s6 := Next(s5, HandOver);
    ReachableStep(s6, Answer(0, SerializeFailed));
    s := Next(s6, Answer(0, SerializeFailed));
  }

  // ---- Deadlock ----------------------------------------------------------

  /** Main waits for room in `c`'s response queue, `c`'s handler for room in the request queue. */
  predicate Deadlocked(s: System, c: nat) {
    && c < |s.clients|
    && s.main.Some? && s.main.value.client == c
    && s.clients[c].h.status == Serving
    && |s.clients[c].responses| == RESPONSE_QUEUE
    && s.clients[c].h.held.Some?
    && |s.requests| == REQUEST_QUEUE
  }

  /** A deadlocked client has exactly 18 requests pending besides those it has queued. */
  lemma DeadlockNeedsBacklog(s: System, c: nat)
    requires Inv(s) && Deadlocked(s, c)
    ensures s.clients[c].h.pending == RESPONSE_QUEUE + 2 + |QueuedIds(s.requests, c)|
  {
    assert ClientInv(s, c);
    assert |RequestIds(s.clients[c].h.accepted)| == |Answered(s.clients[c].h.log)| + |InFlight(s, c)|;
  }

  lemma {:induction false} AllQueuedFrom(requests: seq<Ticket>, c: nat)
    requires forall i :: 0 <= i < |requests| ==> requests[i].client == c
    ensures |QueuedIds(requests, c)| == |requests|
  {
    if requests != [] { AllQueuedFrom(requests[1..], c); }
  }

  /** Two disciplines of clients, either of which rules the deadlock out. */
  predicate Modest(s: System, c: nat)
    requires c < |s.clients|
  {
    || s.clients[c].h.pending <= 17
    || ((forall i :: 0 <= i < |s.requests| ==> s.requests[i].client == c) && s.clients[c].h.pending <= 81)
  }

  lemma ModestClientsNeverDeadlock(s: System, c: nat)
    requires Reachable(s) && c < |s.clients| && Modest(s, c)
    ensures !Deadlocked(s, c)
  {
    ReachableInv(s);
    if Deadlocked(s, c) {
      DeadlockNeedsBacklog(s, c);
      if s.clients[c].h.pending > 17 { AllQueuedFrom(s.requests, c); }
    }
  }

  /** Five quiet clients; client 0 has `r` unread answers, the others `p` queued requests in all. */
  predicate Loaded(s: System, r: nat, p: nat) {
    && |s.clients| == 5
    && (forall c :: 0 <= c < 5 ==> Quiet(s.clients[c]))
    && |s.clients[0].responses| == r
    && |s.requests| == p
    && (forall c :: 1 <= c < 5 ==> s.clients[c].h.pending == Share(p, c))
  }

  /** Clients 1 to 4 queue 16 requests each, one client after the other. */
  function Share(p: nat, c: nat): nat {
    if p <= 16 * (c - 1) then 0 else if p >= 16 * c then 16 else p - 16 * (c - 1)
  }

  lemma FiveClients() returns (s: System)
    ensures Reachable(s) && Loaded(s, 0, 0) && s.main.None? && s.clients[0].h.pending == 0
  {
    s := INIT;
    assert Legal(INIT, []) && Run(INIT, []) == INIT;
    var n := 0;
    while n < 5
      invariant n <= 5 && Reachable(s) && s == System(seq(n, _ => Client([], false, FRESH, [])), [], None)
    {
      ReachableStep(s, Connect);
      s := Next(s, Connect);
      n := n + 1;
    }
  }

  /** Client 0 asks `r` times, is answered, and reads nothing. */
  lemma AnswersPileUp(u: System, r: nat) returns (s: System)
    requires Reachable(u) && u.requests == [] && u.main.None?
    requires u.clients != [] && Quiet(u.clients[0]) && u.clients[0].responses == []
    requires r <= RESPONSE_QUEUE
    ensures Reachable(s) && s.requests == [] && s.main.None? && |s.clients| == |u.clients|
    ensures Quiet(s.clients[0]) && |s.clients[0].responses| == r
    ensures s.clients[0].h.pending == u.clients[0].h.pending + r
    ensures forall c :: 1 <= c < |u.clients| ==> s.clients[c] == u.clients[c]
  {
    if r == 0 {
      s := u;
    } else {
      var v := AnswersPileUp(u, r - 1);
      var w := SubmitQueued(v, 0);
      ReachableStep(w, Take(""));
      var x := Next(w, Take(""));
      ReachableStep(x, HandOver);
      s := Next(x, HandOver);
    }
  }

  /** ... and then once more, so that the daemon holds an answer there is no room for. */
  lemma MainFillsUp(u: System) returns (s: System)
    requires Reachable(u) && u.requests == [] && u.main.None?
    requires u.clients != [] && Quiet(u.clients[0]) && u.clients[0].responses == []
    ensures Reachable(s) && s.requests == [] && s.main.Some? && s.main.value.client == 0
    ensures |s.clients| == |u.clients| && Quiet(s.clients[0]) && |s.clients[0].responses| == RESPONSE_QUEUE
    ensures s.clients[0].h.pending == u.clients[0].h.pending + 17
    ensures forall c :: 1 <= c < |u.clients| ==> s.clients[c] == u.clients[c]
  {
    var v := AnswersPileUp(u, RESPONSE_QUEUE);
    var w := SubmitQueued(v, 0);
    ReachableStep(w, Take(""));
    s := Next(w, Take(""));
  }

  lemma RequestsPileUp(p: nat) returns (s: System)
    requires p <= REQUEST_QUEUE
    ensures Reachable(s) && Loaded(s, RESPONSE_QUEUE, p) && s.clients[0].h.pending == 17
    ensures s.main.Some? && s.main.value.client == 0
  {
    if p == 0 {
      var u := FiveClients();
      s := MainFillsUp(u);
    } else {
      var u := RequestsPileUp(p - 1);
      s := SubmitQueued(u, 1 + (p - 1) / 16);
    }
  }

  /** The bound is the best possible: one client with 18 pending requests, all others
      with 16, can deadlock the daemon. */
  lemma EighteenPendingCanDeadlock() returns (s: System)
    ensures Reachable(s) && Deadlocked(s, 0)
    ensures |s.clients| == 5 && s.clients[0].h.pending == 18
    ensures forall c :: 1 <= c < 5 ==> s.clients[c].h.pending == 16
  {
    var u := RequestsPileUp(REQUEST_QUEUE);
    s := Submit(u, 0);
  }

  lemma OneClientPilesUp(p: nat) returns (s: System)
    requires p <= REQUEST_QUEUE
    ensures Reachable(s) && |s.clients| == 1 && |s.requests| == p && s.clients[0].h.pending == 17 + p
    ensures Quiet(s.clients[0]) && |s.clients[0].responses| == RESPONSE_QUEUE
    ensures s.main.Some? && s.main.value.client == 0
  {
    if p == 0 {
      assert Legal(INIT, []) && Run(INIT, []) == INIT;
      ReachableStep(INIT, Connect);
      s := MainFillsUp(Next(INIT, Connect));
    } else {
      var u := OneClientPilesUp(p - 1);
      s := SubmitQueued(u, 0);
    }
  }

  /** So is the other bound: a client on its own can deadlock the daemon with 82 pending. */
  lemma EightyTwoOfOneCanDeadlock() returns (s: System)
    ensures Reachable(s) && Deadlocked(s, 0)
    ensures |s.clients| == 1 && s.clients[0].h.pending == 82
  {
    var u := OneClientPilesUp(REQUEST_QUEUE);
    s := Submit(u, 0);
  }

  // ---- Draining ------------------------------------------------------------

  /** How much work a client's part of the pipeline still holds. */
  function Weight(cl: Client): nat {
    6 * |cl.unread| + (if cl.h.held.Some? then 4 else 0) + |cl.responses|
    + (if cl.h.status == Serving && !cl.h.eof then 1 else 0)
  }

  function Weights(cs: seq<Client>): nat {
    if cs == [] then 0 else Weight(cs[0]) + Weights(cs[1..])
  }

  function Work(s: System): nat {
    Weights(s.clients) + 3 * |s.requests| + (if s.main.Some? then 2 else 0)
  }

  lemma {:induction false} WeightsUpdate(cs: seq<Client>, i: nat, cl: Client)
    requires i < |cs|
    ensures Weights(cs[i := cl]) == Weights(cs) - Weight(cs[i]) + Weight(cl)
  {
    if i == 0 {
      assert cs[0 := cl][1..] == cs[1..];
    } else {
      assert cs[i := cl][1..] == cs[1..][i - 1 := cl];
      WeightsUpdate(cs[1..], i - 1, cl);
    }
  }

  lemma ClientStepWork(s: System, t: System, c: nat)
    requires c < |s.clients| && c < |t.clients| && t.clients == s.clients[c := t.clients[c]]
    ensures Weights(t.clients) == Weights(s.clients) - Weight(s.clients[c]) + Weight(t.clients[c])
  {
    WeightsUpdate(s.clients, c, t.clients[c]);
  }

  /** Every step the daemon takes by itself uses up work. */
  lemma WorkDecreases(s: System, a: Action)
    requires Internal(a) && Enabled(s, a)
    ensures Work(Next(s, a)) < Work(s)
  {
    var t := Next(s, a);
    if !a.Take? {
      var c := if a.HandOver? then s.main.value.client else a.c;
      ClientStepWork(s, t, c);
      LighterClient(s, a, c);
    }
  }

  function ClientWork(s: System, c: nat): nat
    requires c < |s.clients|
  {
    Weight(s.clients[c]) + 3 * |s.requests| + (if s.main.Some? then 2 else 0)
  }

  lemma LighterClient(s: System, a: Action, c: nat)
    requires Internal(a) && !a.Take? && Enabled(s, a)
    requires c == if a.HandOver? then s.main.value.client else a.c
    ensures ClientWork(Next(s, a), c) < ClientWork(s, c)
  {
    var t := Next(s, a);
    assert a.Enqueue? ==> |t.requests| == |s.requests| + 1;
  }

  function ValidLines(lines: seq<Line>): nat {
    if lines == [] then 0 else (if lines[0].Valid? then 1 else 0) + ValidLines(lines[1..])
  }

  /** Requests of this client that are sent but not answered, read by the handler or not. */
  function Outstanding(cl: Client): nat {
    cl.h.pending + ValidLines(cl.unread)
  }

  /** Client `c` has a request neither read by its handler nor queued yet. */
  predicate Asks(cl: Client) {
    cl.h.status == Serving && (cl.h.held.Some? || ValidLines(cl.unread) > 0)
  }

  /** Client `c` has at most 81 requests outstanding, and nobody else asks anything. */
  predicate Alone(s: System, c: nat) {
    && c < |s.clients|
    && Outstanding(s.clients[c]) <= 81
    && (forall i :: 0 <= i < |s.requests| ==> s.requests[i].client == c)
    && (forall d :: 0 <= d < |s.clients| && d != c ==> !Asks(s.clients[d]))
  }

  /** The two disciplines under which every schedule drains. */
  predicate Patient(s: System) {
    || (forall c :: 0 <= c < |s.clients| ==> Outstanding(s.clients[c]) <= 17)
    || (exists c :: 0 <= c < |s.clients| && Alone(s, c))
  }

  lemma LighterOutstanding(s: System, a: Action, c: nat)
    requires Internal(a) && Enabled(s, a) && c < |s.clients|
    ensures Outstanding(Next(s, a).clients[c]) <= Outstanding(s.clients[c])
    ensures Asks(Next(s, a).clients[c]) ==> Asks(s.clients[c])
  {
  }

  lemma InternalKeepsAlone(s: System, a: Action, c: nat)
    requires Alone(s, c) && Internal(a) && Enabled(s, a)
    ensures Alone(Next(s, a), c)
  {
    var t := Next(s, a);
    LighterOutstanding(s, a, c);
    forall d | 0 <= d < |t.clients| && d != c ensures !Asks(t.clients[d]) {
      LighterOutstanding(s, a, d);
    }
    if a.Enqueue? {
      assert Asks(s.clients[a.c]);
    }
  }

  lemma InternalKeepsPatient(s: System, a: Action)
    requires Patient(s) && Internal(a) && Enabled(s, a)
    ensures Patient(Next(s, a))
  {
    var t := Next(s, a);
    if forall c :: 0 <= c < |s.clients| ==> Outstanding(s.clients[c]) <= 17 {
      forall c | 0 <= c < |t.clients| ensures Outstanding(t.clients[c]) <= 17 {
        LighterOutstanding(s, a, c);
      }
    } else {
      var c :| 0 <= c < |s.clients| && Alone(s, c);
      InternalKeepsAlone(s, a, c);
    }
  }

  predicate Stuck(s: System) {
    && !Enabled(s, Take("")) && !Enabled(s, HandOver)
    && forall c :: 0 <= c < |s.clients| ==>
         !Enabled(s, Read(c)) && !Enabled(s, Enqueue(c)) && !Enabled(s, Answer(c, Sent))
  }

  /** Nothing under way, every line read, and every closed client's handler gone or stranded. */
  predicate Drained(s: System) {
    && s.requests == [] && s.main.None?
    && forall c :: 0 <= c < |s.clients| ==> DrainedClient(s.clients[c])
  }

  predicate DrainedClient(cl: Client) {
    cl.h.status == Aborted ||
    (&& cl.responses == [] && cl.unread == [] && cl.h.held.None?
     && Answered(cl.h.log) == RequestIds(cl.h.accepted)
     && (cl.closed ==> cl.h.status == Left || Stranded(cl.h)))
  }

  lemma StuckMainIsDeadlocked(s: System)
    requires Inv(s) && Stuck(s) && s.main.Some?
    ensures Deadlocked(s, s.main.value.client)
  {
    var c := s.main.value.client;
    assert ClientInv(s, c) && !Enabled(s, Enqueue(c)) && !Enabled(s, Answer(c, Sent));
  }

  lemma PatientNeverDeadlock(s: System, c: nat)
    requires Inv(s) && Patient(s)
    ensures !Deadlocked(s, c)
  {
    if Deadlocked(s, c) {
      DeadlockNeedsBacklog(s, c);
      if d: nat :| d < |s.clients| && Alone(s, d) {
        assert Asks(s.clients[c]);
        AllQueuedFrom(s.requests, c);
      }
    }
  }

  lemma StuckMainIsIdle(s: System)
    requires Inv(s) && Patient(s) && Stuck(s)
    ensures s.main.None?
  {
    if s.main.Some? {
      StuckMainIsDeadlocked(s);
      PatientNeverDeadlock(s, s.main.value.client);
    }
  }

  lemma StuckIsDrained(s: System)
    requires Inv(s) && Patient(s) && Stuck(s)
    ensures Drained(s)
  {
    StuckMainIsIdle(s);
    forall c | 0 <= c < |s.clients| ensures DrainedClient(s.clients[c]) {
      assert ClientInv(s, c) && !Enabled(s, Read(c)) && !Enabled(s, Enqueue(c)) && !Enabled(s, Answer(c, Sent));
      if s.clients[c].h.status != Aborted {
        assert InFlight(s, c) == [];
      }
    }
  }

  predicate AllInternal(actions: seq<Action>) {
    forall i :: 0 <= i < |actions| ==> Internal(actions[i])
  }

  /** Once clients stop sending, every schedule ends within `Work(s)` steps, and where it
      ends everything accepted is answered. */
  lemma {:induction false} EveryScheduleDrains(s: System, actions: seq<Action>)
    requires Inv(s) && Patient(s) && Legal(s, actions) && AllInternal(actions)
    ensures |actions| + Work(Run(s, actions)) <= Work(s)
    ensures Stuck(Run(s, actions)) ==> Drained(Run(s, actions))
    decreases |actions|
  {
    if actions == [] {
      if Stuck(s) { StuckIsDrained(s); }
    } else {
      WorkDecreases(s, actions[0]);
      StepKeeps(s, actions[0]);
      InternalKeepsPatient(s, actions[0]);
      EveryScheduleDrains(Next(s, actions[0]), actions[1..]);
    }
  }
}
