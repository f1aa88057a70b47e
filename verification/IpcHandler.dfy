/** One client's handler: the select loop of `handle_client`. */
module IpcHandler {
  import opened Prelude

  datatype Request = Request(id: nat, call: string)
  datatype Response = Response(id: nat, body: string)

  /** A line read from the socket, already run through the request parser. */
  datatype Line = Valid(request: Request) | Malformed

  /** What became of a response once the handler picked it up, or an event it forwarded. */
  datatype Output = Wrote(response: Response) | Lost(response: Response) | Forwarded(event: string)

  datatype Delivery = Sent | SerializeFailed | WriteFailed

  /** `Left`: broke out at EOF with nothing pending. `Aborted`: broke out on an I/O error. */
  datatype Status = Serving | Left | Aborted

  /** The loop's variables. `held` is the request of an unfinished `request_tx.send`;
      `accepted`, `log` and `eofAt` (length of `log` when EOF was read) are history. */
  datatype Handler = Handler(
    accepted: seq<Request>,
    pending: nat,
    eof: bool,
    held: Option<Request>,
    log: seq<Output>,
    eofAt: nat,
    status: Status)

  const FRESH := Handler([], 0, false, None, [], 0, Serving)

  /** The ways one turn of the loop can go. */
  datatype Arm =
    | ReadEof
    | ReadLine(line: Line)
    | ReadError
    | Enqueued
    | Deliver(response: Response, delivery: Delivery)
    | Forward(event: string, delivery: Delivery)

  predicate Ready(h: Handler, arm: Arm) {
    && h.status == Serving
    && match arm
       case ReadEof => h.held.None? && !h.eof
       case ReadLine(_) => h.held.None? && !h.eof
       case ReadError => h.held.None? && !h.eof
       case Enqueued => h.held.Some?
       case Deliver(_, _) => h.held.None?
       case Forward(_, _) => h.held.None? && !h.eof
  }

  function SaturatingDec(n: nat): nat {
    if n == 0 then 0 else n - 1
  }

  function Turn(h: Handler, arm: Arm): Handler
    requires Ready(h, arm)
  {
    match arm
    case ReadEof =>
      h.(eof := true, eofAt := |h.log|, status := if h.pending == 0 then Left else Serving)
    case ReadLine(Malformed) => h
    case ReadLine(Valid(r)) => h.(accepted := h.accepted + [r], pending := h.pending + 1, held := Some(r))
    case ReadError => h.(status := Aborted)
    case Enqueued => h.(held := None)
    case Deliver(r, Sent) =>
      var left := SaturatingDec(h.pending);
      h.(log := h.log + [Wrote(r)], pending := left, status := if h.eof && left == 0 then Left else Serving)
    case Deliver(r, SerializeFailed) =>
      // `continue`: the exit test is skipped
      h.(log := h.log + [Lost(r)], pending := SaturatingDec(h.pending))
    case Deliver(_, WriteFailed) => h.(status := Aborted)
    case Forward(e, Sent) => h.(log := h.log + [Forwarded(e)])
    case Forward(_, SerializeFailed) => h
    case Forward(_, WriteFailed) => h.(status := Aborted)
  }

  /** Runs the loop; a turn that cannot be taken is passed over. */
  function Turns(h: Handler, arms: seq<Arm>): Handler
    decreases |arms|
  {
    if arms == [] then h
    else
      var before := Turns(h, arms[..|arms| - 1]);
      var arm := arms[|arms| - 1];
      if Ready(before, arm) then Turn(before, arm) else before
  }

  lemma Finished(h: Handler, arms: seq<Arm>, k: nat)
    requires k <= |arms| && Turns(h, arms[..k]).status != Serving
    ensures Turns(h, arms) == Turns(h, arms[..k])
    decreases |arms|
  {
    if k == |arms| {
      assert arms[..k] == arms;
    } else {
      var most := arms[..|arms| - 1];
      assert most[..k] == arms[..k];
      Finished(h, most, k);
    }
  }

  lemma PassedOver(h: Handler, arms: seq<Arm>, k: nat, status: Status)
    requires k <= |arms| && Turns(h, arms[..k]).status == status
    requires k == |arms| || status != Serving
    ensures Turns(h, arms) == Turns(h, arms[..k])
  {
    if k == |arms| {
      assert arms[..k] == arms;
    } else {
      Finished(h, arms, k);
    }
  }

  /** `handle_client`, fed with the outcome of each `select!`. */
  method HandleClient(arms: seq<Arm>) returns (h: Handler)
    ensures h == Turns(FRESH, arms)
  {
    var accepted: seq<Request>, log: seq<Output> := [], [];
    var pendingRequests, clientEof, eofAt := 0, false, 0;
    var held: Option<Request> := None;
    var status := Serving;
    var k := 0;
    while k < |arms| && status == Serving
      invariant 0 <= k <= |arms| && pendingRequests >= 0 && eofAt >= 0
      invariant Handler(accepted, pendingRequests, clientEof, held, log, eofAt, status) == Turns(FRESH, arms[..k])
    {
      assert arms[..k + 1][..k] == arms[..k];
      match arms[k] {
        case ReadEof =>
          if held.None? && !clientEof {
            clientEof, eofAt := true, |log|;
            if pendingRequests == 0 { status := Left; }
          }
        case ReadLine(line) =>
          if held.None? && !clientEof && line.Valid? {
            accepted := accepted + [line.request];
            pendingRequests := pendingRequests + 1;
            held := Some(line.request);
          }
        case ReadError =>
          if held.None? && !clientEof { status := Aborted; }
        case Enqueued =>
          held := None;
        case Deliver(response, delivery) =>
          if held.None? {
            if delivery == WriteFailed {
              status := Aborted;
            } else {
              pendingRequests := SaturatingDec(pendingRequests);
              if delivery == SerializeFailed {
                log := log + [Lost(response)];
              } else {
                log := log + [Wrote(response)];
                if clientEof && pendingRequests == 0 { status := Left; }
              }
            }
          }
        case Forward(event, delivery) =>
          if held.None? && !clientEof {
            if delivery == WriteFailed {
              status := Aborted;
            } else if delivery == Sent {
              log := log + [Forwarded(event)];
            }
          }
      }
      k := k + 1;
    }
    PassedOver(FRESH, arms, k, status);
    h := Handler(accepted, pendingRequests, clientEof, held, log, eofAt, status);
  }

  function RequestIds(requests: seq<Request>): (ids: seq<nat>)
    ensures |ids| == |requests|
  {
    seq(|requests|, i requires 0 <= i < |requests| => requests[i].id)
  }

  function ResponseIds(responses: seq<Response>): (ids: seq<nat>)
    ensures |ids| == |responses|
  {
    seq(|responses|, i requires 0 <= i < |responses| => responses[i].id)
  }

  /** Ids of the responses the handler has dealt with, in order. */
  function Answered(log: seq<Output>): seq<nat> {
    if log == [] then []
    else
      var last := log[|log| - 1];
      Answered(log[..|log| - 1]) + (if last.Forwarded? then [] else [last.response.id])
  }

  lemma AnsweredSnoc(log: seq<Output>, o: Output)
    ensures Answered(log + [o]) == Answered(log) + (if o.Forwarded? then [] else [o.response.id])
  {
    assert (log + [o])[..|log|] == log;
  }

  /** Ids of the responses that reached the client, in order. */
  function Written(log: seq<Output>): seq<nat> {
    if log == [] then []
    else
      var last := log[|log| - 1];
      Written(log[..|log| - 1]) + (if last.Wrote? then [last.response.id] else [])
  }

  predicate NoneLost(log: seq<Output>) {
    forall i :: 0 <= i < |log| ==> !log[i].Lost?
  }

  lemma {:induction false} WrittenUnlessLost(log: seq<Output>)
    ensures if NoneLost(log) then Written(log) == Answered(log) else |Written(log)| < |Answered(log)|
  {
    if log == [] {
    } else {
      var most, last := log[..|log| - 1], log[|log| - 1];
      WrittenUnlessLost(most);
      assert log == most + [last];
      assert NoneLost(log) <==> NoneLost(most) && !last.Lost?;
    }
  }

  /** The handler's last output answered a request read before EOF, and failed to serialise. */
  predicate LastAnswerLost(h: Handler) {
    |h.log| > h.eofAt && h.log[|h.log| - 1].Lost?
  }

  /** What the counter and the exit test guarantee on their own. */
  predicate Consistent(h: Handler) {
    && |Answered(h.log)| + h.pending == |h.accepted|
    && (h.held.Some? ==> h.pending > 0)
    && (h.status == Left ==> h.eof && h.pending == 0 && !LastAnswerLost(h))
    && h.eofAt <= |h.log|
    && (h.eof && h.status == Serving && h.pending == 0 ==> LastAnswerLost(h))
  }

  lemma TurnKeepsConsistent(h: Handler, arm: Arm)
    requires Consistent(h) && Ready(h, arm)
    requires arm.Deliver? ==> h.pending > 0
    ensures Turn(h, arm).status != Aborted ==> Consistent(Turn(h, arm))
  {
    var t := Turn(h, arm);
    match arm
    case Deliver(r, Sent) => AnsweredSnoc(h.log, Wrote(r));
    case Deliver(r, SerializeFailed) => AnsweredSnoc(h.log, Lost(r));
    case Forward(e, Sent) => AnsweredSnoc(h.log, Forwarded(e));
    case _ =>
  }

  /** Nothing is pending at EOF, and the handler still waits. */
  predicate Stranded(h: Handler) {
    h.eof && h.status == Serving && h.pending == 0
  }
}
