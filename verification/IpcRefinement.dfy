/** The handlers of the pipeline are runs of the loop. */
module IpcRefinement {
  import opened Prelude
  import opened IpcHandler
  import opened IpcPipeline

  ghost predicate IsLoopRun(h: Handler) {
    exists arms :: h == Turns(FRESH, arms)
  }

  lemma OneMoreTurn(h: Handler, arm: Arm)
    requires IsLoopRun(h) && Ready(h, arm)
    ensures IsLoopRun(Turn(h, arm))
  {
    var arms :| h == Turns(FRESH, arms);
    assert (arms + [arm])[..|arms|] == arms;
    assert Turns(FRESH, arms + [arm]) == Turn(h, arm);
  }

  lemma StepKeepsLoopRuns(s: System, a: Action, c: nat)
    requires Enabled(s, a) && c < |s.clients| && IsLoopRun(s.clients[c].h)
    ensures IsLoopRun(Next(s, a).clients[c].h)
  {
    var cl := s.clients[c];
    match a
    case Read(d) => if c == d { OneMoreTurn(cl.h, NextArm(cl)); }
    case ReadFails(d) => if c == d { OneMoreTurn(cl.h, ReadError); }
    case Enqueue(d) => if c == d { OneMoreTurn(cl.h, Enqueued); }
    case Event(d, e, how) => if c == d { OneMoreTurn(cl.h, Forward(e, how)); }
    case Answer(d, how) => if c == d { OneMoreTurn(cl.h, Deliver(cl.responses[0], how)); }
    case _ =>
  }

  /** What is proved of the pipeline's handlers is proved of `HandleClient`. */
  lemma {:induction false} HandlersAreLoopRuns(s: System, actions: seq<Action>)
    requires Legal(s, actions)
    requires forall c :: 0 <= c < |s.clients| ==> IsLoopRun(s.clients[c].h)
    ensures forall c :: 0 <= c < |Run(s, actions).clients| ==> IsLoopRun(Run(s, actions).clients[c].h)
    decreases |actions|
  {
    if actions != [] {
      var t := Next(s, actions[0]);
      forall c | 0 <= c < |t.clients| ensures IsLoopRun(t.clients[c].h) {
        if c < |s.clients| { StepKeepsLoopRuns(s, actions[0], c); } else { assert FRESH == Turns(FRESH, []); }
      }
      HandlersAreLoopRuns(t, actions[1..]);
    }
  }

  /** What a handler puts out once it has read EOF. */
  predicate OnlyAnswersSinceEof(h: Handler) {
    h.eofAt <= |h.log| && (h.eof ==> forall k :: h.eofAt <= k < |h.log| ==> !h.log[k].Forwarded?)
  }

  /** A handler whose client has closed its side is forwarded no more events, only answers. */
  lemma {:induction false} EventsStopAtEof(arms: seq<Arm>)
    ensures OnlyAnswersSinceEof(Turns(FRESH, arms))
    decreases |arms|
  {
    if arms != [] {
      var before, arm := Turns(FRESH, arms[..|arms| - 1]), arms[|arms| - 1];
      EventsStopAtEof(arms[..|arms| - 1]);
      if Ready(before, arm) {
        var after := Turn(before, arm);
        assert forall k :: 0 <= k < |before.log| ==> after.log[k] == before.log[k];
      }
    }
  }
}
