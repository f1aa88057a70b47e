/** The event queue and the factory calls share two threads: the PipeWire thread serves
    requests only between callbacks, and the daemon reads no events while a call waits. */
module Coupling {
  import opened Prelude
  import opened Graph
  import R = Registry
  import G = GraphCache
  import F = Factory

  datatype Runtime = Runtime(world: G.World, bridge: F.Bridge)

  const START := Runtime(G.START, F.IDLE)

  datatype Action = OnGraph(g: G.Action) | OnBridge(f: F.Action)

  predicate Enabled(r: Runtime, a: Action) {
    match a
    case OnGraph(g) => G.Enabled(r.world, g) && (g.Consume? ==> !r.bridge.waiting)
    case OnBridge(f) => F.Enabled(r.bridge, f) && (f.Process? || f.Exit? ==> r.world.outbox == [])
  }

  function Next(r: Runtime, a: Action): Runtime
    requires Enabled(r, a)
  {
    match a
    case OnGraph(g) => r.(world := G.Next(r.world, g))
    case OnBridge(f) => r.(bridge := F.Next(r.bridge, f))
  }

  ghost predicate IsRun(r: Runtime, actions: seq<Action>, t: Runtime)
    decreases |actions|
  {
    if actions == [] then r == t
    else Enabled(r, actions[0]) && IsRun(Next(r, actions[0]), actions[1..], t)
  }

  ghost predicate Reachable(r: Runtime) {
    exists actions :: IsRun(START, actions, r)
  }

  predicate Inv(r: Runtime) {
    |r.world.queue| <= G.EVENT_QUEUE && F.Inv(r.bridge)
  }

  lemma {:induction false} RunKeeps(r: Runtime, actions: seq<Action>, t: Runtime)
    requires Inv(r) && IsRun(r, actions, t)
    ensures Inv(t)
    decreases |actions|
  {
    if actions != [] {
      if actions[0].OnBridge? { F.StepKeeps(r.bridge, actions[0].f); }
      RunKeeps(Next(r, actions[0]), actions[1..], t);
    }
  }

  lemma {:induction false} RunSnoc(r: Runtime, actions: seq<Action>, t: Runtime, a: Action)
    requires IsRun(r, actions, t) && Enabled(t, a)
    ensures IsRun(r, actions + [a], Next(t, a))
    decreases |actions|
  {
    if actions == [] {
      assert ([] + [a])[1..] == [];
      assert IsRun(Next(t, a), [], Next(t, a));
    } else {
      assert (actions + [a])[1..] == actions[1..] + [a];
      RunSnoc(Next(r, actions[0]), actions[1..], t, a);
    }
  }

  lemma ReachableStep(r: Runtime, a: Action)
    requires Reachable(r) && Enabled(r, a)
    ensures Reachable(Next(r, a))
  {
    var actions :| IsRun(START, actions, r);
    RunSnoc(START, actions, r, a);
  }

  /** A call waits, the thread is inside a callback, and its next event does not fit. */
  predicate Jammed(r: Runtime) {
    && r.bridge.waiting && r.bridge.replies == []
    && r.world.outbox != [] && |r.world.queue| == G.EVENT_QUEUE
  }

  /** While a call waits, the two threads can get on with it exactly when not jammed. */
  lemma ProgressExactlyUnlessJammed(r: Runtime, o: F.CoreOutcome)
    requires Reachable(r) && r.bridge.waiting && !r.bridge.dead
    ensures Enabled(r, OnGraph(G.Flush)) || Enabled(r, OnBridge(F.Process(o))) || Enabled(r, OnBridge(F.Receive))
       <==> !Jammed(r)
  {
    var actions :| IsRun(START, actions, r);
    RunKeeps(START, actions, r);
    assert |r.bridge.endings| < |r.bridge.calls|;
  }

  /** A jam is only ever resolved by the call giving up. */
  lemma JamEndsInTimeout(r: Runtime, a: Action)
    requires Jammed(r) && Enabled(r, a)
    ensures a == OnBridge(F.TimeOut)
  {
  }

  /** Jams happen: one call and more announcements than the queue holds. */
  lemma JamHappens() returns (r: Runtime)
    ensures Reachable(r) && Jammed(r) && |r.world.queue| == 256
  {
    assert IsRun(START, [], START);
    ReachableStep(START, OnGraph(G.Flush));
    var s1 := Next(START, OnGraph(G.Flush));
    ReachableStep(s1, OnGraph(G.Consume));
    var s2 := Next(s1, OnGraph(G.Consume));
    ReachableStep(s2, OnBridge(F.Call(F.CreateSink("ut-ch-system"))));
    r := Next(s2, OnBridge(F.Call(F.CreateSink("ut-ch-system"))));
    var n := 0;
    while n < G.EVENT_QUEUE
      invariant 0 <= n <= G.EVENT_QUEUE
      invariant Reachable(r) && r.bridge.waiting && r.bridge.replies == []
      invariant r.world.connected && r.world.outbox == [] && |r.world.queue| == n
      invariant forall id :: id in r.world.live ==> id < n
    {
      ReachableStep(r, OnGraph(G.Announce(n, R.PortKind, map[])));
      r := Next(r, OnGraph(G.Announce(n, R.PortKind, map[])));
      ReachableStep(r, OnGraph(G.Flush));
      r := Next(r, OnGraph(G.Flush));
      n := n + 1;
    }
    ReachableStep(r, OnGraph(G.Announce(n, R.PortKind, map[])));
    r := Next(r, OnGraph(G.Announce(n, R.PortKind, map[])));
  }
}
