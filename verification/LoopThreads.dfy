/**
 What each thread does and leaves alone: a loop dispatches everything its poll reported before its tasks run, and the
 map and the channels are touched by one thread each.
 */
module LoopThreads {
  import opened ConnectionStates
  import opened Pollers
  import opened Lifecycle
  import ConnectionModel

  // ----- dispatch -----

  /** The connections that loop `l` comes to handle along a run, in order. */
  ghost function Handled(w: World, steps: seq<Step>, l: nat): seq<nat>
    requires EnabledRun(w, steps)
    decreases |steps|
  {
    if steps == [] then []
    else HandledIn(w, steps[0], l) + Handled(Next(w, steps[0]), steps[1..], l)
  }

  function HandledIn(w: World, step: Step, l: nat): seq<nat>
    requires Enabled(w, step)
  {
    var w' := Next(w, step);
    if step == BeginEvent(l) && l < |w'.loops| && w'.loops[l].handling.Some? then [w'.loops[l].handling.value] else []
  }

  lemma TaskKeepsDispatch(w: World, k: nat, l: nat)
    requires Enabled(w, RunTask(k)) && l < |w.loops| && w.loops[l].phase == Dispatching
    ensures |RunFunctor(w, k).loops| == |w.loops|
    ensures RunFunctor(w, k).loops[l].phase == Dispatching && RunFunctor(w, k).loops[l].active == w.loops[l].active
  {
  }

  /** While a loop dispatches, its active list shrinks only from the front, by what it comes to handle. */
  lemma StepDispatches(w: World, step: Step, l: nat)
    requires Inv(w) && Enabled(w, step) && step != StartBatch(l)
    requires l < |w.loops| && w.loops[l].phase == Dispatching
    ensures var w' := Next(w, step);
            && |w'.loops| == |w.loops| && w'.loops[l].phase == Dispatching
            && w.loops[l].active == HandledIn(w, step, l) + w'.loops[l].active
  {
    hide RunFunctor, Held, Inv;
    if step.RunTask? {
      TaskKeepsDispatch(w, step.loop, l);
    } else if step == BeginEvent(l) {
      ActiveIsAlive(w, l);
      assert w.loops[l].active == [w.loops[l].active[0]] + w.loops[l].active[1..];
    }
  }

  lemma ActiveIsAlive(w: World, l: nat)
    requires Inv(w) && l < |w.loops| && w.loops[l].active != []
    ensures Alive(w, w.loops[l].active[0])
  {
    var c := w.loops[l].active[0];
    DispatchFacts(w, l);
    ConnIsGood(w, c);
    OwnerHolds(w, c);
  }

  lemma {:induction false} RunDispatches(w: World, steps: seq<Step>, l: nat)
    requires Inv(w) && EnabledRun(w, steps) && StartBatch(l) !in steps
    requires l < |w.loops| && w.loops[l].phase == Dispatching
    ensures |Run(w, steps).loops| == |w.loops| && Run(w, steps).loops[l].phase == Dispatching
    ensures w.loops[l].active == Handled(w, steps, l) + Run(w, steps).loops[l].active
    decreases |steps|
  {
    hide Inv, Next, Enabled, HandledIn;
    if steps != [] {
      StepKeepsInv(w, steps[0]);
      StepDispatches(w, steps[0], l);
      RunDispatches(Next(w, steps[0]), steps[1..], l);
    }
  }

  /**
   Every connection that a poll reports is dispatched, each in its turn and nothing else: along every run from the poll
   on, what the loop has come to handle followed by the rest of its active list is what was reported, and when it goes
   on to its tasks, nothing is left.
   */
  lemma EveryActiveIsHandled(w: World, l: nat, active: seq<nat>, steps: seq<Step>)
    requires Inv(w) && Enabled(w, PollReturn(l, active)) && EnabledRun(Next(w, PollReturn(l, active)), steps)
    requires StartBatch(l) !in steps
    ensures var w1 := Next(w, PollReturn(l, active));
            var w2 := Run(w1, steps);
            && l < |w2.loops|
            && active == Handled(w1, steps, l) + w2.loops[l].active
            && (Enabled(w2, StartBatch(l)) ==> active == Handled(w1, steps, l))
  {
    StepKeepsInv(w, PollReturn(l, active));
    RunDispatches(Next(w, PollReturn(l, active)), steps, l);
  }

  // ----- confinement -----

  lemma TaskConfined(w: World, l: nat, c: nat)
    requires Inv(w) && Enabled(w, RunTask(l)) && c in w.conns
    ensures var w' := Next(w, RunTask(l));
            && (w'.connMap != w.connMap ==> l == BASE)
            && c in w'.conns
            && (w'.conns[c] != w.conns[c] ==> l == w.conns[c].loop)
  {
    hide NotifiedFirst, Once, LoopOk, WellFormed, ConnsOk;
    HeadIsPlaced(w, l);
  }

  /** Only the thread of the base loop touches the connection map. */
  lemma MapIsConfined(w: World, step: Step)
    requires Inv(w) && Enabled(w, step) && Next(w, step).connMap != w.connMap
    ensures step.Accept? || ((step.CloseNotify? || step.RunTask?) && step.loop == BASE)
  {
    hide NotifiedFirst, Once, LoopOk, WellFormed, ConnsOk, RunFunctor, Held;
    if step.RunTask? {
      HeadIsPlaced(w, step.loop);
      TaskMapConfined(w, step.loop);
    }
  }

  lemma TaskMapConfined(w: World, l: nat)
    requires Enabled(w, RunTask(l)) && Placed(w, l, w.loops[l].todo[0])
    ensures RunFunctor(w, l).connMap != w.connMap ==> l == BASE
  {
  }

  /** Only the thread of a connection's own loop touches its channel, and its state but for a foreign shutdown. */
  lemma ConnectionIsConfined(w: World, step: Step, c: nat)
    requires Inv(w) && Enabled(w, step) && c in w.conns
    ensures c in Next(w, step).conns
    ensures var before, after := w.conns[c], Next(w, step).conns[c];
            && (after.index != before.index ==> (step.CloseBegin? || step.RunTask?) && step.loop == before.loop)
            && (after.status != before.status ==>
                  step == StoreShutdown(c) || ((step.CloseBegin? || step.RunTask?) && step.loop == before.loop))
  {
    hide NotifiedFirst, Once, LoopOk, ConnsOk, RunFunctor, Held;
    NextIdIsNew(w);
    ConnStays(w, step, c);
    hide WellFormed;
    if step.RunTask? {
      TaskConfined(w, step.loop, c);
    } else if step.CloseBegin? {
      DispatchFacts(w, step.loop);
    }
  }

  // ----- the protocol and the connection -----

  /** What the protocol keeps of a connection. */
  predicate Follows(conn: Connection, c: ConnectionModel.Conn) {
    && conn.status == c.status && conn.passed == c.passed
    && (conn.index == Added <==> c.reading)
  }

  /** What the protocol does to a connection is what the connection's own step does to that part of it. */
  lemma ProtocolFollowsConnection(w: World, step: Step, id: nat, c: ConnectionModel.Conn, own: ConnectionModel.Step)
    requires Inv(w) && Enabled(w, step) && id in w.conns
    requires ConnectionModel.Inv(c) && Follows(w.conns[id], c)
    requires match step {
               case CheckShutdown(d) => d == id && own == ConnectionModel.CheckShutdown
               case StoreShutdown(d) => d == id && own == ConnectionModel.StoreShutdown
               case CloseBegin(l) => w.loops[l].handling == Some(id) && own == ConnectionModel.Close
               case RunTask(l) =>
                 || (w.loops[l].todo[0] == Establish(id) && own == ConnectionModel.Establish)
                 || (w.loops[l].todo[0] == Destroy(id) && own == ConnectionModel.Destroy)
               case _ => false
             }
    ensures ConnectionModel.Enabled(c, own) && id in Next(w, step).conns
    ensures Follows(Next(w, step).conns[id], ConnectionModel.Next(c, own))
  {
    hide NotifiedFirst, Once, LoopOk, WellFormed, ConnsOk, Held;
    ConnIsGood(w, id);
    if step.RunTask? {
      HeadIsPlaced(w, step.loop);
    } else if step.CloseBegin? {
      DispatchFacts(w, step.loop);
    }
  }
}
