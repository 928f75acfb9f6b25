/**
 Calls from other threads.  They are queued with a raw pointer to their connection, so what matters is whether it is
 still alive when the functor gets its turn.  The theorem tells that from the moment of the push.
 */
module LateCalls {
  import opened ConnectionStates
  import opened Pollers
  import opened Lifecycle

  /** How many functors of loop `l` run to their end along a run. */
  ghost function Finished(w: World, steps: seq<Step>, l: nat): nat
    requires EnabledRun(w, steps)
    decreases |steps|
  {
    if steps == [] then 0
    else (if l < |w.loops| && Finishes(w, steps[0], l) then 1 else 0) + Finished(Next(w, steps[0]), steps[1..], l)
  }

  /** The run ends when the functor that stood at position `p` of the queue of loop `l` is about to run. */
  ghost predicate Turn(w: World, steps: seq<Step>, l: nat, p: nat) {
    EnabledRun(w, steps) && Finished(w, steps, l) == p && Enabled(Run(w, steps), RunTask(l))
  }

  /**
   The push comes in time: the connection is in epoll, or its close handler is about to tell the server, or its removal
   waits, or its destruction waits but is not in the batch that is running.
   */
  predicate InTime(w: World, c: nat)
    requires c in w.conns && w.conns[c].loop < |w.loops|
  {
    var own := w.loops[w.conns[c].loop];
    || w.conns[c].index == Added
    || Closing(own, c)
    || Remove(c) in w.loops[BASE].todo
    || exists i :: own.left <= i < |own.todo| && own.todo[i] == Destroy(c)
  }

  // ----- in time: a reference outlasts the functor -----

  /** A functor behind position `p`, or in the same batch as it. */
  ghost predicate Outlasts(loop: Loop, f: Functor, p: nat) {
    exists i :: 0 <= i < |loop.todo| && loop.todo[i] == f && (p < i || (i < loop.left <==> p < loop.left))
  }

  /** Something will hold the connection at least until the functor at position `p` has run. */
  ghost predicate Safe(w: World, c: nat, p: nat) {
    && c in w.conns && |w.loops| > 0 && w.conns[c].loop < |w.loops|
    && var own := w.loops[w.conns[c].loop];
       && p < |own.todo|
       && (|| w.conns[c].index == Added
           || Closing(own, c)
           || Remove(c) in w.loops[BASE].todo
           || Outlasts(own, Destroy(c), p)
           || (p < own.left && Destroy(c) in own.done))
  }

  /** Where the functor stands after a step. */
  function Moved(w: World, step: Step, l: nat, p: nat): nat
    requires l < |w.loops|
  {
    if Finishes(w, step, l) && p > 0 then p - 1 else p
  }

  lemma PositionMoves(w: World, step: Step, l: nat, p: nat)
    requires WellFormed(w) && Enabled(w, step) && l < |w.loops| && p < |w.loops[l].todo|
    requires !(Finishes(w, step, l) && p == 0)
    ensures l < |Next(w, step).loops|
    ensures var q, after := Moved(w, step, l, p), Next(w, step).loops[l];
            && q < |after.todo| && after.todo[q] == w.loops[l].todo[p]
            && (step != StartBatch(l) ==> (q < after.left <==> p < w.loops[l].left))
            && (step == StartBatch(l) ==> q < after.left)
  {
    hide Next, Enabled, WellFormed, Finishes;
    QueueMoves(w, step, l);
    BatchEdges(w, step, l, Other);
    if Finishes(w, step, l) {
      assert w.loops[l].todo[1..][p - 1] == w.loops[l].todo[p];
    }
  }

  lemma OutlastsStays(w: World, step: Step, l: nat, f: Functor, p: nat)
    requires WellFormed(w) && Enabled(w, step) && l < |w.loops| && p < |w.loops[l].todo|
    requires !(Finishes(w, step, l) && p == 0) && Outlasts(w.loops[l], f, p)
    ensures l < |Next(w, step).loops|
    ensures var q, after := Moved(w, step, l, p), Next(w, step).loops[l];
            Outlasts(after, f, q) || (q < after.left && f in after.done)
  {
    QueueMoves(w, step, l);
    PositionMoves(w, step, l, p);
    LeftFits(w, l);
    var i :| 0 <= i < |w.loops[l].todo| && w.loops[l].todo[i] == f &&
               (p < i || (i < w.loops[l].left <==> p < w.loops[l].left));
    if Finishes(w, step, l) && i == 0 {
      FinishedIsDone(w, l);
    } else {
      PositionMoves(w, step, l, i);
    }
  }

  lemma FinishedIsDone(w: World, l: nat)
    requires Enabled(w, RunTask(l)) && Finishes(w, RunTask(l), l)
    ensures l < |Next(w, RunTask(l)).loops| && w.loops[l].todo[0] in Next(w, RunTask(l)).loops[l].done
  {
  }

  lemma TaskKeepsDone(w: World, k: nat, l: nat)
    requires Enabled(w, RunTask(k)) && l < |w.loops|
    ensures l < |RunFunctor(w, k).loops| && w.loops[l].done <= RunFunctor(w, k).loops[l].done
  {
  }

  lemma DoneStays(w: World, step: Step, l: nat, f: Functor)
    requires WellFormed(w) && Enabled(w, step) && l < |w.loops| && f in w.loops[l].done
    ensures l < |Next(w, step).loops|
    ensures step == EndBatch(l) || f in Next(w, step).loops[l].done
  {
    hide WellFormed, Held, RunFunctor;
    LeftFits(w, l);
    if step.RunTask? {
      TaskKeepsDone(w, step.loop, l);
    }
  }

  /** What becomes of the index and of a running close handler. */
  lemma OwnerMoves(w: World, step: Step, c: nat)
    requires Inv(w) && Enabled(w, step) && c in w.conns && w.conns[c].status != Connecting
    ensures var w', l := Next(w, step), w.conns[c].loop;
            && c in w'.conns && w'.conns[c].loop == l && l < |w.loops| == |w'.loops|
            && w'.conns[c].status != Connecting
            && (w.conns[c].index == Added ==> w'.conns[c].index == Added || Closing(w'.loops[l], c))
            && (Closing(w.loops[l], c) ==>
                  || Closing(w'.loops[l], c)
                  || Remove(c) in w'.loops[BASE].todo
                  || (w'.loops[l].left == w.loops[l].left <= |w.loops[l].todo|
                      && w'.loops[l].todo == w.loops[l].todo + [Destroy(c)]))
  {
    hide NotifiedFirst, Once, LoopOk, WellFormed, ConnsOk, Held;
    ConnIsGood(w, c);
    NextIdIsNew(w);
    ConnStays(w, step, c);
    LeftFits(w, w.conns[c].loop);
    if step.RunTask? {
      HeadIsPlaced(w, step.loop);
    } else if step.CloseNotify? || step.CloseBegin? {
      DispatchFacts(w, step.loop);
    }
  }

  /** The end of a removal: the destruction is last in the queue of the connection's own loop. */
  lemma RemovalQueues(w: World, c: nat)
    requires |w.loops| > 0 && Enabled(w, RunTask(BASE)) && Finishes(w, RunTask(BASE), BASE)
    requires w.loops[BASE].todo[0] == Remove(c)
    ensures c in w.conns && var w', l := Next(w, RunTask(BASE)), w.conns[c].loop;
                            && l < |w.loops| == |w'.loops|
                            && w'.loops[l].todo ==
                                  (if l == BASE then w.loops[l].todo[1..] else w.loops[l].todo) + [Destroy(c)]
  {
  }

  lemma SafeStays(w: World, step: Step, c: nat, p: nat)
    requires Inv(w) && Enabled(w, step) && Safe(w, c, p) && w.conns[c].status != Connecting
    requires !(Finishes(w, step, w.conns[c].loop) && p == 0)
    ensures Safe(Next(w, step), c, Moved(w, step, w.conns[c].loop, p))
    ensures Next(w, step).conns[c].status != Connecting && Next(w, step).conns[c].loop == w.conns[c].loop
  {
    hide Next, Enabled, Inv, Closing, Outlasts;
    var l := w.conns[c].loop;
    InvIsWellFormed(w);
    OwnerMoves(w, step, c);
    PositionMoves(w, step, l, p);
    QueueKeeps(w, step, BASE, Remove(c));
    if Outlasts(w.loops[l], Destroy(c), p) {
      OutlastsStays(w, step, l, Destroy(c), p);
    }
    if p < w.loops[l].left && Destroy(c) in w.loops[l].done {
      DoneStays(w, step, l, Destroy(c));
      BatchIsOpen(w, step, l);
    }
    if Finishes(w, step, BASE) && w.loops[BASE].todo[0] == Remove(c) {
      RemovalQueues(w, c);
      LastOutlasts(Next(w, step).loops[l], Destroy(c), Moved(w, step, l, p));
    }
    if Closing(w.loops[l], c) && Next(w, step).loops[l].todo == w.loops[l].todo + [Destroy(c)] {
      LastOutlasts(Next(w, step).loops[l], Destroy(c), Moved(w, step, l, p));
    }
  }

  lemma BatchIsOpen(w: World, step: Step, l: nat)
    requires WellFormed(w) && Enabled(w, step) && l < |w.loops| && w.loops[l].left > 0
    ensures step != EndBatch(l) && step != StartBatch(l)
  {
    LeftFits(w, l);
  }

  lemma LastOutlasts(loop: Loop, f: Functor, p: nat)
    requires loop.todo != [] && loop.todo[|loop.todo| - 1] == f && p < |loop.todo| - 1
    ensures Outlasts(loop, f, p)
  {
  }

  lemma SafeIsHeld(w: World, c: nat)
    requires Inv(w) && Safe(w, c, 0) && Enabled(w, RunTask(w.conns[c].loop))
    ensures Held(w, c)
  {
    hide NotifiedFirst, Once, LoopOk, WellFormed, ConnsOk;
    var l := w.conns[c].loop;
    ConnIsGood(w, c);
    HeadIsPlaced(w, l);
    if w.conns[c].index == Added {
      assert c in w.connMap;
    } else if Remove(c) in w.loops[BASE].todo {
      assert Remove(c).Holds(c) && HeldBy(w.loops[BASE], c);
    } else {
      assert Destroy(c).Holds(c) && HeldBy(w.loops[l], c);
    }
  }

  lemma {:induction false} RunIsSafe(w: World, steps: seq<Step>, c: nat, p: nat)
    requires Inv(w) && EnabledRun(w, steps) && Safe(w, c, p) && w.conns[c].status != Connecting
    requires Finished(w, steps, w.conns[c].loop) <= p
    ensures Inv(Run(w, steps))
    ensures Safe(Run(w, steps), c, p - Finished(w, steps, w.conns[c].loop))
    ensures Run(w, steps).conns[c].loop == w.conns[c].loop
    decreases |steps|
  {
    hide Inv, Next, Enabled, Finishes;
    if steps != [] {
      StepKeepsInv(w, steps[0]);
      SafeStays(w, steps[0], c, p);
      RunIsSafe(Next(w, steps[0]), steps[1..], c, Moved(w, steps[0], w.conns[c].loop, p));
    }
  }

  lemma PushedSafe(w: World, c: nat)
    requires Inv(w) && Enabled(w, QueueCall(c)) && InTime(w, c)
    ensures Safe(Next(w, QueueCall(c)), c, |w.loops[w.conns[c].loop].todo|)
  {
    var l := w.conns[c].loop;
    var own, after := w.loops[l], Next(w, QueueCall(c)).loops[l];
    LeftFits(w, l);
    if i :| own.left <= i < |own.todo| && own.todo[i] == Destroy(c) {
      assert after.todo[i] == Destroy(c);
      assert Outlasts(after, Destroy(c), |own.todo|);
    }
  }

  /** A call that is queued in time finds its connection, in every continuation and whatever references are dropped. */
  lemma InTimeIsSafe(w: World, c: nat, steps: seq<Step>)
    requires Inv(w) && Enabled(w, QueueCall(c)) && InTime(w, c)
    requires Turn(Next(w, QueueCall(c)), steps, w.conns[c].loop, |w.loops[w.conns[c].loop].todo|)
    ensures Held(Run(Next(w, QueueCall(c)), steps), c)
  {
    var w', p := Next(w, QueueCall(c)), |w.loops[w.conns[c].loop].todo|;
    StepKeepsInv(w, QueueCall(c));
    PushedSafe(w, c);
    RunIsSafe(w', steps, c, p);
    SafeIsHeld(Run(w', steps), c);
  }

  // ----- turns -----

  /** Along a run the functor at position `p` moves to the front as those before it finish. */
  lemma {:induction false} PositionsShift(w: World, steps: seq<Step>, l: nat, p: nat)
    requires Inv(w) && EnabledRun(w, steps) && l < |w.loops| && p < |w.loops[l].todo| && Finished(w, steps, l) <= p
    ensures var w', q := Run(w, steps), p - Finished(w, steps, l);
            l < |w'.loops| && q < |w'.loops[l].todo| && w'.loops[l].todo[q] == w.loops[l].todo[p]
    decreases |steps|
  {
    hide Inv, Next, Enabled, Finishes;
    if steps != [] {
      InvIsWellFormed(w);
      StepKeepsInv(w, steps[0]);
      PositionMoves(w, steps[0], l, p);
      PositionsShift(Next(w, steps[0]), steps[1..], l, Moved(w, steps[0], l, p));
    }
  }

  /** What a step queues, and on which loop. */
  predicate Queues(w: World, step: Step, l: nat, f: Functor) {
    match step
    case QueueNotify(c) => c in w.conns && l == w.conns[c].loop && f == Raw(c)
    case QueueCall(c) => c in w.conns && l == w.conns[c].loop && (f == Raw(c) || f == Stale(c))
    case QueueOther(k) => l == k && f == Other
    case _ => false
  }

  /**
   A functor that is queued gets its turn: when all that stood before it have run, it is the one to run.  If it is a
   write-complete or high-water functor, its connection is alive then.
   */
  lemma QueuedGetsItsTurn(w: World, step: Step, l: nat, steps: seq<Step>)
    requires Inv(w) && Enabled(w, step) && l < |w.loops|
    requires exists f :: Queues(w, step, l, f)
    requires Turn(Next(w, step), steps, l, |w.loops[l].todo|)
    ensures l < |Run(Next(w, step), steps).loops| && Run(Next(w, step), steps).loops[l].todo != []
    ensures Queues(w, step, l, Run(Next(w, step), steps).loops[l].todo[0])
    ensures step.QueueNotify? ==> Held(Run(Next(w, step), steps), step.conn)
  {
    StepKeepsInv(w, step);
    QueuedIsLast(w, step, l);
    hide Inv, Next, Enabled, Held;
    PositionsShift(Next(w, step), steps, l, |w.loops[l].todo|);
    if step.QueueNotify? {
      RunKeepsInv(Next(w, step), steps);
      RawIsHeld(Run(Next(w, step), steps), l);
    }
  }

  lemma QueuedIsLast(w: World, step: Step, l: nat)
    requires Enabled(w, step) && l < |w.loops| && exists f :: Queues(w, step, l, f)
    ensures l < |Next(w, step).loops|
    ensures var after := Next(w, step).loops[l].todo;
            && |after| == |w.loops[l].todo| + 1 && Queues(w, step, l, after[|w.loops[l].todo|])
  {
  }

  lemma RawIsHeld(w: World, l: nat)
    requires Inv(w) && Enabled(w, RunTask(l)) && w.loops[l].todo[0].Raw?
    ensures Held(w, w.loops[l].todo[0].conn)
  {
    hide NotifiedFirst, Once, LoopOk, WellFormed, ConnsOk, Held;
    HeadIsPlaced(w, l);
    ConnIsGood(w, w.loops[l].todo[0].conn);
    OwnerHolds(w, w.loops[l].todo[0].conn);
  }

  // ----- too late: the references can run out -----

  /** Nothing holds the connection beyond the batch that is running, and the functor is at position `p`. */
  ghost predicate Doomed(w: World, c: nat, p: nat) {
    && c in w.conns && |w.loops| > 0 && w.conns[c].loop < |w.loops| && c !in w.users
    && w.conns[c].status != Connecting && w.conns[c].index != Added
    && var own := w.loops[w.conns[c].loop];
       && p < |own.todo|
       && !Closing(own, c)
       && Remove(c) !in w.loops[BASE].todo
       && (forall i :: own.left <= i < |own.todo| ==> own.todo[i] != Destroy(c))
       && (p < own.left ==> Destroy(c) !in own.todo && forall f :: f in own.done ==> !f.Holds(c))
  }

  /** No removal of the connection that has run on another loop is kept by its batch. */
  predicate Cleared(w: World, c: nat)
    requires c in w.conns && |w.loops| > 0
  {
    w.conns[c].loop != BASE ==> Remove(c) !in w.loops[BASE].done
  }

  lemma DoomedIsDead(w: World, c: nat)
    requires Inv(w) && Doomed(w, c, 0) && Cleared(w, c) && Enabled(w, RunTask(w.conns[c].loop))
    ensures !Alive(w, c)
  {
    hide NotifiedFirst, Once, LoopOk, WellFormed, ConnsOk;
    ConnIsGood(w, c);
    HeadIsPlaced(w, w.conns[c].loop);
    forall k | 0 <= k < |w.loops| ensures !HeldBy(w.loops[k], c) {
      DispatchFacts(w, k);
      forall f | f in w.loops[k].todo || f in w.loops[k].done ensures !f.Holds(c) {
        CarriedIsPlaced(w, k, f);
      }
    }
  }

  lemma CarriedIsPlaced(w: World, l: nat, f: Functor)
    requires WellFormed(w) && l < |w.loops| && (f in w.loops[l].todo || f in w.loops[l].done)
    ensures Placed(w, l, f)
  {
    assert LoopOk(w, l, w.loops[l]);
  }

  /** What the thread of a loop does next if nothing comes in. */
  function OwnStep(loop: Loop, l: nat): Step {
    match loop.phase
    case Polling => PollReturn(l, [])
    case Dispatching =>
      if loop.handling.Some? then if loop.closing then CloseNotify(l) else EndEvent(l)
      else if loop.active != [] then BeginEvent(l) else StartBatch(l)
    case Draining => if loop.left > 0 then RunTask(l) else EndBatch(l)
  }

  lemma OwnStepEnabled(w: World, l: nat)
    requires Inv(w) && l < |w.loops|
    ensures Enabled(w, OwnStep(w.loops[l], l))
  {
    hide Enabled, Inv;
    LoopMoves(w, l);
  }

  /** A functor taken from the queue is popped, and at most a destruction of a removed connection is pushed. */
  lemma TaskPushes(w: World, k: nat, l: nat)
    requires Enabled(w, RunTask(k)) && l < |w.loops|
    ensures var w', f := RunFunctor(w, k), w.loops[k].todo[0];
            && l < |w.loops| == |w'.loops| && w'.users == w.users
            && w'.loops[l].handling == w.loops[l].handling && w'.loops[l].closing == w.loops[l].closing
            && (forall g :: g in w'.loops[l].todo ==> g in w.loops[l].todo || (f.Remove? && g == Destroy(f.conn)))
            && (forall g :: g in w'.loops[l].done ==> g in w.loops[l].done || (k == l && g == f))
  {
    var f := w.loops[k].todo[0];
    assert w.loops[k].todo == [f] + w.loops[k].todo[1..];
  }

  lemma TaskKeepsPending(w: World, k: nat, l: nat, c: nat)
    requires Enabled(w, RunTask(k)) && l < |w.loops| && w.loops[k].todo[0] != Remove(c)
    requires forall i :: w.loops[l].left <= i < |w.loops[l].todo| ==> w.loops[l].todo[i] != Destroy(c)
    ensures var after := RunFunctor(w, k).loops[l];
            forall i :: after.left <= i < |after.todo| ==> after.todo[i] != Destroy(c)
  {
  }

  lemma DoomedTask(w: World, k: nat, c: nat, p: nat)
    requires Inv(w) && Enabled(w, RunTask(k)) && Doomed(w, c, p) && (k == w.conns[c].loop || k == BASE)
    requires !(Finishes(w, RunTask(k), w.conns[c].loop) && p == 0)
    ensures Doomed(Next(w, RunTask(k)), c, Moved(w, RunTask(k), w.conns[c].loop, p))
    ensures Cleared(w, c) ==> Cleared(Next(w, RunTask(k)), c)
  {
    hide RunFunctor, NotifiedFirst, Once, LoopOk, WellFormed, ConnsOk, Finishes;
    var l := w.conns[c].loop;
    ConnIsGood(w, c);
    HeadIsPlaced(w, k);
    StepKeepsClosed(w, RunTask(k), c);
    ConnStays(w, RunTask(k), c);
    PositionMoves(w, RunTask(k), l, p);
    TaskPushes(w, k, l);
    TaskPushes(w, k, BASE);
    TaskKeepsPending(w, k, l, c);
  }

  lemma DoomedOther(w: World, l: nat, c: nat, p: nat)
    requires Inv(w) && Doomed(w, c, p) && l == w.conns[c].loop && !OwnStep(w.loops[l], l).RunTask?
    ensures var step := OwnStep(w.loops[l], l);
            Enabled(w, step) && Doomed(Next(w, step), c, p) && (Cleared(w, c) ==> Cleared(Next(w, step), c))
  {
    hide NotifiedFirst, Once, LoopOk, WellFormed, ConnsOk, RunFunctor, Held;
    ConnIsGood(w, c);
    OwnStepEnabled(w, l);
    LeftFits(w, l);
    DispatchFacts(w, l);
    ClosingNeedsHandling(w, l);
  }

  lemma ClosingNeedsHandling(w: World, l: nat)
    requires WellFormed(w) && l < |w.loops|
    ensures w.loops[l].closing ==> w.loops[l].handling.Some?
    ensures w.loops[l].phase != Dispatching ==> w.loops[l].handling == None
  {
    assert LoopOk(w, l, w.loops[l]);
  }

  lemma DoomedBaseEnd(w: World, c: nat, p: nat)
    requires Inv(w) && Doomed(w, c, p) && w.conns[c].loop != BASE && Enabled(w, EndBatch(BASE))
    ensures Doomed(Next(w, EndBatch(BASE)), c, p) && Cleared(Next(w, EndBatch(BASE)), c)
  {
    hide NotifiedFirst, Once, LoopOk, WellFormed, ConnsOk, RunFunctor, Held;
  }

  lemma RunCons(w: World, step: Step, steps: seq<Step>, l: nat)
    requires Enabled(w, step) && EnabledRun(Next(w, step), steps)
    ensures EnabledRun(w, [step] + steps) && Run(w, [step] + steps) == Run(Next(w, step), steps)
    ensures Finished(w, [step] + steps, l) ==
            (if l < |w.loops| && Finishes(w, step, l) then 1 else 0) + Finished(Next(w, step), steps, l)
  {
    hide Enabled, Next, Finishes;
    assert ([step] + steps)[1..] == steps;
  }

  lemma {:induction false} RunAppend(w: World, a: seq<Step>, b: seq<Step>, l: nat)
    requires EnabledRun(w, a) && EnabledRun(Run(w, a), b)
    ensures EnabledRun(w, a + b) && Run(w, a + b) == Run(Run(w, a), b)
    ensures Finished(w, a + b, l) == Finished(w, a, l) + Finished(Run(w, a), b, l)
    decreases |a|
  {
    hide Enabled, Next, Finishes;
    if a == [] {
      assert a + b == b;
    } else {
      RunAppend(Next(w, a[0]), a[1..], b, l);
      RunCons(w, a[0], a[1..] + b, l);
      assert [a[0]] + (a[1..] + b) == a + b;
    }
  }

  /** The base loop finishes the batch it is in, and forgets the functors of it. */
  lemma {:induction false} FinishBaseBatch(w: World, c: nat, p: nat) returns (steps: seq<Step>)
    requires Inv(w) && Doomed(w, c, p) && w.conns[c].loop != BASE
    ensures EnabledRun(w, steps) && Inv(Run(w, steps)) && Doomed(Run(w, steps), c, p) && Cleared(Run(w, steps), c)
    ensures Run(w, steps).conns[c].loop == w.conns[c].loop && Finished(w, steps, w.conns[c].loop) == 0
    decreases 2 * w.loops[BASE].left + (if w.loops[BASE].midway then 0 else 1)
  {
    hide Inv, Next, Enabled, Doomed;
    DoomedFacts(w, c, p);
    BaseFacts(w);
    var l := w.conns[c].loop;
    if w.loops[BASE].phase != Draining {
      steps := [];
    } else {
      var step := OwnStep(w.loops[BASE], BASE);
      OwnStepEnabled(w, BASE);
      StepKeepsInv(w, step);
      ConnStays(w, step, c);
      if step.RunTask? {
        DoomedTask(w, BASE, c, p);
        TaskShrinks(w, BASE);
        var rest := FinishBaseBatch(Next(w, step), c, p);
        RunCons(w, step, rest, l);
        steps := [step] + rest;
      } else {
        DoomedBaseEnd(w, c, p);
        RunCons(w, step, [], l);
        steps := [step];
      }
    }
  }

  lemma DoomedFacts(w: World, c: nat, p: nat)
    requires Doomed(w, c, p)
    ensures c in w.conns && |w.loops| > 0 && w.conns[c].loop < |w.loops| && p < |w.loops[w.conns[c].loop].todo|
  {
  }

  lemma BaseFacts(w: World)
    requires Inv(w)
    ensures w.loops[BASE].phase != Draining ==> w.loops[BASE].done == {}
  {
    LeftFits(w, BASE);
  }

  /** Running the head makes the batch shorter, or takes a removal past its middle. */
  lemma TaskShrinks(w: World, l: nat)
    requires Enabled(w, RunTask(l))
    ensures var after := Next(w, RunTask(l)).loops[l];
            if Finishes(w, RunTask(l), l) then after.left == w.loops[l].left - 1
            else after.left == w.loops[l].left && after.midway && !w.loops[l].midway
  {
  }

  /** How far the loop is from the functor at position `p`: in its batch, or a phase away from taking it there. */
  function Distance(loop: Loop, p: nat): nat {
    if p < loop.left then 0
    else match loop.phase case Dispatching => 1 case Polling => 2 case Draining => 3
  }

  /** What is left to do at this distance. */
  function Work(loop: Loop, p: nat): nat {
    var half := if loop.midway then 0 else 1;
    if p < loop.left then 2 * p + half
    else match loop.phase
      case Draining => 2 * loop.left + half
      case Polling => 0
      case Dispatching => 3 * |loop.active| + (if loop.handling.Some? then 1 else 0) + (if loop.closing then 1 else 0)
  }

  lemma OwnTaskApproaches(w: World, l: nat, p: nat)
    requires WellFormed(w) && l < |w.loops| && Enabled(w, RunTask(l)) && p < |w.loops[l].todo|
    requires !(p == 0 < w.loops[l].left)
    ensures var after, q := Next(w, RunTask(l)).loops[l], Moved(w, RunTask(l), l, p);
            Distance(after, q) == Distance(w.loops[l], p) && Work(after, q) < Work(w.loops[l], p)
  {
    hide WellFormed, Finishes, RunFunctor;
    LeftFits(w, l);
    PositionMoves(w, RunTask(l), l, p);
    TaskShrinks(w, l);
    TaskKeepsPhase(w, l);
  }

  lemma TaskKeepsPhase(w: World, l: nat)
    requires Enabled(w, RunTask(l))
    ensures RunFunctor(w, l).loops[l].phase == Draining
    ensures Finishes(w, RunTask(l), l) ==> !RunFunctor(w, l).loops[l].midway
  {
  }

  lemma OwnOtherApproaches(w: World, l: nat, p: nat)
    requires WellFormed(w) && l < |w.loops| && p < |w.loops[l].todo|
    requires var step := OwnStep(w.loops[l], l); Enabled(w, step) && !step.RunTask?
    ensures var before, after := w.loops[l], Next(w, OwnStep(w.loops[l], l)).loops[l];
            || Distance(after, p) < Distance(before, p)
            || (Distance(after, p) == Distance(before, p) && Work(after, p) < Work(before, p))
  {
    LeftFits(w, l);
    ClosingNeedsHandling(w, l);
    hide WellFormed, Held;
  }

  /** The loop of the connection goes on by itself until it is the functor's turn. */
  lemma {:induction false} ReachTurn(w: World, c: nat, p: nat) returns (steps: seq<Step>)
    requires Inv(w) && Doomed(w, c, p) && Cleared(w, c)
    ensures Turn(w, steps, w.conns[c].loop, p)
    ensures Inv(Run(w, steps)) && Doomed(Run(w, steps), c, 0) && Cleared(Run(w, steps), c)
    ensures Run(w, steps).conns[c].loop == w.conns[c].loop
    decreases Distance(w.loops[w.conns[c].loop], p), Work(w.loops[w.conns[c].loop], p)
  {
    hide Inv, Next, Enabled, Doomed, Cleared, Finishes, Distance, Work;
    DoomedFacts(w, c, p);
    InvIsWellFormed(w);
    var l := w.conns[c].loop;
    var step := OwnStep(w.loops[l], l);
    OwnStepEnabled(w, l);
    LeftFits(w, l);
    if p == 0 < w.loops[l].left {
      steps := [];
    } else {
      var q := Moved(w, step, l, p);
      StepKeepsInv(w, step);
      ConnStays(w, step, c);
      if step.RunTask? {
        DoomedTask(w, l, c, p);
        OwnTaskApproaches(w, l, p);
      } else {
        DoomedOther(w, l, c, p);
        OwnOtherApproaches(w, l, p);
        OtherFinishesNothing(w, step, l);
      }
      var rest := ReachTurn(Next(w, step), c, q);
      RunCons(w, step, rest, l);
      MovedCounts(w, step, l, p);
      steps := [step] + rest;
    }
  }

  lemma OtherFinishesNothing(w: World, step: Step, l: nat)
    requires l < |w.loops| && !step.RunTask?
    ensures !Finishes(w, step, l)
  {
  }

  lemma MovedCounts(w: World, step: Step, l: nat, p: nat)
    requires WellFormed(w) && Enabled(w, step) && l < |w.loops| && !(p == 0 < w.loops[l].left)
    ensures Moved(w, step, l, p) + (if Finishes(w, step, l) then 1 else 0) == p
  {
    hide WellFormed;
  }

  /** A call that is queued too late can find its connection gone: the caller's reference goes, the batches end. */
  lemma TooLateIsUnsafe(w: World, c: nat) returns (steps: seq<Step>)
    requires Inv(w) && Enabled(w, QueueCall(c)) && !InTime(w, c)
    ensures Turn(Next(w, QueueCall(c)), steps, w.conns[c].loop, |w.loops[w.conns[c].loop].todo|)
    ensures !Alive(Run(Next(w, QueueCall(c)), steps), c)
  {
    hide Inv, Next, Enabled, Doomed, Cleared, Finishes, InTime, Alive;
    CallFacts(w, c);
    var l, p := w.conns[c].loop, |w.loops[w.conns[c].loop].todo|;
    var w1 := Next(w, QueueCall(c));
    LateIsDoomed(w, c);
    var w2 := Next(w1, DropReference(c));
    StepKeepsInv(w, QueueCall(c));
    StepKeepsInv(w1, DropReference(c));
    DoomedFacts(w2, c, p);
    var first: seq<Step> := [];
    if l != BASE {
      first := FinishBaseBatch(w2, c, p);
    } else {
      OwnIsCleared(w2, c);
    }
    var w3 := Run(w2, first);
    var second := ReachTurn(w3, c, p);
    DoomedIsDead(Run(w3, second), c);
    RunAppend(w2, first, second, l);
    RunCons(w1, DropReference(c), first + second, l);
    OtherFinishesNothing(w1, DropReference(c), l);
    steps := [DropReference(c)] + (first + second);
  }

  lemma CallFacts(w: World, c: nat)
    requires Enabled(w, QueueCall(c))
    ensures c in w.conns && w.conns[c].loop < |w.loops|
  {
  }

  lemma OwnIsCleared(w: World, c: nat)
    requires c in w.conns && |w.loops| > 0 && w.conns[c].loop == BASE
    ensures Cleared(w, c)
  {
  }

  lemma LateIsDoomed(w: World, c: nat)
    requires Inv(w) && Enabled(w, QueueCall(c)) && !InTime(w, c)
    ensures var w1, l := Next(w, QueueCall(c)), w.conns[c].loop;
            && Enabled(w1, DropReference(c))
            && var w2 := Next(w1, DropReference(c));
               && Doomed(w2, c, |w.loops[l].todo|) && w2.conns[c].loop == l && l < |w1.loops|
  {
    hide NotifiedFirst, Once, LoopOk, WellFormed, ConnsOk, Held;
    LeftFits(w, w.conns[c].loop);
    ConnIsGood(w, c);
  }

  /**
   Exactly when a call from another thread finds its connection, told at the push: it does so in every continuation,
   with whatever references dropped, if and only if it is queued in time.
   */
  lemma CallFindsItsConnectionIff(w: World, c: nat)
    requires Inv(w) && Enabled(w, QueueCall(c))
    ensures var w', l := Next(w, QueueCall(c)), w.conns[c].loop;
            (forall steps :: Turn(w', steps, l, |w.loops[l].todo|) ==> Alive(Run(w', steps), c)) <==> InTime(w, c)
  {
    hide Inv, Next, Enabled, InTime, Held;
    CallFacts(w, c);
    var w', l := Next(w, QueueCall(c)), w.conns[c].loop;
    if InTime(w, c) {
      forall steps | Turn(w', steps, l, |w.loops[l].todo|) ensures Alive(Run(w', steps), c) {
        InTimeIsSafe(w, c, steps);
      }
    } else {
      var steps := TooLateIsUnsafe(w, c);
    }
  }

  // ----- the dead stay dead -----

  lemma DeadTask(w: World, k: nat, c: nat)
    requires Enabled(w, RunTask(k)) && !Alive(w, c)
    ensures !Alive(Next(w, RunTask(k)), c)
  {
    hide RunFunctor;
    var w', f := Next(w, RunTask(k)), w.loops[k].todo[0];
    TaskMap(w, k);
    forall l | 0 <= l < |w'.loops| ensures !HeldBy(w'.loops[l], c) {
      TaskPushes(w, k, k);
      TaskPushes(w, k, l);
      assert !HeldBy(w.loops[l], c) && !HeldBy(w.loops[k], c);
      assert f in w.loops[k].todo;
    }
  }

  lemma TaskMap(w: World, k: nat)
    requires Enabled(w, RunTask(k))
    ensures RunFunctor(w, k).connMap <= w.connMap && RunFunctor(w, k).users == w.users
    ensures |RunFunctor(w, k).loops| == |w.loops|
  {
  }

  /** A step of a loop, or a push, gives nobody a reference to a connection that nobody had one to. */
  lemma DeadOther(w: World, step: Step, c: nat)
    requires Inv(w) && Enabled(w, step) && !step.RunTask? && c in w.conns && !Alive(w, c)
    ensures !Alive(Next(w, step), c)
  {
    hide NotifiedFirst, Once, LoopOk, WellFormed, ConnsOk, RunFunctor;
    NextIdIsNew(w);
    var w' := Next(w, step);
    forall l | 0 <= l < |w'.loops| ensures !HeldBy(w'.loops[l], c) {
      assert !HeldBy(w.loops[l], c);
    }
  }

  lemma StepKeepsDead(w: World, step: Step, c: nat)
    requires Inv(w) && Enabled(w, step) && c in w.conns && !Alive(w, c)
    ensures !Alive(Next(w, step), c)
  {
    hide Inv, Next, Enabled, Alive;
    if step.RunTask? {
      DeadTask(w, step.loop, c);
    } else {
      DeadOther(w, step, c);
    }
  }

  /** Once the last reference to a connection is gone, no continuation brings one back. */
  lemma {:induction false} DeadStaysDead(w: World, steps: seq<Step>, c: nat)
    requires Inv(w) && EnabledRun(w, steps) && c in w.conns && !Alive(w, c)
    ensures !Alive(Run(w, steps), c)
    decreases |steps|
  {
    hide Inv, Next, Enabled, Alive;
    if steps != [] {
      StepKeepsInv(w, steps[0]);
      ConnStays(w, steps[0], c);
      StepKeepsDead(w, steps[0], c);
      DeadStaysDead(Next(w, steps[0]), steps[1..], c);
    }
  }

  /** A connection without references is out of the map and out of the poller: its object can be destroyed. */
  lemma DeadIsGone(w: World, c: nat)
    requires Inv(w) && c in w.conns && !Alive(w, c)
    ensures Gone(w, c)
  {
    hide NotifiedFirst, Once, LoopOk, WellFormed, ConnsOk, Held;
    ConnIsGood(w, c);
    MapIsHeld(w, c);
    if w.conns[c].index != New {
      OwnerHolds(w, c);
    }
  }

  lemma MapIsHeld(w: World, c: nat)
    ensures c in w.connMap ==> Held(w, c)
  {
  }

  // ----- a call that comes too late -----

  predicate Leads(w: World, step: Step, w': World) {
    Enabled(w, step) && Next(w, step) == w'
  }

  lemma {:induction false} Path(worlds: seq<World>, steps: seq<Step>)
    requires |worlds| == |steps| + 1
    requires forall i :: 0 <= i < |steps| ==> Leads(worlds[i], steps[i], worlds[i + 1])
    ensures EnabledRun(worlds[0], steps) && Run(worlds[0], steps) == worlds[|steps|]
    decreases |steps|
  {
    hide Enabled, Next;
    if steps != [] {
      Path(worlds[1..], steps[1..]);
    }
  }

  /** Worlds of one loop and one connection. */
  function One(conn: Connection, connMap: set<nat>, users: set<nat>, loop: Loop): World {
    World(map[1 := conn], connMap, 2, [loop], users)
  }

  function Queued(phase: Phase, todo: seq<Functor>, left: nat, done: set<Functor>): Loop {
    IDLE.(phase := phase, todo := todo, left := left, done := done)
  }

  const YOUNG := Connection(BASE, Connecting, New, 0)
  const OPEN := Connection(BASE, Connected, Added, 0)
  const SHUT := Connection(BASE, DisConnected, Deleted, 0)

  /** A connection is accepted. */
  lemma AcceptLeads()
    ensures Leads(Start(0), PollReturn(BASE, []), Start(0).(loops := [Queued(Dispatching, [], 0, {})]))
    ensures Leads(Start(0).(loops := [Queued(Dispatching, [], 0, {})]), Accept(BASE),
                  One(YOUNG, {1}, {}, Queued(Dispatching, [Establish(1)], 0, {})))
    ensures Leads(One(YOUNG, {1}, {}, Queued(Dispatching, [Establish(1)], 0, {})), StartBatch(BASE),
                  One(YOUNG, {1}, {}, Queued(Draining, [Establish(1)], 1, {})))
  {
    var accepted := Next(Start(0).(loops := [Queued(Dispatching, [], 0, {})]), Accept(BASE));
    assert [] + [Establish(1)] == [Establish(1)];
    assert accepted.conns == map[1 := YOUNG] && accepted.connMap == {1};
    assert accepted.loops == [Queued(Dispatching, [Establish(1)], 0, {})];
  }

  /** It is established. */
  lemma EstablishLeads()
    ensures Leads(One(YOUNG, {1}, {}, Queued(Draining, [Establish(1)], 1, {})), RunTask(BASE),
                  One(OPEN, {1}, {}, Queued(Draining, [], 0, {Establish(1)})))
  {
    var w := One(YOUNG, {1}, {}, Queued(Draining, [Establish(1)], 1, {}));
    var popped := Pop(w, BASE);
    assert [Establish(1)][1..] == [];
    assert popped.loops[BASE].done == {Establish(1)};
    assert popped == One(YOUNG, {1}, {}, Queued(Draining, [], 0, {Establish(1)}));
    assert SetConn(popped, 1, OPEN).conns == map[1 := OPEN];
  }

  /** Another thread takes a reference. */
  lemma ReferenceLeads()
    ensures Leads(One(OPEN, {1}, {}, Queued(Draining, [], 0, {Establish(1)})), EndBatch(BASE), One(OPEN, {1}, {}, IDLE))
    ensures Leads(One(OPEN, {1}, {}, IDLE), TakeReference(1), One(OPEN, {1}, {1}, IDLE))
  {
  }

  /** It is dispatched and leaves epoll. */
  lemma CloseLeads()
    ensures var loop := Queued(Dispatching, [], 0, {});
            && Leads(One(OPEN, {1}, {1}, IDLE), PollReturn(BASE, [1]), One(OPEN, {1}, {1}, loop.(active := [1])))
            && Leads(One(OPEN, {1}, {1}, loop.(active := [1])), BeginEvent(BASE),
                     One(OPEN, {1}, {1}, loop.(handling := Some(1))))
            && Leads(One(OPEN, {1}, {1}, loop.(handling := Some(1))), CloseBegin(BASE),
                     One(SHUT, {1}, {1}, loop.(handling := Some(1), closing := true)))
  {
    var loop := Queued(Dispatching, [], 0, {});
    var begun := Next(One(OPEN, {1}, {1}, loop.(active := [1])), BeginEvent(BASE));
    assert [1][1..] == [];
    assert begun.loops == [loop.(handling := Some(1))];
    var closed := Next(One(OPEN, {1}, {1}, loop.(handling := Some(1))), CloseBegin(BASE));
    assert closed.conns == map[1 := SHUT];
  }

  /** The server is told, and the batch with the destruction starts. */
  lemma DestroyLeads()
    ensures var loop := Queued(Dispatching, [], 0, {});
            && Leads(One(SHUT, {1}, {1}, loop.(handling := Some(1), closing := true)), CloseNotify(BASE),
                     One(SHUT, {}, {1}, loop.(todo := [Destroy(1)], handling := Some(1))))
            && Leads(One(SHUT, {}, {1}, loop.(todo := [Destroy(1)], handling := Some(1))), EndEvent(BASE),
                     One(SHUT, {}, {1}, loop.(todo := [Destroy(1)])))
            && Leads(One(SHUT, {}, {1}, loop.(todo := [Destroy(1)])), StartBatch(BASE),
                     One(SHUT, {}, {1}, Queued(Draining, [Destroy(1)], 1, {})))
  {
    var loop := Queued(Dispatching, [], 0, {});
    var told := Next(One(SHUT, {1}, {1}, loop.(handling := Some(1), closing := true)), CloseNotify(BASE));
    assert [] + [Destroy(1)] == [Destroy(1)];
    assert told.connMap == {} && told.loops == [loop.(todo := [Destroy(1)], handling := Some(1))];
  }

  /** A run at whose end a call from another thread comes too late, and a continuation in which it finds nothing. */
  lemma LateCallFindsNothing() returns (later: seq<Step>)
    ensures var steps := [PollReturn(BASE, []), Accept(BASE), StartBatch(BASE), RunTask(BASE), EndBatch(BASE),
                          TakeReference(1), PollReturn(BASE, [1]), BeginEvent(BASE), CloseBegin(BASE),
                          CloseNotify(BASE), EndEvent(BASE), StartBatch(BASE)];
            && EnabledRun(Start(0), steps)
            && var w := Run(Start(0), steps);
               && Enabled(w, QueueCall(1))
               && Turn(Next(w, QueueCall(1)), later, BASE, 1)
               && !Alive(Run(Next(w, QueueCall(1)), later), 1)
  {
    hide Leads, Alive, Turn;
    var steps := [PollReturn(BASE, []), Accept(BASE), StartBatch(BASE), RunTask(BASE), EndBatch(BASE),
                  TakeReference(1), PollReturn(BASE, [1]), BeginEvent(BASE), CloseBegin(BASE),
                  CloseNotify(BASE), EndEvent(BASE), StartBatch(BASE)];
    var loop := Queued(Dispatching, [], 0, {});
    AcceptLeads();
    EstablishLeads();
    ReferenceLeads();
    CloseLeads();
    DestroyLeads();
    var end := One(SHUT, {}, {1}, Queued(Draining, [Destroy(1)], 1, {}));
    Path([Start(0), Start(0).(loops := [loop]),
          One(YOUNG, {1}, {}, loop.(todo := [Establish(1)])),
          One(YOUNG, {1}, {}, Queued(Draining, [Establish(1)], 1, {})),
          One(OPEN, {1}, {}, Queued(Draining, [], 0, {Establish(1)})),
          One(OPEN, {1}, {}, IDLE), One(OPEN, {1}, {1}, IDLE),
          One(OPEN, {1}, {1}, loop.(active := [1])), One(OPEN, {1}, {1}, loop.(handling := Some(1))),
          One(SHUT, {1}, {1}, loop.(handling := Some(1), closing := true)),
          One(SHUT, {}, {1}, loop.(todo := [Destroy(1)], handling := Some(1))),
          One(SHUT, {}, {1}, loop.(todo := [Destroy(1)])),
          end], steps);
    StartInv(0);
    RunKeepsInv(Start(0), steps);
    EndIsLate();
    later := TooLateIsUnsafe(end, 1);
  }

  lemma EndIsLate()
    ensures var end := One(SHUT, {}, {1}, Queued(Draining, [Destroy(1)], 1, {}));
            Enabled(end, QueueCall(1)) && !InTime(end, 1)
  {
  }
}
