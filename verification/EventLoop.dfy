/**
 The task queue of an event loop and its eventfd wakeup, under every interleaving of the loop thread with other
 threads.  A foreign `queueInLoop` is two steps, the push under the lock and the later write to the eventfd;
 so is a foreign `quit`.  Tasks are plain numbers.
 */
module EventLoops {

  /**
   Where the loop thread is: testing `quit_`, in (or entering) epoll_wait, running handlers, running the batch,
   destroying the functors that have run, out.
   */
  datatype Pc = Checking | Blocking | Dispatching | Draining | Releasing | Stopped

  /**
   `batch` is what is left of the swapped-out tasks.  `pushed` and `executed` record the history.  `owing` are the
   foreign threads, and `selfOwes` the loop thread, between their push (or quit) and their eventfd write.
   `seen` says that the last poll reported the eventfd and its handler has yet to run.  `silent` says that since the
   last swap the destructor of something a functor had captured pushed a task while no wakeup was due.
   */
  datatype State = State(pc: Pc, calling: bool, pending: seq<nat>, batch: seq<nat>, executed: seq<nat>,
                         pushed: seq<nat>, counter: nat, seen: bool, quit: bool, owing: set<nat>, selfOwes: bool,
                         silent: bool)

  const INITIAL: State := State(Checking, false, [], [], [], [], 0, false, false, {}, false, false)

  datatype Step =
    | Push(thread: nat, task: nat)
    | Wake(thread: nat)
    | Quit(thread: nat)
    | SelfPush(task: nat)
    | SelfWake
    | SelfQuit
    | CheckQuit
    | PollReturn(seen: bool)
    | HandleRead
    | Swap
    | RunOne
    | EndBatch
    | Released

  predicate Enabled(s: State, step: Step) {
    match step
    case Push(t, _) => t !in s.owing
    case Wake(t) => t in s.owing
    case Quit(t) => t !in s.owing
    case SelfPush(_) => s.pc in {Dispatching, Draining, Releasing} && !s.selfOwes
    case SelfWake => s.selfOwes
    case SelfQuit => s.pc in {Dispatching, Draining, Releasing}
    case CheckQuit => s.pc == Checking
    case PollReturn(seen) => s.pc == Blocking && (seen ==> s.counter > 0)
    case HandleRead => s.pc == Dispatching && s.seen
    case Swap => s.pc == Dispatching && !s.seen
    case RunOne => s.pc == Draining && !s.selfOwes && s.batch != []
    case EndBatch => s.pc == Draining && !s.selfOwes && s.batch == []
    case Released => s.pc == Releasing
  }

  function Next(s: State, step: Step): State
    requires Enabled(s, step)
  {
    match step
    case Push(t, task) => s.(pending := s.pending + [task], pushed := s.pushed + [task], owing := s.owing + {t})
    case Wake(t) => s.(counter := s.counter + 1, owing := s.owing - {t})
    case Quit(t) => s.(quit := true, owing := s.owing + {t})
    case SelfPush(task) =>
      s.(pending := s.pending + [task], pushed := s.pushed + [task], selfOwes := s.calling,
         silent := s.silent || (s.pc == Releasing && !Wakeful(s)))
    case SelfWake => s.(counter := s.counter + 1, selfOwes := false)
    case SelfQuit => s.(quit := true)
    case CheckQuit => s.(pc := if s.quit then Stopped else Blocking)
    case PollReturn(seen) => s.(pc := Dispatching, seen := seen)
    case HandleRead => s.(counter := 0, seen := false)
    case Swap => s.(pc := Draining, calling := true, batch := s.pending, pending := [], silent := false)
    case RunOne => s.(executed := s.executed + [s.batch[0]], batch := s.batch[1..])
    case EndBatch => s.(pc := Releasing, calling := false)
    case Released => s.(pc := Checking)
  }

  // ----- the invariant -----

  /** A wakeup is on its way, or has arrived. */
  predicate Wakeful(s: State) {
    s.counter > 0 || s.owing != {} || s.selfOwes
  }

  predicate Inv(s: State) {
    && s.executed + s.batch + s.pending == s.pushed
    && s.calling == (s.pc == Draining)
    && (s.pc != Draining ==> s.batch == [] && !s.selfOwes)
    && (s.pending != [] && s.pc in {Checking, Blocking, Draining, Releasing} ==> Wakeful(s) || s.silent)
    && (s.silent ==> s.pc != Draining)
    && (s.quit && s.pc == Blocking ==> Wakeful(s))
    && (s.seen ==> s.pc == Dispatching && s.counter > 0)
  }

  lemma StepKeepsInv(s: State, step: Step)
    requires Inv(s) && Enabled(s, step)
    ensures Inv(Next(s, step))
  {
    match step
    case RunOne =>
      assert s.executed + s.batch + s.pending == s.executed + [s.batch[0]] + s.batch[1..] + s.pending;
    case Push(t, task) =>
      assert t in Next(s, step).owing;
    case Quit(t) =>
      assert t in Next(s, step).owing;
    case _ =>
  }

  ghost function Run(s: State, steps: seq<Step>): State
    requires EnabledRun(s, steps)
    decreases |steps|
  {
    if steps == [] then s else Run(Next(s, steps[0]), steps[1..])
  }

  ghost predicate EnabledRun(s: State, steps: seq<Step>)
    decreases |steps|
  {
    steps == [] || (Enabled(s, steps[0]) && EnabledRun(Next(s, steps[0]), steps[1..]))
  }

  lemma {:induction false} RunKeepsInv(s: State, steps: seq<Step>)
    requires Inv(s) && EnabledRun(s, steps)
    ensures Inv(Run(s, steps))
    decreases |steps|
  {
    hide Inv;
    if steps != [] {
      StepKeepsInv(s, steps[0]);
      RunKeepsInv(Next(s, steps[0]), steps[1..]);
    }
  }

  /**
   No wakeup is lost: whenever the loop is about to block with work queued or with `quit_` set, the eventfd is
   already readable or some thread that pushed has still to write it; for work queued, unless a destructor pushed some.
   */
  lemma NoLostWakeup(steps: seq<Step>)
    requires EnabledRun(INITIAL, steps)
    ensures var s := Run(INITIAL, steps);
            s.pc == Blocking && ((s.pending != [] && !s.silent) || s.quit) ==> s.counter > 0 || s.owing != {}
  {
    RunKeepsInv(INITIAL, steps);
  }

  /** About to block with work queued and nobody to wake the loop. */
  predicate Lost(s: State) {
    s.pc == Blocking && s.pending != [] && s.counter == 0 && s.owing == {}
  }

  /** Until the next swap the loop does not block unwatched. */
  predicate Guarded(s: State) {
    s.pc == Dispatching || Wakeful(s) || (s.quit && s.pc != Blocking)
  }

  lemma {:induction false} StaysGuarded(s: State, steps: seq<Step>)
    requires Inv(s) && EnabledRun(s, steps) && Swap !in steps && Guarded(s)
    ensures !Lost(Run(s, steps))
    decreases |steps|
  {
    if steps != [] {
      StepKeepsInv(s, steps[0]);
      GuardedStep(s, steps[0]);
      hide Inv, Next, Enabled, Guarded;
      StaysGuarded(Next(s, steps[0]), steps[1..]);
    }
  }

  lemma GuardedStep(s: State, step: Step)
    requires Inv(s) && Enabled(s, step) && !step.Swap? && Guarded(s)
    ensures Guarded(Next(s, step))
  {
    match step
    case Push(t, _) => assert t in Next(s, step).owing;
    case Quit(t) => assert t in Next(s, step).owing;
    case _ =>
  }

  lemma OneStep(s: State, a: Step)
    requires Enabled(s, a)
    ensures EnabledRun(s, [a]) && Run(s, [a]) == Next(s, a)
  {
    hide Enabled, Next;
    var none: seq<Step> := [];
    assert [a][1..] == none;
    assert EnabledRun(Next(s, a), none) && Run(Next(s, a), none) == Next(s, a);
  }

  lemma TwoSteps(s: State, a: Step, b: Step)
    requires Enabled(s, a) && Enabled(Next(s, a), b)
    ensures EnabledRun(s, [a, b]) && Run(s, [a, b]) == Next(Next(s, a), b)
  {
    hide Enabled, Next;
    OneStep(Next(s, a), b);
    assert [a, b][1..] == [b];
  }

  /**
   Exactly when a task that the loop thread queues can be left without a wakeup: when a destructor queues it after the
   batch, while no wakeup is due and the loop goes on.
   */
  lemma PushIsLostIff(s: State, task: nat)
    requires Inv(s) && Enabled(s, SelfPush(task))
    ensures (exists steps ::
              EnabledRun(Next(s, SelfPush(task)), steps) && Swap !in steps && Lost(Run(Next(s, SelfPush(task)), steps)))
            <==> s.pc == Releasing && s.counter == 0 && s.owing == {} && !s.quit
  {
    var after := Next(s, SelfPush(task));
    StepKeepsInv(s, SelfPush(task));
    if s.pc == Releasing && s.counter == 0 && s.owing == {} && !s.quit {
      TwoSteps(after, Released, CheckQuit);
      assert Swap !in [Released, CheckQuit] && Lost(Run(after, [Released, CheckQuit]));
    } else {
      forall steps | EnabledRun(after, steps) && Swap !in steps ensures !Lost(Run(after, steps)) {
        StaysGuarded(after, steps);
      }
    }
  }

  // ----- polls and quit -----

  /**
   A poll that reports the eventfd is answered: until its handler has read the eventfd the loop does not come to its
   tasks.
   */
  lemma ReadBeforeBatch(s: State, steps: seq<Step>)
    requires Enabled(s, PollReturn(true)) && EnabledRun(Next(s, PollReturn(true)), steps) && HandleRead !in steps
    ensures var after := Run(Next(s, PollReturn(true)), steps); Enabled(after, HandleRead) && !Enabled(after, Swap)
  {
    StaysSeen(Next(s, PollReturn(true)), steps);
  }

  lemma {:induction false} StaysSeen(s: State, steps: seq<Step>)
    requires EnabledRun(s, steps) && HandleRead !in steps && s.pc == Dispatching && s.seen
    ensures Run(s, steps).pc == Dispatching && Run(s, steps).seen
    decreases |steps|
  {
    if steps != [] {
      StaysSeen(Next(s, steps[0]), steps[1..]);
    }
  }

  /** The read empties the eventfd: no later poll reports it before somebody has written it again. */
  lemma ReportsOnlyFreshWakeups(s: State, steps: seq<Step>)
    requires Enabled(s, HandleRead) && EnabledRun(Next(s, HandleRead), steps)
    requires forall step :: step in steps ==> !step.Wake? && !step.SelfWake?
    ensures var after := Run(Next(s, HandleRead), steps); after.counter == 0 && !Enabled(after, PollReturn(true))
  {
    StaysEmpty(Next(s, HandleRead), steps);
  }

  lemma {:induction false} StaysEmpty(s: State, steps: seq<Step>)
    requires EnabledRun(s, steps) && s.counter == 0
    requires forall step :: step in steps ==> !step.Wake? && !step.SelfWake?
    ensures Run(s, steps).counter == 0
    decreases |steps|
  {
    if steps != [] {
      assert steps[0] in steps;
      StaysEmpty(Next(s, steps[0]), steps[1..]);
    }
  }

  /** The counter is the number of writes since the last read. */
  ghost function Writes(steps: seq<Step>): nat
    decreases |steps|
  {
    if steps == [] then 0
    else if HandleRead in steps[1..] then Writes(steps[1..])
    else (if steps[0].Wake? || steps[0].SelfWake? then 1 else 0) + Writes(steps[1..])
  }

  lemma {:induction false} CounterIsWrites(s: State, steps: seq<Step>)
    requires EnabledRun(s, steps)
    ensures Run(s, steps).counter == (if HandleRead in steps then 0 else s.counter) + Writes(steps)
    decreases |steps|
  {
    hide Enabled, Next;
    if steps != [] {
      StepWrites(s, steps[0]);
      CounterIsWrites(Next(s, steps[0]), steps[1..]);
    }
  }

  lemma StepWrites(s: State, step: Step)
    requires Enabled(s, step)
    ensures Next(s, step).counter ==
            if step.HandleRead? then 0 else s.counter + if step.Wake? || step.SelfWake? then 1 else 0
  {
  }

  /** A quit, by whatever thread, is heeded the next time the loop looks at it, and for good. */
  lemma {:induction false} QuitIsHeeded(s: State, steps: seq<Step>)
    requires EnabledRun(s, steps) && s.quit
    ensures Run(s, steps).quit
    ensures CheckQuit in steps || s.pc == Stopped ==> Run(s, steps).pc == Stopped
    decreases |steps|
  {
    if steps != [] {
      QuitIsHeeded(Next(s, steps[0]), steps[1..]);
    }
  }

  /** Every thread's quit sets the flag, and nothing else does: the loop stops only when it has been told to. */
  lemma {:induction false} StopsOnlyOnQuit(s: State, steps: seq<Step>)
    requires EnabledRun(s, steps) && !s.quit && s.pc != Stopped
    ensures Run(s, steps).quit <==> exists step :: step in steps && (step.Quit? || step.SelfQuit?)
    ensures Run(s, steps).pc == Stopped ==> Run(s, steps).quit
    decreases |steps|
  {
    if steps != [] {
      var first := steps[0];
      assert steps == [first] + steps[1..];
      if first.Quit? || first.SelfQuit? {
        assert first in steps;
        QuitIsHeeded(Next(s, first), steps[1..]);
      } else {
        StopsOnlyOnQuit(Next(s, first), steps[1..]);
      }
    }
  }

  /** The tasks that a run pushes, from whatever thread, in order. */
  ghost function PushedBy(steps: seq<Step>): seq<nat>
    decreases |steps|
  {
    if steps == [] then []
    else (if steps[0].Push? || steps[0].SelfPush? then [steps[0].task] else []) + PushedBy(steps[1..])
  }

  lemma {:induction false} PushedIsRecorded(s: State, steps: seq<Step>)
    requires EnabledRun(s, steps)
    ensures Run(s, steps).pushed == s.pushed + PushedBy(steps)
    decreases |steps|
  {
    hide Enabled, Next;
    if steps != [] {
      StepPushes(s, steps[0]);
      PushedIsRecorded(Next(s, steps[0]), steps[1..]);
    }
  }

  lemma StepPushes(s: State, step: Step)
    requires Enabled(s, step)
    ensures Next(s, step).pushed == s.pushed + if step.Push? || step.SelfPush? then [step.task] else []
  {
  }

  /** Every task runs once and in push order: what has run, what is left of the batch and the queue are the pushes. */
  lemma FirstInFirstOut(steps: seq<Step>)
    requires EnabledRun(INITIAL, steps)
    ensures var s := Run(INITIAL, steps); s.executed + s.batch + s.pending == PushedBy(steps)
  {
    RunKeepsInv(INITIAL, steps);
    PushedIsRecorded(INITIAL, steps);
  }

  // ----- batches -----

  /** What will have run when the current or next batch ends. */
  function Promised(s: State): seq<nat> {
    if s.pc == Draining then s.executed + s.batch else s.pushed
  }

  lemma StepKeepsPromise(s: State, step: Step)
    requires Inv(s) && Enabled(s, step)
    ensures s.executed <= Next(s, step).executed
    ensures !step.EndBatch? ==> Promised(s) <= Promised(Next(s, step))
    ensures step.EndBatch? ==> Promised(s) == Next(s, step).executed
  {
    if step.RunOne? {
      assert s.executed + s.batch == s.executed + [s.batch[0]] + s.batch[1..];
    }
  }

  lemma {:induction false} ExecutedGrows(s: State, steps: seq<Step>)
    requires Inv(s) && EnabledRun(s, steps)
    ensures s.executed <= Run(s, steps).executed
    decreases |steps|
  {
    if steps != [] {
      StepKeepsPromise(s, steps[0]);
      StepKeepsInv(s, steps[0]);
      ExecutedGrows(Next(s, steps[0]), steps[1..]);
    }
  }

  /** Whatever was queued before a poll has run by the end of the batch that follows it. */
  lemma {:induction false} ServedByNextBatch(s: State, steps: seq<Step>)
    requires Inv(s) && EnabledRun(s, steps) && EndBatch in steps
    ensures Promised(s) <= Run(s, steps).executed
    decreases |steps|
  {
    StepKeepsPromise(s, steps[0]);
    StepKeepsInv(s, steps[0]);
    hide Inv, Promised;
    if steps[0].EndBatch? {
      ExecutedGrows(Next(s, steps[0]), steps[1..]);
    } else {
      assert EndBatch in steps[1..];
      ServedByNextBatch(Next(s, steps[0]), steps[1..]);
    }
  }

  ghost function Ran(steps: seq<Step>): nat {
    if steps == [] then 0 else (if steps[0].RunOne? then 1 else 0) + Ran(steps[1..])
  }

  /** A batch is bounded by the tasks it was swapped out with, even when they queue more. */
  lemma {:induction false} BatchIsFinite(s: State, steps: seq<Step>)
    requires EnabledRun(s, steps) && s.pc == Draining && EndBatch !in steps
    ensures Run(s, steps).pc == Draining
    ensures Ran(steps) + |Run(s, steps).batch| == |s.batch|
    decreases |steps|
  {
    if steps != [] {
      BatchIsFinite(Next(s, steps[0]), steps[1..]);
    }
  }

  // ----- the loop object -----

  /** A push while a batch runs: by the running task itself or by another thread. */
  datatype Arrival = Own(task: nat) | Foreign(task: nat, thread: nat)

  function Tasks(arrivals: seq<Arrival>): seq<nat> {
    seq(|arrivals|, i requires 0 <= i < |arrivals| => arrivals[i].task)
  }

  /** What is pushed while the first `n` tasks of a batch run, in order, if `arrivals(i)` come while the i-th runs. */
  function Arrived(arrivals: nat -> seq<Arrival>, n: nat): seq<nat> {
    if n == 0 then [] else Arrived(arrivals, n - 1) + Tasks(arrivals(n - 1))
  }

  ghost predicate Free(arrivals: seq<Arrival>, owing: set<nat>) {
    forall a :: a in arrivals && a.Foreign? ==> a.thread !in owing
  }

  lemma SwapFacts(s: State)
    requires Inv(s) && s.pc == Dispatching
    ensures !s.selfOwes && s.batch == []
  {
  }

  class EventLoop {
    var pendingFunctors: seq<nat>
    var callingPendingFunctors: bool
    var tasks: seq<nat>
    var wakeupCount: nat
    var quitting: bool
    ghost var pc: Pc
    ghost var executed: seq<nat>
    ghost var pushed: seq<nat>
    ghost var seen: bool
    ghost var owing: set<nat>
    ghost var selfOwes: bool
    ghost var silent: bool

    ghost function View(): State
      reads this
    {
      State(pc, callingPendingFunctors, pendingFunctors, tasks, executed, pushed, wakeupCount, seen, quitting,
            owing, selfOwes, silent)
    }

    constructor ()
      ensures View() == INITIAL
    {
      pendingFunctors, callingPendingFunctors, tasks, wakeupCount, quitting := [], false, [], 0, false;
      pc, executed, pushed, seen, owing, selfOwes, silent := Checking, [], [], false, {}, false, false;
    }

    /** The write to the eventfd, by the loop's own thread or by a foreign one. */
    method WakeUp(inLoopThread: bool, ghost thread: nat)
      requires Enabled(View(), if inLoopThread then SelfWake else Wake(thread))
      modifies this`wakeupCount, this`owing, this`selfOwes
      ensures View() == Next(old(View()), if inLoopThread then SelfWake else Wake(thread))
    {
      wakeupCount := wakeupCount + 1;
      if inLoopThread {
        selfOwes := false;
      } else {
        owing := owing - {thread};
      }
    }

    /** The push under the lock. */
    method Push(task: nat, inLoopThread: bool, ghost thread: nat)
      requires Enabled(View(), if inLoopThread then SelfPush(task) else Step.Push(thread, task))
      modifies this`pendingFunctors, this`pushed, this`owing, this`selfOwes, this`silent
      ensures View() == Next(old(View()), if inLoopThread then SelfPush(task) else Step.Push(thread, task))
    {
      silent := silent || (inLoopThread && pc == Releasing && !Wakeful(View()));
      pendingFunctors := pendingFunctors + [task];
      pushed := pushed + [task];
      if inLoopThread {
        selfOwes := callingPendingFunctors;
      } else {
        owing := owing + {thread};
      }
    }

    /** Push, then wake unless the loop thread itself is still ahead of its batch. */
    method QueueInLoop(task: nat, inLoopThread: bool, ghost thread: nat)
      requires Inv(View()) && Enabled(View(), if inLoopThread then SelfPush(task) else Step.Push(thread, task))
      modifies this`pendingFunctors, this`pushed, this`wakeupCount, this`owing, this`selfOwes, this`silent
      ensures Inv(View())
      ensures pendingFunctors == old(pendingFunctors) + [task] && pushed == old(pushed) + [task]
      ensures selfOwes == old(selfOwes) && owing == old(owing)
      ensures wakeupCount == old(wakeupCount) + (if !inLoopThread || callingPendingFunctors then 1 else 0)
    {
      hide Inv;
      StepKeepsInv(View(), if inLoopThread then SelfPush(task) else Step.Push(thread, task));
      Push(task, inLoopThread, thread);
      if !inLoopThread || callingPendingFunctors {
        StepKeepsInv(View(), if inLoopThread then SelfWake else Wake(thread));
        WakeUp(inLoopThread, thread);
      }
    }

    method HandleRead()
      requires Inv(View()) && Enabled(View(), Step.HandleRead)
      modifies this`wakeupCount, this`seen
      ensures Inv(View()) && View() == Next(old(View()), Step.HandleRead)
      ensures wakeupCount == 0
    {
      StepKeepsInv(View(), Step.HandleRead);
      wakeupCount := 0;
      seen := false;
    }

    /**
     Swap and run.  `arrivals(i)` is what the i-th task and other threads push while it runs.  Exactly the tasks pending
     at the swap run, once each and in order; what is pushed meanwhile waits for the next turn, with the eventfd written
     for each.  `dying` is what destructors queue when the vector is released: it waits too, but nobody is woken for it.
     */
    method DoingPendingFunctors(arrivals: nat -> seq<Arrival>, dying: seq<nat>)
      requires Inv(View()) && Enabled(View(), Swap) && forall i :: Free(arrivals(i), owing)
      modifies this
      ensures Inv(View()) && pc == Checking
      ensures executed == old(executed) + old(pendingFunctors)
      ensures pendingFunctors == Arrived(arrivals, |old(pendingFunctors)|) + dying
      ensures wakeupCount == old(wakeupCount) + |Arrived(arrivals, |old(pendingFunctors)|)|
    {
      hide Inv, Free, Arrived;
      SwapTasks();
      RunAll(arrivals);
      EndOfBatch();
      Release(dying);
      StepKeepsInv(View(), Released);
      pc := Checking;
    }

    method SwapTasks()
      requires Inv(View()) && Enabled(View(), Swap)
      modifies this`callingPendingFunctors, this`tasks, this`pendingFunctors, this`pc, this`silent
      ensures Inv(View()) && pc == Draining && !selfOwes
      ensures tasks == old(pendingFunctors) && pendingFunctors == []
    {
      StepKeepsInv(View(), Swap);
      SwapFacts(View());
      hide Inv;
      callingPendingFunctors := true;
      tasks, pendingFunctors := pendingFunctors, [];
      pc, silent := Draining, false;
    }

    method EndOfBatch()
      requires Inv(View()) && Enabled(View(), EndBatch)
      modifies this`callingPendingFunctors, this`pc
      ensures Inv(View()) && pc == Releasing && !callingPendingFunctors
    {
      StepKeepsInv(View(), EndBatch);
      callingPendingFunctors := false;
      pc := Releasing;
    }

    /** The vector of functors is destroyed. */
    method Release(dying: seq<nat>)
      requires Inv(View()) && pc == Releasing && !selfOwes && !callingPendingFunctors
      modifies this`pendingFunctors, this`pushed, this`wakeupCount, this`owing, this`selfOwes, this`silent
      ensures Inv(View()) && pendingFunctors == old(pendingFunctors) + dying && wakeupCount == old(wakeupCount)
    {
      hide Inv;
      for i := 0 to |dying|
        invariant Inv(View()) && !selfOwes && wakeupCount == old(wakeupCount)
        invariant pendingFunctors == old(pendingFunctors) + dying[..i]
      {
        QueueInLoop(dying[i], true, 0);
      }
      assert dying[..|dying|] == dying;
    }

    /** The loop over the swapped-out tasks. */
    method RunAll(arrivals: nat -> seq<Arrival>)
      requires Inv(View()) && pc == Draining && !selfOwes && pendingFunctors == [] &&
               forall i :: Free(arrivals(i), owing)
      modifies this`tasks, this`executed, this`pendingFunctors, this`pushed, this`wakeupCount, this`owing, this`selfOwes
      modifies this`silent
      ensures Inv(View()) && tasks == [] && !selfOwes && executed == old(executed) + old(tasks)
      ensures pendingFunctors == Arrived(arrivals, |old(tasks)|)
      ensures wakeupCount == old(wakeupCount) + |pendingFunctors|
    {
      hide Inv, Free;
      var done := 0;
      while tasks != []
        invariant Inv(View()) && !selfOwes && owing == old(owing)
        invariant done + |tasks| == |old(tasks)| && executed + tasks == old(executed) + old(tasks)
        invariant pendingFunctors == Arrived(arrivals, done)
        invariant wakeupCount == old(wakeupCount) + |pendingFunctors|
        decreases |tasks|
      {
        assert executed + tasks == (executed + [tasks[0]]) + tasks[1..];
        RunTask(arrivals(done));
        done := done + 1;
      }
    }

    /** The head of the batch runs, while it and other threads push more tasks. */
    method RunTask(arrivals: seq<Arrival>)
      requires Inv(View()) && Enabled(View(), RunOne) && Free(arrivals, owing)
      modifies this`tasks, this`executed, this`pendingFunctors, this`pushed, this`wakeupCount, this`owing, this`selfOwes
      modifies this`silent
      ensures Inv(View()) && !selfOwes && owing == old(owing)
      ensures executed == old(executed) + [old(tasks)[0]] && tasks == old(tasks)[1..]
      ensures pendingFunctors == old(pendingFunctors) + Tasks(arrivals)
      ensures wakeupCount == old(wakeupCount) + |arrivals|
    {
      hide Inv;
      StepKeepsInv(View(), RunOne);
      executed := executed + [tasks[0]];
      tasks := tasks[1..];
      DrainFacts(View());
      for i := 0 to |arrivals|
        invariant Inv(View()) && !selfOwes && owing == old(owing)
        invariant executed == old(executed) + [old(tasks)[0]] && tasks == old(tasks)[1..]
        invariant pendingFunctors == old(pendingFunctors) + Tasks(arrivals)[..i]
        invariant wakeupCount == old(wakeupCount) + i
      {
        DrainFacts(View());
        assert arrivals[i] in arrivals;
        QueueInLoop(arrivals[i].task, arrivals[i].Own?, if arrivals[i].Own? then 0 else arrivals[i].thread);
        assert Tasks(arrivals)[..i + 1] == Tasks(arrivals)[..i] + [arrivals[i].task];
      }
      assert Tasks(arrivals)[..|arrivals|] == Tasks(arrivals);
    }
  }

  lemma DrainFacts(s: State)
    requires Inv(s) && s.pc == Draining
    ensures s.calling
  {
  }
}
