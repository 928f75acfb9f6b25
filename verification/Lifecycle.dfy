/**
 The life of server-managed connections, as one protocol between the base loop and the io loops.  The base
 loop owns the connection map, each io loop owns its connections, and they talk only through the loops' FIFO
 queues, whose functors may hold a shared reference.  Other threads keep references of their own, queue calls and
 shut connections down; a shutdown loads the state in one step and stores it in a later one.  Every step is one that
 a single thread takes without another seeing its middle, so a run is an arbitrary interleaving of all threads.
 */
module Lifecycle {
  import opened ConnectionStates
  import opened Pollers

  /**
   What waits in a loop's queue.  Establish, Remove and Destroy carry a shared pointer.  Raw and Stale carry only a raw
   pointer: the write-complete and high-water functors, and the sends and shutdowns called on other threads.  They do
   the same, but Stale marks one that was pushed when the destruction of its connection had been queued or had run.
   */
  datatype Functor =
    | Establish(conn: nat) | Remove(conn: nat) | Destroy(conn: nat) | Raw(conn: nat) | Stale(conn: nat) | Other
  {
    predicate Holds(c: nat) {
      (Establish? || Remove? || Destroy?) && conn == c
    }
  }

  datatype Phase = Polling | Dispatching | Draining

  /**
   One event loop.  `todo` is the rest of the running batch followed by the pending queue, and `left` says how
   much of it is batch.  Functors already run stay in `done`, with their references, until the batch ends.
   `midway` marks a removal that has left the map but not yet queued the destruction.  `active` is the list of
   raw channel pointers from the last poll, `handling` the connection being dispatched, `closing` that its
   handleClose has not reached the close callback yet.
   */
  datatype Loop = Loop(phase: Phase, todo: seq<Functor>, left: nat, done: set<Functor>, midway: bool,
                       active: seq<nat>, handling: Option<nat>, closing: bool)

  /** `passed` counts the shutdown calls that found the connection connected and have yet to store the new state. */
  datatype Connection = Connection(loop: nat, status: Status, index: Index, passed: nat)

  /** `users` are the connections that code outside the library holds a reference to. */
  datatype World = World(conns: map<nat, Connection>, connMap: set<nat>, nextId: nat, loops: seq<Loop>, users: set<nat>)

  const BASE: nat := 0
  const IDLE: Loop := Loop(Polling, [], 0, {}, false, [], None, false)

  function Start(ioLoops: nat): World {
    World(map[], {}, 1, seq(ioLoops + 1, _ => IDLE), {})
  }

  // ----- the steps -----

  datatype Step =
    | Accept(loop: nat)
    | PollReturn(loop: nat, active: seq<nat>)
    | BeginEvent(loop: nat)
    | CloseBegin(loop: nat)
    | CloseNotify(loop: nat)
    | EndEvent(loop: nat)
    | CheckShutdown(conn: nat)
    | StoreShutdown(conn: nat)
    | TakeReference(conn: nat)
    | DropReference(conn: nat)
    | QueueNotify(conn: nat)
    | QueueCall(conn: nat)
    | QueueOther(loop: nat)
    | StartBatch(loop: nat)
    | RunTask(loop: nat)
    | EndBatch(loop: nat)

  function Push(w: World, l: nat, f: Functor): World
    requires l < |w.loops|
  {
    w.(loops := w.loops[l := w.loops[l].(todo := w.loops[l].todo + [f])])
  }

  function Pop(w: World, l: nat): World
    requires l < |w.loops| && w.loops[l].left > 0 && w.loops[l].todo != []
  {
    var loop := w.loops[l];
    w.(loops := w.loops[l := loop.(todo := loop.todo[1..], left := loop.left - 1,
                                   done := loop.done + {loop.todo[0]}, midway := false)])
  }

  /** Accepting makes a connection that is in the map but not yet known to its loop. */
  function WithNewcomer(w: World, l: nat): World {
    w.(conns := w.conns[w.nextId := Connection(l, Connecting, New, 0)], connMap := w.connMap + {w.nextId},
       nextId := w.nextId + 1)
  }

  /** A call from another thread, marked by whether it comes in time. */
  function CallTo(w: World, c: nat): Functor
    requires c in w.conns && w.conns[c].loop < |w.loops|
  {
    if w.conns[c].index != New && Destroy(c) !in w.loops[w.conns[c].loop].todo then Raw(c) else Stale(c)
  }

  function SetConn(w: World, c: nat, conn: Connection): World {
    w.(conns := w.conns[c := conn])
  }

  /** The index changes of the protocol are those of the poller on an agreeing channel. */
  lemma IndexesFollowThePoller(cell: Cell)
    requires Agrees(cell)
    ensures Apply(cell, DisableAll).index == Disabled(cell.index)
    ensures Apply(cell, Pollers.Unregister).index == New
    ensures cell.index == New ==> Apply(cell, EnableReading).index == Added
  {
    MasksAreIndependent(cell.events);
  }

  predicate Enabled(w: World, step: Step) {
    match step
    case Accept(l) =>
      l < |w.loops| && w.loops[BASE].phase == Dispatching && w.loops[BASE].handling == None
    case PollReturn(l, active) =>
      l < |w.loops| && w.loops[l].phase == Polling &&
      forall c :: c in active ==> c in w.conns && w.conns[c].loop == l && w.conns[c].index == Added
    case BeginEvent(l) =>
      l < |w.loops| && w.loops[l].phase == Dispatching && w.loops[l].handling == None && w.loops[l].active != []
    case CloseBegin(l) =>
      l < |w.loops| && w.loops[l].handling.Some? && !w.loops[l].closing && w.loops[l].handling.value in w.conns
    case CloseNotify(l) =>
      l < |w.loops| && w.loops[l].handling.Some? && w.loops[l].closing
    case EndEvent(l) =>
      l < |w.loops| && w.loops[l].handling.Some? && !w.loops[l].closing
    case CheckShutdown(c) =>
      c in w.conns && w.conns[c].status == Connected
    case StoreShutdown(c) =>
      c in w.conns && w.conns[c].passed > 0
    case TakeReference(c) =>
      c in w.conns && Alive(w, c)
    case DropReference(c) =>
      c in w.users
    case QueueNotify(c) =>
      && c in w.conns && w.conns[c].loop < |w.loops|
      && w.conns[c].index == Added
      && w.loops[w.conns[c].loop].phase != Polling
    case QueueCall(c) =>
      && c in w.conns && w.conns[c].loop < |w.loops|
      && c in w.users && w.conns[c].status != Connecting
    case QueueOther(l) =>
      l < |w.loops|
    case StartBatch(l) =>
      l < |w.loops| && w.loops[l].phase == Dispatching && w.loops[l].handling == None && w.loops[l].active == []
    case RunTask(l) =>
      && l < |w.loops| && w.loops[l].phase == Draining && w.loops[l].left > 0 && w.loops[l].todo != []
      && (!w.loops[l].todo[0].Other? ==>
            var c := w.loops[l].todo[0].conn; c in w.conns && w.conns[c].loop < |w.loops|)
    case EndBatch(l) =>
      l < |w.loops| && w.loops[l].phase == Draining && w.loops[l].left == 0
  }

  function Next(w: World, step: Step): World
    requires Enabled(w, step)
  {
    match step
    case Accept(l) =>
      var c := w.nextId;
      Push(WithNewcomer(w, l), l, Establish(c))
    case PollReturn(l, active) =>
      w.(loops := w.loops[l := w.loops[l].(phase := Dispatching, active := active)])
    case BeginEvent(l) =>
      var c := w.loops[l].active[0];
      w.(loops := w.loops[l := w.loops[l].(active := w.loops[l].active[1..],
                                           handling := if Alive(w, c) then Some(c) else None)])
    case CloseBegin(l) =>
      var c := w.loops[l].handling.value;
      var conn := w.conns[c];
      var w' := SetConn(w, c, conn.(status := DisConnected, index := Disabled(conn.index)));
      w'.(loops := w.loops[l := w.loops[l].(closing := true)])
    case CloseNotify(l) =>
      var c := w.loops[l].handling.value;
      var w' := w.(loops := w.loops[l := w.loops[l].(closing := false)]);
      if l == BASE then Push(w'.(connMap := w.connMap - {c}), l, Destroy(c)) else Push(w', BASE, Remove(c))
    case EndEvent(l) =>
      w.(loops := w.loops[l := w.loops[l].(handling := None)])
    case CheckShutdown(c) =>
      SetConn(w, c, w.conns[c].(passed := w.conns[c].passed + 1))
    case StoreShutdown(c) =>
      SetConn(w, c, w.conns[c].(status := DisConnecting, passed := w.conns[c].passed - 1))
    case TakeReference(c) =>
      w.(users := w.users + {c})
    case DropReference(c) =>
      w.(users := w.users - {c})
    case QueueNotify(c) =>
      Push(w, w.conns[c].loop, Raw(c))
    case QueueCall(c) =>
      Push(w, w.conns[c].loop, CallTo(w, c))
    case QueueOther(l) =>
      Push(w, l, Other)
    case StartBatch(l) =>
      w.(loops := w.loops[l := w.loops[l].(phase := Draining, left := |w.loops[l].todo|, done := {})])
    case RunTask(l) =>
      RunFunctor(w, l)
    case EndBatch(l) =>
      w.(loops := w.loops[l := w.loops[l].(phase := Polling, done := {})])
  }

  function RunFunctor(w: World, l: nat): World
    requires Enabled(w, RunTask(l))
  {
    match w.loops[l].todo[0]
    case Establish(c) =>
      SetConn(Pop(w, l), c, w.conns[c].(status := Connected, index := Added))
    case Remove(c) =>
      if !w.loops[l].midway then
        w.(connMap := w.connMap - {c}, loops := w.loops[l := w.loops[l].(midway := true)])
      else
        Push(Pop(w, l), w.conns[c].loop, Destroy(c))
    case Destroy(c) =>
      SetConn(Pop(w, l), c, w.conns[c].(status := if w.conns[c].status == Connecting then Connecting else DisConnected,
                                        index := New))
    case _ => Pop(w, l)
  }

  /** Some shared pointer inside the library still refers to the connection. */
  predicate Held(w: World, c: nat) {
    || c in w.connMap
    || exists l :: 0 <= l < |w.loops| && HeldBy(w.loops[l], c)
  }

  predicate Alive(w: World, c: nat) {
    Held(w, c) || c in w.users
  }

  predicate HeldBy(loop: Loop, c: nat) {
    || loop.handling == Some(c)
    || (exists f :: f in loop.todo && f.Holds(c))
    || (exists f :: f in loop.done && f.Holds(c))
  }

  // ----- the invariant -----

  /** A functor waits in the right queue: removals in the base loop, everything else in the connection's own loop. */
  ghost predicate Placed(w: World, l: nat, f: Functor) {
    f.Other? || (f.conn in w.conns && l == if f.Remove? then BASE else w.conns[f.conn].loop)
  }

  ghost predicate LoopOk(w: World, l: nat, loop: Loop) {
    && loop.left <= |loop.todo|
    && (loop.phase != Draining ==> loop.left == 0)
    && (loop.midway ==> loop.left > 0 && loop.todo[0].Remove? && loop.todo[0].conn !in w.connMap)
    && (loop.phase != Dispatching ==> loop.active == [] && loop.handling == None)
    && (loop.closing ==> loop.handling.Some?)
    && (loop.phase != Draining ==> loop.done == {})
    && (forall f :: f in loop.todo ==> Placed(w, l, f))
    && (forall f :: f in loop.done ==> Placed(w, l, f))
    && (forall c :: c in loop.active ==> c in w.conns && w.conns[c].loop == l)
    && (loop.handling.Some? ==> loop.handling.value in w.conns && w.conns[loop.handling.value].loop == l)
  }

  ghost predicate WellFormed(w: World) {
    && |w.loops| > 0
    && (forall l :: 0 <= l < |w.loops| ==> LoopOk(w, l, w.loops[l]))
    && (forall c :: c in w.conns ==> c < w.nextId && w.conns[c].loop < |w.loops|)
    && w.connMap <= w.conns.Keys
    && w.users <= w.conns.Keys
  }

  /** The close handler of `c` is between taking it out of epoll and telling the server. */
  predicate Closing(loop: Loop, c: nat) {
    loop.handling == Some(c) && loop.closing
  }

  /** No functor with a raw pointer waits behind a destruction of its connection. */
  ghost predicate NotifiedFirst(todo: seq<Functor>, c: nat) {
    forall i, j :: 0 <= i < j < |todo| && todo[i] == Destroy(c) ==> todo[j] != Raw(c)
  }

  ghost predicate Once(todo: seq<Functor>, f: Functor) {
    && f in todo
    && forall i, j :: 0 <= i < j < |todo| && todo[i] == f ==> todo[j] != f
  }

  /**
   One connection, given its own loop and the queue of the base loop.  What holds is read off its index, which only its
   own loop changes, and not off its state, which a late shutdown may overwrite.
   */
  ghost predicate ConnOk(conn: Connection, c: nat, inMap: bool, own: Loop, base: seq<Functor>) {
    && NotifiedFirst(own.todo, c)
    && (conn.index == New ==> c !in own.active && own.handling != Some(c) && Raw(c) !in own.todo)
    && (Stale(c) in own.todo ==> conn.status != Connecting && (conn.index == New || Destroy(c) in own.todo))
    && (conn.status == Connected ==> conn.index == Added)
    && if conn.status == Connecting then
         && conn.index == New && inMap && conn.passed == 0 && Once(own.todo, Establish(c))
         && Remove(c) !in base && Destroy(c) !in own.todo
       else if conn.index == Added then
         && conn.status != DisConnected && inMap && Establish(c) !in own.todo
         && !Closing(own, c) && Remove(c) !in base && Destroy(c) !in own.todo
       else
         && Establish(c) !in own.todo
         && (conn.index == Deleted ==> Closing(own, c) || Remove(c) in base || Destroy(c) in own.todo)
         && (inMap ==> conn.index == Deleted && Destroy(c) !in own.todo && (Closing(own, c) || Remove(c) in base))
  }

  ghost predicate ConnsOk(w: World)
    requires WellFormed(w)
  {
    forall c :: c in w.conns ==> ConnOk(w.conns[c], c, c in w.connMap, w.loops[w.conns[c].loop], w.loops[BASE].todo)
  }

  ghost predicate Inv(w: World) {
    WellFormed(w) && ConnsOk(w)
  }

  // ----- queues -----

  lemma AfterPush(todo: seq<Functor>, f: Functor, c: nat)
    ensures forall x :: x in todo + [f] <==> x in todo || x == f
    ensures NotifiedFirst(todo, c) && (f == Raw(c) ==> Destroy(c) !in todo) ==> NotifiedFirst(todo + [f], c)
    ensures Once(todo, Establish(c)) && f != Establish(c) ==> Once(todo + [f], Establish(c))
    ensures Establish(c) !in todo && f == Establish(c) ==> Once(todo + [f], f)
    ensures Destroy(c) !in todo ==> NotifiedFirst(todo + [f], c)
  {
  }

  lemma AfterPop(todo: seq<Functor>, c: nat)
    requires todo != []
    ensures forall x :: x in todo <==> x in todo[1..] || x == todo[0]
    ensures NotifiedFirst(todo, c) ==> NotifiedFirst(todo[1..], c)
    ensures NotifiedFirst(todo, c) && todo[0] == Destroy(c) ==> Raw(c) !in todo[1..]
    ensures Once(todo, Establish(c)) ==>
              if todo[0] == Establish(c) then Establish(c) !in todo[1..] else Once(todo[1..], Establish(c))
  {
    assert todo == [todo[0]] + todo[1..];
  }

  // ----- preservation: loops -----

  /** Connections keep their loop, and the map gains only new ones. */
  ghost predicate Grows(w: World, w': World) {
    && (forall c :: c in w.conns ==> c in w'.conns && w'.conns[c].loop == w.conns[c].loop)
    && (forall c :: c in w'.connMap ==> c in w.connMap || c !in w.conns)
  }

  lemma LoopFrame(w: World, w': World, k: nat, loop: Loop)
    requires Grows(w, w') && LoopOk(w, k, loop)
    ensures LoopOk(w', k, loop)
  {
    forall f | f in loop.todo || f in loop.done ensures Placed(w', k, f) {
      assert Placed(w, k, f);
    }
    if loop.midway {
      assert loop.todo[0] in loop.todo;
    }
  }

  /** Changing one loop: only that loop has to be looked at. */
  lemma LoopsFrame(w: World, w': World, l: nat)
    requires WellFormed(w) && Grows(w, w') && l < |w.loops| == |w'.loops|
    requires w'.loops == w.loops[l := w'.loops[l]] && LoopOk(w', l, w'.loops[l])
    ensures forall k :: 0 <= k < |w'.loops| ==> LoopOk(w', k, w'.loops[k])
  {
    hide LoopOk;
    forall k | 0 <= k < |w'.loops| ensures LoopOk(w', k, w'.loops[k]) {
      if k != l {
        assert w'.loops[k] == w.loops[k];
        LoopFrame(w, w', k, w.loops[k]);
      }
    }
  }

  lemma PushLoopOk(w: World, l: nat, loop: Loop, f: Functor)
    requires LoopOk(w, l, loop) && Placed(w, l, f)
    ensures LoopOk(w, l, loop.(todo := loop.todo + [f]))
  {
    AfterPush(loop.todo, f, 0);
  }

  lemma PopLoopOk(w: World, l: nat, loop: Loop, done: set<Functor>)
    requires LoopOk(w, l, loop) && loop.left > 0 && loop.phase == Draining && done == loop.done + {loop.todo[0]}
    ensures LoopOk(w, l, loop.(todo := loop.todo[1..], left := loop.left - 1, done := done, midway := false))
  {
    AfterPop(loop.todo, 0);
  }

  lemma PushWellFormed(w: World, l: nat, f: Functor)
    requires WellFormed(w) && l < |w.loops| && Placed(w, l, f)
    ensures WellFormed(Push(w, l, f))
  {
    hide LoopOk;
    PushLoopOk(w, l, w.loops[l], f);
    var w' := Push(w, l, f);
    LoopFrame(w, w', l, w'.loops[l]);
    LoopsFrame(w, w', l);
  }

  lemma PopWellFormed(w: World, l: nat)
    requires WellFormed(w) && l < |w.loops| && w.loops[l].left > 0 &&
             w.loops[l].todo != [] && w.loops[l].phase == Draining
    ensures WellFormed(Pop(w, l))
  {
    hide LoopOk;
    PopLoopOk(w, l, w.loops[l], w.loops[l].done + {w.loops[l].todo[0]});
    var w' := Pop(w, l);
    LoopFrame(w, w', l, w'.loops[l]);
    LoopsFrame(w, w', l);
  }

  /** Changing the status or index of a connection, or taking it out of the map, concerns no loop. */
  lemma ConnWellFormed(w: World, w': World)
    requires WellFormed(w) && Grows(w, w') && w'.loops == w.loops &&
             w'.connMap <= w'.conns.Keys && w'.users <= w'.conns.Keys
    requires forall c :: c in w'.conns ==> c < w'.nextId && w'.conns[c].loop < |w.loops|
    ensures WellFormed(w')
  {
    hide LoopOk;
    forall k | 0 <= k < |w'.loops| ensures LoopOk(w', k, w'.loops[k]) {
      LoopFrame(w, w', k, w.loops[k]);
    }
  }

  /** A loop may change everything but its queue freely, as long as it stays in order itself. */
  lemma LoopWellFormed(w: World, l: nat, loop: Loop)
    requires WellFormed(w) && l < |w.loops| && LoopOk(w, l, loop)
    ensures WellFormed(w.(loops := w.loops[l := loop]))
  {
    hide LoopOk;
    var w' := w.(loops := w.loops[l := loop]);
    LoopFrame(w, w', l, loop);
    LoopsFrame(w, w', l);
  }

  lemma AcceptWellFormed(w: World, l: nat)
    requires WellFormed(w) && Enabled(w, Accept(l))
    ensures WellFormed(WithNewcomer(w, l)) && WellFormed(Next(w, Accept(l)))
  {
    hide LoopOk;
    ConnWellFormed(w, WithNewcomer(w, l));
    PushWellFormed(WithNewcomer(w, l), l, Establish(w.nextId));
  }

  /** Poll, dispatch and batch steps change one loop only. */
  lemma DispatchWellFormed(w: World, step: Step)
    requires WellFormed(w) && Enabled(w, step)
    requires step.PollReturn? || step.BeginEvent? || step.EndEvent?
    ensures WellFormed(Next(w, step))
  {
    var l := step.loop;
    if step.BeginEvent? {
      assert w.loops[l].active == [w.loops[l].active[0]] + w.loops[l].active[1..];
    }
    LoopWellFormed(w, l, Next(w, step).loops[l]);
  }

  lemma BatchWellFormed(w: World, step: Step)
    requires WellFormed(w) && Enabled(w, step) && (step.StartBatch? || step.EndBatch?)
    ensures WellFormed(Next(w, step))
  {
    LoopWellFormed(w, step.loop, Next(w, step).loops[step.loop]);
  }

  lemma CloseBeginWellFormed(w: World, l: nat)
    requires WellFormed(w) && Enabled(w, CloseBegin(l))
    ensures WellFormed(Next(w, CloseBegin(l)))
  {
    LoopWellFormed(w, l, w.loops[l].(closing := true));
    hide LoopOk;
    ConnWellFormed(w.(loops := w.loops[l := w.loops[l].(closing := true)]), Next(w, CloseBegin(l)));
  }

  /** Shutdowns and references of other threads concern no loop. */
  lemma ForeignWellFormed(w: World, step: Step)
    requires WellFormed(w) && Enabled(w, step)
    requires step.CheckShutdown? || step.StoreShutdown? || step.TakeReference? || step.DropReference?
    ensures WellFormed(Next(w, step))
  {
    hide LoopOk, Held;
    ConnWellFormed(w, Next(w, step));
  }

  lemma QueueWellFormed(w: World, step: Step)
    requires WellFormed(w) && Enabled(w, step) && (step.QueueNotify? || step.QueueCall? || step.QueueOther?)
    ensures WellFormed(Next(w, step))
  {
    hide LoopOk, WellFormed;
    match step
    case QueueNotify(c) => PushWellFormed(w, w.conns[c].loop, Raw(c));
    case QueueCall(c) => PushWellFormed(w, w.conns[c].loop, CallTo(w, c));
    case QueueOther(l) => PushWellFormed(w, l, Other);
  }

  lemma StepWellFormed(w: World, step: Step)
    requires WellFormed(w) && Enabled(w, step)
    ensures WellFormed(Next(w, step))
  {
    hide WellFormed, Next, Enabled;
    match step
    case Accept(l) => AcceptWellFormed(w, l);
    case CloseBegin(l) => CloseBeginWellFormed(w, l);
    case CloseNotify(l) => CloseNotifyWellFormed(w, l);
    case RunTask(l) => TaskWellFormed(w, l);
    case StartBatch(_) => BatchWellFormed(w, step);
    case EndBatch(_) => BatchWellFormed(w, step);
    case PollReturn(_, _) => DispatchWellFormed(w, step);
    case BeginEvent(_) => DispatchWellFormed(w, step);
    case EndEvent(_) => DispatchWellFormed(w, step);
    case CheckShutdown(_) => ForeignWellFormed(w, step);
    case StoreShutdown(_) => ForeignWellFormed(w, step);
    case TakeReference(_) => ForeignWellFormed(w, step);
    case DropReference(_) => ForeignWellFormed(w, step);
    case QueueNotify(_) => QueueWellFormed(w, step);
    case QueueCall(_) => QueueWellFormed(w, step);
    case QueueOther(_) => QueueWellFormed(w, step);
  }

  lemma CloseNotifyWellFormed(w: World, l: nat)
    requires WellFormed(w) && Enabled(w, CloseNotify(l))
    ensures WellFormed(Next(w, CloseNotify(l)))
  {
    var c := w.loops[l].handling.value;
    var w1 := w.(loops := w.loops[l := w.loops[l].(closing := false)]);
    LoopWellFormed(w, l, w.loops[l].(closing := false));
    if l == BASE {
      ConnWellFormed(w1, w1.(connMap := w.connMap - {c}));
      PushWellFormed(w1.(connMap := w.connMap - {c}), l, Destroy(c));
    } else {
      PushWellFormed(w1, BASE, Remove(c));
    }
  }

  lemma TaskWellFormed(w: World, l: nat)
    requires WellFormed(w) && Enabled(w, RunTask(l))
    ensures WellFormed(Next(w, RunTask(l)))
  {
    var f := w.loops[l].todo[0];
    PopWellFormed(w, l);
    if f.Remove? {
      if w.loops[l].midway {
        PushWellFormed(Pop(w, l), w.conns[f.conn].loop, Destroy(f.conn));
      } else {
        var w1 := w.(connMap := w.connMap - {f.conn});
        ConnWellFormed(w, w1);
        LoopWellFormed(w1, l, w.loops[l].(midway := true));
      }
    } else {
      ConnWellFormed(Pop(w, l), Next(w, RunTask(l)));
    }
  }

  // ----- preservation: connections -----

  /** What the invariant says of one connection of a world. */
  ghost predicate Good(w: World, c: nat)
    requires WellFormed(w) && c in w.conns
  {
    ConnOk(w.conns[c], c, c in w.connMap, w.loops[w.conns[c].loop], w.loops[BASE].todo)
  }

  lemma HeadIsPlaced(w: World, l: nat)
    requires WellFormed(w) && Enabled(w, RunTask(l))
    ensures Placed(w, l, w.loops[l].todo[0]) && w.loops[l].phase == Draining
    ensures w.loops[l].active == [] && w.loops[l].handling == None
    ensures w.loops[l].midway ==> w.loops[l].todo[0].Remove? && w.loops[l].todo[0].conn !in w.connMap
  {
    assert LoopOk(w, l, w.loops[l]);
  }

  lemma ConnIsGood(w: World, c: nat)
    requires Inv(w) && c in w.conns
    ensures |w.loops| > 0 && w.conns[c].loop < |w.loops| && Good(w, c)
  {
  }

  lemma DispatchFacts(w: World, l: nat)
    requires WellFormed(w) && l < |w.loops|
    ensures forall c :: c in w.loops[l].active || w.loops[l].handling == Some(c) ==>
              c in w.conns && w.conns[c].loop == l
    ensures w.loops[l].closing ==> w.loops[l].handling.Some?
  {
    assert LoopOk(w, l, w.loops[l]);
  }

  lemma PushFrame(w: World, l: nat, f: Functor, d: nat)
    requires WellFormed(w) && l < |w.loops| && Placed(w, l, f) && d in w.conns && Good(w, d)
    requires f !in {Establish(d), Remove(d), Destroy(d), Raw(d), Stale(d)}
    ensures WellFormed(Push(w, l, f)) && Good(Push(w, l, f), d)
  {
    PushWellFormed(w, l, f);
    AfterPush(w.loops[l].todo, f, d);
    hide NotifiedFirst, Once, LoopOk, WellFormed;
  }

  lemma AcceptKeeps(w: World, l: nat)
    requires Inv(w) && Enabled(w, Accept(l)) && WellFormed(Next(w, Accept(l)))
    ensures ConnsOk(Next(w, Accept(l)))
  {
    hide ConnOk, LoopOk;
    var c, w', w1 := w.nextId, Next(w, Accept(l)), WithNewcomer(w, l);
    AcceptWellFormed(w, l);
    forall d | d in w'.conns ensures Good(w', d) {
      if d == c {
        NewcomerIsGood(w, l);
      } else {
        assert Good(w, d);
        PushFrame(w1, l, Establish(c), d);
      }
    }
  }

  lemma NewcomerIsGood(w: World, l: nat)
    requires Inv(w) && Enabled(w, Accept(l)) && WellFormed(Next(w, Accept(l)))
    ensures Good(Next(w, Accept(l)), w.nextId)
  {
    var c := w.nextId;
    assert LoopOk(w, l, w.loops[l]) && LoopOk(w, BASE, w.loops[BASE]);
    assert forall f :: f in w.loops[l].todo ==> Placed(w, l, f);
    assert forall f :: f in w.loops[BASE].todo ==> Placed(w, BASE, f);
    AfterPush(w.loops[l].todo, Establish(c), c);
    hide LoopOk, NotifiedFirst, Once, ConnsOk, WellFormed;
  }

  lemma PollKeeps(w: World, l: nat, active: seq<nat>)
    requires Inv(w) && Enabled(w, PollReturn(l, active)) && WellFormed(Next(w, PollReturn(l, active)))
    ensures ConnsOk(Next(w, PollReturn(l, active)))
  {
    hide NotifiedFirst, Once, LoopOk, WellFormed;
    var w' := Next(w, PollReturn(l, active));
    forall d | d in w'.conns ensures Good(w', d) {
      ConnIsGood(w, d);
    }
  }

  lemma BeginEventKeeps(w: World, l: nat)
    requires Inv(w) && Enabled(w, BeginEvent(l)) && WellFormed(Next(w, BeginEvent(l)))
    ensures ConnsOk(Next(w, BeginEvent(l)))
  {
    hide NotifiedFirst, Once, LoopOk, WellFormed;
    DispatchFacts(w, l);
    var w' := Next(w, BeginEvent(l));
    assert w.loops[l].active == [w.loops[l].active[0]] + w.loops[l].active[1..];
    forall d | d in w'.conns ensures Good(w', d) {
      ConnIsGood(w, d);
    }
  }

  lemma CloseBeginKeeps(w: World, l: nat)
    requires Inv(w) && Enabled(w, CloseBegin(l)) && WellFormed(Next(w, CloseBegin(l)))
    ensures ConnsOk(Next(w, CloseBegin(l)))
  {
    hide NotifiedFirst, Once, LoopOk, WellFormed;
    DispatchFacts(w, l);
    var w' := Next(w, CloseBegin(l));
    forall d | d in w'.conns ensures Good(w', d) {
      ConnIsGood(w, d);
    }
  }

  /** The close callback, on the base loop: erase from the map and queue the destruction at once. */
  lemma CloseOnBaseKeeps(w: World)
    requires Inv(w) && Enabled(w, CloseNotify(BASE)) && WellFormed(Next(w, CloseNotify(BASE)))
    ensures ConnsOk(Next(w, CloseNotify(BASE)))
  {
    hide NotifiedFirst, Once, LoopOk, WellFormed;
    var c, w' := w.loops[BASE].handling.value, Next(w, CloseNotify(BASE));
    DispatchFacts(w, BASE);
    forall d | d in w'.conns ensures Good(w', d) {
      ConnIsGood(w, d);
      AfterPush(w.loops[BASE].todo, Destroy(c), d);
    }
  }

  /** The close callback, on an io loop: queue the removal on the base loop. */
  lemma CloseOnIoKeeps(w: World, l: nat)
    requires Inv(w) && Enabled(w, CloseNotify(l)) && l != BASE && WellFormed(Next(w, CloseNotify(l)))
    ensures ConnsOk(Next(w, CloseNotify(l)))
  {
    hide NotifiedFirst, Once, LoopOk, WellFormed;
    var c, w' := w.loops[l].handling.value, Next(w, CloseNotify(l));
    DispatchFacts(w, l);
    forall d | d in w'.conns ensures Good(w', d) {
      ConnIsGood(w, d);
      AfterPush(w.loops[BASE].todo, Remove(c), d);
    }
  }

  lemma EndEventKeeps(w: World, l: nat)
    requires Inv(w) && Enabled(w, EndEvent(l)) && WellFormed(Next(w, EndEvent(l)))
    ensures ConnsOk(Next(w, EndEvent(l)))
  {
    hide NotifiedFirst, Once, LoopOk, WellFormed;
    var w' := Next(w, EndEvent(l));
    forall d | d in w'.conns ensures Good(w', d) {
      ConnIsGood(w, d);
    }
  }

  /** In particular a shutdown that stores its state after a close disturbs nothing. */
  lemma ForeignKeeps(w: World, step: Step)
    requires Inv(w) && Enabled(w, step) && WellFormed(Next(w, step))
    requires step.CheckShutdown? || step.StoreShutdown? || step.TakeReference? || step.DropReference?
    ensures ConnsOk(Next(w, step))
  {
    hide NotifiedFirst, Once, LoopOk, WellFormed, Held;
    var w' := Next(w, step);
    forall d | d in w'.conns ensures Good(w', d) {
      ConnIsGood(w, d);
    }
  }

  lemma QueueCallOwn(w: World, c: nat)
    requires Inv(w) && Enabled(w, QueueCall(c)) && WellFormed(Next(w, QueueCall(c)))
    ensures Good(Next(w, QueueCall(c)), c)
  {
    hide NotifiedFirst, Once, LoopOk, WellFormed, ConnsOk;
    ConnIsGood(w, c);
    AfterPush(w.loops[w.conns[c].loop].todo, CallTo(w, c), c);
  }

  lemma QueueCallKeeps(w: World, c: nat)
    requires Inv(w) && Enabled(w, QueueCall(c)) && WellFormed(Next(w, QueueCall(c)))
    ensures ConnsOk(Next(w, QueueCall(c)))
  {
    hide ConnOk, LoopOk;
    forall d | d in w.conns ensures Good(Next(w, QueueCall(c)), d) {
      if d == c {
        QueueCallOwn(w, c);
      } else {
        PushFrame(w, w.conns[c].loop, CallTo(w, c), d);
      }
    }
  }

  lemma QueueNotifyOwn(w: World, c: nat)
    requires Inv(w) && Enabled(w, QueueNotify(c)) && WellFormed(Next(w, QueueNotify(c)))
    ensures Good(Next(w, QueueNotify(c)), c)
  {
    hide NotifiedFirst, Once, LoopOk, WellFormed, ConnsOk;
    ConnIsGood(w, c);
    AfterPush(w.loops[w.conns[c].loop].todo, Raw(c), c);
  }

  lemma QueueNotifyKeeps(w: World, c: nat)
    requires Inv(w) && Enabled(w, QueueNotify(c)) && WellFormed(Next(w, QueueNotify(c)))
    ensures ConnsOk(Next(w, QueueNotify(c)))
  {
    hide ConnOk, LoopOk;
    forall d | d in w.conns ensures Good(Next(w, QueueNotify(c)), d) {
      if d == c {
        QueueNotifyOwn(w, c);
      } else {
        PushFrame(w, w.conns[c].loop, Raw(c), d);
      }
    }
  }

  lemma QueueOtherKeeps(w: World, l: nat)
    requires Inv(w) && Enabled(w, QueueOther(l)) && WellFormed(Next(w, QueueOther(l)))
    ensures ConnsOk(Next(w, QueueOther(l)))
  {
    hide ConnOk, LoopOk;
    forall d | d in w.conns ensures Good(Next(w, QueueOther(l)), d) {
      PushFrame(w, l, Other, d);
    }
  }

  lemma StartBatchKeeps(w: World, l: nat)
    requires Inv(w) && Enabled(w, StartBatch(l)) && WellFormed(Next(w, StartBatch(l)))
    ensures ConnsOk(Next(w, StartBatch(l)))
  {
    hide NotifiedFirst, Once, LoopOk, WellFormed;
    var w' := Next(w, StartBatch(l));
    forall d | d in w'.conns ensures Good(w', d) {
      ConnIsGood(w, d);
    }
  }

  lemma EndBatchKeeps(w: World, l: nat)
    requires Inv(w) && Enabled(w, EndBatch(l)) && WellFormed(Next(w, EndBatch(l)))
    ensures ConnsOk(Next(w, EndBatch(l)))
  {
    hide NotifiedFirst, Once, LoopOk, WellFormed;
    var w' := Next(w, EndBatch(l));
    forall d | d in w'.conns ensures Good(w', d) {
      ConnIsGood(w, d);
    }
  }

  /** Taking a functor off a queue concerns at most its own connection, and that only for some functors. */
  lemma PopFrame(w: World, l: nat, d: nat)
    requires Inv(w) && Enabled(w, RunTask(l)) && WellFormed(Pop(w, l)) && d in w.conns
    requires w.loops[l].todo[0] !in {Establish(d), Remove(d), Destroy(d)}
    ensures Good(Pop(w, l), d)
  {
    hide NotifiedFirst, Once, LoopOk, WellFormed, ConnsOk;
    ConnIsGood(w, d);
    AfterPop(w.loops[l].todo, d);
  }

  lemma EstablishOwn(w: World, l: nat)
    requires Inv(w) && Enabled(w, RunTask(l)) && WellFormed(Next(w, RunTask(l)))
    requires w.loops[l].todo[0].Establish?
    ensures Good(Next(w, RunTask(l)), w.loops[l].todo[0].conn)
  {
    hide NotifiedFirst, Once, LoopOk, WellFormed, ConnsOk;
    var f := w.loops[l].todo[0];
    HeadIsPlaced(w, l);
    ConnIsGood(w, f.conn);
    AfterPop(w.loops[l].todo, f.conn);
  }

  /** connectionEstablished runs. */
  lemma EstablishKeeps(w: World, l: nat)
    requires Inv(w) && Enabled(w, RunTask(l)) && WellFormed(Next(w, RunTask(l)))
    requires w.loops[l].todo[0].Establish?
    ensures ConnsOk(Next(w, RunTask(l)))
  {
    hide ConnOk, LoopOk;
    var f, w' := w.loops[l].todo[0], Next(w, RunTask(l));
    PopWellFormed(w, l);
    forall d | d in w'.conns ensures Good(w', d) {
      if d == f.conn {
        EstablishOwn(w, l);
      } else {
        PopFrame(w, l, d);
      }
    }
  }

  lemma QueueDestroyOwn(w: World, l: nat)
    requires Inv(w) && Enabled(w, RunTask(l)) && WellFormed(Next(w, RunTask(l)))
    requires w.loops[l].todo[0].Remove? && w.loops[l].midway
    ensures Good(Next(w, RunTask(l)), w.loops[l].todo[0].conn)
  {
    hide NotifiedFirst, Once, LoopOk, WellFormed, ConnsOk;
    var f := w.loops[l].todo[0];
    HeadIsPlaced(w, l);
    ConnIsGood(w, f.conn);
    AfterPop(w.loops[l].todo, f.conn);
    AfterPush(Pop(w, l).loops[w.conns[f.conn].loop].todo, Destroy(f.conn), f.conn);
  }

  /** The second half of a removal: its destruction is queued on the connection's own loop. */
  lemma QueueDestroyKeeps(w: World, l: nat)
    requires Inv(w) && Enabled(w, RunTask(l)) && WellFormed(Next(w, RunTask(l)))
    requires w.loops[l].todo[0].Remove? && w.loops[l].midway
    ensures ConnsOk(Next(w, RunTask(l)))
  {
    hide ConnOk, LoopOk;
    var f, w' := w.loops[l].todo[0], Next(w, RunTask(l));
    PopWellFormed(w, l);
    forall d | d in w'.conns ensures Good(w', d) {
      if d == f.conn {
        QueueDestroyOwn(w, l);
      } else {
        PopFrame(w, l, d);
        PushFrame(Pop(w, l), w.conns[f.conn].loop, Destroy(f.conn), d);
      }
    }
  }

  lemma DestroyOwn(w: World, l: nat)
    requires Inv(w) && Enabled(w, RunTask(l)) && WellFormed(Next(w, RunTask(l)))
    requires w.loops[l].todo[0].Destroy?
    ensures Good(Next(w, RunTask(l)), w.loops[l].todo[0].conn)
  {
    hide NotifiedFirst, Once, LoopOk, WellFormed, ConnsOk;
    var f := w.loops[l].todo[0];
    HeadIsPlaced(w, l);
    ConnIsGood(w, f.conn);
    AfterPop(w.loops[l].todo, f.conn);
  }

  /** connectionDestroyed runs, for the first time or again. */
  lemma DestroyKeeps(w: World, l: nat)
    requires Inv(w) && Enabled(w, RunTask(l)) && WellFormed(Next(w, RunTask(l)))
    requires w.loops[l].todo[0].Destroy?
    ensures ConnsOk(Next(w, RunTask(l)))
  {
    hide ConnOk, LoopOk;
    var f, w' := w.loops[l].todo[0], Next(w, RunTask(l));
    PopWellFormed(w, l);
    forall d | d in w'.conns ensures Good(w', d) {
      if d == f.conn {
        DestroyOwn(w, l);
      } else {
        PopFrame(w, l, d);
      }
    }
  }

  /** The first half of a removal: the connection leaves the map. */
  lemma EraseKeeps(w: World, l: nat)
    requires Inv(w) && Enabled(w, RunTask(l)) && WellFormed(Next(w, RunTask(l)))
    requires w.loops[l].todo[0].Remove? && !w.loops[l].midway
    ensures ConnsOk(Next(w, RunTask(l)))
  {
    hide NotifiedFirst, Once, LoopOk, WellFormed;
    var f, w' := w.loops[l].todo[0], Next(w, RunTask(l));
    HeadIsPlaced(w, l);
    forall d | d in w'.conns ensures Good(w', d) {
      ConnIsGood(w, d);
    }
  }

  /** Any other functor runs. */
  lemma CallbackKeeps(w: World, l: nat)
    requires Inv(w) && Enabled(w, RunTask(l)) && WellFormed(Next(w, RunTask(l)))
    requires w.loops[l].todo[0].Raw? || w.loops[l].todo[0].Stale? || w.loops[l].todo[0].Other?
    ensures ConnsOk(Next(w, RunTask(l)))
  {
    hide ConnOk, LoopOk;
    var w' := Next(w, RunTask(l));
    forall d | d in w'.conns ensures Good(w', d) {
      PopFrame(w, l, d);
    }
  }

  // ----- all runs -----

  lemma StepKeepsInv(w: World, step: Step)
    requires Inv(w) && Enabled(w, step)
    ensures Inv(Next(w, step))
  {
    StepWellFormed(w, step);
    hide Next, Enabled, ConnsOk, WellFormed;
    match step
    case Accept(l) => AcceptKeeps(w, l);
    case PollReturn(l, active) => PollKeeps(w, l, active);
    case BeginEvent(l) => BeginEventKeeps(w, l);
    case CloseBegin(l) => CloseBeginKeeps(w, l);
    case CloseNotify(l) => if l == BASE { CloseOnBaseKeeps(w); } else { CloseOnIoKeeps(w, l); }
    case EndEvent(l) => EndEventKeeps(w, l);
    case CheckShutdown(_) => ForeignKeeps(w, step);
    case StoreShutdown(_) => ForeignKeeps(w, step);
    case TakeReference(_) => ForeignKeeps(w, step);
    case DropReference(_) => ForeignKeeps(w, step);
    case QueueNotify(c) => QueueNotifyKeeps(w, c);
    case QueueCall(c) => QueueCallKeeps(w, c);
    case QueueOther(l) => QueueOtherKeeps(w, l);
    case StartBatch(l) => StartBatchKeeps(w, l);
    case RunTask(l) => TaskKeeps(w, l);
    case EndBatch(l) => EndBatchKeeps(w, l);
  }

  lemma TaskKeeps(w: World, l: nat)
    requires Inv(w) && Enabled(w, RunTask(l)) && WellFormed(Next(w, RunTask(l)))
    ensures ConnsOk(Next(w, RunTask(l)))
  {
    var f := w.loops[l].todo[0];
    hide ConnsOk, WellFormed, RunFunctor;
    match f
    case Establish(_) => EstablishKeeps(w, l);
    case Remove(_) => if w.loops[l].midway { QueueDestroyKeeps(w, l); } else { EraseKeeps(w, l); }
    case Destroy(_) => DestroyKeeps(w, l);
    case _ => CallbackKeeps(w, l);
  }

  ghost function Run(w: World, steps: seq<Step>): World
    requires EnabledRun(w, steps)
    decreases |steps|
  {
    if steps == [] then w else Run(Next(w, steps[0]), steps[1..])
  }

  ghost predicate EnabledRun(w: World, steps: seq<Step>)
    decreases |steps|
  {
    steps == [] || (Enabled(w, steps[0]) && EnabledRun(Next(w, steps[0]), steps[1..]))
  }

  lemma {:induction false} RunKeepsInv(w: World, steps: seq<Step>)
    requires Inv(w) && EnabledRun(w, steps)
    ensures Inv(Run(w, steps))
    decreases |steps|
  {
    hide Inv, Next, Enabled;
    if steps != [] {
      StepKeepsInv(w, steps[0]);
      RunKeepsInv(Next(w, steps[0]), steps[1..]);
    }
  }

  lemma {:induction false} RunSnoc(w: World, steps: seq<Step>, last: Step)
    requires EnabledRun(w, steps) && Enabled(Run(w, steps), last)
    ensures EnabledRun(w, steps + [last]) && Run(w, steps + [last]) == Next(Run(w, steps), last)
    decreases |steps|
  {
    hide Next, Enabled;
    if steps == [] {
      assert [last][1..] == [];
    } else {
      assert (steps + [last])[1..] == steps[1..] + [last];
      RunSnoc(Next(w, steps[0]), steps[1..], last);
    }
  }

  /**
   In every interleaving, a connection whose channel the poller knows is still owned: by the map, by its own
   running close handler, by a removal waiting or running on the base loop, or by a destruction waiting on its
   own loop.
   */
  lemma RegisteredIsHeld(ioLoops: nat, steps: seq<Step>, c: nat)
    requires EnabledRun(Start(ioLoops), steps)
    ensures var w := Run(Start(ioLoops), steps);
            c in w.conns && w.conns[c].index != New ==>
              && w.conns[c].loop < |w.loops|
              && (|| c in w.connMap
                  || Closing(w.loops[w.conns[c].loop], c)
                  || Remove(c) in w.loops[BASE].todo
                  || Destroy(c) in w.loops[w.conns[c].loop].todo)
              && Held(w, c)
  {
    RunKeepsInv(Start(ioLoops), steps);
    var w := Run(Start(ioLoops), steps);
    if c in w.conns && w.conns[c].index != New {
      assert Good(w, c);
      OwnerHolds(w, c);
    }
  }

  lemma OwnerHolds(w: World, c: nat)
    requires Inv(w) && c in w.conns && w.conns[c].index != New
    ensures Held(w, c)
  {
    assert Good(w, c);
    var own := w.loops[w.conns[c].loop];
    if c !in w.connMap {
      if Remove(c) in w.loops[BASE].todo {
        assert Remove(c).Holds(c) && HeldBy(w.loops[BASE], c);
      } else {
        assert Destroy(c).Holds(c);
        assert HeldBy(own, c);
      }
    }
  }

  /** The connection has been established and closed.  A shutdown that came too late may still show it as closing. */
  predicate Closed(w: World, c: nat) {
    c in w.conns && w.conns[c].status != Connecting && w.conns[c].index != Added
  }

  lemma TaskKeepsClosed(w: World, l: nat, c: nat)
    requires Inv(w) && Enabled(w, RunTask(l)) && Closed(w, c)
    ensures Closed(Next(w, RunTask(l)), c)
  {
    hide NotifiedFirst, Once, LoopOk, WellFormed, ConnsOk;
    ConnIsGood(w, c);
    HeadIsPlaced(w, l);
  }

  lemma StepKeepsClosed(w: World, step: Step, c: nat)
    requires Inv(w) && Enabled(w, step) && Closed(w, c)
    ensures Closed(Next(w, step), c)
  {
    hide NotifiedFirst, Once, LoopOk, WellFormed, ConnsOk, RunFunctor, Held;
    NextIdIsNew(w);
    ConnIsGood(w, c);
    if step.RunTask? {
      TaskKeepsClosed(w, step.loop, c);
    }
  }

  lemma NextIdIsNew(w: World)
    requires WellFormed(w)
    ensures w.nextId !in w.conns
  {
  }

  /** Closing is final: in no continuation does the connection come back to epoll. */
  lemma {:induction false} ClosedStays(w: World, steps: seq<Step>, c: nat)
    requires Inv(w) && EnabledRun(w, steps) && Closed(w, c)
    ensures Closed(Run(w, steps), c)
    decreases |steps|
  {
    hide Inv, Next, Enabled, Closed;
    if steps != [] {
      StepKeepsInv(w, steps[0]);
      StepKeepsClosed(w, steps[0], c);
      ClosedStays(Next(w, steps[0]), steps[1..], c);
    }
  }

  /**
   However often close is delivered: a closed connection with no close handler running and no removal or destruction
   outstanding is in neither the map nor the poller, and once the running batches end nothing in the library refers to
   it any more.
   */
  lemma TornDown(ioLoops: nat, steps: seq<Step>, c: nat)
    requires EnabledRun(Start(ioLoops), steps)
    requires var w := Run(Start(ioLoops), steps);
             Closed(w, c)
             && forall l :: 0 <= l < |w.loops| ==>
                  && w.loops[l].handling != Some(c)
                  && Remove(c) !in w.loops[l].todo && Destroy(c) !in w.loops[l].todo
    ensures var w := Run(Start(ioLoops), steps);
            && c !in w.connMap && w.conns[c].index == New
            && ((forall l, f :: 0 <= l < |w.loops| && f in w.loops[l].done ==> !f.Holds(c)) ==> !Held(w, c))
  {
    hide Inv, Closed, Held;
    StartInv(ioLoops);
    RunKeepsInv(Start(ioLoops), steps);
    NothingOutstanding(Run(Start(ioLoops), steps), c);
  }

  lemma StartInv(ioLoops: nat)
    ensures Inv(Start(ioLoops))
  {
  }

  lemma NothingOutstanding(w: World, c: nat)
    requires Inv(w) && Closed(w, c)
    requires forall l :: 0 <= l < |w.loops| ==>
               w.loops[l].handling != Some(c) && Remove(c) !in w.loops[l].todo && Destroy(c) !in w.loops[l].todo
    ensures c !in w.connMap && w.conns[c].index == New
    ensures (forall l, f :: 0 <= l < |w.loops| && f in w.loops[l].done ==> !f.Holds(c)) ==> !Held(w, c)
  {
    hide NotifiedFirst, Once, LoopOk, WellFormed, ConnsOk;
    ConnIsGood(w, c);
    forall l, f | 0 <= l < |w.loops| && f in w.loops[l].todo ensures !f.Holds(c) {
      QueuedIsPlaced(w, l, f);
    }
  }

  lemma QueuedIsPlaced(w: World, l: nat, f: Functor)
    requires WellFormed(w) && l < |w.loops| && f in w.loops[l].todo
    ensures Placed(w, l, f)
  {
    assert LoopOk(w, l, w.loops[l]);
  }

  // ----- progress -----

  ghost predicate InBatch(loop: Loop, f: Functor) {
    exists i :: 0 <= i < loop.left && i < |loop.todo| && loop.todo[i] == f
  }

  /** The step runs the head of the batch of loop `l` to its end. */
  predicate Finishes(w: World, step: Step, l: nat)
    requires l < |w.loops|
  {
    step == RunTask(l) && w.loops[l].todo != [] && (w.loops[l].todo[0].Remove? ==> w.loops[l].midway)
  }

  /** A queue grows at its end only, and loses its head only when that has run. */
  lemma QueueMoves(w: World, step: Step, l: nat)
    requires Enabled(w, step) && l < |w.loops|
    ensures l < |Next(w, step).loops|
    ensures var before, after := w.loops[l], Next(w, step).loops[l];
            if Finishes(w, step, l) then
              before.left > 0 && after.left == before.left - 1 && before.todo[1..] <= after.todo
            else
              before.todo <= after.todo && after.left == if step == StartBatch(l) then |after.todo| else before.left
  {
    hide RunFunctor, Held;
    if step.RunTask? {
      TaskMoves(w, step.loop, l);
    }
  }

  lemma TaskMoves(w: World, k: nat, l: nat)
    requires Enabled(w, RunTask(k)) && l < |w.loops|
    ensures l < |RunFunctor(w, k).loops|
    ensures var before, after := w.loops[l], RunFunctor(w, k).loops[l];
            if Finishes(w, RunTask(k), l) then
              before.left > 0 && after.left == before.left - 1 && before.todo[1..] <= after.todo
            else
              before.todo <= after.todo && after.left == before.left
  {
  }

  lemma QueueKeeps(w: World, step: Step, l: nat, f: Functor)
    requires WellFormed(w) && Enabled(w, step) && l < |w.loops| && l < |Next(w, step).loops|
    ensures f in w.loops[l].todo ==>
              f in Next(w, step).loops[l].todo || (Finishes(w, step, l) && f == w.loops[l].todo[0])
    ensures InBatch(w.loops[l], f) ==>
              InBatch(Next(w, step).loops[l], f) || (Finishes(w, step, l) && f == w.loops[l].todo[0])
    ensures step == StartBatch(l) && f in w.loops[l].todo ==> InBatch(Next(w, step).loops[l], f)
    ensures step == EndBatch(l) ==> !InBatch(w.loops[l], f)
  {
    hide Next, Enabled, WellFormed, Finishes, InBatch;
    QueueMoves(w, step, l);
    LeftFits(w, l);
    BatchEdges(w, step, l, f);
    ShiftKeeps(w.loops[l], Next(w, step).loops[l], f, if Finishes(w, step, l) then 1 else 0);
  }

  /** The same for the queue alone, from which `shift` functors have gone. */
  lemma ShiftKeeps(before: Loop, after: Loop, f: Functor, shift: nat)
    requires shift <= 1 && shift <= |before.todo| && before.todo[shift..] <= after.todo &&
             before.left - shift <= after.left
    ensures f in before.todo ==> f in after.todo || (shift == 1 && f == before.todo[0])
    ensures InBatch(before, f) ==> InBatch(after, f) || (shift == 1 && f == before.todo[0])
    ensures f in before.todo && after.left == |after.todo| ==> InBatch(after, f) || (shift == 1 && f == before.todo[0])
  {
    if i :| 0 <= i < |before.todo| && before.todo[i] == f && i >= shift {
      assert before.todo[shift..][i - shift] == f == after.todo[i - shift];
    }
    if i :| 0 <= i < before.left && i < |before.todo| && before.todo[i] == f && i >= shift {
      assert before.todo[shift..][i - shift] == f == after.todo[i - shift];
    }
  }

  lemma BatchEdges(w: World, step: Step, l: nat, f: Functor)
    requires WellFormed(w) && Enabled(w, step) && l < |w.loops|
    ensures step == StartBatch(l) ==> w.loops[l].left == 0 && !Finishes(w, step, l)
    ensures step == EndBatch(l) ==> !InBatch(w.loops[l], f)
  {
    LeftFits(w, l);
    hide WellFormed;
  }

  lemma LeftFits(w: World, l: nat)
    requires WellFormed(w) && l < |w.loops|
    ensures w.loops[l].left <= |w.loops[l].todo|
    ensures w.loops[l].phase != Draining ==> w.loops[l].left == 0 && w.loops[l].done == {}
  {
    assert LoopOk(w, l, w.loops[l]);
  }

  /** Neither the poller nor the map knows the connection any more. */
  predicate Gone(w: World, c: nat) {
    c in w.conns && w.conns[c].status != Connecting && w.conns[c].index == New && c !in w.connMap
  }

  /** How far the teardown of a closed connection has come; each stage includes the later ones. */
  ghost predicate Reached(w: World, c: nat, stage: nat) {
    && c in w.conns && |w.loops| > 0 && w.conns[c].loop < |w.loops|
    && var own := w.loops[w.conns[c].loop];
       || Gone(w, c)
       || (stage == 3 && InBatch(own, Destroy(c)))
       || (stage <= 2 && Destroy(c) in own.todo)
       || (stage == 1 && InBatch(w.loops[BASE], Remove(c)))
       || (stage == 0 && Remove(c) in w.loops[BASE].todo)
  }

  /** The next stage is entered when the base loop, and after it loop `l`, starts or ends a batch. */
  function Advance(stage: nat, step: Step, l: nat): nat {
    if stage == 0 && step == StartBatch(BASE) then 1
    else if stage == 1 && step == EndBatch(BASE) then 2
    else if stage == 2 && step == StartBatch(l) then 3
    else if stage == 3 && step == EndBatch(l) then 4
    else stage
  }

  function AdvanceAll(stage: nat, steps: seq<Step>, l: nat): nat
    decreases |steps|
  {
    if steps == [] then stage else AdvanceAll(Advance(stage, steps[0], l), steps[1..], l)
  }

  lemma GoneStays(w: World, step: Step, c: nat)
    requires Inv(w) && Enabled(w, step) && Gone(w, c)
    ensures Gone(Next(w, step), c)
  {
    hide NotifiedFirst, Once, LoopOk, ConnsOk, Held;
    ConnIsGood(w, c);
    NextIdIsNew(w);
    hide WellFormed;
    if step.RunTask? {
      HeadIsPlaced(w, step.loop);
    } else if step.CloseBegin? {
      DispatchFacts(w, step.loop);
    }
  }

  lemma FinishedFunctor(w: World, l: nat)
    requires Inv(w) && Enabled(w, RunTask(l)) && Finishes(w, RunTask(l), l)
    ensures var f, w' := w.loops[l].todo[0], Next(w, RunTask(l));
            && (f.Destroy? ==> Gone(w', f.conn))
            && (f.Remove? ==> f.conn in w.conns && |w'.loops| == |w.loops| > w.conns[f.conn].loop
                              && Destroy(f.conn) in w'.loops[w.conns[f.conn].loop].todo)
  {
    hide NotifiedFirst, Once, LoopOk, WellFormed, ConnsOk;
    HeadIsPlaced(w, l);
    var f := w.loops[l].todo[0];
    if !f.Other? {
      ConnIsGood(w, f.conn);
    }
  }

  lemma ConnStays(w: World, step: Step, c: nat)
    requires Inv(w) && Enabled(w, step) && c in w.conns
    ensures c in Next(w, step).conns && Next(w, step).conns[c].loop == w.conns[c].loop
    ensures |Next(w, step).loops| == |w.loops|
  {
    hide LoopOk, ConnsOk, WellFormed, Held, RunFunctor;
    NextIdIsNew(w);
    if step.RunTask? {
      TaskKeepsConn(w, step.loop, c);
    }
  }

  lemma TaskKeepsConn(w: World, l: nat, c: nat)
    requires Enabled(w, RunTask(l)) && c in w.conns
    ensures var w' := RunFunctor(w, l); c in w'.conns && w'.conns[c].loop == w.conns[c].loop && |w'.loops| == |w.loops|
  {
  }

  lemma StepAdvances(w: World, step: Step, c: nat, stage: nat)
    requires Inv(w) && Enabled(w, step) && Reached(w, c, stage)
    ensures Reached(Next(w, step), c, Advance(stage, step, w.conns[c].loop))
  {
    hide Next, Enabled, Inv, InBatch, Gone;
    var l := w.conns[c].loop;
    InvIsWellFormed(w);
    ConnStays(w, step, c);
    if Gone(w, c) {
      GoneStays(w, step, c);
    } else {
      if Finishes(w, step, l) { FinishedFunctor(w, l); }
      if Finishes(w, step, BASE) { FinishedFunctor(w, BASE); }
      QueueKeeps(w, step, l, Destroy(c));
      QueueKeeps(w, step, BASE, Remove(c));
    }
  }

  lemma InvIsWellFormed(w: World)
    requires Inv(w)
    ensures WellFormed(w)
  {
  }

  lemma {:induction false} RunAdvances(w: World, steps: seq<Step>, c: nat, stage: nat)
    requires Inv(w) && EnabledRun(w, steps) && Reached(w, c, stage)
    ensures Reached(Run(w, steps), c, AdvanceAll(stage, steps, w.conns[c].loop))
    decreases |steps|
  {
    hide Inv, Next, Enabled, Reached;
    if steps != [] {
      ReachedHasConn(w, c, stage);
      StepKeepsInv(w, steps[0]);
      ConnStays(w, steps[0], c);
      StepAdvances(w, steps[0], c, stage);
      RunAdvances(Next(w, steps[0]), steps[1..], c, Advance(stage, steps[0], w.conns[c].loop));
    }
  }

  lemma ReachedHasConn(w: World, c: nat, stage: nat)
    requires Reached(w, c, stage)
    ensures c in w.conns
  {
  }

  /**
   Teardown makes progress: once the close callback of a connection has run, one full batch of the base loop and after
   it one full batch of the connection's own loop leave it in neither the map nor the poller, and so it stays, whatever
   else happens before, between and after.
   */
  lemma CloseIsCarriedOut(w: World, l: nat, steps: seq<Step>)
    requires Inv(w) && Enabled(w, CloseNotify(l)) && EnabledRun(Next(w, CloseNotify(l)), steps)
    requires AdvanceAll(0, steps, l) == 4
    ensures Gone(Run(Next(w, CloseNotify(l)), steps), w.loops[l].handling.value)
  {
    var c, w' := w.loops[l].handling.value, Next(w, CloseNotify(l));
    InvIsWellFormed(w);
    DispatchFacts(w, l);
    ConnIsGood(w, c);
    CloseQueues(w, l);
    StepKeepsInv(w, CloseNotify(l));
    hide Inv, Next, Enabled;
    RunAdvances(w', steps, c, 0);
  }

  lemma CloseQueues(w: World, l: nat)
    requires WellFormed(w) && Enabled(w, CloseNotify(l))
    ensures Reached(Next(w, CloseNotify(l)), w.loops[l].handling.value, 0)
    ensures Next(w, CloseNotify(l)).conns == w.conns
  {
    DispatchFacts(w, l);
    hide LoopOk;
  }

  /** A raw-pointer functor that was pushed in time still has its connection when it runs, and that is registered. */
  lemma RawFindsItsConnection(ioLoops: nat, steps: seq<Step>, l: nat)
    requires EnabledRun(Start(ioLoops), steps) && Enabled(Run(Start(ioLoops), steps), RunTask(l))
    requires Run(Start(ioLoops), steps).loops[l].todo[0].Raw?
    ensures var w := Run(Start(ioLoops), steps);
            var c := w.loops[l].todo[0].conn;
            Held(w, c) && w.conns[c].index != New
  {
    RunKeepsInv(Start(ioLoops), steps);
    var w := Run(Start(ioLoops), steps);
    var f := w.loops[l].todo[0];
    HeadIsPlaced(w, l);
    ConnIsGood(w, f.conn);
    OwnerHolds(w, f.conn);
  }

  /**
   Seen when it runs: a raw-pointer functor pushed too late finds its connection if and only if some thread outside the
   library still holds a reference, or a removal or destruction of it is still queued or belongs to a batch that has not
   ended.  Module LateCalls tells the same at the push.
   */
  lemma StaleFindsItsConnectionIff(ioLoops: nat, steps: seq<Step>, l: nat)
    requires EnabledRun(Start(ioLoops), steps) && Enabled(Run(Start(ioLoops), steps), RunTask(l))
    requires Run(Start(ioLoops), steps).loops[l].todo[0].Stale?
    ensures var w := Run(Start(ioLoops), steps);
            var c := w.loops[l].todo[0].conn;
            Alive(w, c) <==> c in w.users || exists k, f :: 0 <= k < |w.loops| && Carries(w.loops[k], f) && f.Holds(c)
  {
    hide Inv, Alive, Carries, Enabled;
    StartInv(ioLoops);
    RunKeepsInv(Start(ioLoops), steps);
    StaleIsAliveIff(Run(Start(ioLoops), steps), l);
  }

  /** The functor is queued, running, or in the batch that is running. */
  predicate Carries(loop: Loop, f: Functor) {
    f in loop.todo || f in loop.done
  }

  lemma StaleIsAliveIff(w: World, l: nat)
    requires Inv(w) && Enabled(w, RunTask(l)) && w.loops[l].todo[0].Stale?
    ensures var c := w.loops[l].todo[0].conn;
            Alive(w, c) <==> c in w.users || exists k, f :: 0 <= k < |w.loops| && Carries(w.loops[k], f) && f.Holds(c)
  {
    hide NotifiedFirst, Once, LoopOk, WellFormed, ConnsOk;
    var c := w.loops[l].todo[0].conn;
    HeadIsPlaced(w, l);
    ConnIsGood(w, c);
    assert c !in w.connMap;
    forall k | 0 <= k < |w.loops|
      ensures HeldBy(w.loops[k], c) <==> exists f :: Carries(w.loops[k], f) && f.Holds(c)
    {
      DispatchFacts(w, k);
      assert w.loops[k].handling != Some(c);
      if f :| f in w.loops[k].todo && f.Holds(c) { assert Carries(w.loops[k], f); }
      if f :| f in w.loops[k].done && f.Holds(c) { assert Carries(w.loops[k], f); }
    }
  }

  /**
   Every raw channel pointer returned by the last poll belongs to a live connection, so its weak tie can be locked.
   */
  lemma ActiveChannelsAreAlive(ioLoops: nat, steps: seq<Step>, l: nat, c: nat)
    requires EnabledRun(Start(ioLoops), steps)
    requires var w := Run(Start(ioLoops), steps); l < |w.loops| && c in w.loops[l].active
    ensures var w := Run(Start(ioLoops), steps); c in w.conns && w.conns[c].index != New && Held(w, c)
  {
    RunKeepsInv(Start(ioLoops), steps);
    var w := Run(Start(ioLoops), steps);
    assert LoopOk(w, l, w.loops[l]);
    assert Good(w, c);
    OwnerHolds(w, c);
  }

  /** No loop ever gets stuck: in every reachable state the step its thread would take next is enabled. */
  lemma LoopAlwaysMoves(ioLoops: nat, steps: seq<Step>, l: nat)
    requires EnabledRun(Start(ioLoops), steps) && l <= ioLoops
    ensures var w := Run(Start(ioLoops), steps);
            && l < |w.loops|
            && var loop := w.loops[l];
               match loop.phase {
                 case Polling => Enabled(w, PollReturn(l, []))
                 case Dispatching =>
                   if loop.handling.Some? then
                     if loop.closing then Enabled(w, CloseNotify(l))
                     else Enabled(w, CloseBegin(l)) && Enabled(w, EndEvent(l))
                   else if loop.active != [] then Enabled(w, BeginEvent(l)) else Enabled(w, StartBatch(l))
                 case Draining => if loop.left > 0 then Enabled(w, RunTask(l)) else Enabled(w, EndBatch(l))
               }
  {
    hide Inv, Enabled;
    StartInv(ioLoops);
    RunKeepsInv(Start(ioLoops), steps);
    LoopsStay(Start(ioLoops), steps);
    LoopMoves(Run(Start(ioLoops), steps), l);
  }

  lemma LoopMoves(w: World, l: nat)
    requires Inv(w) && l < |w.loops|
    ensures var loop := w.loops[l];
            match loop.phase {
              case Polling => Enabled(w, PollReturn(l, []))
              case Dispatching =>
                if loop.handling.Some? then
                  if loop.closing then Enabled(w, CloseNotify(l))
                  else Enabled(w, CloseBegin(l)) && Enabled(w, EndEvent(l))
                else if loop.active != [] then Enabled(w, BeginEvent(l)) else Enabled(w, StartBatch(l))
              case Draining => if loop.left > 0 then Enabled(w, RunTask(l)) else Enabled(w, EndBatch(l))
            }
  {
    assert LoopOk(w, l, w.loops[l]);
    hide ConnsOk;
    if w.loops[l].left > 0 {
      assert Placed(w, l, w.loops[l].todo[0]);
    }
  }

  lemma {:induction false} LoopsStay(w: World, steps: seq<Step>)
    requires EnabledRun(w, steps)
    ensures |Run(w, steps).loops| == |w.loops|
    decreases |steps|
  {
    if steps != [] {
      LoopsStay(Next(w, steps[0]), steps[1..]);
    }
  }
}
