/**
 The server as an object: the connection map and the id counter of the base loop, the loops with their task queues, and
 the connection objects that the queued functors point to.  `View` reads off it a state of the lifecycle protocol:
 a connection's state from the object, its index from its channel, the references from the vectors that hold them.
 Each method is proved to take exactly its steps of the protocol, and so to keep the protocol's invariant.
 */
module TcpServers {
  import opened ConnectionStates
  import opened Lifecycle
  import opened LateCalls
  import opened LoopThreads
  import opened Pollers
  import opened TcpConnections
  import ThreadPools

  /** A functor with the pointer it captures; `late` marks a raw pointer queued behind the destruction. */
  datatype Task =
    | EstablishTask(conn: TcpConnection)
    | RemoveTask(conn: TcpConnection)
    | DestroyTask(conn: TcpConnection)
    | RawTask(conn: TcpConnection, late: bool)
    | OtherTask
  {
    function Functor(): Functor {
      match this
      case EstablishTask(conn) => Establish(conn.name)
      case RemoveTask(conn) => Remove(conn.name)
      case DestroyTask(conn) => Destroy(conn.name)
      case RawTask(conn, late) => if late then Stale(conn.name) else Raw(conn.name)
      case OtherTask => Other
    }

    function Conns(): set<TcpConnection> {
      if OtherTask? then {} else {conn}
    }
  }

  function Functors(tasks: seq<Task>): seq<Functor> {
    seq(|tasks|, i requires 0 <= i < |tasks| => tasks[i].Functor())
  }

  function Names(conns: seq<TcpConnection>): seq<nat> {
    seq(|conns|, i requires 0 <= i < |conns| => conns[i].name)
  }

  /** There is no reference to any of these connections. */
  predicate AllDead(w: World, dead: set<nat>) {
    forall c :: c in dead ==> c in w.conns && !Alive(w, c)
  }

  lemma AllStayDead(w: World, step: Step, dead: set<nat>)
    requires Inv(w) && Enabled(w, step) && AllDead(w, dead)
    ensures AllDead(Next(w, step), dead)
  {
    hide Inv, Next, Enabled, Alive;
    forall c | c in dead ensures c in Next(w, step).conns && !Alive(Next(w, step), c) {
      ConnStays(w, step, c);
      StepKeepsDead(w, step, c);
    }
  }

  /** The close handler of a connection can run, and keeps the protocol's invariant. */
  lemma CloseSteps(w: World, l: nat)
    requires Inv(w) && l < |w.loops| && w.loops[l].handling.Some? && !w.loops[l].closing
    ensures Enabled(w, CloseBegin(l)) && Enabled(Next(w, CloseBegin(l)), CloseNotify(l))
    ensures Inv(Next(Next(w, CloseBegin(l)), CloseNotify(l)))
    ensures var c := w.loops[l].handling.value;
            c in w.conns && w.conns[c].loop == l && w.conns[c].status != Connecting && Alive(w, c)
  {
    hide ConnsOk, WellFormed;
    DispatchFacts(w, l);
    ConnIsGood(w, w.loops[l].handling.value);
    StepKeepsInv(w, CloseBegin(l));
    StepKeepsInv(Next(w, CloseBegin(l)), CloseNotify(l));
  }

  /**
   The event loop as the server sees it: its queue, and the locals of `loop` and `doingPendingFunctors`.  `ran` and
   `tasks` are the swapped-out vector before and from the iterator on; it keeps the functors that have run, with their
   references.  When the eventfd is written is not its concern but that of module EventLoops.
   */
  class IoLoop {
    const poller: EPollPoller
    var pendingFunctors: seq<Task>
    var ran: seq<Task>
    var tasks: seq<Task>
    var erased: bool
    var phase: Phase
    var activeChannels: seq<TcpConnection>
    var handling: Option<TcpConnection>
    var closing: bool

    constructor (poller: EPollPoller)
      ensures this.poller == poller && View() == IDLE && Idle()
    {
      this.poller := poller;
      pendingFunctors, ran, tasks, erased := [], [], [], false;
      phase, activeChannels, handling, closing := Polling, [], None, false;
    }

    ghost function View(): Loop
      reads this
    {
      Loop(phase, Functors(tasks + pendingFunctors), |tasks|, set t | t in ran :: t.Functor(), erased,
           Names(activeChannels), if handling.Some? then Some(handling.value.name) else None, closing)
    }

    /** Nothing queued and nothing going on. */
    ghost predicate Idle()
      reads this
    {
      pendingFunctors == ran == tasks == [] && activeChannels == [] && handling == None
    }

    method QueueInLoop(task: Task)
      modifies this`pendingFunctors
      ensures View() == old(View()).(todo := old(View()).todo + [task.Functor()])
      ensures pendingFunctors == old(pendingFunctors) + [task]
    {
      ghost var before := tasks + pendingFunctors;
      pendingFunctors := pendingFunctors + [task];
      assert tasks + pendingFunctors == before + [task];
    }

    /** The head of the batch has run; the vector keeps it. */
    method Advance()
      requires tasks != []
      modifies this`ran, this`tasks, this`erased
      ensures ran == old(ran) + [old(tasks)[0]] && tasks == old(tasks)[1..]
      ensures View() == old(View()).(todo := old(View()).todo[1..], left := old(View()).left - 1, midway := false,
                                     done := old(View()).done + {old(tasks)[0].Functor()})
    {
      assert tasks + pendingFunctors == [tasks[0]] + (tasks[1..] + pendingFunctors);
      ran, tasks, erased := ran + [tasks[0]], tasks[1..], false;
    }

    /** The pending functors become the batch. */
    method Swap()
      requires ran == tasks == []
      modifies this`pendingFunctors, this`tasks, this`phase
      ensures tasks == old(pendingFunctors) && pendingFunctors == []
      ensures View() == old(View()).(phase := Draining, left := |old(View()).todo|, done := {})
    {
      assert tasks + pendingFunctors == pendingFunctors + tasks;
      tasks, pendingFunctors := pendingFunctors, [];
      phase := Draining;
    }

    /** The vector goes out of scope, and the references in it with it. */
    method EndBatch()
      requires tasks == []
      modifies this`ran, this`phase
      ensures ran == []
      ensures View() == old(View()).(phase := Polling, done := {})
    {
      ran, phase := [], Polling;
    }
  }

  class TcpServer {
    const pool: ThreadPools.EventLoopThreadPool
    const loops: seq<IoLoop>
    var connectionMap: map<nat, TcpConnection>
    var nextConnId: nat
    ghost var made: map<nat, TcpConnection>
    ghost var dead: set<nat>
    ghost var users: set<nat>

    // ----- what the object amounts to -----

    ghost function Conns(): map<nat, Connection>
      reads this`made, made.Values, set c | c in made.Values :: c.channel
    {
      map c | c in made :: Connection(made[c].loop, made[c].state, made[c].channel.index, made[c].passed)
    }

    ghost function LoopViews(): seq<Loop>
      reads loops
    {
      seq(|loops|, i requires 0 <= i < |loops| reads loops => loops[i].View())
    }

    ghost function View(): World
      reads this`made, this`connectionMap, this`nextConnId, this`users, loops,
            made.Values, set c | c in made.Values :: c.channel
    {
      World(Conns(), connectionMap.Keys, nextConnId, LoopViews(), users)
    }

    // ----- the parts -----

    ghost predicate Known(conn: TcpConnection)
      reads this`made
    {
      conn.name in made && made[conn.name] == conn
    }

    /** Every pointer in a queue, a batch, a dispatch or the map is that of a connection the server made. */
    ghost predicate Pointers()
      reads this`made, this`connectionMap, loops
    {
      && (forall i, j :: 0 <= i < j < |loops| ==> loops[i] != loops[j])
      && (forall l :: l in loops ==> LoopPointers(l))
      && (forall c :: c in connectionMap ==> c in made && connectionMap[c] == made[c])
    }

    ghost predicate LoopPointers(l: IoLoop)
      reads this`made, l
    {
      && (l.phase != Draining ==> l.ran == l.tasks == [])
      && (forall t :: t in l.tasks && !t.OtherTask? ==> Known(t.conn))
      && (forall t :: t in l.pendingFunctors && !t.OtherTask? ==> Known(t.conn))
      && (forall c :: c in l.activeChannels ==> Known(c))
      && (l.handling.Some? ==> Known(l.handling.value))
    }

    /** The pollers and the connections are in order, and every connection has its channel to itself. */
    ghost predicate Wired()
      reads this`made, this`dead, set l | l in loops :: l.poller, set l, c | l in loops && c in l.poller.live :: c
      reads made.Values, set c | c in made.Values :: c.poller, set c, d | c in made.Values && d in c.poller.live :: d
      reads set c | c in made.Values :: c.channel, set c | c in made.Values :: c.outputBuffer
      reads set c | c in made.Values :: c.outputBuffer.storage
    {
      PollersValid() && AllSound(made) && Apart(made)
    }

    ghost predicate PollersValid()
      reads set l | l in loops :: l.poller, set l, c | l in loops && c in l.poller.live :: c
    {
      && (forall l :: l in loops ==> l.poller.Valid())
      && FdsDiffer()
    }

    /** No two channels share an fd, even in different pollers. */
    ghost predicate FdsDiffer()
      reads set l | l in loops :: l.poller
    {
      forall k, l, c, d ::
        k in loops && l in loops && c in k.poller.live && d in l.poller.live && c.fd == d.fd ==> c == d
    }

    ghost predicate AllSound(conns: map<nat, TcpConnection>)
      reads this`dead, conns.Values, set c | c in conns.Values :: c.poller
      reads set c, d | c in conns.Values && d in c.poller.live :: d
      reads set c | c in conns.Values :: c.channel, set c | c in conns.Values :: c.outputBuffer
      reads set c | c in conns.Values :: c.outputBuffer.storage
    {
      forall c :: c in conns ==> Sound(c, conns[c])
    }

    ghost predicate Apart(conns: map<nat, TcpConnection>)
      reads set l | l in loops :: l.poller
    {
      && (forall c, d :: c in conns && d in conns && c != d ==> conns[c].channel != conns[d].channel)
      && (forall c, l :: c in conns && l in loops && conns[c].channel in l.poller.live ==> conns[c].poller == l.poller)
    }

    lemma OneMore(conns: map<nat, TcpConnection>, c: nat, conn: TcpConnection)
      requires AllSound(conns) && Apart(conns) && c !in conns && Sound(c, conn)
      requires forall d :: d in conns ==> conns[d].channel != conn.channel
      requires forall l :: l in loops && conn.channel in l.poller.live ==> l.poller == conn.poller
      ensures AllSound(conns[c := conn]) && Apart(conns[c := conn])
    {
      hide Sound;
    }

    /** A connection whose object still stands is in the poller of its own loop. */
    ghost predicate Sound(c: nat, conn: TcpConnection)
      reads this`dead, conn, conn.poller, conn.poller.live, conn.channel, conn.outputBuffer, conn.outputBuffer.storage
    {
      && conn.name == c && conn.loop < |loops| && conn.poller == loops[conn.loop].poller
      && (c !in dead ==> conn.Valid() && conn.channel in conn.poller.live)
    }

    /** The objects that have been destroyed are those of connections to which there is no reference. */
    ghost predicate Accounted()
      reads this`made, this`connectionMap, this`nextConnId, this`users, this`dead, loops,
            made.Values, set c | c in made.Values :: c.channel
    {
      AllDead(View(), dead)
    }

    ghost predicate Valid()
      reads *
    {
      && Pointers() && Wired() && Inv(View()) && Accounted()
      && pool.Valid() && pool.baseLoop == BASE
      && forall i :: 0 <= i < |pool.loops| ==> pool.loops[i] < |loops|
    }

    constructor (pool: ThreadPools.EventLoopThreadPool, loops: seq<IoLoop>)
      requires pool.Valid() && pool.baseLoop == BASE && |loops| > 0
      requires forall i :: 0 <= i < |pool.loops| ==> pool.loops[i] < |loops|
      requires forall i, j :: 0 <= i < j < |loops| ==> loops[i] != loops[j]
      requires forall l :: l in loops ==> l.poller.Valid() && l.View() == IDLE && l.Idle()
      requires forall k, l, c, d ::
                 k in loops && l in loops && c in k.poller.live && d in l.poller.live && c.fd == d.fd ==> c == d
      ensures this.pool == pool && this.loops == loops
      ensures Valid() && View() == Start(|loops| - 1)
    {
      hide Inv, Pollers.EPollPoller.Valid;
      this.pool, this.loops := pool, loops;
      connectionMap, nextConnId := map[], 1;
      made, dead, users := map[], {}, {};
      new;
      assert LoopViews() == Start(|loops| - 1).loops;
      StartInv(|loops| - 1);
      assert View() == Start(|loops| - 1);
    }

    // ----- one connection changes -----

    ghost function ConnView(conn: TcpConnection): Connection
      reads conn, conn.channel
    {
      Connection(conn.loop, conn.state, conn.channel.index, conn.passed)
    }

    /** Everything but this connection and its channel is as it was; pollers have kept their channels. */
    twostate predicate Only(conn: TcpConnection)
      reads *
    {
      && made == old(made) && dead == old(dead)
      && (forall l :: l in loops ==> l.poller.Valid() && l.poller.live == old(l.poller.live))
      && (forall c :: c in made && made[c] != conn ==>
            unchanged(made[c]) && unchanged(made[c].channel)
            && unchanged(made[c].outputBuffer) && unchanged(made[c].outputBuffer.storage))
    }

    twostate lemma OthersKeep(conn: TcpConnection)
      requires old(Wired()) && Known(conn) && conn.Valid() && Only(conn)
      ensures Wired()
    {
      hide Pollers.EPollPoller.Valid, TcpConnection.Valid;
      forall c | c in made ensures Sound(c, made[c]) {
        assert old(Sound(c, made[c]));
        if made[c] != conn && c !in dead {
          made[c].Undisturbed();
        }
      }
    }

    twostate lemma OneChanges(conn: TcpConnection)
      requires old(Wired()) && Known(conn) && Only(conn)
      ensures Conns() == old(Conns())[conn.name := ConnView(conn)]
    {
      hide Pollers.EPollPoller.Valid, TcpConnection.Valid;
      assert forall c :: c in made ==> old(Sound(c, made[c]));
    }

    lemma KnownParts(conn: TcpConnection)
      requires Wired() && Known(conn)
      ensures conn.name in Conns() && Conns()[conn.name] == ConnView(conn) && conn.loop < |loops|
    {
      assert Sound(conn.name, conn);
      hide Pollers.EPollPoller.Valid, TcpConnection.Valid;
    }

    lemma PartsOf(conn: TcpConnection)
      requires Wired() && Known(conn) && conn.name !in dead
      ensures conn.Valid() && conn.name in Conns() && Conns()[conn.name] == ConnView(conn) && conn.loop < |loops|
      ensures forall l :: l in loops ==> l.poller.Valid()
      ensures forall l :: l in loops && conn.channel in l.poller.live ==> l.poller == conn.poller
      ensures forall c :: c in made && made[c] != conn ==> made[c].channel != conn.channel
    {
      assert Sound(conn.name, conn);
      hide Pollers.EPollPoller.Valid, TcpConnection.Valid;
    }

    method EstablishConnection(conn: TcpConnection)
      requires Wired() && Known(conn) && conn.name !in dead && conn.state == Connecting
      modifies conn`state, conn.poller`channels, conn.poller`interest, conn.poller`failures
      modifies conn.channel`events, conn.channel`index
      ensures Wired()
      ensures Conns() == old(Conns())[conn.name := old(Conns())[conn.name].(status := Connected, index := Added)]
    {
      hide Pollers.EPollPoller.Valid, TcpConnection.Valid, Wired, Conns;
      PartsOf(conn);
      conn.ConnectionEstablished();
      conn.Registered();
      assert Only(conn);
      OthersKeep(conn);
      OneChanges(conn);
    }

    method CloseConnection(conn: TcpConnection)
      requires Wired() && Known(conn) && conn.name !in dead && conn.state != Connecting
      modifies conn`state, conn`closes, conn.poller`channels, conn.poller`interest, conn.poller`failures
      modifies conn.channel`events, conn.channel`index
      ensures Wired()
      ensures Conns() == old(Conns())[conn.name := old(Conns())[conn.name].(status := DisConnected,
                                                                            index := Disabled(old(conn.channel.index)))]
    {
      hide Pollers.EPollPoller.Valid, TcpConnection.Valid, Wired, Conns;
      PartsOf(conn);
      conn.HandleClose();
      conn.Registered();
      assert Only(conn);
      OthersKeep(conn);
      OneChanges(conn);
    }

    method DestroyConnection(conn: TcpConnection)
      requires Wired() && Known(conn) && conn.name !in dead && conn.state != Connecting
      modifies conn`state, conn.poller`channels, conn.poller`interest, conn.poller`failures
      modifies conn.channel`events, conn.channel`index
      ensures Wired()
      ensures Conns() == old(Conns())[conn.name := old(Conns())[conn.name].(status := DisConnected, index := New)]
    {
      hide Pollers.EPollPoller.Valid, TcpConnection.Valid, Wired, Conns;
      PartsOf(conn);
      conn.ConnectionDestroyed();
      conn.Registered();
      assert Only(conn);
      OthersKeep(conn);
      OneChanges(conn);
    }

    // ----- one queue changes -----

    /** `i` is the number of the loop. */
    method QueueInLoop(l: IoLoop, i: nat, task: Task)
      requires Pointers() && i < |loops| && loops[i] == l && (task.OtherTask? || Known(task.conn))
      modifies l`pendingFunctors
      ensures Pointers() && View() == Push(old(View()), i, task.Functor())
      ensures l.pendingFunctors == old(l.pendingFunctors) + [task]
      ensures old(Wired()) ==> Wired()
    {
      hide TcpConnection.Valid, Pollers.EPollPoller.Valid;
      assert loops[i] in loops;
      l.QueueInLoop(task);
      assert LoopViews() == Push(old(View()), i, task.Functor()).loops;
    }

    /** A new connection object, with a channel that no other connection has. */
    method Allocate(l: IoLoop, i: nat, fd: int, mark: nat) returns (conn: TcpConnection)
      requires Wired() && i < |loops| && loops[i] == l && nextConnId !in dead
      requires forall k, c :: k in loops && c in k.poller.live ==> c.fd != fd
      modifies l.poller`live
      ensures Wired() && Conns() == old(Conns())
      ensures Sound(nextConnId, conn) && ConnView(conn) == Connection(i, Connecting, New, 0)
      ensures fresh(conn) && conn.channel.fd == fd && conn.highWaterMark == mark
      ensures forall c :: c in made ==> made[c].channel != conn.channel
      ensures forall k :: k in loops && conn.channel in k.poller.live ==> k.poller == conn.poller
    {
      hide TcpConnection.Valid, Pollers.EPollPoller.Valid, FdsDiffer;
      assert l in loops;
      assert forall c :: c in made && c !in dead ==> made[c].channel in made[c].poller.live by {
        assert forall c :: c in made ==> Sound(c, made[c]);
      }
      conn := new TcpConnection(nextConnId, i, l.poller, fd, mark);
      conn.Registered();
      FdIsNew(l.poller, conn.channel);
      assert PollersValid();
      StillSound();
    }

    twostate lemma FdIsNew(poller: EPollPoller, new channel: Channel)
      requires old(FdsDiffer()) && poller.live == old(poller.live) + {channel}
      requires forall l :: l in loops && l.poller != poller ==> l.poller.live == old(l.poller.live)
      requires forall l, c :: l in loops && c in old(l.poller.live) ==> c.fd != channel.fd
      ensures FdsDiffer()
    {
    }

    twostate lemma StillSound()
      requires old(AllSound(made)) && PollersValid() && made == old(made) && old(dead) <= dead
      requires forall c :: c in made && c !in dead ==> made[c].channel in made[c].poller.live
      requires forall c :: c in made ==>
                 unchanged(made[c]) && unchanged(made[c].channel)
                 && unchanged(made[c].outputBuffer) && unchanged(made[c].outputBuffer.storage)
      ensures AllSound(made)
    {
      hide TcpConnection.Valid, Pollers.EPollPoller.Valid;
      forall c | c in made ensures Sound(c, made[c]) {
        assert old(Sound(c, made[c])) && loops[made[c].loop] in loops;
        if c !in dead {
          made[c].Undisturbed();
        }
      }
    }

    /** A new connection object is entered among those made. */
    method Remember(conn: TcpConnection)
      requires Pointers() && Wired() && nextConnId !in made
      requires Sound(nextConnId, conn) && forall c :: c in made ==> made[c].channel != conn.channel
      requires forall l :: l in loops && conn.channel in l.poller.live ==> l.poller == conn.poller
      modifies this`made
      ensures Pointers() && Wired() && Known(conn) && conn.name == nextConnId
      ensures Conns() == old(Conns())[conn.name := ConnView(conn)]
    {
      hide TcpConnection.Valid, Pollers.EPollPoller.Valid, LoopPointers, Sound;
      NameOf(nextConnId, conn);
      OneMore(made, nextConnId, conn);
      hide AllSound, Apart, PollersValid;
      made := made[nextConnId := conn];
      forall l | l in loops ensures LoopPointers(l) {
        PointersGrow(l);
      }
    }

    /** The map and the counter take notice of a new connection. */
    method Enter(conn: TcpConnection)
      requires Pointers() && Wired() && nextConnId !in made
      requires Sound(nextConnId, conn) && forall c :: c in made ==> made[c].channel != conn.channel
      requires ConnView(conn) == Connection(conn.loop, Connecting, New, 0)
      requires forall l :: l in loops && conn.channel in l.poller.live ==> l.poller == conn.poller
      modifies this`made, this`connectionMap, this`nextConnId
      ensures Pointers() && Wired() && Known(conn) && conn.name == old(nextConnId)
      ensures View() == WithNewcomer(old(View()), conn.loop)
      ensures connectionMap == old(connectionMap)[conn.name := conn]
    {
      hide Wired, Sound, LoopPointers, Conns, LoopViews;
      Remember(conn);
      connectionMap := connectionMap[nextConnId := conn];
      nextConnId := nextConnId + 1;
    }

    lemma NameOf(c: nat, conn: TcpConnection)
      requires Sound(c, conn)
      ensures conn.name == c
    {
    }

    /** Pointers stay known when more connections are made. */
    twostate lemma PointersGrow(l: IoLoop)
      requires old(LoopPointers(l)) && unchanged(l)
      requires forall c :: c in old(made) ==> c in made && made[c] == old(made)[c]
      ensures LoopPointers(l)
    {
    }

    // ----- the operations of the server -----

    /** An accepted socket goes to the next loop in turn, into the map, and is established on its own loop. */
    method NewConnection(fd: int, mark: nat) returns (i: nat, conn: TcpConnection)
      requires Valid() && |loops| > 0 && loops[BASE].phase == Dispatching && loops[BASE].handling == None
      requires forall l, c :: l in loops && c in l.poller.live ==> c.fd != fd
      modifies this`made, this`connectionMap, this`nextConnId, loops`pendingFunctors
      modifies (set l | l in loops :: l.poller)`live, pool`next, pool`served
      ensures Enabled(old(View()), Accept(i))
      ensures Valid() && View() == Next(old(View()), Accept(i))
      ensures i == if pool.loops == [] then BASE else pool.loops[old(pool.served) % |pool.loops|]
      ensures BelongsTo(conn, i, fd, mark) && fresh(conn)
      ensures connectionMap == old(connectionMap)[old(nextConnId) := conn]
      ensures i < |loops| && loops[i].pendingFunctors == old(loops[i].pendingFunctors) + [EstablishTask(conn)]
    {
      hide Inv, Wired, Pointers, View, Next, Enabled, LoopViews;
      i := pool.GetNextLoop();
      conn := AcceptOn(loops[i], i, fd, mark);
    }

    /** The connection is for this socket, and belongs to loop `i` and its poller. */
    ghost predicate BelongsTo(conn: TcpConnection, i: nat, fd: int, mark: nat) {
      && i < |loops| && conn.loop == i && conn.poller == loops[i].poller
      && conn.channel.fd == fd && conn.highWaterMark == mark
    }

    method AcceptOn(l: IoLoop, i: nat, fd: int, mark: nat) returns (conn: TcpConnection)
      requires Pointers() && Wired() && Inv(View()) && Accounted()
      requires i < |loops| && loops[i] == l && loops[BASE].phase == Dispatching && loops[BASE].handling == None
      requires forall l, c :: l in loops && c in l.poller.live ==> c.fd != fd
      modifies this`made, this`connectionMap, this`nextConnId, loops`pendingFunctors,
               (set l | l in loops :: l.poller)`live
      ensures Enabled(old(View()), Accept(i))
      ensures Pointers() && Wired() && Inv(View()) && Accounted() && View() == Next(old(View()), Accept(i))
      ensures BelongsTo(conn, i, fd, mark) && fresh(conn)
      ensures connectionMap == old(connectionMap)[old(nextConnId) := conn]
      ensures l.pendingFunctors == old(l.pendingFunctors) + [EstablishTask(conn)]
    {
      hide Inv, Wired, Pointers, View, Push, WithNewcomer, Next, Enabled, LoopViews, AllDead;
      AcceptFacts(i);
      conn := Allocate(l, i, fd, mark);
      Enter(conn);
      QueueInLoop(l, i, EstablishTask(conn));
    }

    lemma AcceptFacts(i: nat)
      requires Pointers() && Wired() && Inv(View()) && Accounted()
      requires i < |loops| && loops[BASE].phase == Dispatching && loops[BASE].handling == None
      ensures loops[i] in loops && nextConnId !in made && nextConnId !in dead && |View().loops| == |loops|
      ensures Enabled(View(), Accept(i)) && Inv(Next(View(), Accept(i))) && AllDead(Next(View(), Accept(i)), dead)
      ensures Next(View(), Accept(i)) == Push(WithNewcomer(View(), i), i, Establish(nextConnId))
    {
      NextIdIsNew(View());
      StepKeepsInv(View(), Accept(i));
      AllStayDead(View(), Accept(i), dead);
    }

    /** Code outside the library copies a shared pointer that somebody holds, */
    method TakeReference(conn: TcpConnection)
      requires Valid() && Known(conn) && Alive(View(), conn.name)
      modifies this`users
      ensures Enabled(old(View()), Step.TakeReference(conn.name))
      ensures Valid() && View() == Next(old(View()), Step.TakeReference(conn.name))
    {
      hide Inv, Wired, Pointers, LoopViews, Alive, AllDead;
      KnownParts(conn);
      StepKeepsInv(View(), Step.TakeReference(conn.name));
      AllStayDead(View(), Step.TakeReference(conn.name), dead);
      users := users + {conn.name};
    }

    /** and lets go of it. */
    method DropReference(conn: TcpConnection)
      requires Valid() && conn.name in users
      modifies this`users
      ensures Enabled(old(View()), Step.DropReference(conn.name))
      ensures Valid() && View() == Next(old(View()), Step.DropReference(conn.name))
    {
      hide Inv, Wired, Pointers, LoopViews, Alive, AllDead;
      StepKeepsInv(View(), Step.DropReference(conn.name));
      AllStayDead(View(), Step.DropReference(conn.name), dead);
      users := users - {conn.name};
    }

    /** The last reference is gone, and with it the connection object and its channel: the fd can come back. */
    method Reclaim(conn: TcpConnection)
      requires Valid() && Known(conn) && conn.name !in dead && !Alive(View(), conn.name)
      modifies this`dead, conn.poller`live
      ensures Valid() && View() == old(View())
      ensures conn.poller.live == old(conn.poller.live) - {conn.channel}
      ensures forall l, c :: l in loops && c in l.poller.live ==> c.fd != conn.channel.fd
    {
      hide Inv, Wired, Pointers, Conns, Alive;
      KnownParts(conn);
      DeadIsGone(View(), conn.name);
      Release(conn);
    }

    method Release(conn: TcpConnection)
      requires Wired() && Known(conn) && conn.name !in dead && conn.channel.index == New
      modifies this`dead, conn.poller`live
      ensures Wired() && dead == old(dead) + {conn.name}
      ensures conn.poller.live == old(conn.poller.live) - {conn.channel}
      ensures forall l, c :: l in loops && c in l.poller.live ==> c.fd != conn.channel.fd
    {
      hide TcpConnection.Valid, Pollers.EPollPoller.Valid, FdsDiffer;
      PartsOf(conn);
      conn.Registered();
      conn.poller.Release(conn.channel);
      FdIsFree(conn);
      dead := dead + {conn.name};
      LiveChannels(conn);
      assert PollersValid() && Apart(made);
      StillSound();
      hide PollersValid, Apart, AllSound;
    }

    twostate lemma FdIsFree(conn: TcpConnection)
      requires old(Wired()) && Known(conn) && made == old(made) && old(conn.channel in conn.poller.live)
      requires conn.poller in (set l | l in loops :: l.poller)
      requires conn.poller.live == old(conn.poller.live) - {conn.channel}
      requires forall l :: l in loops && l.poller != conn.poller ==> l.poller.live == old(l.poller.live)
      ensures FdsDiffer() && forall l, c :: l in loops && c in l.poller.live ==> c.fd != conn.channel.fd
    {
      hide TcpConnection.Valid, Pollers.EPollPoller.Valid, AllSound;
      assert old(Apart(made) && FdsDiffer());
    }

    twostate lemma LiveChannels(conn: TcpConnection)
      requires old(Wired()) && Known(conn) && made == old(made) && dead == old(dead) + {conn.name}
      requires conn.poller.live == old(conn.poller.live) - {conn.channel}
      requires forall l :: l in loops && l.poller != conn.poller ==> l.poller.live == old(l.poller.live)
      ensures forall c :: c in made && c !in dead ==> made[c].channel in made[c].poller.live
    {
      hide TcpConnection.Valid, Pollers.EPollPoller.Valid;
      forall c | c in made && c !in dead ensures made[c].channel in made[c].poller.live {
        assert old(Sound(c, made[c])) && loops[made[c].loop] in loops;
        assert old(Sound(conn.name, conn));
      }
    }

    // ----- polling and dispatching -----

    /** epoll_wait reports registered connections of loop `i`. */
    method PollReturn(i: nat, conns: seq<TcpConnection>)
      requires Valid() && i < |loops| && loops[i].phase == Polling
      requires forall c :: c in conns ==> Known(c) && c.loop == i && c.channel.index == Added
      modifies loops`phase, loops`activeChannels, loops`handling
      ensures Enabled(old(View()), Step.PollReturn(i, Names(conns)))
      ensures Valid() && View() == Next(old(View()), Step.PollReturn(i, Names(conns)))
      ensures loops[i].activeChannels == conns
    {
      hide Inv, Wired, AllDead;
      PollFacts(i, conns);
      StepKeepsInv(View(), Step.PollReturn(i, Names(conns)));
      AllStayDead(View(), Step.PollReturn(i, Names(conns)), dead);
      assert loops[i] in loops && LoopPointers(loops[i]);
      SetDispatch(loops[i], i, Dispatching, conns, loops[i].handling);
    }

    lemma PollFacts(i: nat, conns: seq<TcpConnection>)
      requires Pointers() && Wired() && i < |loops| && loops[i].phase == Polling
      requires forall c :: c in conns ==> Known(c) && c.loop == i && c.channel.index == Added
      ensures Enabled(View(), Step.PollReturn(i, Names(conns)))
    {
      hide Wired;
      forall n | n in Names(conns) ensures n in made && made[n].loop == i && made[n].channel.index == Added {
        var k :| 0 <= k < |conns| && Names(conns)[k] == n;
        assert conns[k] in conns;
      }
    }

    /** The next active channel is dispatched.  Its tie can always be locked. */
    method BeginEvent(i: nat)
      requires Valid() && i < |loops| && loops[i].phase == Dispatching && loops[i].handling == None
      requires loops[i].activeChannels != []
      modifies loops`phase, loops`activeChannels, loops`handling
      ensures Enabled(old(View()), Step.BeginEvent(i)) && Valid() && View() == Next(old(View()), Step.BeginEvent(i))
      ensures loops[i].handling == Some(old(loops[i].activeChannels)[0])
      ensures loops[i].activeChannels == old(loops[i].activeChannels)[1..]
    {
      hide Inv, Wired, AllDead, Alive;
      StepKeepsInv(View(), Step.BeginEvent(i));
      AllStayDead(View(), Step.BeginEvent(i), dead);
      ActiveIsAlive(View(), i);
      var active := loops[i].activeChannels;
      assert loops[i] in loops && LoopPointers(loops[i]);
      assert active == [active[0]] + active[1..];
      assert Names(active)[1..] == Names(active[1..]);
      SetDispatch(loops[i], i, Dispatching, active[1..], Some(active[0]));
    }

    method EndEvent(i: nat)
      requires Valid() && i < |loops| && loops[i].handling.Some? && !loops[i].closing
      modifies loops`phase, loops`activeChannels, loops`handling
      ensures Enabled(old(View()), Step.EndEvent(i)) && Valid() && View() == Next(old(View()), Step.EndEvent(i))
    {
      hide Inv, Wired, AllDead;
      StepKeepsInv(View(), Step.EndEvent(i));
      AllStayDead(View(), Step.EndEvent(i), dead);
      assert loops[i] in loops && LoopPointers(loops[i]);
      SetDispatch(loops[i], i, loops[i].phase, loops[i].activeChannels, None);
    }

    method SetDispatch(l: IoLoop, i: nat, phase: Phase, active: seq<TcpConnection>, handling: Option<TcpConnection>)
      requires Pointers() && i < |loops| && loops[i] == l && (phase != Draining ==> l.ran == l.tasks == [])
      requires (forall c :: c in active ==> Known(c)) && (handling.Some? ==> Known(handling.value))
      modifies l`phase, l`activeChannels, l`handling
      ensures Pointers() && (old(Wired()) ==> Wired())
      ensures l.phase == phase && l.activeChannels == active && l.handling == handling
      ensures View() == old(View()).(loops := old(View()).loops[i := old(View()).loops[i].(
                phase := phase, active := Names(active),
                handling := if handling.Some? then Some(handling.value.name) else None)])
    {
      hide TcpConnection.Valid, Pollers.EPollPoller.Valid, Conns, Wired;
      assert loops[i] in loops && LoopPointers(l);
      l.phase, l.activeChannels, l.handling := phase, active, handling;
      assert LoopViews() == old(LoopViews())[i := l.View()];
    }

    /** The close handler of the connection that loop `i` dispatches: out of epoll, then tell the server. */
    method HandleClose(conn: TcpConnection, i: nat)
      requires Valid() && i < |loops| && loops[i].handling == Some(conn) && !loops[i].closing
      modifies this`connectionMap, loops`pendingFunctors, loops`closing, conn`state, conn`closes
      modifies conn.poller`channels, conn.poller`interest, conn.poller`failures, conn.channel`events, conn.channel`index
      ensures Valid()
      ensures Enabled(old(View()), CloseBegin(i)) && Enabled(Next(old(View()), CloseBegin(i)), CloseNotify(i))
      ensures View() == Next(Next(old(View()), CloseBegin(i)), CloseNotify(i))
    {
      hide Inv, Wired, Pointers, View, Next, Enabled, Known, AllDead;
      HandledConn(conn, i);
      CloseSteps(View(), i);
      CloseStaysDead(View(), i, dead);
      BeginClose(conn, i);
      RemoveConnection(conn, i);
    }

    method BeginClose(conn: TcpConnection, i: nat)
      requires Pointers() && Wired() && Known(conn) && conn.name !in dead && conn.state != Connecting
      requires i < |loops| && loops[i].handling == Some(conn) && Enabled(View(), CloseBegin(i))
      modifies loops`closing, conn`state, conn`closes
      modifies conn.poller`channels, conn.poller`interest, conn.poller`failures, conn.channel`events, conn.channel`index
      ensures Pointers() && Wired() && View() == Next(old(View()), CloseBegin(i))
      ensures Known(conn) && loops[i].handling == Some(conn) && loops[i].closing
    {
      hide Wired, Conns, LoopPointers;
      HandledConn(conn, i);
      CloseConnection(conn);
      SetClosing(loops[i], i, true);
    }

    method SetClosing(l: IoLoop, i: nat, closing: bool)
      requires Pointers() && i < |loops| && loops[i] == l
      modifies l`closing
      ensures Pointers() && (old(Wired()) ==> Wired()) && l.closing == closing
      ensures View() == old(View()).(loops := old(View()).loops[i := old(View()).loops[i].(closing := closing)])
    {
      hide TcpConnection.Valid, Pollers.EPollPoller.Valid, Conns;
      assert loops[i] in loops;
      l.closing := closing;
      assert LoopViews() == old(LoopViews())[i := old(LoopViews())[i].(closing := closing)];
    }

    lemma HandledConn(conn: TcpConnection, i: nat)
      requires Pointers() && Wired() && i < |loops| && loops[i].handling == Some(conn)
      ensures loops[i] in loops && Known(conn) && |View().loops| == |loops|
      ensures View().loops[i].handling == Some(conn.name) && View().loops[i].closing == loops[i].closing
      ensures conn.name in View().conns && View().conns[conn.name] == ConnView(conn)
    {
      hide Wired, Conns;
      KnownParts(conn) by { assert loops[i] in loops && LoopPointers(loops[i]); }
    }

    /** Called on the thread of loop `i`: run the removal here if this is the base loop, queue it there otherwise. */
    method RemoveConnection(conn: TcpConnection, i: nat)
      requires Pointers() && i < |loops| && loops[i].handling == Some(conn) && loops[i].closing
      requires Known(conn) && conn.loop == i
      modifies this`connectionMap, loops`pendingFunctors, loops`closing
      ensures Pointers() && (old(Wired()) ==> Wired())
      ensures Enabled(old(View()), CloseNotify(i)) && View() == Next(old(View()), CloseNotify(i))
      ensures i == BASE ==>
                && connectionMap == old(connectionMap) - {conn.name}
                && loops[BASE].pendingFunctors == old(loops[BASE].pendingFunctors) + [DestroyTask(conn)]
      ensures i != BASE ==>
                && connectionMap == old(connectionMap)
                && loops[BASE].pendingFunctors == old(loops[BASE].pendingFunctors) + [RemoveTask(conn)]
    {
      hide Wired, Conns, LoopPointers;
      SetClosing(loops[i], i, false);
      if i == BASE {
        RemoveConnectionInLoop(conn);
      } else {
        QueueInLoop(loops[BASE], BASE, RemoveTask(conn));
      }
    }

    method RemoveConnectionInLoop(conn: TcpConnection)
      requires Pointers() && Known(conn) && conn.loop < |loops|
      modifies this`connectionMap, loops`pendingFunctors
      ensures Pointers() && (old(Wired()) ==> Wired())
      ensures View() == Push(old(View()).(connMap := old(View()).connMap - {conn.name}), conn.loop, Destroy(conn.name))
      ensures connectionMap == old(connectionMap) - {conn.name}
      ensures loops[conn.loop].pendingFunctors == old(loops[conn.loop].pendingFunctors) + [DestroyTask(conn)]
    {
      hide Wired, Conns, LoopPointers;
      Erase(conn);
      QueueInLoop(loops[conn.loop], conn.loop, DestroyTask(conn));
    }

    method Erase(conn: TcpConnection)
      requires Pointers()
      modifies this`connectionMap
      ensures Pointers() && (old(Wired()) ==> Wired())
      ensures View() == old(View()).(connMap := old(View()).connMap - {conn.name})
      ensures connectionMap == old(connectionMap) - {conn.name}
    {
      hide Wired, Conns, LoopPointers;
      connectionMap := connectionMap - {conn.name};
    }

    /** What a functor does, apart from leaving its queue. */
    method Perform(task: Task)
      requires Pointers() && Wired() && (task.OtherTask? || Known(task.conn))
      requires task.EstablishTask? ==> task.conn.state == Connecting && task.conn.name !in dead
      requires task.DestroyTask? ==> task.conn.state != Connecting && task.conn.name !in dead
      modifies this`connectionMap, loops`pendingFunctors, task.Conns()`state
      modifies set c | c in task.Conns() :: c.channel, set c | c in task.Conns() :: c.poller
      ensures Pointers() && Wired()
      ensures task.OtherTask? || (task.conn.name in old(View()).conns && task.conn.loop < |loops|)
      ensures View() == Effect(old(View()), task.Functor())
    {
      hide Wired, Conns, Pointers, LoopViews;
      if !task.OtherTask? {
        KnownParts(task.conn);
      }
      match task {
        case EstablishTask(conn) => EstablishConnection(conn);
        case RemoveTask(conn) => RemoveConnectionInLoop(conn);
        case DestroyTask(conn) => DestroyConnection(conn);
        case _ =>
      }
    }

    /** Loop `i` has this functor at the head of its batch. */
    ghost predicate AtHead(i: nat, task: Task)
      reads loops
    {
      && i < |loops| && loops[i].phase == Draining && !loops[i].erased
      && loops[i].tasks != [] && loops[i].tasks[0] == task
    }

    /** The functor at the head of the batch of loop `i`, from start to end. */
    method RunTask(i: nat, task: Task)
      requires Valid() && AtHead(i, task)
      modifies this`connectionMap, loops`pendingFunctors, loops`ran, loops`tasks, loops`erased, task.Conns()`state
      modifies set c | c in task.Conns() :: c.channel, set c | c in task.Conns() :: c.poller
      ensures Enabled(old(View()), Step.RunTask(i)) && !old(View()).loops[i].midway
      ensures Valid() && View() == TaskDone(old(View()), i)
      ensures loops[i].tasks == old(loops[i].tasks)[1..] && !loops[i].erased
    {
      hide Inv, Wired, Pointers, View, LoopViews, TaskDone, Enabled, Effect, AllDead;
      HeadFacts(i, task);
      TaskFacts(View(), i);
      TaskStaysDead(View(), i, dead);
      HeadHolds(View(), i, dead);
      TaskDoneIs(View(), i);
      Perform(task);
      Finish(loops[i], i);
    }

    /** One batch of loop `i`, from the swap to the end: a run of the protocol that no other thread interrupts. */
    method DoingPendingFunctors(i: nat) returns (ghost steps: seq<Step>)
      requires Valid() && i < |loops| && Enabled(View(), Step.StartBatch(i))
      modifies this`connectionMap, loops, made.Values`state
      modifies set c | c in made.Values :: c.channel, set c | c in made.Values :: c.poller
      ensures Valid() && EnabledRun(old(View()), steps) && View() == Run(old(View()), steps)
      ensures |steps| >= 2 && steps[0] == Step.StartBatch(i) && steps[|steps| - 1] == Step.EndBatch(i)
    {
      hide Valid, View, TaskDone, Enabled, Next;
      ghost var start := View();
      StartBatch(i);
      steps := [Step.StartBatch(i)];
      assert steps[1..] == [];
      while loops[i].tasks != []
        invariant Valid() && made == old(made) && loops[i].phase == Draining && !loops[i].erased
        invariant EnabledRun(start, steps) && View() == Run(start, steps) &&
                  |steps| >= 1 && steps[0] == Step.StartBatch(i)
        decreases |loops[i].tasks|
      {
        var task := loops[i].tasks[0];
        HeadOf(i, task);
        steps := TaskRuns(start, steps, i);
        RunTask(i, task);
      }
      EndBatch(i);
      RunSnoc(start, steps, Step.EndBatch(i));
      steps := steps + [Step.EndBatch(i)];
    }

    lemma HeadOf(i: nat, task: Task)
      requires Valid() && AtHead(i, task)
      ensures Enabled(View(), Step.RunTask(i)) && !View().loops[i].midway && task.Conns() <= made.Values
    {
      hide Wired, Pointers, View, Inv;
      HeadFacts(i, task);
    }

    lemma HeadFacts(i: nat, task: Task)
      requires Pointers() && Wired() && AtHead(i, task)
      ensures Enabled(View(), Step.RunTask(i)) && !View().loops[i].midway
      ensures task.Functor() == View().loops[i].todo[0]
      ensures task.OtherTask? || (Known(task.conn) && View().conns[task.conn.name] == ConnView(task.conn))
    {
      hide Wired, Conns;
      assert loops[i] in loops && LoopPointers(loops[i]);
      if !task.OtherTask? {
        KnownParts(task.conn);
      }
    }

    method StartBatch(i: nat)
      requires Valid() && i < |loops| && Enabled(View(), Step.StartBatch(i))
      modifies loops`pendingFunctors, loops`tasks, loops`phase
      ensures Valid() && View() == Next(old(View()), Step.StartBatch(i))
      ensures loops[i].phase == Draining && !loops[i].erased
    {
      hide Inv, Wired, Conns, AllDead;
      NotMidway(View(), i);
      StepKeepsInv(View(), Step.StartBatch(i));
      AllStayDead(View(), Step.StartBatch(i), dead);
      assert loops[i] in loops && LoopPointers(loops[i]);
      loops[i].Swap();
      assert LoopViews() == Next(old(View()), Step.StartBatch(i)).loops;
    }

    method EndBatch(i: nat)
      requires Valid() && i < |loops| && loops[i].phase == Draining && loops[i].tasks == []
      modifies loops`ran, loops`phase
      ensures Enabled(old(View()), Step.EndBatch(i))
      ensures Valid() && View() == Next(old(View()), Step.EndBatch(i))
    {
      hide Inv, Wired, Conns, AllDead;
      StepKeepsInv(View(), Step.EndBatch(i));
      AllStayDead(View(), Step.EndBatch(i), dead);
      assert loops[i] in loops && LoopPointers(loops[i]);
      loops[i].EndBatch();
      assert LoopViews() == Next(old(View()), Step.EndBatch(i)).loops;
    }

    method Finish(l: IoLoop, i: nat)
      requires Pointers() && i < |loops| && loops[i] == l && l.tasks != []
      modifies l`ran, l`tasks, l`erased
      ensures Pointers() && (old(Wired()) ==> Wired())
      ensures View() == Pop(old(View()), i) && l.tasks == old(l.tasks)[1..] && !l.erased
    {
      hide Wired, Conns;
      assert loops[i] in loops && LoopPointers(l);
      l.Advance();
      assert LoopViews() == Pop(old(View()), i).loops;
    }
  }

  /** Both halves of a removal, or the one step of any other functor. */
  ghost function TaskDone(w: World, l: nat): World
    requires Enabled(w, Step.RunTask(l)) && !w.loops[l].midway
  {
    var w1 := Next(w, Step.RunTask(l));
    if w.loops[l].todo[0].Remove? then Next(w1, Step.RunTask(l)) else w1
  }

  /** What the functor does to everything but the queue it is taken from. */
  ghost function Effect(w: World, f: Functor): World
    requires f.Other? || (f.conn in w.conns && w.conns[f.conn].loop < |w.loops|)
  {
    match f
    case Establish(c) => SetConn(w, c, w.conns[c].(status := Connected, index := Added))
    case Remove(c) => Push(w.(connMap := w.connMap - {c}), w.conns[c].loop, Destroy(c))
    case Destroy(c) => SetConn(w, c, w.conns[c].(status := DisConnected, index := New))
    case _ => w
  }

  /** A finished functor has its effect and is popped, in either order. */
  lemma TaskDoneIs(w: World, l: nat)
    requires Enabled(w, Step.RunTask(l)) && !w.loops[l].midway
    requires w.loops[l].todo[0].Destroy? ==> w.conns[w.loops[l].todo[0].conn].status != Connecting
    ensures var f := w.loops[l].todo[0];
            && Effect(w, f).loops[l].left > 0 && Effect(w, f).loops[l].todo != []
            && TaskDone(w, l) == Pop(Effect(w, f), l)
  {
    var f := w.loops[l].todo[0];
    if f.Remove? {
      assert (w.loops[l].todo + [Destroy(f.conn)])[1..] == w.loops[l].todo[1..] + [Destroy(f.conn)];
      assert TaskDone(w, l).loops == Pop(Effect(w, f), l).loops;
    }
  }

  lemma NotMidway(w: World, l: nat)
    requires Inv(w) && l < |w.loops| && w.loops[l].phase != Draining
    ensures !w.loops[l].midway
  {
    assert LoopOk(w, l, w.loops[l]);
  }

  lemma CloseStaysDead(w: World, l: nat, dead: set<nat>)
    requires Inv(w) && l < |w.loops| && w.loops[l].handling.Some? && !w.loops[l].closing && AllDead(w, dead)
    ensures Enabled(w, CloseBegin(l)) && Enabled(Next(w, CloseBegin(l)), CloseNotify(l))
    ensures AllDead(Next(Next(w, CloseBegin(l)), CloseNotify(l)), dead)
    ensures w.loops[l].handling.value !in dead
  {
    hide Inv, Next, Enabled, Alive;
    CloseSteps(w, l);
    StepKeepsInv(w, CloseBegin(l));
    AllStayDead(w, CloseBegin(l), dead);
    AllStayDead(Next(w, CloseBegin(l)), CloseNotify(l), dead);
  }

  lemma TaskStaysDead(w: World, l: nat, dead: set<nat>)
    requires Inv(w) && Enabled(w, Step.RunTask(l)) && !w.loops[l].midway && AllDead(w, dead)
    ensures AllDead(TaskDone(w, l), dead)
  {
    hide Inv, Next, AllDead;
    AllStayDead(w, Step.RunTask(l), dead);
    StepKeepsInv(w, Step.RunTask(l));
    if w.loops[l].todo[0].Remove? {
      RemovalGoesOn(w, l);
      AllStayDead(Next(w, Step.RunTask(l)), Step.RunTask(l), dead);
    }
  }

  lemma RemovalGoesOn(w: World, l: nat)
    requires Enabled(w, Step.RunTask(l)) && !w.loops[l].midway && w.loops[l].todo[0].Remove?
    ensures Enabled(Next(w, Step.RunTask(l)), Step.RunTask(l))
  {
  }

  lemma HeadHolds(w: World, l: nat, dead: set<nat>)
    requires Enabled(w, Step.RunTask(l)) && AllDead(w, dead)
    ensures forall c :: c in dead ==> !w.loops[l].todo[0].Holds(c)
  {
    assert forall c :: c in dead ==> !HeldBy(w.loops[l], c);
    assert w.loops[l].todo[0] in w.loops[l].todo;
  }

  lemma TaskRuns(w: World, steps: seq<Step>, l: nat) returns (more: seq<Step>)
    requires EnabledRun(w, steps) && steps != []
    requires Enabled(Run(w, steps), Step.RunTask(l)) && !Run(w, steps).loops[l].midway
    ensures EnabledRun(w, more) && Run(w, more) == TaskDone(Run(w, steps), l) && more != [] && more[0] == steps[0]
  {
    more := steps + [Step.RunTask(l)];
    RunSnoc(w, steps, Step.RunTask(l));
    if Run(w, steps).loops[l].todo[0].Remove? {
      RunSnoc(w, more, Step.RunTask(l));
      more := more + [Step.RunTask(l)];
    }
  }

  lemma TaskFacts(w: World, l: nat)
    requires Inv(w) && Enabled(w, Step.RunTask(l)) && !w.loops[l].midway
    ensures Inv(TaskDone(w, l))
    ensures w.loops[l].todo[0].Destroy? ==> w.conns[w.loops[l].todo[0].conn].status != Connecting
    ensures w.loops[l].todo[0].Establish? ==> w.conns[w.loops[l].todo[0].conn].status == Connecting
  {
    hide ConnsOk, WellFormed, LoopOk, NotifiedFirst;
    var f := w.loops[l].todo[0];
    HeadIsPlaced(w, l);
    StepKeepsInv(w, Step.RunTask(l));
    if f.Remove? {
      StepKeepsInv(Next(w, Step.RunTask(l)), Step.RunTask(l));
    }
    if !f.Other? {
      ConnIsGood(w, f.conn);
    }
  }
}
