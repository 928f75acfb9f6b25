/**
 The timer queue seen as a value: a set of timers, the sequence numbers handed out so far and the state of
 the one-shot timerfd.  `Step` gives the effect of every operation, and the theorems quantify over all runs.
 Times are microseconds of the monotonic clock; the kernel deadline is kept in nanoseconds.
 */
module TimerModel {
  import opened Extremes

  /** What a user holds to cancel a timer: the address of the Timer object and its sequence number. */
  datatype TimerId = TimerId(addr: nat, sequence: nat)

  /** The key of the ordered index. */
  datatype Entry = Entry(when: int, sequence: nat)

  /** `repeat` and `interval` are separate: an interval below one microsecond repeats with interval 0. */
  datatype Timer = Timer(addr: nat, sequence: nat, expiration: int, repeat: bool, interval: nat) {
    function Id(): TimerId {
      TimerId(addr, sequence)
    }

    function Key(): Entry {
      Entry(expiration, sequence)
    }

    function Restart(now: int): Timer {
      this.(expiration := if repeat then now + interval else 0)
    }
  }

  // ----- the timerfd -----

  datatype Timespec = Timespec(sec: int, nsec: int) {
    function Nanos(): int {
      sec * 1_000_000_000 + nsec
    }
  }

  /** A one-shot timerfd, with its absolute deadline and the time at which it was set. */
  datatype TimerFd = Disarmed | Armed(deadline: int, setAt: int) {
    predicate Readable(clock: int) {
      Armed? && deadline <= clock * 1000
    }
  }

  /** The timespec is a normalised, exact and nonzero image of the wait, which is at least 100us. */
  function HowMuchTimeFromNow(when: int, now: int): (ts: Timespec)
    ensures 0 <= ts.sec && 0 <= ts.nsec < 1_000_000_000
    ensures ts.Nanos() == Max(when - now, 100) * 1000
    ensures ts != Timespec(0, 0)
  {
    var micros := if when - now < 100 then 100 else when - now;
    Timespec(micros / 1_000_000, micros % 1_000_000 * 1000)
  }

  /** timerfd_settime with a relative one-shot value: a zero value disarms. */
  function SetTime(value: Timespec, clock: int): TimerFd {
    if value == Timespec(0, 0) then Disarmed else Armed(clock * 1000 + value.Nanos(), clock)
  }

  /** Arming never disarms, and the deadline is the expiration unless that is less than 100us away. */
  function ResetTimerFd(when: int, clock: int): (fd: TimerFd)
    ensures fd == Armed(Max(when, clock + 100) * 1000, clock)
  {
    SetTime(HowMuchTimeFromNow(when, clock), clock)
  }

  function ReadTimerFd(fd: TimerFd, clock: int): TimerFd {
    if fd.Readable(clock) then Disarmed else fd
  }

  // ----- the queue -----

  datatype Queue = Queue(pending: set<Timer>, used: set<nat>, fd: TimerFd)

  /** The earliest expiration of a nonempty set of timers. */
  ghost function Earliest(timers: set<Timer>): (when: int)
    requires timers != {}
    ensures exists t :: t in timers && t.expiration == when
    ensures forall t :: t in timers ==> when <= t.expiration
  {
    var t :| t in timers;
    if timers == {t} then t.expiration else
      var rest := timers - {t};
      assert timers == rest + {t};
      var m := Earliest(rest);
      if t.expiration < m then t.expiration else m
  }

  /** Is `when` strictly before every pending timer?  True of the empty queue. */
  ghost predicate BeforeAll(timers: set<Timer>, when: int) {
    forall t :: t in timers ==> when < t.expiration
  }

  ghost function Insert(q: Queue, timer: Timer, clock: int): Queue {
    Queue(q.pending + {timer}, q.used + {timer.sequence},
          if BeforeAll(q.pending, timer.expiration) then ResetTimerFd(timer.expiration, clock) else q.fd)
  }

  ghost function Without(timers: set<Timer>, ids: set<TimerId>): set<Timer> {
    set t | t in timers && t.Id() !in ids
  }

  ghost function Expired(timers: set<Timer>, now: int): set<Timer> {
    set t | t in timers && t.expiration <= now
  }

  /** A callback is an arbitrary finite sequence of these. */
  datatype Action = Add(timer: Timer, clock: int) | Cancel(id: TimerId)

  /** The queue while callbacks run: cancellations are only recorded. */
  datatype Batch = Batch(queue: Queue, canceling: set<TimerId>)

  ghost function Act(b: Batch, action: Action): Batch {
    match action
    case Add(timer, clock) => b.(queue := Insert(b.queue, timer, clock))
    case Cancel(id) => b.(canceling := b.canceling + {id})
  }

  ghost function ActAll(b: Batch, actions: seq<Action>): Batch {
    if actions == [] then b
    else Act(ActAll(b, actions[..|actions| - 1]), actions[|actions| - 1])
  }

  /** The state after the first `n` callbacks of a batch; `scripts(i)` is what the i-th one does. */
  ghost function Callbacks(b: Batch, scripts: nat -> seq<Action>, n: nat): Batch {
    if n == 0 then b else ActAll(Callbacks(b, scripts, n - 1), scripts(n - 1))
  }

  ghost function Restarted(timers: set<Timer>, canceled: set<TimerId>, now: int): set<Timer> {
    set t | t in timers && t.repeat && t.Id() !in canceled :: t.Restart(now)
  }

  ghost function Rearm(pending: set<Timer>, fd: TimerFd, clock: int): TimerFd {
    if pending != {} && Earliest(pending) > 0 then ResetTimerFd(Earliest(pending), clock) else fd
  }

  ghost function Reset(b: Batch, expired: set<Timer>, now: int, clock: int): Queue {
    var pending := Without(b.queue.pending - expired, b.canceling) + Restarted(expired, b.canceling, now);
    Queue(pending, b.queue.used, Rearm(pending, b.queue.fd, clock))
  }

  ghost function StartBatch(q: Queue, now: int): Batch {
    Batch(q.(fd := ReadTimerFd(q.fd, now)), {})
  }

  /** handleRead: `now` is read on entry and `clock` when the timerfd is set again at the end. */
  ghost function Fire(q: Queue, scripts: nat -> seq<Action>, now: int, clock: int): Queue {
    var expired := Expired(q.pending, now);
    Reset(Callbacks(StartBatch(q, now), scripts, |expired|), expired, now, clock)
  }

  // ----- what the environment promises -----

  /** `new` returns an address not in use, and the global counter a number never seen. */
  ghost predicate Fresh(q: Queue, timer: Timer) {
    && timer.sequence !in q.used
    && forall t :: t in q.pending ==> t.addr != timer.addr
  }

  ghost predicate Admissible(b: Batch, actions: seq<Action>) {
    actions == [] ||
    var front, last := actions[..|actions| - 1], actions[|actions| - 1];
    && Admissible(b, front)
    && (last.Add? ==> Fresh(ActAll(b, front).queue, last.timer))
  }

  ghost predicate AdmissibleBatch(b: Batch, scripts: nat -> seq<Action>, n: nat) {
    n == 0 || (AdmissibleBatch(b, scripts, n - 1) && Admissible(Callbacks(b, scripts, n - 1), scripts(n - 1)))
  }

  // ----- the invariant -----

  /** Sequence numbers and addresses identify pending timers. */
  ghost predicate DistinctTimers(pending: set<Timer>, used: set<nat>) {
    && (forall t, u :: t in pending && u in pending && t.sequence == u.sequence ==> t == u)
    && (forall t, u :: t in pending && u in pending && t.addr == u.addr ==> t == u)
    && (forall t :: t in pending ==> t.sequence in used)
  }

  ghost predicate Distinct(q: Queue) {
    DistinctTimers(q.pending, q.used)
  }

  /** A pending timer implies an armed (or already readable) timerfd that does not wake too late. */
  ghost predicate Covered(q: Queue) {
    q.pending != {} ==>
      q.fd.Armed? && q.fd.deadline <= Max(Earliest(q.pending), q.fd.setAt + 100) * 1000
  }

  ghost predicate Positive(timers: set<Timer>) {
    forall t :: t in timers ==> t.expiration > 0
  }

  // ----- runs -----

  datatype Op =
    | AddOp(timer: Timer, clock: int)
    | CancelOp(id: TimerId)
    | FireOp(scripts: nat -> seq<Action>, now: int, clock: int)

  ghost function Step(q: Queue, op: Op): Queue {
    match op
    case AddOp(timer, clock) => Insert(q, timer, clock)
    case CancelOp(id) => q.(pending := Without(q.pending, {id}))
    case FireOp(scripts, now, clock) => Fire(q, scripts, now, clock)
  }

  ghost predicate Enabled(q: Queue, op: Op) {
    match op
    case AddOp(timer, _) => Fresh(q, timer)
    case CancelOp(_) => true
    case FireOp(scripts, now, _) => AdmissibleBatch(StartBatch(q, now), scripts, |Expired(q.pending, now)|)
  }

  ghost function Run(q: Queue, ops: seq<Op>): Queue
    decreases |ops|
  {
    if ops == [] then q else Run(Step(q, ops[0]), ops[1..])
  }

  ghost predicate EnabledRun(q: Queue, ops: seq<Op>)
    decreases |ops|
  {
    ops == [] || (Enabled(q, ops[0]) && EnabledRun(Step(q, ops[0]), ops[1..]))
  }

  const EMPTY: Queue := Queue({}, {}, Disarmed)

  // ----- batches -----

  /** What a run of callbacks adds, read off the scripts. */
  ghost function AddedBy(scripts: nat -> seq<Action>, n: nat): set<Timer> {
    set i, k | 0 <= i < n && 0 <= k < |scripts(i)| && scripts(i)[k].Add? :: scripts(i)[k].timer
  }

  ghost function CanceledBy(scripts: nat -> seq<Action>, n: nat): set<TimerId> {
    set i, k | 0 <= i < n && 0 <= k < |scripts(i)| && scripts(i)[k].Cancel? :: scripts(i)[k].id
  }

  lemma {:induction false} ActAllEffect(b: Batch, actions: seq<Action>)
    ensures ActAll(b, actions).queue.pending ==
            b.queue.pending + set k | 0 <= k < |actions| && actions[k].Add? :: actions[k].timer
    ensures ActAll(b, actions).canceling ==
            b.canceling + set k | 0 <= k < |actions| && actions[k].Cancel? :: actions[k].id
  {
    if actions != [] {
      ActAllEffect(b, actions[..|actions| - 1]);
    }
  }

  lemma NoScripts(scripts: nat -> seq<Action>)
    ensures AddedBy(scripts, 0) == {} && CanceledBy(scripts, 0) == {}
  {
  }

  lemma ScriptsSnoc(scripts: nat -> seq<Action>, i: nat)
    ensures var actions := scripts(i);
            && AddedBy(scripts, i + 1) ==
               AddedBy(scripts, i) + (set k | 0 <= k < |actions| && actions[k].Add? :: actions[k].timer)
            && CanceledBy(scripts, i + 1) ==
               CanceledBy(scripts, i) + (set k | 0 <= k < |actions| && actions[k].Cancel? :: actions[k].id)
  {
  }

  lemma {:induction false} CallbacksEffect(b: Batch, scripts: nat -> seq<Action>, n: nat)
    ensures Callbacks(b, scripts, n).queue.pending == b.queue.pending + AddedBy(scripts, n)
    ensures Callbacks(b, scripts, n).canceling == b.canceling + CanceledBy(scripts, n)
  {
    hide AddedBy, CanceledBy, ActAll;
    if n == 0 {
      NoScripts(scripts);
    } else {
      var actions := scripts(n - 1);
      var added := set k | 0 <= k < |actions| && actions[k].Add? :: actions[k].timer;
      var canceled := set k | 0 <= k < |actions| && actions[k].Cancel? :: actions[k].id;
      CallbacksEffect(b, scripts, n - 1);
      ActAllEffect(Callbacks(b, scripts, n - 1), actions);
      ScriptsSnoc(scripts, n - 1);
      assert AddedBy(scripts, n) == AddedBy(scripts, n - 1) + added;
      assert CanceledBy(scripts, n) == CanceledBy(scripts, n - 1) + canceled;
    }
  }

  lemma InsertDistinct(q: Queue, timer: Timer, clock: int)
    requires Distinct(q) && Fresh(q, timer)
    ensures Distinct(Insert(q, timer, clock))
  {
  }

  lemma {:induction false} AdmissiblePrefix(b: Batch, actions: seq<Action>, k: nat)
    requires Admissible(b, actions) && k <= |actions|
    ensures Admissible(b, actions[..k])
    ensures k < |actions| && actions[k].Add? ==> Fresh(ActAll(b, actions[..k]).queue, actions[k].timer)
  {
    if k < |actions| {
      var front := actions[..|actions| - 1];
      AdmissiblePrefix(b, front, k);
      assert front[..k] == actions[..k];
      assert k == |actions| - 1 ==> actions[..k] == front;
    } else {
      assert actions[..k] == actions;
    }
  }

  lemma {:induction false} AdmissibleCallback(b: Batch, scripts: nat -> seq<Action>, n: nat, i: nat)
    requires AdmissibleBatch(b, scripts, n) && i < n
    ensures Admissible(Callbacks(b, scripts, i), scripts(i))
  {
    if i < n - 1 {
      AdmissibleCallback(b, scripts, n - 1, i);
    }
  }

  lemma {:induction false} ActAllDistinct(b: Batch, actions: seq<Action>)
    requires Distinct(b.queue) && Admissible(b, actions)
    ensures Distinct(ActAll(b, actions).queue)
  {
    if actions != [] {
      var front, last := actions[..|actions| - 1], actions[|actions| - 1];
      ActAllDistinct(b, front);
      if last.Add? {
        InsertDistinct(ActAll(b, front).queue, last.timer, last.clock);
      }
    }
  }

  lemma {:induction false} ActAllUsed(b: Batch, actions: seq<Action>)
    ensures b.queue.used <= ActAll(b, actions).queue.used
  {
    if actions != [] {
      ActAllUsed(b, actions[..|actions| - 1]);
    }
  }

  lemma {:induction false} CallbacksUsed(b: Batch, scripts: nat -> seq<Action>, n: nat)
    ensures b.queue.used <= Callbacks(b, scripts, n).queue.used
  {
    if n > 0 {
      CallbacksUsed(b, scripts, n - 1);
      ActAllUsed(Callbacks(b, scripts, n - 1), scripts(n - 1));
    }
  }

  lemma {:induction false} CallbacksDistinct(b: Batch, scripts: nat -> seq<Action>, n: nat)
    requires Distinct(b.queue) && AdmissibleBatch(b, scripts, n)
    ensures Distinct(Callbacks(b, scripts, n).queue)
  {
    if n > 0 {
      CallbacksDistinct(b, scripts, n - 1);
      ActAllDistinct(Callbacks(b, scripts, n - 1), scripts(n - 1));
    }
  }

  /** Callbacks never reuse a sequence number. */
  lemma AddedAreNew(b: Batch, scripts: nat -> seq<Action>, n: nat)
    requires AdmissibleBatch(b, scripts, n)
    ensures forall t :: t in AddedBy(scripts, n) ==> t.sequence !in b.queue.used
  {
    forall t | t in AddedBy(scripts, n) ensures t.sequence !in b.queue.used {
      var i, k :| 0 <= i < n && 0 <= k < |scripts(i)| && scripts(i)[k].Add? && scripts(i)[k].timer == t;
      var here := Callbacks(b, scripts, i);
      AdmissibleCallback(b, scripts, n, i);
      AdmissiblePrefix(here, scripts(i), k);
      CallbacksUsed(b, scripts, i);
      ActAllUsed(here, scripts(i)[..k]);
    }
  }

  /**
   What one handleRead leaves behind, whatever its callbacks add and cancel: the old and the added timers,
   without the cancelled ones and the expired one-shots, and with every surviving expired repeater due one
   interval after the batch began.
   */
  lemma {:induction false} FireOutcome(q: Queue, scripts: nat -> seq<Action>, now: int, clock: int, t: Timer)
    requires Distinct(q) && AdmissibleBatch(StartBatch(q, now), scripts, |Expired(q.pending, now)|)
    requires t in q.pending + AddedBy(scripts, |Expired(q.pending, now)|)
    ensures var after := Fire(q, scripts, now, clock).pending;
            var canceled := CanceledBy(scripts, |Expired(q.pending, now)|);
            if t.Id() in canceled then
              forall u :: u in after ==> u.sequence != t.sequence
            else if t in q.pending && t.expiration <= now then
              if t.repeat then
                forall u :: u in after && u.sequence == t.sequence <==> u == t.(expiration := now + t.interval)
              else
                forall u :: u in after ==> u.sequence != t.sequence
            else
              forall u :: u in after && u.sequence == t.sequence <==> u == t
  {
    var expired := Expired(q.pending, now);
    CallbacksEffect(StartBatch(q, now), scripts, |expired|);
    CallbacksDistinct(StartBatch(q, now), scripts, |expired|);
    var b := Callbacks(StartBatch(q, now), scripts, |expired|);
    assert t in b.queue.pending;
    forall u | u in Fire(q, scripts, now, clock).pending && u.sequence == t.sequence
      ensures t.Id() !in b.canceling
      ensures if t in expired then t.repeat && u == t.Restart(now) else u == t
    {
      if u !in Without(b.queue.pending - expired, b.canceling) {
        var v :| v in expired && v.repeat && v.Id() !in b.canceling && u == v.Restart(now);
      }
    }
    if t.Id() !in b.canceling && t in expired && t.repeat {
      assert t.Restart(now) in Fire(q, scripts, now, clock).pending;
    }
  }

  /** Nothing else is left: every timer in the queue afterwards comes from an old or an added one. */
  lemma {:induction false} FireAddsNothingElse(q: Queue, scripts: nat -> seq<Action>, now: int, clock: int, u: Timer)
    requires u in Fire(q, scripts, now, clock).pending
    ensures exists t :: t in q.pending + AddedBy(scripts, |Expired(q.pending, now)|)
                        && t.Id() == u.Id() && t.repeat == u.repeat && t.interval == u.interval
  {
    var expired := Expired(q.pending, now);
    CallbacksEffect(StartBatch(q, now), scripts, |expired|);
    var b := Callbacks(StartBatch(q, now), scripts, |expired|);
    if u in Without(b.queue.pending - expired, b.canceling) {
      assert u in q.pending + AddedBy(scripts, |expired|);
    } else {
      var v :| v in expired && v.repeat && v.Id() !in b.canceling && u == v.Restart(now);
      assert v in q.pending + AddedBy(scripts, |expired|);
    }
  }

  // ----- the invariant over runs -----

  /** Where each timer left by a firing comes from. */
  lemma FireOrigin(q: Queue, scripts: nat -> seq<Action>, now: int, clock: int, u: Timer) returns (t: Timer)
    requires u in Fire(q, scripts, now, clock).pending
    ensures t in Callbacks(StartBatch(q, now), scripts, |Expired(q.pending, now)|).queue.pending
    ensures t.Id() == u.Id() && u == if t in Expired(q.pending, now) then t.Restart(now) else t
    ensures t in Expired(q.pending, now) ==> t.repeat
  {
    var expired := Expired(q.pending, now);
    CallbacksEffect(StartBatch(q, now), scripts, |expired|);
    var b := Callbacks(StartBatch(q, now), scripts, |expired|);
    if u in Without(b.queue.pending - expired, b.canceling) {
      t := u;
    } else {
      t :| t in expired && t.repeat && t.Id() !in b.canceling && u == t.Restart(now);
    }
  }

  lemma FireDistinct(q: Queue, scripts: nat -> seq<Action>, now: int, clock: int)
    requires Distinct(q) && AdmissibleBatch(StartBatch(q, now), scripts, |Expired(q.pending, now)|)
    ensures Distinct(Fire(q, scripts, now, clock))
    ensures q.used <= Fire(q, scripts, now, clock).used
  {
    var b0, n := StartBatch(q, now), |Expired(q.pending, now)|;
    CallbacksDistinct(b0, scripts, n);
    CallbacksUsed(b0, scripts, n);
    var after := Fire(q, scripts, now, clock);
    forall u, v | u in after.pending && v in after.pending
      ensures u.sequence == v.sequence ==> u == v
      ensures u.addr == v.addr ==> u == v
      ensures u.sequence in after.used
    {
      var t := FireOrigin(q, scripts, now, clock, u);
      var w := FireOrigin(q, scripts, now, clock, v);
    }
  }

  lemma InsertCovered(q: Queue, timer: Timer, clock: int)
    requires Covered(q)
    ensures Covered(Insert(q, timer, clock))
  {
    var after := Insert(q, timer, clock);
    if BeforeAll(q.pending, timer.expiration) {
      assert Earliest(after.pending) == timer.expiration;
    } else {
      assert Earliest(after.pending) == Earliest(q.pending);
    }
  }

  lemma CancelCovered(q: Queue, id: TimerId)
    requires Covered(q)
    ensures Covered(q.(pending := Without(q.pending, {id})))
  {
    var left := Without(q.pending, {id});
    assert left <= q.pending;
  }

  lemma StepKeepsDistinct(q: Queue, op: Op)
    requires Distinct(q) && Enabled(q, op)
    ensures Distinct(Step(q, op))
    ensures q.used <= Step(q, op).used
  {
    match op
    case AddOp(timer, clock) => InsertDistinct(q, timer, clock);
    case CancelOp(id) =>
    case FireOp(scripts, now, clock) => FireDistinct(q, scripts, now, clock);
  }

  /** The timers that an operation adds lie in positive time, as every time computed from the clock does. */
  ghost predicate PositiveOp(op: Op) {
    match op
    case AddOp(timer, _) => timer.expiration > 0
    case CancelOp(_) => true
    case FireOp(scripts, _, _) => forall n: nat :: Positive(AddedBy(scripts, n))
  }

  lemma FirePositive(q: Queue, scripts: nat -> seq<Action>, now: int, clock: int)
    requires Positive(q.pending) && Positive(AddedBy(scripts, |Expired(q.pending, now)|))
    ensures Positive(Fire(q, scripts, now, clock).pending)
  {
    CallbacksEffect(StartBatch(q, now), scripts, |Expired(q.pending, now)|);
    forall u | u in Fire(q, scripts, now, clock).pending ensures u.expiration > 0 {
      var t := FireOrigin(q, scripts, now, clock, u);
      assert t.expiration > 0;
    }
  }

  lemma StepKeepsCovered(q: Queue, op: Op)
    requires Positive(q.pending) && Covered(q) && PositiveOp(op)
    ensures Positive(Step(q, op).pending) && Covered(Step(q, op))
  {
    match op
    case AddOp(timer, clock) => InsertCovered(q, timer, clock);
    case CancelOp(id) => CancelCovered(q, id);
    case FireOp(scripts, now, clock) => FirePositive(q, scripts, now, clock);
  }

  /** Through every run of adds, cancels and firings, a sequence number and an address identify a pending timer. */
  lemma {:induction false} RunKeepsDistinct(q: Queue, ops: seq<Op>)
    requires Distinct(q) && EnabledRun(q, ops)
    ensures Distinct(Run(q, ops))
    decreases |ops|
  {
    if ops != [] {
      StepKeepsDistinct(q, ops[0]);
      RunKeepsDistinct(Step(q, ops[0]), ops[1..]);
    }
  }

  /**
   Main result: through every run in positive time, a pending timer has an armed timerfd that does not wake too late.
   */
  lemma {:induction false} RunKeepsCovered(q: Queue, ops: seq<Op>)
    requires Positive(q.pending) && Covered(q) && forall op :: op in ops ==> PositiveOp(op)
    ensures Covered(Run(q, ops))
    decreases |ops|
  {
    if ops != [] {
      assert ops[0] in ops;
      StepKeepsCovered(q, ops[0]);
      RunKeepsCovered(Step(q, ops[0]), ops[1..]);
    }
  }

  /**
   The same for a queue from its creation on, spelled out: a pending timer has an armed timerfd that is not too late.
   */
  lemma TimerfdCoversPending(ops: seq<Op>)
    requires forall op :: op in ops ==> PositiveOp(op)
    ensures var q := Run(EMPTY, ops);
            q.pending != {} ==>
              q.fd.Armed? && q.fd.deadline <= Max(Earliest(q.pending), q.fd.setAt + 100) * 1000
  {
    RunKeepsCovered(EMPTY, ops);
  }

  /**
   Positive expirations matter: with two timers at or before time zero, the firing that removes one leaves
   the other pending behind a disarmed timerfd.
   */
  lemma UnarmedAtNonpositiveTime()
    ensures var first := Timer(1, 0, -1, false, 0);
            var second := Timer(2, 1, 0, false, 0);
            var scripts := (i: nat) => if i == 0 then [Add(second, 500)] else [];
            var q := Fire(Insert(EMPTY, first, 100), scripts, 400, 600);
            q.pending == {second} && q.fd == Disarmed
  {
    var first := Timer(1, 0, -1, false, 0);
    var second := Timer(2, 1, 0, false, 0);
    var scripts := (i: nat) => if i == 0 then [Add(second, 500)] else [];
    var q0 := Insert(EMPTY, first, 100);
    assert q0.pending == {first};
    assert Expired(q0.pending, 400) == {first};
    var b := StartBatch(q0, 400);
    assert scripts(0)[..0] == [];
    assert ActAll(b, scripts(0)) == Act(ActAll(b, []), Add(second, 500));
    assert Callbacks(b, scripts, 1) == ActAll(Callbacks(b, scripts, 0), scripts(0));
    assert Callbacks(b, scripts, 1).queue.pending == {first, second};
    assert Without({first, second} - {first}, {}) == {second};
    assert Restarted({first}, {}, 400) == {};
  }

  // ----- exactly when the timerfd covers the queue, positive times or not -----

  /** Whenever the timerfd is armed at all, it does not wake too late. */
  ghost predicate Timely(q: Queue) {
    q.pending != {} && q.fd.Armed? ==> q.fd.deadline <= Max(Earliest(q.pending), q.fd.setAt + 100) * 1000
  }

  lemma InsertTimely(q: Queue, timer: Timer, clock: int)
    requires Timely(q)
    ensures Timely(Insert(q, timer, clock))
  {
    var after := Insert(q, timer, clock);
    if BeforeAll(q.pending, timer.expiration) {
      assert Earliest(after.pending) == timer.expiration;
    } else {
      assert Earliest(after.pending) == Earliest(q.pending);
    }
  }

  lemma {:induction false} ActAllTimely(b: Batch, actions: seq<Action>)
    requires Timely(b.queue)
    ensures Timely(ActAll(b, actions).queue)
  {
    if actions != [] {
      var front, last := actions[..|actions| - 1], actions[|actions| - 1];
      ActAllTimely(b, front);
      if last.Add? {
        InsertTimely(ActAll(b, front).queue, last.timer, last.clock);
      }
    }
  }

  lemma {:induction false} CallbacksTimely(b: Batch, scripts: nat -> seq<Action>, n: nat)
    requires Timely(b.queue)
    ensures Timely(Callbacks(b, scripts, n).queue)
  {
    if n > 0 {
      CallbacksTimely(b, scripts, n - 1);
      ActAllTimely(Callbacks(b, scripts, n - 1), scripts(n - 1));
    }
  }

  /** Restarting only postpones, so a timerfd that `reset` leaves alone is as timely as before. */
  lemma FireTimely(q: Queue, scripts: nat -> seq<Action>, now: int, clock: int)
    requires Timely(q)
    ensures Timely(Fire(q, scripts, now, clock))
  {
    var b := Callbacks(StartBatch(q, now), scripts, |Expired(q.pending, now)|);
    CallbacksTimely(StartBatch(q, now), scripts, |Expired(q.pending, now)|);
    var after := Fire(q, scripts, now, clock);
    if after.pending != {} {
      var first :| first in after.pending && first.expiration == Earliest(after.pending);
      var origin := FireOrigin(q, scripts, now, clock, first);
      assert Earliest(b.queue.pending) <= origin.expiration <= first.expiration;
    }
  }

  /** No run, whatever its times, ever arms the timerfd too late. */
  lemma {:induction false} RunKeepsTimely(q: Queue, ops: seq<Op>)
    requires Timely(q)
    ensures Timely(Run(q, ops))
    ensures Covered(Run(q, ops)) <==> Run(q, ops).pending == {} || Run(q, ops).fd.Armed?
    decreases |ops|
  {
    if ops != [] {
      match ops[0] {
        case AddOp(timer, clock) => InsertTimely(q, timer, clock);
        case CancelOp(id) => assert Without(q.pending, {id}) <= q.pending;
        case FireOp(scripts, now, clock) => FireTimely(q, scripts, now, clock);
      }
      RunKeepsTimely(Step(q, ops[0]), ops[1..]);
    }
  }

  /** What the callbacks add before the `k`-th action of the `i`-th one. */
  ghost function AddedBefore(scripts: nat -> seq<Action>, i: nat, k: nat): set<Timer>
    requires k <= |scripts(i)|
  {
    AddedBy(scripts, i) + set j | 0 <= j < k && scripts(i)[j].Add? :: scripts(i)[j].timer
  }

  /** The `k`-th action of the `i`-th callback adds a timer that is earlier than every other in the queue. */
  ghost predicate Preempts(pending: set<Timer>, scripts: nat -> seq<Action>, i: nat, k: nat) {
    && k < |scripts(i)| && scripts(i)[k].Add?
    && BeforeAll(pending + AddedBefore(scripts, i, k), scripts(i)[k].timer.expiration)
  }

  ghost predicate PreemptsIn(b: Batch, actions: seq<Action>, k: nat) {
    k < |actions| && actions[k].Add? && BeforeAll(ActAll(b, actions[..k]).queue.pending, actions[k].timer.expiration)
  }

  lemma {:induction false} ActAllArms(b: Batch, actions: seq<Action>)
    ensures ActAll(b, actions).queue.fd.Armed? <==> b.queue.fd.Armed? || exists k: nat :: PreemptsIn(b, actions, k)
  {
    if actions != [] {
      var n := |actions| - 1;
      var front, last := actions[..n], actions[n];
      ActAllArms(b, front);
      forall k: nat
        ensures PreemptsIn(b, actions, k) <==> if k == n then PreemptsIn(b, actions, n) else PreemptsIn(b, front, k)
      {
        assert k < n ==> front[..k] == actions[..k];
      }
      assert PreemptsIn(b, actions, n) <==>
             last.Add? && BeforeAll(ActAll(b, front).queue.pending, last.timer.expiration);
      hide PreemptsIn;
    }
  }

  lemma PreemptsSame(b: Batch, scripts: nat -> seq<Action>, i: nat, k: nat)
    ensures PreemptsIn(Callbacks(b, scripts, i), scripts(i), k) <==> Preempts(b.queue.pending, scripts, i, k)
  {
    if k < |scripts(i)| {
      CallbacksEffect(b, scripts, i);
      ActAllEffect(Callbacks(b, scripts, i), scripts(i)[..k]);
      assert ActAll(Callbacks(b, scripts, i), scripts(i)[..k]).queue.pending ==
             b.queue.pending + AddedBefore(scripts, i, k);
    }
  }

  lemma {:induction false} CallbacksArm(b: Batch, scripts: nat -> seq<Action>, n: nat)
    ensures Callbacks(b, scripts, n).queue.fd.Armed? <==>
            b.queue.fd.Armed? || exists i: nat, k: nat :: i < n && Preempts(b.queue.pending, scripts, i, k)
  {
    if n > 0 {
      var i, pending := n - 1, b.queue.pending;
      var here, actions := Callbacks(b, scripts, i), scripts(i);
      CallbacksArm(b, scripts, i);
      ActAllArms(here, actions);
      forall k: nat ensures PreemptsIn(here, actions, k) <==> Preempts(pending, scripts, i, k) {
        PreemptsSame(b, scripts, i, k);
      }
      hide Preempts, PreemptsIn;
    }
  }

  /** What a firing leaves pending, read off the queue before it and the scripts. */
  ghost function Remaining(q: Queue, scripts: nat -> seq<Action>, now: int): set<Timer> {
    var expired := Expired(q.pending, now);
    var canceled := CanceledBy(scripts, |expired|);
    Without(q.pending + AddedBy(scripts, |expired|) - expired, canceled) + Restarted(expired, canceled, now)
  }

  /**
   Exactly when a firing leaves the queue covered, after any run and told from its input alone: every timer that remains
   is in positive time (the guard of `reset`), or the timerfd was armed for later and not readable yet, or some callback
   added a timer earlier than every other.
   */
  lemma FireCoversIff(ops: seq<Op>, scripts: nat -> seq<Action>, now: int, clock: int)
    ensures var q := Run(EMPTY, ops);
            Covered(Fire(q, scripts, now, clock)) <==>
              || Positive(Remaining(q, scripts, now))
              || (q.fd.Armed? && !q.fd.Readable(now))
              || exists i: nat, k: nat :: i < |Expired(q.pending, now)| && Preempts(q.pending, scripts, i, k)
  {
    hide Preempts;
    var q := Run(EMPTY, ops);
    RunKeepsTimely(EMPTY, ops);
    FireTimely(q, scripts, now, clock);
    CallbacksEffect(StartBatch(q, now), scripts, |Expired(q.pending, now)|);
    CallbacksArm(StartBatch(q, now), scripts, |Expired(q.pending, now)|);
    assert Fire(q, scripts, now, clock).pending == Remaining(q, scripts, now);
  }

  // ----- exactly what the timerfd is set to -----

  /** The timerfd as it is set at time `clock` for an expiration: not early, and late only by the 100us minimum. */
  predicate SetFor(fd: TimerFd, when: int, clock: int) {
    fd == Armed(Max(when, clock + 100) * 1000, clock)
  }

  /** An addition touches the timerfd only if the timer is earlier than every other, and then sets it for that timer. */
  lemma AddSetsFd(q: Queue, timer: Timer, clock: int)
    ensures var fd := Step(q, AddOp(timer, clock)).fd;
            if forall t :: t in q.pending ==> timer.expiration < t.expiration
            then SetFor(fd, timer.expiration, clock) else fd == q.fd
  {
  }

  /** A firing sets the timerfd for the earliest timer that remains, unless none remains in positive time. */
  lemma FireSetsFd(q: Queue, scripts: nat -> seq<Action>, now: int, clock: int)
    ensures var left, fd := Remaining(q, scripts, now), Fire(q, scripts, now, clock).fd;
            if left != {} && Earliest(left) > 0 then SetFor(fd, Earliest(left), clock)
            else fd == Callbacks(StartBatch(q, now), scripts, |Expired(q.pending, now)|).queue.fd
  {
    CallbacksEffect(StartBatch(q, now), scripts, |Expired(q.pending, now)|);
    assert Fire(q, scripts, now, clock).pending == Remaining(q, scripts, now);
  }

  /** In a batch the timerfd is left as it was read, or set for a timer that a callback added ahead of every other. */
  ghost predicate SetInBatch(b: Batch, scripts: nat -> seq<Action>, n: nat, fd: TimerFd) {
    exists i: nat, k: nat ::
      i < n && Preempts(b.queue.pending, scripts, i, k)
      && SetFor(fd, scripts(i)[k].timer.expiration, scripts(i)[k].clock)
  }

  lemma LastActSets(b: Batch, last: Action)
    ensures if last.Add? && BeforeAll(b.queue.pending, last.timer.expiration)
            then SetFor(Act(b, last).queue.fd, last.timer.expiration, last.clock)
            else Act(b, last).queue.fd == b.queue.fd
  {
  }

  lemma {:induction false} ActAllSets(b: Batch, actions: seq<Action>)
    ensures ActAll(b, actions).queue.fd == b.queue.fd
            || exists k: nat :: PreemptsIn(b, actions, k)
                                && SetFor(ActAll(b, actions).queue.fd, actions[k].timer.expiration, actions[k].clock)
  {
    if actions != [] {
      var n := |actions| - 1;
      var front, last := actions[..n], actions[n];
      hide BeforeAll, SetFor;
      ActAllSets(b, front);
      LastActSets(ActAll(b, front), last);
      if last.Add? && BeforeAll(ActAll(b, front).queue.pending, last.timer.expiration) {
        assert PreemptsIn(b, actions, n);
      } else if ActAll(b, front).queue.fd != b.queue.fd {
        var fd := ActAll(b, front).queue.fd;
        var k: nat :| PreemptsIn(b, front, k) && SetFor(fd, front[k].timer.expiration, front[k].clock);
        assert front[..k] == actions[..k] && front[k] == actions[k];
        assert PreemptsIn(b, actions, k);
      }
    }
  }

  lemma {:induction false} CallbacksSet(b: Batch, scripts: nat -> seq<Action>, n: nat)
    ensures var fd := Callbacks(b, scripts, n).queue.fd; fd == b.queue.fd || SetInBatch(b, scripts, n, fd)
  {
    hide Preempts;
    if n > 0 {
      var i := n - 1;
      var here, actions := Callbacks(b, scripts, i), scripts(i);
      var fd := ActAll(here, actions).queue.fd;
      CallbacksSet(b, scripts, i);
      ActAllSets(here, actions);
      if fd != here.queue.fd {
        var k: nat :| PreemptsIn(here, actions, k) && SetFor(fd, actions[k].timer.expiration, actions[k].clock);
        PreemptsSame(b, scripts, i, k);
      }
    }
  }

  /** The operation sets the timerfd, at time `clock`, for a timer that is then the earliest in the queue. */
  ghost predicate Sets(q: Queue, op: Op, fd: TimerFd) {
    match op
    case AddOp(timer, clock) => BeforeAll(q.pending, timer.expiration) && SetFor(fd, timer.expiration, clock)
    case CancelOp(_) => false
    case FireOp(scripts, now, clock) =>
      || (var left := Remaining(q, scripts, now); left != {} && SetFor(fd, Earliest(left), clock))
      || SetInBatch(StartBatch(q, now), scripts, |Expired(q.pending, now)|, fd)
  }

  lemma StepSets(q: Queue, op: Op)
    ensures var fd := Step(q, op).fd; fd == q.fd || fd == Disarmed || Sets(q, op, fd)
  {
    hide SetInBatch;
    match op
    case AddOp(timer, clock) => AddSetsFd(q, timer, clock);
    case CancelOp(_) =>
    case FireOp(scripts, now, clock) =>
      FireSetsFd(q, scripts, now, clock);
      CallbacksSet(StartBatch(q, now), scripts, |Expired(q.pending, now)|);
  }

  lemma {:induction false} RunSnoc(q: Queue, ops: seq<Op>, op: Op)
    ensures Run(q, ops + [op]) == Step(Run(q, ops), op)
    decreases |ops|
  {
    if ops == [] {
      assert [op][1..] == [];
    } else {
      assert (ops + [op])[1..] == ops[1..] + [op];
      RunSnoc(Step(q, ops[0]), ops[1..], op);
    }
  }

  /**
   The timerfd wakes neither late nor early: whenever it is armed, after any run, some operation of the run set it for a
   timer that was the earliest at that moment, to exactly that expiration or to 100us from then if that is later.
   */
  lemma {:induction false} DeadlineIsExact(ops: seq<Op>)
    ensures var fd := Run(EMPTY, ops).fd;
            fd.Armed? ==> exists i :: 0 <= i < |ops| && Sets(Run(EMPTY, ops[..i]), ops[i], fd)
    decreases |ops|
  {
    hide Sets, Step;
    if ops != [] {
      var n := |ops| - 1;
      var front, fd := ops[..n], Run(EMPTY, ops).fd;
      assert ops == front + [ops[n]];
      RunSnoc(EMPTY, front, ops[n]);
      StepSets(Run(EMPTY, front), ops[n]);
      DeadlineIsExact(front);
      if fd.Armed? && fd == Run(EMPTY, front).fd {
        var i :| 0 <= i < n && Sets(Run(EMPTY, front[..i]), front[i], fd);
        assert front[..i] == ops[..i];
      }
    }
  }

  // ----- firing times -----

  ghost predicate Fires(q: Queue, op: Op, sequence: nat) {
    op.FireOp? && exists t :: t in Expired(q.pending, op.now) && t.sequence == sequence
  }

  /** The batch times at which the timer with this sequence number fires along a run. */
  ghost function Firings(q: Queue, ops: seq<Op>, sequence: nat): seq<int>
    decreases |ops|
  {
    if ops == [] then []
    else (if Fires(q, ops[0], sequence) then [ops[0].now] else []) + Firings(Step(q, ops[0]), ops[1..], sequence)
  }

  /** After one step a given timer is unchanged, gone, or restarted by a firing. */
  lemma StepOnTimer(q: Queue, op: Op, t: Timer)
    requires Distinct(q) && Enabled(q, op) && t in q.pending
    ensures forall u :: u in Step(q, op).pending && u.sequence == t.sequence ==>
                          u == if Fires(q, op, t.sequence) then t.Restart(op.now) else t
    ensures Fires(q, op, t.sequence) ==> t.expiration <= op.now
    ensures Fires(q, op, t.sequence) && !t.repeat ==> forall u :: u in Step(q, op).pending ==> u.sequence != t.sequence
  {
    if op.FireOp? {
      FireOutcome(q, op.scripts, op.now, op.clock, t);
      if t.expiration <= op.now {
        assert t in Expired(q.pending, op.now);
      }
    }
  }

  /** A number that has been used and is no longer pending never comes back. */
  lemma StepOnGone(q: Queue, op: Op, sequence: nat)
    requires Distinct(q) && Enabled(q, op) && sequence in q.used
    requires forall t :: t in q.pending ==> t.sequence != sequence
    ensures forall t :: t in Step(q, op).pending ==> t.sequence != sequence
    ensures !Fires(q, op, sequence)
  {
    if op.FireOp? {
      AddedAreNew(StartBatch(q, op.now), op.scripts, |Expired(q.pending, op.now)|);
      forall u | u in Step(q, op).pending ensures u.sequence != sequence {
        FireAddsNothingElse(q, op.scripts, op.now, op.clock, u);
      }
    }
  }

  lemma {:induction false} GoneNeverFires(q: Queue, ops: seq<Op>, sequence: nat)
    requires Distinct(q) && EnabledRun(q, ops) && sequence in q.used
    requires forall t :: t in q.pending ==> t.sequence != sequence
    ensures Firings(q, ops, sequence) == []
    decreases |ops|
  {
    if ops != [] {
      StepOnGone(q, ops[0], sequence);
      StepKeepsDistinct(q, ops[0]);
      GoneNeverFires(Step(q, ops[0]), ops[1..], sequence);
    }
  }

  ghost predicate Spaced(times: seq<int>, t: Timer) {
    && (times != [] ==> t.expiration <= times[0])
    && (forall i :: 0 <= i < |times| - 1 ==> times[i] + t.interval <= times[i + 1])
    && (!t.repeat ==> |times| <= 1)
  }

  lemma SpacedAfterFiring(t: Timer, now: int, rest: seq<int>)
    requires t.expiration <= now && (if t.repeat then Spaced(rest, t.Restart(now)) else rest == [])
    ensures Spaced([now] + rest, t)
  {
  }

  /**
   A timer never fires before its expiration, firings of a repeater are an interval apart, and a one-shot fires once.
   */
  lemma {:induction false} FiringsSpaced(q: Queue, ops: seq<Op>, t: Timer)
    requires Distinct(q) && EnabledRun(q, ops) && t in q.pending
    ensures Spaced(Firings(q, ops, t.sequence), t)
    decreases |ops|
  {
    if ops != [] {
      var op, next := ops[0], Step(q, ops[0]);
      var rest := Firings(next, ops[1..], t.sequence);
      StepOnTimer(q, op, t);
      StepKeepsDistinct(q, op);
      if u :| u in next.pending && u.sequence == t.sequence {
        FiringsSpaced(next, ops[1..], u);
      } else {
        GoneNeverFires(next, ops[1..], t.sequence);
      }
      if Fires(q, op, t.sequence) {
        assert !t.repeat ==> rest == [];
        SpacedAfterFiring(t, op.now, rest);
      } else {
        assert [] + rest == rest;
      }
    }
  }

  lemma {:induction false} GapsAddUp(times: seq<int>, gap: nat, i: nat, j: nat)
    requires forall k :: 0 <= k < |times| - 1 ==> times[k] + gap <= times[k + 1]
    requires i <= j < |times|
    ensures (j - i) * gap <= times[j] - times[i]
    decreases j - i
  {
    if i < j {
      GapsAddUp(times, gap, i, j - 1);
      assert (j - i) * gap == (j - 1 - i) * gap + gap;
    }
  }

  lemma FitsInWindow(n: nat, gap: nat, window: nat)
    requires gap > 0 && n * gap <= window
    ensures n <= window / gap
  {
    var k := window / gap;
    assert window < (k + 1) * gap;
    assert n >= k + 1 ==> n * gap >= (k + 1) * gap;
  }

  lemma SpacedRate(times: seq<int>, t: Timer, window: nat, i: nat, j: nat)
    requires Spaced(times, t) && t.interval > 0
    requires i <= j < |times| && times[j] - times[i] <= window
    ensures j - i + 1 <= window / t.interval + 1
  {
    GapsAddUp(times, t.interval, i, j);
    FitsInWindow(j - i, t.interval, window);
  }

  /** Any window of length `window` sees at most floor(window / interval) + 1 firings. */
  lemma FiringRate(q: Queue, ops: seq<Op>, t: Timer, window: nat, i: nat, j: nat)
    requires Distinct(q) && EnabledRun(q, ops) && t in q.pending && t.interval > 0
    requires i <= j < |Firings(q, ops, t.sequence)|
    requires Firings(q, ops, t.sequence)[j] - Firings(q, ops, t.sequence)[i] <= window
    ensures j - i + 1 <= window / t.interval + 1
  {
    FiringsSpaced(q, ops, t);
    SpacedRate(Firings(q, ops, t.sequence), t, window, i, j);
  }

  /** A cancelled timer never fires again, and no other timer is touched even if its address is reused. */
  lemma CancelIsFinalAndExact(q: Queue, ops: seq<Op>, id: TimerId)
    requires Distinct(q) && EnabledRun(q, [CancelOp(id)] + ops)
    requires id.sequence in q.used && forall t :: t in q.pending && t.sequence == id.sequence ==> t.Id() == id
    ensures Firings(q, [CancelOp(id)] + ops, id.sequence) == []
    ensures forall other :: other in q.pending && other.sequence != id.sequence ==>
              other in Step(q, CancelOp(id)).pending
  {
    assert ([CancelOp(id)] + ops)[1..] == ops;
    StepKeepsDistinct(q, CancelOp(id));
    GoneNeverFires(Step(q, CancelOp(id)), ops, id.sequence);
  }
}
