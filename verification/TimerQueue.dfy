/**
 TimerQueue as the source writes it: an ordered map from (expiration, sequence) to the owned Timer object, a
 set of (address, sequence) pairs, and a set of cancellations deferred while callbacks run.  `heap` holds
 the live Timer objects by address; an address may be handed out again once its timer is gone.  Every
 operation is proved equal to its step on `TimerModel.Queue`.
 */
module TimerQueues {
  import opened Extremes
  import opened TimerModel

  predicate Before(a: Entry, b: Entry) {
    a.when < b.when || (a.when == b.when && a.sequence < b.sequence)
  }

  predicate Ordered(entries: seq<Entry>) {
    forall i, j :: 0 <= i < j < |entries| ==> Before(entries[i], entries[j])
  }

  lemma {:induction false} FirstExists(keys: set<Entry>)
    requires keys != {}
    ensures exists e :: e in keys && forall x :: x in keys ==> e == x || Before(e, x)
  {
    var k :| k in keys;
    var rest := keys - {k};
    assert keys == rest + {k};
    if rest == {} {
      assert forall x :: x in keys ==> x == k;
    } else {
      FirstExists(rest);
      var e :| e in rest && forall x :: x in rest ==> e == x || Before(e, x);
      var first := if Before(k, e) then k else e;
      assert first in keys && forall x :: x in keys ==> first == x || Before(first, x);
    }
  }

  /** begin() of the ordered map. */
  function First(keys: set<Entry>): (first: Entry)
    requires keys != {}
    ensures first in keys && forall x :: x in keys ==> first == x || Before(first, x)
  {
    FirstExists(keys);
    var e :| e in keys && forall x :: x in keys ==> e == x || Before(e, x);
    e
  }

  /** The timers at the addresses of a heap in which every timer knows its own address. */
  ghost function Timers(heap: map<nat, Timer>): set<Timer> {
    set a | a in heap :: heap[a]
  }

  ghost predicate Located(heap: map<nat, Timer>) {
    forall a :: a in heap ==> heap[a].addr == a
  }

  lemma TimersAfterStore(heap: map<nat, Timer>, t: Timer)
    requires Located(heap)
    ensures Located(heap[t.addr := t])
    ensures Timers(heap[t.addr := t]) == (if t.addr in heap then Timers(heap) - {heap[t.addr]} else Timers(heap)) + {t}
  {
    var after := heap[t.addr := t];
    forall u | u in Timers(heap) && u.addr != t.addr ensures u in Timers(after) {
      assert after[u.addr] == u;
    }
    assert after[t.addr] == t;
  }

  lemma TimersAfterFree(heap: map<nat, Timer>, a: nat)
    requires Located(heap) && a in heap
    ensures Located(heap - {a})
    ensures Timers(heap - {a}) == Timers(heap) - {heap[a]}
  {
    var after := heap - {a};
    forall u | u in Timers(heap) && u.addr != a ensures u in Timers(after) {
      assert after[u.addr] == u;
    }
  }

  /** Both indexes are in bijection with the live timers, and a key is its timer's own expiration and sequence. */
  ghost predicate Indexed(heap: map<nat, Timer>, list: map<Entry, nat>, active: set<TimerId>) {
    && Located(heap)
    && (forall e :: e in list ==> list[e] in heap && heap[list[e]].Key() == e)
    && (forall a :: a in heap ==> heap[a].Key() in list && list[heap[a].Key()] == a)
    && (forall a :: a in heap ==> heap[a].Id() in active)
    && (forall id :: id in active ==> id.addr in heap && heap[id.addr].Id() == id)
  }

  lemma IndexedAfterInsert(heap: map<nat, Timer>, list: map<Entry, nat>, active: set<TimerId>, t: Timer)
    requires Indexed(heap, list, active) && t.addr !in heap
    requires forall a :: a in heap ==> heap[a].sequence != t.sequence
    ensures Indexed(heap[t.addr := t], list[t.Key() := t.addr], active + {t.Id()})
  {
  }

  lemma IndexedAfterErase(heap: map<nat, Timer>, list: map<Entry, nat>, active: set<TimerId>, id: TimerId)
    requires Indexed(heap, list, active) && id in active
    ensures Indexed(heap - {id.addr}, list - {heap[id.addr].Key()}, active - {id})
  {
  }

  /** Moving a timer to a new key leaves its (address, sequence) pair where it was. */
  lemma IndexedAfterRekey(heap: map<nat, Timer>, list: map<Entry, nat>, active: set<TimerId>, t: Timer)
    requires Indexed(heap, list, active) && t.addr in heap && heap[t.addr].Id() == t.Id()
    requires forall a :: a in heap && a != t.addr ==> heap[a].sequence != t.sequence
    ensures Indexed(heap[t.addr := t], (list - {heap[t.addr].Key()})[t.Key() := t.addr], active)
  {
  }

  lemma DistinctSubset(timers: set<Timer>, some: set<Timer>, used: set<nat>)
    requires DistinctTimers(timers, used) && some <= timers
    ensures DistinctTimers(some, used)
  {
  }

  lemma OnlyOneWithId(timers: set<Timer>, used: set<nat>, t: Timer)
    requires DistinctTimers(timers, used) && t in timers
    ensures Without(timers, {t.Id()}) == timers - {t}
  {
  }

  lemma RestartedOne(t: Timer, canceled: set<TimerId>, now: int)
    ensures Restarted({t}, canceled, now) == if t.repeat && t.Id() !in canceled then {t.Restart(now)} else {}
  {
  }

  lemma DistinctAfterRestart(timers: set<Timer>, used: set<nat>, t: Timer, now: int)
    requires DistinctTimers(timers, used) && t in timers && t.repeat && t.expiration <= now
    ensures DistinctTimers(timers - {t} + {t.Restart(now)}, used)
  {
  }

  ghost function Ids(timers: set<Timer>): set<TimerId> {
    set t | t in timers :: t.Id()
  }

  ghost function Elements(timers: seq<Timer>): set<Timer> {
    set t | t in timers
  }

  /** The pending timers once those in `done` have been restarted or erased. */
  ghost function Partly(timers: set<Timer>, done: set<Timer>, canceled: set<TimerId>, now: int): set<Timer> {
    timers - done + Restarted(done, canceled, now)
  }

  lemma PartlyStart(timers: set<Timer>, canceled: set<TimerId>, now: int)
    ensures Partly(timers, Elements([]), canceled, now) == timers
    ensures canceled - Ids(Elements([])) == canceled
  {
  }

  lemma PartlyStep(timers: set<Timer>, used: set<nat>, done: set<Timer>, canceled: set<TimerId>, now: int, t: Timer)
    requires DistinctTimers(timers, used) && done <= timers && t in timers && t !in done
    ensures t in Partly(timers, done, canceled, now)
    ensures Partly(timers, done, canceled, now) - {t} + Restarted({t}, canceled - Ids(done), now)
         == Partly(timers, done + {t}, canceled, now)
    ensures canceled - Ids(done) - {t.Id()} == canceled - Ids(done + {t})
  {
    assert t.Id() !in Ids(done);
    assert Ids(done + {t}) == Ids(done) + {t.Id()};
    RestartedOne(t, canceled - Ids(done), now);
    RestartedUnion(done, {t}, canceled, now);
    RestartedOne(t, canceled, now);
    assert t !in Restarted(done, canceled, now);
  }

  lemma RestartedUnion(some: set<Timer>, more: set<Timer>, canceled: set<TimerId>, now: int)
    ensures Restarted(some + more, canceled, now) == Restarted(some, canceled, now) + Restarted(more, canceled, now)
  {
  }

  /** Erasing what is still recorded as cancelled after the loop yields the model's Reset. */
  lemma PartlyEnd(timers: set<Timer>, used: set<nat>, expired: set<Timer>, canceled: set<TimerId>, now: int)
    requires DistinctTimers(timers, used) && expired <= timers
    ensures Without(Partly(timers, expired, canceled, now), canceled - Ids(expired))
         == Without(timers - expired, canceled) + Restarted(expired, canceled, now)
  {
    forall t | t in timers - expired ensures t.Id() !in Ids(expired) {
    }
    forall u | u in Restarted(expired, canceled, now) ensures u.Id() !in canceled {
    }
  }

  lemma {:induction false} ElementsSize(timers: seq<Timer>)
    requires forall i, j :: 0 <= i < j < |timers| ==> timers[i] != timers[j]
    ensures |Elements(timers)| == |timers|
  {
    if timers != [] {
      var front, last := timers[..|timers| - 1], timers[|timers| - 1];
      ElementsSize(front);
      assert Elements(timers) == Elements(front) + {last};
      assert last !in Elements(front);
    }
  }

  /** The timers behind the expired keys, in the same order. */
  lemma Behind(heap: map<nat, Timer>, list: map<Entry, nat>, active: set<TimerId>, expired: seq<Entry>, now: int)
    returns (timers: seq<Timer>)
    requires Indexed(heap, list, active) && Ordered(expired)
    requires forall e :: e in expired <==> e in list && e.when <= now
    ensures Matches(timers, expired, Timers(heap), now)
    ensures Elements(timers) == Expired(Timers(heap), now)
    ensures |expired| == |Expired(Timers(heap), now)|
    ensures forall t :: t in Timers(heap) ==> (t.Key() in expired <==> t.expiration <= now)
  {
    assert forall i :: 0 <= i < |expired| ==> expired[i] in expired;
    timers := seq(|expired|, i requires 0 <= i < |expired| => heap[list[expired[i]]]);
    forall t | t in Expired(Timers(heap), now) ensures t in timers {
      assert t.Key() in expired;
      var i :| 0 <= i < |expired| && expired[i] == t.Key();
      assert timers[i] == t;
    }
    ElementsSize(timers);
  }

  ghost predicate Matches(timers: seq<Timer>, expired: seq<Entry>, pending: set<Timer>, now: int) {
    && |timers| == |expired|
    && (forall i :: 0 <= i < |timers| ==>
          timers[i] in pending && timers[i].Key() == expired[i] && timers[i].expiration <= now)
    && (forall i, j :: 0 <= i < j < |timers| ==> timers[i] != timers[j])
  }

  class TimerQueue {
    var heap: map<nat, Timer>
    var timerList: map<Entry, nat>
    var activeTimers: set<TimerId>
    var cancelingTimers: set<TimerId>
    var runningCallback: bool
    var fd: TimerFd
    ghost var used: set<nat>

    ghost predicate Valid()
      reads this
    {
      && Indexed(heap, timerList, activeTimers)
      && DistinctTimers(Pending(), used)
    }

    /** Between operations no callback runs and no cancellation is outstanding. */
    ghost predicate Quiet()
      reads this
    {
      Valid() && !runningCallback && cancelingTimers == {}
    }

    ghost function Pending(): set<Timer>
      reads this
    {
      Timers(heap)
    }

    ghost function Model(): Queue
      reads this
    {
      Queue(Pending(), used, fd)
    }

    ghost function InBatch(): Batch
      reads this
    {
      Batch(Model(), cancelingTimers)
    }

    constructor ()
      ensures Quiet() && Model() == EMPTY
    {
      heap, timerList, activeTimers, cancelingTimers := map[], map[], {}, {};
      runningCallback, fd, used := false, Disarmed, {};
    }

    /** The size assertions that the source repeats at every entry and exit. */
    lemma SizesAgree()
      requires Valid()
      ensures |timerList| == |activeTimers|
    {
      var entries := timerList.Keys;
      SameSize(entries, activeTimers);
    }

    lemma {:induction false} SameSize(entries: set<Entry>, ids: set<TimerId>)
      requires Valid()
      requires entries <= timerList.Keys && ids <= activeTimers
      requires forall e :: e in entries <==> e in timerList && heap[timerList[e]].Id() in ids
      ensures |entries| == |ids|
    {
      hide DistinctTimers, Timers;
      assert forall id :: id in ids ==> heap[id.addr].Key() in entries;
      if entries == {} {
        assert ids == {};
      } else {
        var e :| e in entries;
        SameSize(entries - {e}, ids - {heap[timerList[e]].Id()});
      }
    }

    /** What the indexes say about a pending timer, and about every other live one. */
    lemma Lookup(t: Timer)
      requires Valid() && t in Pending()
      ensures Located(heap) && t.addr in heap && heap[t.addr] == t
      ensures t.Key() in timerList && timerList[t.Key()] == t.addr
      ensures forall a :: a in heap && a != t.addr ==> heap[a].sequence != t.sequence
    {
      forall a | a in heap && a != t.addr ensures heap[a].sequence != t.sequence {
        assert heap[a] in Pending();
      }
    }

    lemma Unknown(timer: Timer)
      requires Valid() && Fresh(Model(), timer)
      ensures Located(heap) && timer.addr !in heap && forall a :: a in heap ==> heap[a].sequence != timer.sequence
    {
      forall a | a in heap ensures a != timer.addr && heap[a].sequence != timer.sequence {
        assert heap[a] in Pending();
      }
    }

    method Insert(timer: Timer) returns (earliestChanged: bool)
      requires Valid() && Fresh(Model(), timer)
      modifies this`heap, this`timerList, this`activeTimers, this`used
      ensures Valid()
      ensures Pending() == old(Pending()) + {timer} && used == old(used) + {timer.sequence}
      ensures earliestChanged <==> BeforeAll(old(Pending()), timer.expiration)
    {
      hide Indexed, DistinctTimers;
      var entry := timer.Key();
      EarliestIsFirst();
      InsertDistinct(Model(), timer, 0);
      Unknown(timer);
      earliestChanged := timerList == map[] || entry.when < First(timerList.Keys).when;
      IndexedAfterInsert(heap, timerList, activeTimers, timer);
      TimersAfterStore(heap, timer);
      heap := heap[timer.addr := timer];
      timerList := timerList[entry := timer.addr];
      activeTimers := activeTimers + {timer.Id()};
      used := used + {timer.sequence};
    }

    lemma EarliestIsFirst()
      requires Valid()
      ensures timerList == map[] <==> Pending() == {}
      ensures timerList != map[] ==> First(timerList.Keys).when == Earliest(Pending())
    {
      if timerList != map[] {
        assert timerList.Keys == {} ==> timerList == map[];
        var e := First(timerList.Keys);
        assert heap[timerList[e]] in Pending();
      } else {
        assert forall a :: a in heap ==> heap[a].Key() in timerList;
      }
    }

    method AddTimerInLoop(timer: Timer, clock: int)
      requires Valid() && Fresh(Model(), timer)
      modifies this`heap, this`timerList, this`activeTimers, this`used, this`fd
      ensures Valid()
      ensures Model() == TimerModel.Insert(old(Model()), timer, clock)
      ensures if forall t :: t in old(Pending()) ==> timer.expiration < t.expiration
              then fd == Armed(Max(timer.expiration, clock + 100) * 1000, clock) else fd == old(fd)
    {
      hide Indexed, DistinctTimers;
      var earliestChanged := Insert(timer);
      if earliestChanged {
        fd := ResetTimerFd(timer.expiration, clock);
      }
    }

    /** An id removes exactly the timer it was issued for: a stale one, even at a reused address, removes nothing. */
    method Erase(id: TimerId)
      requires Valid()
      modifies this`heap, this`timerList, this`activeTimers
      ensures Valid()
      ensures Pending() == Without(old(Pending()), {id})
    {
      ghost var before := Pending();
      if id in activeTimers {
        IndexedAfterErase(heap, timerList, activeTimers, id);
        TimersAfterFree(heap, id.addr);
        ghost var gone := heap[id.addr];
        var entry := heap[id.addr].Key();
        activeTimers := activeTimers - {id};
        timerList := timerList - {entry};
        heap := heap - {id.addr};
        OnlyOneWithId(before, used, gone);
        DistinctSubset(before, Pending(), used);
      }
    }

    method CancelTimerInLoop(id: TimerId)
      requires Valid()
      modifies this`heap, this`timerList, this`activeTimers, this`cancelingTimers
      ensures Valid() && (runningCallback ==> InBatch() == Act(old(InBatch()), Cancel(id)))
      ensures !runningCallback ==>
                Model() == Step(old(Model()), CancelOp(id)) && cancelingTimers == old(cancelingTimers)
    {
      hide Indexed, DistinctTimers;
      if runningCallback {
        cancelingTimers := cancelingTimers + {id};
      } else {
        Erase(id);
      }
    }

    /** Exactly the keys at or before `now`, in (expiration, sequence) order. */
    method GetExpiredTimers(now: int) returns (expired: seq<Entry>)
      ensures Ordered(expired)
      ensures forall e :: e in expired <==> e in timerList && e.when <= now
    {
      expired := [];
      var rest := timerList.Keys;
      while rest != {}
        invariant rest <= timerList.Keys
        invariant Ordered(expired)
        invariant forall e :: e in expired ==> e in timerList && e.when <= now
        invariant forall e :: e in timerList ==> e in rest || e in expired
        invariant forall e, x :: e in expired && x in rest ==> Before(e, x)
      {
        var e := First(rest);
        if now < e.when {
          break;
        }
        expired := expired + [e];
        rest := rest - {e};
      }
    }

    /** One callback: any sequence of additions and cancellations, made while the batch runs. */
    method RunCallback(actions: seq<Action>)
      requires Valid() && runningCallback && Admissible(InBatch(), actions)
      modifies this`heap, this`timerList, this`activeTimers, this`used, this`fd, this`cancelingTimers
      ensures Valid() && InBatch() == ActAll(old(InBatch()), actions)
    {
      hide Indexed, DistinctTimers, Fresh;
      ghost var b := InBatch();
      assert actions[..0] == [];
      for k := 0 to |actions|
        invariant Valid() && InBatch() == ActAll(b, actions[..k])
      {
        AdmissiblePrefix(b, actions, k);
        match actions[k] {
          case Add(timer, clock) => AddTimerInLoop(timer, clock);
          case Cancel(id) => CancelTimerInLoop(id);
        }
        assert actions[..k + 1][..k] == actions[..k];
      }
      assert actions[..|actions|] == actions;
    }

    /** Restart an expired repeating timer and move it to its new key. */
    method Rekey(entry: Entry, now: int, ghost t: Timer)
      requires Valid() && t in Pending() && t.Key() == entry && t.repeat && t.expiration <= now
      modifies this`heap, this`timerList
      ensures Valid() && Pending() == old(Pending()) - {t} + {t.Restart(now)}
    {
      hide Indexed, DistinctTimers, Located, Timers;
      Lookup(t);
      var addr := timerList[entry];
      var restarted := heap[addr].Restart(now);
      IndexedAfterRekey(heap, timerList, activeTimers, restarted);
      TimersAfterStore(heap, restarted);
      DistinctAfterRestart(Pending(), used, t, now);
      timerList := timerList - {entry};
      heap := heap[addr := restarted];
      timerList := timerList[restarted.Key() := addr];
    }

    /** One turn of the loop in reset: restart the timer under a new key, or erase it and forget its cancellation. */
    method ResetOne(entry: Entry, now: int, ghost t: Timer)
      requires Valid() && t in Pending() && t.Key() == entry && t.expiration <= now
      modifies this`heap, this`timerList, this`activeTimers, this`cancelingTimers
      ensures Valid()
      ensures Pending() == old(Pending()) - {t} + Restarted({t}, old(cancelingTimers), now)
      ensures cancelingTimers == old(cancelingTimers) - {t.Id()}
    {
      hide Indexed, DistinctTimers, Located, Timers, Restarted, Without;
      Lookup(t);
      RestartedOne(t, cancelingTimers, now);
      OnlyOneWithId(Pending(), used, t);
      var id := TimerId(timerList[entry], entry.sequence);
      if heap[timerList[entry]].repeat && id !in cancelingTimers {
        Rekey(entry, now, t);
      } else {
        Erase(id);
        cancelingTimers := cancelingTimers - {id};
      }
    }

    method EraseAll(ids: set<TimerId>)
      requires Valid()
      modifies this`heap, this`timerList, this`activeTimers
      ensures Valid() && Pending() == Without(old(Pending()), ids)
    {
      hide Indexed, DistinctTimers;
      ghost var before := Pending();
      var rest := ids;
      assert Without(before, {}) == before;
      while rest != {}
        invariant rest <= ids
        invariant Valid() && Pending() == Without(before, ids - rest)
      {
        var id :| id in rest;
        Erase(id);
        assert ids - (rest - {id}) == (ids - rest) + {id};
        rest := rest - {id};
      }
      assert ids - rest == ids;
    }

    method Reset(expired: seq<Entry>, now: int, clock: int, ghost timers: seq<Timer>)
      requires Valid() && Matches(timers, expired, Pending(), now)
      modifies this`heap, this`timerList, this`activeTimers, this`cancelingTimers, this`fd
      ensures Valid() && cancelingTimers == {}
      ensures Model() == TimerModel.Reset(old(InBatch()), Elements(timers), now, clock)
    {
      hide Indexed, DistinctTimers, Timers, Restarted, Without, Ids, Partly, Rearm, Earliest;
      ghost var before, canceled := Pending(), cancelingTimers;
      PartlyStart(before, canceled, now);
      assert timers[..0] == [];
      for i := 0 to |expired|
        invariant Valid() && fd == old(fd)
        invariant Pending() == Partly(before, Elements(timers[..i]), canceled, now)
        invariant cancelingTimers == canceled - Ids(Elements(timers[..i]))
      {
        ghost var done, t := Elements(timers[..i]), timers[i];
        PartlyStep(before, used, done, canceled, now, t);
        ResetOne(expired[i], now, t);
        assert Elements(timers[..i + 1]) == done + {t};
      }
      assert timers[..|timers|] == timers;
      PartlyEnd(before, used, Elements(timers), canceled, now);
      EraseAll(cancelingTimers);
      assert Pending() == Without(before - Elements(timers), canceled) + Restarted(Elements(timers), canceled, now);
      cancelingTimers := {};
      SetNextExpiration(clock);
    }

    /** The tail of reset: wake up for the earliest timer, if its expiration is a valid (positive) time. */
    method SetNextExpiration(clock: int)
      requires Valid()
      modifies this`fd
      ensures Valid() && fd == Rearm(Pending(), old(fd), clock)
    {
      hide Indexed, DistinctTimers, Timers;
      EarliestIsFirst();
      var next := 0;
      if timerList != map[] {
        next := First(timerList.Keys).when;
      }
      if next > 0 {
        fd := ResetTimerFd(next, clock);
      }
    }

    /** The callback loop: every expired timer is still in the list, and its object alive, when its turn comes. */
    method RunExpired(expired: seq<Entry>, scripts: nat -> seq<Action>, now: int, ghost timers: seq<Timer>)
      returns (ran: seq<Entry>)
      requires Valid() && runningCallback && Matches(timers, expired, Pending(), now)
      requires AdmissibleBatch(InBatch(), scripts, |expired|)
      modifies this`heap, this`timerList, this`activeTimers, this`used, this`fd, this`cancelingTimers
      ensures Valid() && InBatch() == Callbacks(old(InBatch()), scripts, |expired|)
      ensures old(Pending()) <= Pending() && ran == expired
    {
      hide Indexed, DistinctTimers, Timers, Admissible, AdmissibleBatch;
      ghost var b := InBatch();
      ran := [];
      for i := 0 to |expired|
        invariant Valid() && ran == expired[..i]
        invariant InBatch() == Callbacks(b, scripts, i) && b.queue.pending <= Pending()
      {
        Lookup(timers[i]);
        assert expired[i] in timerList && timerList[expired[i]] in heap;
        ran := ran + [expired[i]];
        AdmissibleCallback(b, scripts, |expired|, i);
        RunCallback(scripts(i));
        CallbacksEffect(b, scripts, i + 1);
      }
    }

    /**
     The timerfd callback.  `ran` lists the timers run, in order: those expired at the start and no others,
     each once, whatever the callbacks do.  The queue ends as the model's Fire says.
     */
    method HandleRead(scripts: nat -> seq<Action>, now: int, clock: int) returns (ran: seq<Entry>)
      requires Quiet()
      requires AdmissibleBatch(StartBatch(Model(), now), scripts, |Expired(Pending(), now)|)
      modifies this
      ensures Quiet() && Model() == Fire(old(Model()), scripts, now, clock)
      ensures Ordered(ran) && |ran| == |Expired(old(Pending()), now)|
      ensures forall t :: t in old(Pending()) ==> (t.Key() in ran <==> t.expiration <= now)
    {
      hide Indexed, DistinctTimers, Timers, Expired, Callbacks, AdmissibleBatch, TimerModel.Reset;
      fd := ReadTimerFd(fd, now);
      var expired := GetExpiredTimers(now);
      ghost var timers := Behind(heap, timerList, activeTimers, expired, now);
      runningCallback := true;
      ran := RunExpired(expired, scripts, now, timers);
      runningCallback := false;
      Reset(expired, now, clock, timers);
    }
  }
}
