/** The pool of io loops and its round-robin choice.  A loop is known by a number. */
module ThreadPools {

  /** How many of the first `k` dispatches over `n` loops go to loop `i`. */
  function Hits(n: nat, k: nat, i: nat): nat
    requires n > 0
  {
    if k == 0 then 0 else Hits(n, k - 1, i) + (if (k - 1) % n == i then 1 else 0)
  }

  lemma NextTurn(n: nat, k: nat)
    requires n > 0
    ensures if k % n == n - 1 then (k + 1) / n == k / n + 1 && (k + 1) % n == 0
            else (k + 1) / n == k / n && (k + 1) % n == k % n + 1
  {
    var q, r := k / n, k % n;
    assert k + 1 == q * n + (r + 1);
    if r == n - 1 {
      assert k + 1 == (q + 1) * n + 0;
      Unique(n, k + 1, q + 1, 0);
    } else {
      Unique(n, k + 1, q, r + 1);
    }
  }

  lemma Unique(n: nat, k: nat, q: nat, r: nat)
    requires n > 0 && k == q * n + r && r < n
    ensures k / n == q && k % n == r
  {
    var d: int := k / n - q;
    assert k == k / n * n + k % n;
    assert d * n == r - k % n;
    assert d >= 1 ==> d * n >= n;
    assert d <= -1 ==> d * n + n <= 0;
  }

  /** Every loop gets floor(k/n) connections, and the first k mod n loops one more. */
  lemma {:induction false} RoundRobinShare(n: nat, k: nat, i: nat)
    requires i < n
    ensures Hits(n, k, i) == k / n + if i < k % n then 1 else 0
  {
    if k > 0 {
      RoundRobinShare(n, k - 1, i);
      NextTurn(n, k - 1);
    } else {
      Unique(n, 0, 0, 0);
    }
  }

  lemma RoundRobinIsBalanced(n: nat, k: nat, i: nat, j: nat)
    requires i < n && j < n
    ensures -1 <= Hits(n, k, i) - Hits(n, k, j) <= 1
    ensures k % n == 0 ==> Hits(n, k, i) == k / n
  {
    RoundRobinShare(n, k, i);
    RoundRobinShare(n, k, j);
  }

  class EventLoopThreadPool {
    const baseLoop: nat
    var started: bool
    var numThreads: int
    var loops: seq<nat>
    var next: nat
    ghost var served: nat

    ghost predicate Valid()
      reads this
    {
      && (!started ==> loops == [])
      && (loops != [] ==> |loops| == numThreads && next == served % |loops|)
      && (loops == [] ==> next == 0 && served == 0 && (started ==> numThreads <= 0))
    }

    constructor (baseLoop: nat)
      ensures Valid() && !started && loops == [] && served == 0 && this.baseLoop == baseLoop
    {
      this.baseLoop := baseLoop;
      started, numThreads, loops, next, served := false, 0, [], 0, 0;
    }

    method SetNumThreads(n: int)
      requires Valid() && !started
      modifies this`numThreads
      ensures Valid() && numThreads == n
    {
      numThreads := n;
    }

    /** `startLoop(i)` is the loop that the i-th thread comes up with. */
    method Start(startLoop: nat -> nat)
      requires Valid() && !started
      modifies this`started, this`loops
      ensures Valid() && started
      ensures |loops| == (if numThreads < 0 then 0 else numThreads)
      ensures forall i :: 0 <= i < |loops| ==> loops[i] == startLoop(i)
    {
      started := true;
      var i := 0;
      while i < numThreads
        invariant started && 0 <= i == |loops| && i <= (if numThreads < 0 then 0 else numThreads)
        invariant forall k :: 0 <= k < i ==> loops[k] == startLoop(k)
      {
        loops := loops + [startLoop(i)];
        i := i + 1;
      }
      if loops != [] {
        Unique(|loops|, 0, 0, 0);
      }
    }

    /** The base loop when there is no other, and otherwise the loops in turn; the cursor never leaves the list. */
    method GetNextLoop() returns (loop: nat)
      requires Valid()
      modifies this`next, this`served
      ensures Valid() && served == old(served) + (if loops == [] then 0 else 1)
      ensures loop == if loops == [] then baseLoop else loops[old(served) % |loops|]
    {
      loop := baseLoop;
      if loops != [] {
        loop := loops[next];
        NextTurn(|loops|, served);
        next := (next + 1) % numThreads;
        assert next == (served + 1) % |loops| by {
          if served % |loops| == |loops| - 1 { Unique(|loops|, |loops|, 1, 0); }
          else { Unique(|loops|, served % |loops| + 1, 0, served % |loops| + 1); }
        }
        served := served + 1;
      }
    }
  }
}
