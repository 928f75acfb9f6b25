module ConnectionStates {
  datatype Status = Connecting | Connected | DisConnecting | DisConnected
}

/**
 One data connection as a value: its state machine, output buffer and write interest, with the byte stream the
 kernel has accepted.  The theorems hold for every run of sends, shutdowns, write events and closes, with any
 results from the kernel.  A shutdown on another thread is two steps, loading the state and storing it, and
 anything may happen in between; every other step touches the state in one place only, so it is atomic here.
 */
module ConnectionModel {
  import opened ConnectionStates
  import opened Buffers
  import Pollers

  /** A write: some bytes taken, EWOULDBLOCK, EPIPE or ECONNRESET, or any other error. */
  datatype WriteResult = Wrote(n: nat) | WouldBlock | Fault | OtherError

  /** One SHUT_WR: the state it was issued in, whether the connection was still open, and the bytes still waiting. */
  datatype HalfClose = HalfClose(status: Status, open: bool, waiting: nat)

  /**
   `reading` is on from the establishment until the connection is closed, so it says that the connection is open.
   `kernel` is everything written to the socket and `accepted` everything sendInLoop took responsibility for.
   `completions` and `notices` count the write-complete and high-water functors queued, `halfCloses` the SHUT_WR
   calls, `closes` the runs of the close callback.  `calls` counts the shutdowns on other threads that found the
   connection connected, `passed` those of them that have yet to store the new state, `queued` the shutDownInLoop
   tasks they have waiting.  `spare` says that shutdown took effect on the loop thread, or on another one while
   output was waiting: then there is one SHUT_WR besides those of the queued tasks.
   */
  datatype Conn = Conn(status: Status, reading: bool, writing: bool, output: seq<byte>, kernel: seq<byte>,
                       accepted: seq<byte>, mark: nat, completions: nat, notices: nat, halfCloses: seq<HalfClose>,
                       closes: nat, calls: nat, passed: nat, queued: nat, spare: bool)

  function Created(mark: nat): Conn {
    Conn(Connecting, false, false, [], [], [], mark, 0, 0, [], 0, 0, 0, 0, false)
  }

  // ----- the operations -----

  /** Append what is left of a send to the output buffer and watch for writability. */
  function Keep(c: Conn, rest: seq<byte>): Conn {
    if rest == [] then c
    else c.(output := c.output + rest, writing := true,
            notices := c.notices + if |c.output| < c.mark <= |c.output| + |rest| then 1 else 0)
  }

  /** A direct write takes the first `n` bytes, and reports completion if that is all of them. */
  function Direct(c: Conn, data: seq<byte>, n: nat): Conn
    requires n <= |data|
  {
    c.(kernel := c.kernel + data[..n], accepted := c.accepted + data,
       completions := c.completions + if n == |data| then 1 else 0)
  }

  function SendInLoop(c: Conn, data: seq<byte>, result: WriteResult): Conn
    requires result.Wrote? ==> result.n <= |data|
  {
    if c.status == DisConnected || c.status == DisConnecting then c
    else if !c.writing && c.output == [] then
      match result
      case Wrote(n) => Keep(Direct(c, data, n), data[n..])
      case Fault => c
      case _ => Keep(c.(accepted := c.accepted + data), data)
    else Keep(c.(accepted := c.accepted + data), data)
  }

  function ShutDownInLoop(c: Conn): Conn {
    if c.writing then c else c.(halfCloses := c.halfCloses + [HalfClose(c.status, c.reading, |c.output|)])
  }

  /** `n` bytes leave the front of the buffer; when it is empty the write interest ends. */
  function Flush(c: Conn, n: nat): Conn
    requires n <= |c.output|
  {
    var sent := c.(kernel := c.kernel + c.output[..n], output := c.output[n..]);
    if n == |c.output| then sent.(writing := false, completions := c.completions + 1) else sent
  }

  function HandleWrite(c: Conn, result: WriteResult): Conn
    requires result.Wrote? ==> result.n <= |c.output|
  {
    if c.writing && c.output != [] && result.Wrote? && result.n > 0 then
      if c.status == DisConnecting then ShutDownInLoop(Flush(c, result.n)) else Flush(c, result.n)
    else c
  }

  function HandleClose(c: Conn): Conn {
    c.(status := DisConnected, reading := false, writing := false, closes := c.closes + 1)
  }

  function ConnectionDestroyed(c: Conn): Conn {
    if c.status == Connected || c.status == DisConnecting
    then c.(status := DisConnected, reading := false, writing := false) else c
  }

  datatype Step =
    | Establish
    | Send(data: seq<byte>, result: WriteResult)      // send on the loop thread
    | SendTask(data: seq<byte>, result: WriteResult)  // sendInLoop queued by another thread
    | Shutdown                                        // shutdown on the loop thread
    | CheckShutdown                                   // shutdown on another thread finds the state kConnected
    | StoreShutdown                                   // and later stores kDisConnecting and queues its task
    | ShutdownTask
    | Writable(result: WriteResult)
    | Close
    | Destroy

  predicate Enabled(c: Conn, step: Step) {
    match step
    case Establish => c.status == Connecting
    case Send(data, result) => result.Wrote? ==> result.n <= |data|
    case SendTask(data, result) => c.status != Connecting && (result.Wrote? ==> result.n <= |data|)
    case CheckShutdown => c.status == Connected
    case StoreShutdown => c.passed > 0
    case ShutdownTask => c.queued > 0
    case Writable(result) => result.Wrote? ==> result.n <= |c.output|
    case Close => c.status != Connecting
    case Destroy => c.status != Connecting
    case Shutdown => true
  }

  function Next(c: Conn, step: Step): Conn
    requires Enabled(c, step)
  {
    match step
    case Establish => c.(status := Connected, reading := true)
    case Send(data, result) => if c.status == Connected then SendInLoop(c, data, result) else c
    case SendTask(data, result) => SendInLoop(c, data, result)
    case Shutdown =>
      if c.status == Connected then ShutDownInLoop(c.(status := DisConnecting, spare := true)) else c
    case CheckShutdown => c.(calls := c.calls + 1, passed := c.passed + 1)
    case StoreShutdown =>
      c.(status := DisConnecting, passed := c.passed - 1, queued := c.queued + 1,
         spare := c.spare || (c.status == Connected && c.output != []))
    case ShutdownTask => ShutDownInLoop(c.(queued := c.queued - 1))
    case Writable(result) => HandleWrite(c, result)
    case Close => HandleClose(c)
    case Destroy => ConnectionDestroyed(c)
  }

  // ----- the invariant -----

  /** Every accepted byte is in the kernel or in the output buffer, in order. */
  predicate Conserved(c: Conn) {
    c.kernel + c.output == c.accepted
  }

  /** Write interest exactly while output waits on an open connection. */
  predicate NotStranded(c: Conn) {
    && c.writing == (c.reading && c.output != [])
    && (c.status == Connected ==> c.reading)
    && (c.reading ==> c.status in {Connected, DisConnecting})
  }

  function Count(b: bool): nat {
    if b then 1 else 0
  }

  /** Output waits for a shutdown that has already been asked for. */
  predicate Draining(c: Conn) {
    c.reading && c.status == DisConnecting && c.output != []
  }

  /** Half-closes happen after shutdown only, with nothing waiting, and are due exactly when the output has drained. */
  predicate CleanHalfClose(c: Conn) {
    && (forall h :: h in c.halfCloses && h.open ==> h == HalfClose(DisConnecting, true, 0))
    && (c.status in {Connecting, Connected} ==> c.halfCloses == [] && c.queued == 0 && !c.spare && c.calls == c.passed)
    && (c.reading && c.status == DisConnecting ==>
          if c.output == [] then c.halfCloses != [] || c.queued > 0 else c.halfCloses == [])
    && |c.halfCloses| + c.queued + c.passed + Count(Draining(c)) <= c.calls + Count(c.spare)
    && c.queued + c.passed <= c.calls
    && (c.calls == 0 ==> forall h :: h in c.halfCloses ==> h.open)
  }

  predicate Inv(c: Conn) {
    && Conserved(c)
    && NotStranded(c)
    && CleanHalfClose(c)
    && (c.status == Connecting ==> c.output == [] && c.kernel == [] && c.calls == 0)
  }

  lemma SendKeepsInv(c: Conn, data: seq<byte>, result: WriteResult)
    requires Inv(c) && c.status != Connecting && (result.Wrote? ==> result.n <= |data|)
    ensures Inv(SendInLoop(c, data, result))
  {
    if result.Wrote? {
      assert c.kernel + data[..result.n] + data[result.n..] == c.kernel + data;
    }
    assert c.kernel + (c.output + data) == c.kernel + c.output + data;
  }

  lemma WriteKeepsInv(c: Conn, result: WriteResult)
    requires Inv(c) && (result.Wrote? ==> result.n <= |c.output|)
    ensures Inv(HandleWrite(c, result))
  {
    if result.Wrote? {
      assert c.kernel + c.output[..result.n] + c.output[result.n..] == c.kernel + c.output;
    }
  }

  lemma StepKeepsInv(c: Conn, step: Step)
    requires Inv(c) && Enabled(c, step)
    ensures Inv(Next(c, step))
  {
    match step
    case Send(data, result) => if c.status == Connected { SendKeepsInv(c, data, result); }
    case SendTask(data, result) => SendKeepsInv(c, data, result);
    case Writable(result) => WriteKeepsInv(c, result);
    case _ =>
  }

  // ----- runs -----

  ghost function Run(c: Conn, steps: seq<Step>): Conn
    requires EnabledRun(c, steps)
    decreases |steps|
  {
    if steps == [] then c else Run(Next(c, steps[0]), steps[1..])
  }

  ghost predicate EnabledRun(c: Conn, steps: seq<Step>)
    decreases |steps|
  {
    steps == [] || (Enabled(c, steps[0]) && EnabledRun(Next(c, steps[0]), steps[1..]))
  }

  lemma {:induction false} RunKeepsInv(c: Conn, steps: seq<Step>)
    requires Inv(c) && EnabledRun(c, steps)
    ensures Inv(Run(c, steps))
    decreases |steps|
  {
    hide Inv, Next, Enabled;
    if steps != [] {
      StepKeepsInv(c, steps[0]);
      RunKeepsInv(Next(c, steps[0]), steps[1..]);
    }
  }

  /** The data a step hands over for good: offered while the connection is open, and not refused by a fault. */
  function Taken(c: Conn, step: Step): seq<byte> {
    if (step.Send? || step.SendTask?) && c.status == Connected && !(step.result.Fault? && !c.writing && c.output == [])
    then step.data else []
  }

  ghost function Accepted(c: Conn, steps: seq<Step>): seq<byte>
    requires EnabledRun(c, steps)
    decreases |steps|
  {
    if steps == [] then [] else Taken(c, steps[0]) + Accepted(Next(c, steps[0]), steps[1..])
  }

  lemma SendTakes(c: Conn, data: seq<byte>, result: WriteResult)
    requires c.status != Connecting && (result.Wrote? ==> result.n <= |data|)
    ensures SendInLoop(c, data, result).accepted == c.accepted + Taken(c, SendTask(data, result))
  {
  }

  lemma StepTakes(c: Conn, step: Step)
    requires Enabled(c, step)
    ensures Next(c, step).accepted == c.accepted + Taken(c, step)
  {
    hide SendInLoop;
    match step
    case Send(data, result) => if c.status == Connected { SendTakes(c, data, result); }
    case SendTask(data, result) => SendTakes(c, data, result);
    case _ =>
  }

  lemma {:induction false} AcceptedIsRecorded(c: Conn, steps: seq<Step>)
    requires EnabledRun(c, steps)
    ensures Run(c, steps).accepted == c.accepted + Accepted(c, steps)
    decreases |steps|
  {
    hide Next, Enabled, Taken;
    if steps != [] {
      StepTakes(c, steps[0]);
      AcceptedIsRecorded(Next(c, steps[0]), steps[1..]);
    }
  }

  /**
   Byte-stream conservation: for every run, with any partial writes and errors, the bytes given to the kernel
   followed by the output buffer are the data of all accepted sends, in order.
   */
  lemma StreamIsConserved(mark: nat, steps: seq<Step>)
    requires EnabledRun(Created(mark), steps)
    ensures var c := Run(Created(mark), steps); c.kernel + c.output == Accepted(Created(mark), steps)
  {
    RunKeepsInv(Created(mark), steps);
    AcceptedIsRecorded(Created(mark), steps);
  }

  // ----- histories -----

  lemma {:induction false} RunSnoc(c: Conn, steps: seq<Step>, last: Step)
    requires EnabledRun(c, steps + [last])
    ensures EnabledRun(c, steps) && Enabled(Run(c, steps), last)
    ensures Run(c, steps + [last]) == Next(Run(c, steps), last)
    decreases |steps|
  {
    hide Next, Enabled;
    if steps == [] {
      assert [last][1..] == [];
    } else {
      assert (steps + [last])[1..] == steps[1..] + [last];
      RunSnoc(Next(c, steps[0]), steps[1..], last);
    }
  }

  predicate Closing(step: Step) {
    step.Close? || step.Destroy?
  }

  ghost predicate WasClosed(steps: seq<Step>) {
    exists i :: 0 <= i < |steps| && Closing(steps[i])
  }

  /** Another thread's shutdown stored its state after a close, and no later close put it right. */
  ghost predicate StoredAfterClose(steps: seq<Step>) {
    exists i, j ::
      && 0 <= i < j < |steps| && Closing(steps[i]) && steps[j] == StoreShutdown
      && forall k :: j < k < |steps| ==> !Closing(steps[k])
  }

  lemma HistorySnoc(steps: seq<Step>, last: Step)
    ensures WasClosed(steps + [last]) <==> WasClosed(steps) || Closing(last)
    ensures StoredAfterClose(steps + [last]) <==>
              !Closing(last) && (StoredAfterClose(steps) || (last == StoreShutdown && WasClosed(steps)))
  {
    var all := steps + [last];
    assert all[|steps|] == last && forall i :: 0 <= i < |steps| ==> all[i] == steps[i];
    if i :| 0 <= i < |steps| && Closing(steps[i]) && last == StoreShutdown {
      assert Closing(all[i]) && all[|steps|] == StoreShutdown;
    }
    if i, j :| 0 <= i < j < |steps| && Closing(steps[i]) && steps[j] == StoreShutdown
               && forall k :: j < k < |steps| ==> !Closing(steps[k]) {
      assert Closing(all[i]) && all[j] == StoreShutdown;
    }
  }

  lemma StepHistory(c: Conn, step: Step)
    requires Inv(c) && Enabled(c, step)
    ensures var d := Next(c, step);
            && ((d.status != Connecting && !d.reading) <==> (c.status != Connecting && !c.reading) || Closing(step))
            && ((d.status == DisConnecting && !d.reading) <==>
                  && !Closing(step) && !c.reading
                  && (c.status == DisConnecting || (step.StoreShutdown? && c.status != Connecting)))
  {
    hide Keep, Direct, Flush;
    match step
    case Send(data, result) => SendKeepsState(c, data, result);
    case SendTask(data, result) => SendKeepsState(c, data, result);
    case Writable(result) => WriteKeepsState(c, result);
    case _ =>
  }

  lemma SendKeepsState(c: Conn, data: seq<byte>, result: WriteResult)
    requires result.Wrote? ==> result.n <= |data|
    ensures SendInLoop(c, data, result).status == c.status && SendInLoop(c, data, result).reading == c.reading
  {
  }

  lemma WriteKeepsState(c: Conn, result: WriteResult)
    requires result.Wrote? ==> result.n <= |c.output|
    ensures HandleWrite(c, result).status == c.status && HandleWrite(c, result).reading == c.reading
  {
  }

  /**
   A connection that was closed shows kDisConnected again, except exactly after a late store: then it shows
   kDisConnecting, although nothing is left that would drain or close it.
   */
  lemma {:induction false} StateAfterClose(mark: nat, steps: seq<Step>)
    requires EnabledRun(Created(mark), steps)
    ensures var c := Run(Created(mark), steps);
            && ((c.status != Connecting && !c.reading) <==> WasClosed(steps))
            && ((c.status == DisConnecting && !c.reading) <==> StoredAfterClose(steps))
    decreases |steps|
  {
    hide Next, Enabled, Inv;
    if steps != [] {
      var front, last := steps[..|steps| - 1], steps[|steps| - 1];
      assert steps == front + [last];
      RunSnoc(Created(mark), front, last);
      StateAfterClose(mark, front);
      CreatedInv(mark);
      RunKeepsInv(Created(mark), front);
      StepHistory(Run(Created(mark), front), last);
      HistorySnoc(front, last);
    }
  }

  lemma CreatedInv(mark: nat)
    ensures Inv(Created(mark))
  {
  }

  /**
   On a connection that has not been closed, output waits exactly when write interest is on.  Judged by its state
   alone, a connection that looks open has stranded output exactly after a shutdown stored its state too late.
   */
  lemma OutputIsNotStranded(mark: nat, steps: seq<Step>)
    requires EnabledRun(Created(mark), steps)
    ensures var c := Run(Created(mark), steps);
            && (!WasClosed(steps) ==> (c.writing <==> c.output != []))
            && (c.status in {Connected, DisConnecting} ==>
                  ((c.writing <==> c.output != []) <==> !(StoredAfterClose(steps) && c.output != [])))
  {
    RunKeepsInv(Created(mark), steps);
    StateAfterClose(mark, steps);
  }

  /** Write-complete is reported once for each step that gives the kernel the last waiting byte, and never early. */
  lemma CompletionMeansDrained(c: Conn, step: Step)
    requires Inv(c) && Enabled(c, step)
    ensures var d := Next(c, step);
            && (d.kernel != c.kernel ==> d.completions == c.completions + Count(d.output == []))
            && (d.completions != c.completions ==> d.output == [] && d.kernel == d.accepted)
  {
    StepKeepsInv(c, step);
    match step
    case Send(data, result) => if c.status == Connected { SendCompletes(c, data, result); }
    case SendTask(data, result) => SendCompletes(c, data, result);
    case Writable(result) => if result.Wrote? { assert c.output[result.n..] == [] <==> result.n == |c.output|; }
    case _ =>
  }

  lemma SendCompletes(c: Conn, data: seq<byte>, result: WriteResult)
    requires Inv(c) && (result.Wrote? ==> result.n <= |data|)
    ensures var d := SendInLoop(c, data, result);
            && (d.kernel != c.kernel ==> d.completions == c.completions + Count(d.output == []))
            && (d.completions != c.completions ==> d.output == [])
  {
  }

  // ----- bytes move -----

  /**
   A write event on a connection with output waiting, in whatever state: the bytes the kernel took leave the front of
   the buffer for the kernel, write interest stays exactly while some are left, and completion is reported when none
   are.
   */
  lemma WriteEventMoves(c: Conn, n: nat)
    requires Inv(c) && c.writing && 0 < n <= |c.output|
    ensures var d := Next(c, Writable(Wrote(n)));
            && d.kernel == c.kernel + c.output[..n] && d.output == c.output[n..]
            && (d.writing <==> n < |c.output|) && d.completions == c.completions + Count(n == |c.output|)
            && d.status == c.status && d.reading && d.accepted == c.accepted && d.notices == c.notices
  {
    assert c.output[n..] == [] <==> n == |c.output|;
  }

  /** A write event that takes nothing, or finds no write interest, changes nothing. */
  lemma WriteEventStalls(c: Conn, result: WriteResult)
    requires Inv(c) && (result.Wrote? ==> result.n <= |c.output|)
    requires !c.writing || !result.Wrote? || result.n == 0
    ensures Next(c, Writable(result)) == c
  {
  }

  /**
   A send that finds the connection connected.  With nothing waiting the data is offered to the kernel: what it takes is
   written, the rest waits, and completion is reported if there is no rest; a fault drops the data.  Otherwise all of it
   waits behind what waits already.
   */
  lemma SendMoves(c: Conn, data: seq<byte>, result: WriteResult)
    requires Inv(c) && c.status == Connected && (result.Wrote? ==> result.n <= |data|)
    ensures var d := Next(c, Send(data, result));
            && d == Next(c, SendTask(data, result)) && d.status == Connected
            && (if c.output == [] && result.Wrote? then
                  && d.kernel == c.kernel + data[..result.n] && d.output == data[result.n..]
                  && d.completions == c.completions + Count(result.n == |data|)
                else if c.output == [] && result.Fault? then d == c
                else d.kernel == c.kernel && d.output == c.output + data && d.completions == c.completions)
            && (d.writing <==> d.output != [])
  {
    SendKeepsInv(c, data, result);
    assert [] + data == data;
    if result.Wrote? {
      assert [] + data[result.n..] == data[result.n..];
    }
  }

  /** How many bytes the kernel takes in a step: those its answer names, if the step asks it at all. */
  function Took(c: Conn, step: Step): nat {
    match step
    case Send(_, Wrote(n)) => if c.status == Connected && c.output == [] then n else 0
    case SendTask(_, Wrote(n)) => if c.status == Connected && c.output == [] then n else 0
    case Writable(Wrote(n)) => if c.reading && c.output != [] then n else 0
    case _ => 0
  }

  ghost function TookAll(c: Conn, steps: seq<Step>): nat
    requires EnabledRun(c, steps)
    decreases |steps|
  {
    if steps == [] then 0 else Took(c, steps[0]) + TookAll(Next(c, steps[0]), steps[1..])
  }

  lemma SendTook(c: Conn, data: seq<byte>, result: WriteResult)
    requires Inv(c) && c.status != Connecting && (result.Wrote? ==> result.n <= |data|)
    ensures |SendInLoop(c, data, result).kernel| == |c.kernel| + Took(c, SendTask(data, result))
  {
  }

  lemma StepTook(c: Conn, step: Step)
    requires Inv(c) && Enabled(c, step)
    ensures |Next(c, step).kernel| == |c.kernel| + Took(c, step)
  {
    hide SendInLoop;
    match step
    case Send(data, result) => if c.status == Connected { SendTook(c, data, result); }
    case SendTask(data, result) => SendTook(c, data, result);
    case Writable(result) =>
      if result.Wrote? && result.n > 0 && c.writing {
        WriteEventMoves(c, result.n);
      } else {
        WriteEventStalls(c, result);
      }
    case _ =>
  }

  /** Over every run the kernel stream grows by exactly what the write results say was taken. */
  lemma {:induction false} StreamGrowsAsTaken(c: Conn, steps: seq<Step>)
    requires Inv(c) && EnabledRun(c, steps)
    ensures |Run(c, steps).kernel| == |c.kernel| + TookAll(c, steps)
    decreases |steps|
  {
    hide Inv, Next, Enabled, Took;
    if steps != [] {
      StepKeepsInv(c, steps[0]);
      StepTook(c, steps[0]);
      StreamGrowsAsTaken(Next(c, steps[0]), steps[1..]);
    }
  }

  /** Write events that take so many bytes each. */
  function Writes(counts: seq<nat>): seq<Step> {
    seq(|counts|, i requires 0 <= i < |counts| => Writable(Wrote(counts[i])))
  }

  function Sum(counts: seq<nat>): nat {
    if counts == [] then 0 else counts[0] + Sum(counts[1..])
  }

  /** Write events drain an open connection, in any portions: then everything accepted is in the kernel. */
  lemma {:induction false} WriteEventsDrain(c: Conn, counts: seq<nat>)
    requires Inv(c) && c.reading && forall i :: 0 <= i < |counts| ==> counts[i] > 0
    requires Sum(counts) == |c.output|
    ensures EnabledRun(c, Writes(counts))
    ensures var d := Run(c, Writes(counts));
            && d.output == [] && d.kernel == c.kernel + c.output && d.kernel == c.accepted && !d.writing
            && d.completions == c.completions + Count(c.output != [])
            && d.status == c.status && d.accepted == c.accepted
    decreases |counts|
  {
    hide Next, Enabled;
    if counts == [] {
      NothingWaits(c);
    } else {
      var n := counts[0];
      StillWriting(c, n);
      WriteEventMoves(c, n);
      StepKeepsInv(c, Writable(Wrote(n)));
      assert Writes(counts)[0] == Writable(Wrote(n)) && Writes(counts)[1..] == Writes(counts[1..]);
      WriteEventsDrain(Next(c, Writable(Wrote(n))), counts[1..]);
      assert c.kernel + c.output[..n] + c.output[n..] == c.kernel + c.output;
    }
  }

  lemma NothingWaits(c: Conn)
    requires Inv(c) && c.output == []
    ensures c.kernel == c.accepted && !c.writing && c.kernel == c.kernel + c.output
  {
  }

  lemma StillWriting(c: Conn, n: nat)
    requires Inv(c) && c.reading && 0 < n <= |c.output|
    ensures c.writing && Enabled(c, Writable(Wrote(n)))
  {
  }

  // ----- half-close -----

  /**
   SHUT_WR on a connection that is not closed comes after shutdown and with every accepted byte in the kernel.  It
   happens at most once for every call on another thread, and once more if shutdown took effect on the loop thread or
   while output was waiting; so for shutdowns on the loop thread alone at most once, and never after a close.
   */
  lemma HalfCloseIsClean(mark: nat, steps: seq<Step>)
    requires EnabledRun(Created(mark), steps)
    ensures var c := Run(Created(mark), steps);
            && (forall h :: h in c.halfCloses && h.open ==> h.status == DisConnecting && h.waiting == 0)
            && |c.halfCloses| <= c.calls + Count(c.spare)
            && (CheckShutdown !in steps ==> |c.halfCloses| <= 1 && forall h :: h in c.halfCloses ==> h.open)
            && (c.halfCloses != [] && c.reading ==> c.kernel == c.accepted)
  {
    RunKeepsInv(Created(mark), steps);
    if CheckShutdown !in steps {
      NoCalls(Created(mark), steps);
    }
  }

  lemma {:induction false} NoCalls(c: Conn, steps: seq<Step>)
    requires EnabledRun(c, steps) && CheckShutdown !in steps
    ensures Run(c, steps).calls == c.calls
    decreases |steps|
  {
    if steps != [] {
      NoCalls(Next(c, steps[0]), steps[1..]);
    }
  }

  /** A queued shutDownInLoop ran after a close. */
  ghost predicate TaskAfterClose(steps: seq<Step>) {
    exists i, j :: 0 <= i < j < |steps| && Closing(steps[i]) && steps[j] == ShutdownTask
  }

  lemma TaskSnoc(steps: seq<Step>, last: Step)
    ensures TaskAfterClose(steps + [last]) <==> TaskAfterClose(steps) || (last == ShutdownTask && WasClosed(steps))
  {
    var all := steps + [last];
    assert all[|steps|] == last && forall i :: 0 <= i < |steps| ==> all[i] == steps[i];
    if i, j :| 0 <= i < j < |steps| && Closing(steps[i]) && steps[j] == ShutdownTask {
      assert Closing(all[i]) && all[j] == ShutdownTask;
    }
    if i :| 0 <= i < |steps| && Closing(steps[i]) && last == ShutdownTask {
      assert Closing(all[i]) && all[|steps|] == ShutdownTask;
    }
  }

  predicate Truncated(c: Conn) {
    exists h :: h in c.halfCloses && h.waiting > 0
  }

  lemma StepTruncates(c: Conn, step: Step)
    requires Inv(c) && Enabled(c, step)
    ensures Truncated(Next(c, step)) <==>
              Truncated(c) || (step == ShutdownTask && c.status != Connecting && !c.reading && c.output != [])
    ensures c.status != Connecting && !c.reading ==> Next(c, step).output == c.output
  {
    StepKeepsInv(c, step);
    var d := Next(c, step);
    assert d.halfCloses == c.halfCloses || d.halfCloses == c.halfCloses + [d.halfCloses[|c.halfCloses|]];
    hide CleanHalfClose;
  }

  /** SHUT_WR cuts off waiting output exactly when a queued shutDownInLoop runs after a close that left some. */
  lemma {:induction false} TruncatedIff(mark: nat, steps: seq<Step>)
    requires EnabledRun(Created(mark), steps)
    ensures var c := Run(Created(mark), steps); Truncated(c) <==> c.output != [] && TaskAfterClose(steps)
    decreases |steps|
  {
    hide Next, Enabled, Inv;
    if steps != [] {
      var front, last := steps[..|steps| - 1], steps[|steps| - 1];
      assert steps == front + [last];
      RunSnoc(Created(mark), front, last);
      TruncatedIff(mark, front);
      CreatedInv(mark);
      RunKeepsInv(Created(mark), front);
      StateAfterClose(mark, front);
      StepTruncates(Run(Created(mark), front), last);
      TaskSnoc(front, last);
      assert TaskAfterClose(front) ==> WasClosed(front);
    }
  }

  /** The step in which a closing connection drains is the one that issues SHUT_WR. */
  lemma DrainingHalfCloses(c: Conn, step: Step)
    requires Inv(c) && Enabled(c, step) && c.status == DisConnecting && c.output != []
    requires Next(c, step).output == [] && Next(c, step).status == DisConnecting
    ensures Next(c, step).halfCloses == [HalfClose(DisConnecting, true, 0)]
  {
  }

  lemma {:induction false} NoWriteAfterHalfClose(c: Conn, steps: seq<Step>)
    requires Inv(c) && EnabledRun(c, steps) && c.halfCloses != []
    ensures Run(c, steps).kernel == c.kernel
    decreases |steps|
  {
    if steps != [] {
      StepKeepsInv(c, steps[0]);
      NoWriteAfterHalfClose(Next(c, steps[0]), steps[1..]);
    }
  }

  // ----- how often SHUT_WR is issued -----

  lemma RunCons(c: Conn, step: Step, steps: seq<Step>)
    requires Enabled(c, step) && EnabledRun(Next(c, step), steps)
    ensures EnabledRun(c, [step] + steps) && Run(c, [step] + steps) == Run(Next(c, step), steps)
  {
    hide Enabled, Next;
    assert ([step] + steps)[1..] == steps;
  }

  /** Without write interest, every call past the check and every queued task is good for one more SHUT_WR. */
  lemma {:induction false} Spend(c: Conn, k: nat) returns (steps: seq<Step>)
    requires c.status in {DisConnecting, DisConnected} && !c.writing && k <= c.passed + c.queued
    ensures EnabledRun(c, steps) && |Run(c, steps).halfCloses| == |c.halfCloses| + k
    decreases 2 * c.passed + c.queued
  {
    if k == 0 {
      steps := [];
    } else {
      var step := if c.queued > 0 then ShutdownTask else StoreShutdown;
      var rest := Spend(Next(c, step), if c.queued > 0 then k - 1 else k);
      RunCons(c, step, rest);
      steps := [step] + rest;
    }
  }

  /** Once the connection is no longer connected, no further call passes the check. */
  lemma {:induction false} CallsAreOver(c: Conn, steps: seq<Step>)
    requires EnabledRun(c, steps) && c.status in {DisConnecting, DisConnected}
    ensures Run(c, steps).calls == c.calls && Run(c, steps).spare == c.spare
    decreases |steps|
  {
    if steps != [] {
      CallsAreOver(Next(c, steps[0]), steps[1..]);
    }
  }

  /** The step by which a connection stops being connected: a shutdown takes effect, or it is closed. */
  predicate Leaves(c: Conn, first: Step) {
    c.status == Connected && Enabled(c, first) && (first == StoreShutdown || first == Shutdown || Closing(first))
  }

  /** The most SHUT_WR calls there can be from then on. */
  function Budget(c: Conn, first: Step): nat {
    c.passed + Count(first == Shutdown || (first == StoreShutdown && c.output != []))
  }

  lemma BudgetIsBound(c: Conn, first: Step, steps: seq<Step>)
    requires Inv(c) && Leaves(c, first) && EnabledRun(c, [first] + steps)
    ensures |Run(c, [first] + steps).halfCloses| <= Budget(c, first)
  {
    assert ([first] + steps)[1..] == steps;
    StepKeepsInv(c, first);
    CallsAreOver(Next(c, first), steps);
    RunKeepsInv(Next(c, first), steps);
  }

  lemma BudgetIsReached(c: Conn, first: Step) returns (steps: seq<Step>)
    requires Inv(c) && Leaves(c, first)
    ensures EnabledRun(c, [first] + steps) && |Run(c, [first] + steps).halfCloses| == Budget(c, first)
  {
    var d := Next(c, first);
    if c.output == [] || Closing(first) {
      steps := Spend(d, d.passed + d.queued);
    } else {
      var drain := Writable(Wrote(|c.output|));
      DrainingFlushes(d);
      var rest := Spend(Next(d, drain), c.passed);
      RunCons(d, drain, rest);
      steps := [drain] + rest;
    }
    RunCons(c, first, steps);
  }

  lemma DrainingFlushes(c: Conn)
    requires c.writing && c.output != [] && c.status == DisConnecting
    ensures var d := HandleWrite(c, Wrote(|c.output|));
            d == c.(writing := false, output := [], kernel := d.kernel, completions := c.completions + 1,
                    halfCloses := c.halfCloses + [HalfClose(DisConnecting, c.reading, 0)])
  {
  }

  /**
   Exactly how often SHUT_WR can be issued.  From the step in which the connection stops being connected, some
   continuation issues it at least `k` times if and only if `k` is within the calls of other threads already past the
   check, plus one if that step is a shutdown on the loop thread, or one of another thread with output waiting.  In
   particular a second SHUT_WR is possible exactly if that sum exceeds one, be the connection closed or not.
   */
  lemma HalfCloseCount(c: Conn, first: Step, k: nat)
    requires Inv(c) && Leaves(c, first)
    ensures (exists steps :: EnabledRun(c, [first] + steps) && |Run(c, [first] + steps).halfCloses| >= k) <==>
            k <= c.passed + Count(first == Shutdown || (first == StoreShutdown && c.output != []))
  {
    hide Inv;
    forall steps | EnabledRun(c, [first] + steps) ensures |Run(c, [first] + steps).halfCloses| <= Budget(c, first) {
      BudgetIsBound(c, first, steps);
    }
    var reached := BudgetIsReached(c, first);
    assert EnabledRun(c, [first] + reached);
  }

  /** Before that step there is none, and it comes in every run that issues one. */
  lemma {:induction false} NoneWhileConnected(c: Conn, steps: seq<Step>) returns (i: nat)
    requires Inv(c) && EnabledRun(c, steps) && c.status in {Connecting, Connected} && Run(c, steps).halfCloses != []
    ensures i < |steps| && EnabledRun(c, steps[..i]) && Leaves(Run(c, steps[..i]), steps[i])
    decreases |steps|
  {
    if steps != [] {
      StepKeepsInv(c, steps[0]);
      if Leaves(c, steps[0]) {
        i := 0;
      } else {
        StaysConnected(c, steps[0]);
        hide Inv, Next, Enabled, Leaves;
        var k := NoneWhileConnected(Next(c, steps[0]), steps[1..]);
        i := k + 1;
        assert steps[..i] == [steps[0]] + steps[1..][..k];
        RunCons(c, steps[0], steps[1..][..k]);
      }
    }
  }

  lemma StaysConnected(c: Conn, step: Step)
    requires Inv(c) && Enabled(c, step) && c.status in {Connecting, Connected} && !Leaves(c, step)
    ensures Next(c, step).status in {Connecting, Connected}
  {
  }

  /** A connection that could not write its first data at once. */
  function Waiting(mark: nat, data: seq<byte>): Conn {
    Created(mark).(status := Connected, reading := true, writing := true, output := data, accepted := data,
                   notices := Count(0 < mark <= |data|))
  }

  lemma WaitingIsReached(mark: nat, data: seq<byte>, steps: seq<Step>)
    requires data != [] && EnabledRun(Waiting(mark, data), steps)
    ensures var all := [Establish, Send(data, WouldBlock)] + steps;
            EnabledRun(Created(mark), all) && Run(Created(mark), all) == Run(Waiting(mark, data), steps)
    ensures Inv(Waiting(mark, data))
  {
    var established := Next(Created(mark), Establish);
    assert [] + data == data;
    assert Next(established, Send(data, WouldBlock)) == Waiting(mark, data);
    RunCons(established, Send(data, WouldBlock), steps);
    RunCons(Created(mark), Establish, [Send(data, WouldBlock)] + steps);
    assert [Establish] + ([Send(data, WouldBlock)] + steps) == [Establish, Send(data, WouldBlock)] + steps;
  }

  /** Output waits, another thread calls shutdown, and the output drains before the queued task runs: SHUT_WR twice. */
  lemma LateShutdownHalfClosesTwice(mark: nat, data: seq<byte>)
    requires data != []
    ensures var steps := [Establish, Send(data, WouldBlock), CheckShutdown, StoreShutdown,
                          Writable(Wrote(|data|)), ShutdownTask];
            EnabledRun(Created(mark), steps) &&
            Run(Created(mark), steps).halfCloses ==
              [HalfClose(DisConnecting, true, 0), HalfClose(DisConnecting, true, 0)]
  {
    hide Next, Enabled, Waiting, Created;
    var c := Waiting(mark, data);
    var tail := [CheckShutdown, StoreShutdown, Writable(Wrote(|data|)), ShutdownTask];
    DrainsBeforeTask(mark, data);
    var c1 := Next(c, CheckShutdown);
    var c2 := Next(c1, StoreShutdown);
    RunCons(Next(c2, Writable(Wrote(|data|))), ShutdownTask, []);
    RunCons(c2, Writable(Wrote(|data|)), [ShutdownTask]);
    RunCons(c1, StoreShutdown, [Writable(Wrote(|data|)), ShutdownTask]);
    RunCons(c, CheckShutdown, [StoreShutdown, Writable(Wrote(|data|)), ShutdownTask]);
    WaitingIsReached(mark, data, tail);
    assert [Establish, Send(data, WouldBlock)] + tail
        == [Establish, Send(data, WouldBlock), CheckShutdown, StoreShutdown, Writable(Wrote(|data|)), ShutdownTask];
  }

  lemma DrainsBeforeTask(mark: nat, data: seq<byte>)
    requires data != []
    ensures var c := Waiting(mark, data);
            && Enabled(c, CheckShutdown)
            && var c1 := Next(c, CheckShutdown);
               && Enabled(c1, StoreShutdown)
               && var c2 := Next(c1, StoreShutdown);
                  && Enabled(c2, Writable(Wrote(|data|)))
                  && var c3 := Next(c2, Writable(Wrote(|data|)));
                     && Enabled(c3, ShutdownTask)
                     && Next(c3, ShutdownTask).halfCloses ==
                        [HalfClose(DisConnecting, true, 0), HalfClose(DisConnecting, true, 0)]
  {
    DrainingFlushes(Next(Next(Waiting(mark, data), CheckShutdown), StoreShutdown));
  }

  /** A shutdown that stores its state after a close: output is stranded, and SHUT_WR then cuts it off. */
  lemma LateStoreStrandsOutput(mark: nat, data: seq<byte>)
    requires data != []
    ensures var steps := [Establish, Send(data, WouldBlock), CheckShutdown, Close, StoreShutdown, ShutdownTask];
            EnabledRun(Created(mark), steps) &&
            var c := Run(Created(mark), steps);
            c.status == DisConnecting && !c.writing && c.output == data
            && c.halfCloses == [HalfClose(DisConnecting, false, |data|)]
  {
    var c := Waiting(mark, data);
    var tail := [CheckShutdown, Close, StoreShutdown, ShutdownTask];
    var d := Next(Next(c, CheckShutdown), Close);
    RunCons(Next(d, StoreShutdown), ShutdownTask, []);
    RunCons(d, StoreShutdown, [ShutdownTask]);
    RunCons(Next(c, CheckShutdown), Close, [StoreShutdown, ShutdownTask]);
    RunCons(c, CheckShutdown, [Close, StoreShutdown, ShutdownTask]);
    WaitingIsReached(mark, data, tail);
    assert [Establish, Send(data, WouldBlock)] + tail
        == [Establish, Send(data, WouldBlock), CheckShutdown, Close, StoreShutdown, ShutdownTask];
  }

  // ----- high-water mark -----

  /** The output length before and after each step of a run. */
  ghost function Lengths(c: Conn, steps: seq<Step>): seq<nat>
    requires EnabledRun(c, steps)
    decreases |steps|
  {
    [|c.output|] + if steps == [] then [] else Lengths(Next(c, steps[0]), steps[1..])
  }

  function Crossings(mark: nat, lengths: seq<nat>): nat {
    if |lengths| < 2 then 0
    else Count(lengths[0] < mark <= lengths[1]) + Crossings(mark, lengths[1..])
  }

  lemma KeepCrosses(c: Conn, rest: seq<byte>)
    ensures var d := Keep(c, rest);
            d.mark == c.mark && d.notices == c.notices + Count(|c.output| < c.mark <= |d.output|)
  {
  }

  lemma SendCrosses(c: Conn, data: seq<byte>, result: WriteResult)
    requires result.Wrote? ==> result.n <= |data|
    ensures var d := SendInLoop(c, data, result);
            d.mark == c.mark && d.notices == c.notices + Count(|c.output| < c.mark <= |d.output|)
  {
    hide Keep;
    if result.Wrote? {
      KeepCrosses(Direct(c, data, result.n), data[result.n..]);
    }
    KeepCrosses(c.(accepted := c.accepted + data), data);
  }

  lemma WriteCrosses(c: Conn, result: WriteResult)
    requires result.Wrote? ==> result.n <= |c.output|
    ensures var d := HandleWrite(c, result);
            d.mark == c.mark && d.notices == c.notices && |d.output| <= |c.output|
  {
    hide ShutDownInLoop, Flush;
    ShutDownMovesNothing(if result.Wrote? then Flush(c, result.n) else c);
    if result.Wrote? {
      FlushShrinks(c, result.n);
    }
  }

  lemma ShutDownMovesNothing(c: Conn)
    ensures ShutDownInLoop(c) == c.(halfCloses := ShutDownInLoop(c).halfCloses)
  {
  }

  lemma FlushShrinks(c: Conn, n: nat)
    requires n <= |c.output|
    ensures Flush(c, n).mark == c.mark && Flush(c, n).notices == c.notices && |Flush(c, n).output| == |c.output| - n
  {
  }

  lemma StepCrosses(c: Conn, step: Step)
    requires Enabled(c, step)
    ensures Next(c, step).notices == c.notices + Count(|c.output| < c.mark <= |Next(c, step).output|)
    ensures Next(c, step).mark == c.mark
  {
    hide SendInLoop, HandleWrite;
    match step
    case Send(data, result) => SendCrosses(c, data, result);
    case SendTask(data, result) => SendCrosses(c, data, result);
    case Writable(result) => WriteCrosses(c, result);
    case _ =>
  }

  /** High-water notices are exactly the upward crossings of the mark by the output length. */
  lemma {:induction false} NoticesAreCrossings(c: Conn, steps: seq<Step>)
    requires EnabledRun(c, steps)
    ensures Run(c, steps).notices == c.notices + Crossings(c.mark, Lengths(c, steps))
    decreases |steps|
  {
    if steps != [] {
      StepCrosses(c, steps[0]);
      NoticesAreCrossings(Next(c, steps[0]), steps[1..]);
      assert Lengths(c, steps)[1..] == Lengths(Next(c, steps[0]), steps[1..]);
    }
  }

  // ----- closing -----

  /** Nothing that happens after a close moves a byte, reports anything or makes the connection connected again. */
  lemma {:induction false} ClosedIsFinal(c: Conn, steps: seq<Step>)
    requires Inv(c) && EnabledRun(c, steps) && c.status != Connecting && !c.reading
    ensures var d := Run(c, steps);
            && d.kernel == c.kernel && d.output == c.output && d.accepted == c.accepted
            && !d.writing && !d.reading && d.notices == c.notices && d.completions == c.completions
            && d.status in {DisConnected, DisConnecting}
            && (StoreShutdown !in steps && c.status == DisConnected ==> d.status == DisConnected)
    decreases |steps|
  {
    if steps != [] {
      StepKeepsInv(c, steps[0]);
      StepOnClosed(c, steps[0]);
      hide Inv, Next, Enabled;
      ClosedIsFinal(Next(c, steps[0]), steps[1..]);
    }
  }

  lemma StepOnClosed(c: Conn, step: Step)
    requires Inv(c) && Enabled(c, step) && c.status != Connecting && !c.reading
    ensures var d := Next(c, step);
            && d.kernel == c.kernel && d.output == c.output && d.accepted == c.accepted
            && !d.writing && !d.reading && d.notices == c.notices && d.completions == c.completions
            && d.status in {DisConnected, DisConnecting}
            && (!step.StoreShutdown? && c.status == DisConnected ==> d.status == DisConnected)
  {
  }

  /**
   The write-complete and high-water functors are queued only by a write event on a channel with write interest or by
   a send that finds the connection connected, and in both cases the connection is open.
   */
  lemma ReportsNeedAnOpenConnection(c: Conn, step: Step)
    requires Inv(c) && Enabled(c, step)
    requires Next(c, step).completions != c.completions || Next(c, step).notices != c.notices
    ensures c.reading
    ensures (step.Writable? && c.writing) || ((step.Send? || step.SendTask?) && c.status == Connected)
  {
  }

  datatype ReadOutcome = Message(handler: seq<Step>) | EndOfFile | ReadError

  function If(condition: bool, steps: seq<Step>): seq<Step> {
    if condition then steps else []
  }

  /** One dispatch of the channel: close, read, write and error handlers, in this order, as the returned events say. */
  function Dispatch(revents: Pollers.Mask, read: ReadOutcome, write: WriteResult): seq<Step> {
    If(revents & Pollers.EPOLLHUP != 0 && revents & Pollers.EPOLLIN == 0, [Close])
    + If(revents & Pollers.READ_EVENT != 0, if read.Message? then read.handler else [Close])
    + If(revents & Pollers.EPOLLOUT != 0, [Writable(write)])
    + If(revents & Pollers.EPOLLERR != 0, [Close])
  }

  function Closes(steps: seq<Step>): nat {
    if steps == [] then 0 else Count(steps[0].Close?) + Closes(steps[1..])
  }

  lemma {:induction false} ClosesAdd(a: seq<Step>, b: seq<Step>)
    ensures Closes(a + b) == Closes(a) + Closes(b)
  {
    if a != [] {
      ClosesAdd(a[1..], b);
      assert (a + b)[1..] == a[1..] + b;
    } else {
      assert a + b == b;
    }
  }

  lemma FourParts(a: seq<Step>, b: seq<Step>, d: seq<Step>, e: seq<Step>)
    ensures Closes(a + b + d + e) == Closes(a) + Closes(b) + Closes(d) + Closes(e)
  {
    ClosesAdd(a, b);
    ClosesAdd(a + b, d);
    ClosesAdd(a + b + d, e);
  }

  lemma DispatchClosesIs(revents: Pollers.Mask, read: ReadOutcome, write: WriteResult)
    ensures Closes(Dispatch(revents, read, write)) ==
            Count(revents & Pollers.EPOLLHUP != 0 && revents & Pollers.EPOLLIN == 0)
            + Closes(If(revents & Pollers.READ_EVENT != 0, if read.Message? then read.handler else [Close]))
            + Count(revents & Pollers.EPOLLERR != 0)
  {
    var a := If(revents & Pollers.EPOLLHUP != 0 && revents & Pollers.EPOLLIN == 0, [Close]);
    var b := If(revents & Pollers.READ_EVENT != 0, if read.Message? then read.handler else [Close]);
    var d := If(revents & Pollers.EPOLLOUT != 0, [Writable(write)]);
    var e := If(revents & Pollers.EPOLLERR != 0, [Close]);
    FourParts(a, b, d, e);
    assert Closes(a) == |a| && Closes(d) == 0 && Closes(e) == |e|;
  }

  /**
   How often one dispatch runs the close handler, a message handler apart: once for each of a hangup without input, an
   end of file or error on reading, and an error event.  So it runs twice or more if and only if two of them come
   together, and all three can.
   */
  lemma DispatchCloses(revents: Pollers.Mask, read: ReadOutcome, write: WriteResult)
    requires read.Message? ==> Closes(read.handler) == 0
    ensures var hangup := revents & Pollers.EPOLLHUP != 0 && revents & Pollers.EPOLLIN == 0;
            var ended := revents & Pollers.READ_EVENT != 0 && !read.Message?;
            var error := revents & Pollers.EPOLLERR != 0;
            && Closes(Dispatch(revents, read, write)) == Count(hangup) + Count(ended) + Count(error)
            && (Closes(Dispatch(revents, read, write)) >= 2 <==>
                  (hangup && ended) || (hangup && error) || (ended && error))
    ensures Closes(Dispatch(Pollers.EPOLLIN | Pollers.EPOLLERR, ReadError, write)) == 2
    ensures Closes(Dispatch(Pollers.EPOLLHUP | Pollers.EPOLLPRI | Pollers.EPOLLERR, ReadError, write)) == 3
  {
    hide Dispatch;
    var both, all := Pollers.EPOLLIN | Pollers.EPOLLERR, Pollers.EPOLLHUP | Pollers.EPOLLPRI | Pollers.EPOLLERR;
    DispatchClosesIs(revents, read, write);
    DispatchClosesIs(both, ReadError, write);
    DispatchClosesIs(all, ReadError, write);
    assert both & Pollers.EPOLLHUP == 0 && both & Pollers.READ_EVENT != 0 && both & Pollers.EPOLLERR != 0;
    assert all & Pollers.EPOLLHUP != 0 && all & Pollers.EPOLLIN == 0 && all & Pollers.READ_EVENT != 0;
    assert all & Pollers.EPOLLERR != 0;
    assert Closes([Close]) == 1 && Closes([]) == 0;
  }

  /** The close callback runs once for every close handler, no more and no less. */
  lemma {:induction false} ClosesAreCounted(c: Conn, steps: seq<Step>)
    requires EnabledRun(c, steps)
    ensures Run(c, steps).closes == c.closes + Closes(steps)
    decreases |steps|
  {
    hide Next, Enabled;
    if steps != [] {
      StepCloses(c, steps[0]);
      ClosesAreCounted(Next(c, steps[0]), steps[1..]);
    }
  }

  lemma StepCloses(c: Conn, step: Step)
    requires Enabled(c, step)
    ensures Next(c, step).closes == c.closes + Count(step.Close?)
  {
  }

  /**
   A dispatch that reports a message without a hangup: first the message handler does all it does, then the write
   handler runs if writability was reported, and last the connection is closed if an error was.
   */
  lemma DispatchOrder(c: Conn, revents: Pollers.Mask, handler: seq<Step>, write: WriteResult)
    requires revents & Pollers.EPOLLIN != 0
    requires EnabledRun(c, Dispatch(revents, Message(handler), write))
    ensures EnabledRun(c, handler)
    ensures var d := Run(c, handler);
            && (revents & Pollers.EPOLLOUT != 0 ==> Enabled(d, Writable(write)))
            && var e := if revents & Pollers.EPOLLOUT != 0 then Next(d, Writable(write)) else d;
               Run(c, Dispatch(revents, Message(handler), write)) ==
               if revents & Pollers.EPOLLERR != 0 then HandleClose(e) else e
  {
    hide HandleWrite;
    assert revents & Pollers.READ_EVENT != 0;
    var out := If(revents & Pollers.EPOLLOUT != 0, [Writable(write)]);
    var err := If(revents & Pollers.EPOLLERR != 0, [Close]);
    assert Dispatch(revents, Message(handler), write) == handler + (out + err);
    RunSplit(c, handler, out + err);
    RunSplit(Run(c, handler), out, err);
  }

  lemma {:induction false} RunSplit(c: Conn, a: seq<Step>, b: seq<Step>)
    requires EnabledRun(c, a + b)
    ensures EnabledRun(c, a) && EnabledRun(Run(c, a), b) && Run(c, a + b) == Run(Run(c, a), b)
    decreases |a|
  {
    hide Next, Enabled;
    if a == [] {
      assert a + b == b;
    } else {
      assert (a + b)[1..] == a[1..] + b;
      RunSplit(Next(c, a[0]), a[1..], b);
    }
  }

  /** Writability alone: the write handler runs, and nothing else. */
  lemma WritabilityAlone(c: Conn, read: ReadOutcome, write: WriteResult)
    requires write.Wrote? ==> write.n <= |c.output|
    ensures Dispatch(Pollers.EPOLLOUT, read, write) == [Writable(write)]
    ensures EnabledRun(c, [Writable(write)]) && Run(c, [Writable(write)]) == Next(c, Writable(write))
  {
    hide HandleWrite;
    assert Pollers.EPOLLOUT & Pollers.EPOLLHUP == 0 && Pollers.EPOLLOUT & Pollers.READ_EVENT == 0;
    assert Pollers.EPOLLOUT & Pollers.EPOLLOUT != 0 && Pollers.EPOLLOUT & Pollers.EPOLLERR == 0;
    RunCons(c, Writable(write), []);
  }

  lemma {:induction false} HandlersOfClosedRun(c: Conn, steps: seq<Step>)
    requires c.status == DisConnected && !c.writing
    requires forall s :: s in steps ==> s.Close? || (s.Writable? && (s.result.Wrote? ==> s.result.n <= |c.output|))
    ensures EnabledRun(c, steps)
    decreases |steps|
  {
    if steps != [] {
      assert steps[0] in steps;
      HandlersOfClosedRun(Next(c, steps[0]), steps[1..]);
    }
  }

  lemma HangupClosesFirst(revents: Pollers.Mask, read: ReadOutcome, write: WriteResult)
    requires !read.Message?
    requires (revents & Pollers.EPOLLHUP != 0 && revents & Pollers.EPOLLIN == 0) || revents & Pollers.READ_EVENT != 0
    ensures var steps := Dispatch(revents, read, write);
            steps != [] && steps[0] == Close && forall s :: s in steps ==> s == Close || s == Writable(write)
  {
  }

  /**
   A hangup, or end of file or an error on reading, closes the connection before the write handler of the same
   dispatch gets its turn: whatever else was reported, no byte moves, and the connection ends closed.
   */
  lemma HangupMovesNothing(c: Conn, revents: Pollers.Mask, read: ReadOutcome, write: WriteResult)
    requires Inv(c) && c.status != Connecting && (write.Wrote? ==> write.n <= |c.output|) && !read.Message?
    requires (revents & Pollers.EPOLLHUP != 0 && revents & Pollers.EPOLLIN == 0) || revents & Pollers.READ_EVENT != 0
    ensures EnabledRun(c, Dispatch(revents, read, write))
    ensures var d := Run(c, Dispatch(revents, read, write));
            d.status == DisConnected && d.kernel == c.kernel && d.output == c.output && !d.writing && !d.reading
  {
    hide Dispatch, Inv;
    var steps := Dispatch(revents, read, write);
    HangupClosesFirst(revents, read, write);
    StepKeepsInv(c, Close);
    assert forall s :: s in steps[1..] ==> s in steps;
    HandlersOfClosedRun(Next(c, Close), steps[1..]);
    ClosedIsFinal(Next(c, Close), steps[1..]);
  }
}
