/**
 Sending files on a connection that sends nothing else: sendfile until the count is used up, resumed by write events.
 A new request takes the place of one that is still under way.
 */
module FileSending {
  import opened ConnectionStates
  import opened Buffers

  /** A sendfile call: bytes copied (none at the end of the file), EWOULDBLOCK, EPIPE or ECONNRESET, another error. */
  datatype SendResult = Sent(n: nat) | WouldBlock | Fault | OtherError

  /**
   `start` and `total` remember what was asked for last, `before` and `earlier` the bytes on the wire and the
   completions reported by then.
   */
  datatype Transfer = Transfer(status: Status, sending: bool, writing: bool, file: seq<byte>, offset: nat, count: nat,
                               kernel: seq<byte>, completions: nat,
                               start: nat, total: nat, before: seq<byte>, earlier: nat)

  const OPENED: Transfer := Transfer(Connected, false, false, [], 0, 0, [], 0, 0, 0, [], 0)

  /** sendfile copies no more than asked for and no more than the file still holds; asked for nothing it returns 0. */
  predicate Possible(t: Transfer, result: SendResult) {
    && (t.count == 0 ==> result == Sent(0))
    && (result.Sent? ==> result.n <= t.count && (result.n > 0 ==> t.offset + result.n <= |t.file|))
  }

  function Resumed(t: Transfer, result: SendResult): Transfer
    requires Possible(t, result)
  {
    if t.status == DisConnected || t.status == DisConnecting then t.(sending := false)
    else if !t.sending then Rest(t, t.count)
    else
      match result
      case Sent(n) =>
        var sent := t.(offset := t.offset + n,
                       kernel := t.kernel + if n == 0 then [] else t.file[t.offset..t.offset + n]);
        if n == t.count then sent.(completions := t.completions + 1, sending := false, writing := false)
        else Rest(sent, t.count - n)
      case Fault => t.(sending := false)
      case _ => Rest(t, t.count)
  }

  function Rest(t: Transfer, remaining: nat): Transfer {
    if remaining == 0 then t else t.(count := remaining, writing := true)
  }

  function Requested(t: Transfer, file: seq<byte>, start: nat, total: nat): Transfer {
    t.(sending := true, file := file, offset := start, count := total,
       start := start, total := total, before := t.kernel, earlier := t.completions)
  }

  function Begun(t: Transfer, file: seq<byte>, start: nat, total: nat, result: SendResult): Transfer
    requires Possible(Requested(t, file, start, total), result)
  {
    Resumed(Requested(t, file, start, total), result)
  }

  /** `Shutdown` stores its state at any time: on another thread it may have tested it long before. */
  datatype Step =
    | SendFile(file: seq<byte>, start: nat, total: nat, result: SendResult)
    | Writable(result: SendResult)
    | Shutdown
    | Close

  predicate Enabled(t: Transfer, step: Step) {
    match step
    case SendFile(file, start, total, result) =>
      t.status == Connected ==> Possible(Requested(t, file, start, total), result)
    case Writable(result) => Possible(t, result)
    case _ => true
  }

  function Next(t: Transfer, step: Step): Transfer
    requires Enabled(t, step)
  {
    match step
    case SendFile(file, start, total, result) =>
      if t.status == Connected then Begun(t, file, start, total, result) else t
    case Writable(result) => if t.writing && t.sending then Resumed(t, result) else t
    case Shutdown => t.(status := DisConnecting)
    case Close => t.(status := DisConnected, writing := false)
  }

  function Slice(file: seq<byte>, from: nat, to: nat): seq<byte> {
    if from <= to <= |file| then file[from..to] else []
  }

  predicate Inv(t: Transfer) {
    && t.start <= t.offset <= t.start + t.total
    && t.kernel == t.before + Slice(t.file, t.start, t.offset)
    && (t.offset > t.start ==> t.offset <= |t.file|)
    && (t.sending ==> t.offset + t.count == t.start + t.total && t.count > 0 && t.completions == t.earlier)
    && (t.sending && t.status == Connected ==> t.writing)
    && t.earlier <= t.completions <= t.earlier + 1
    && (t.completions > t.earlier ==> t.offset == t.start + t.total && !t.sending)
  }

  lemma SendKeepsInv(t: Transfer, result: SendResult)
    requires Possible(t, result) && t.start <= t.offset && t.sending && t.completions == t.earlier
    requires t.offset + t.count == t.start + t.total && t.kernel == t.before + Slice(t.file, t.start, t.offset)
    requires t.offset > t.start ==> t.offset <= |t.file|
    ensures Inv(Resumed(t, result)) && t.kernel <= Resumed(t, result).kernel
  {
    hide Slice;
    if result.Sent? {
      SliceGrows(t, result.n);
    }
  }

  lemma SliceGrows(t: Transfer, n: nat)
    requires t.start <= t.offset && (n > 0 ==> t.offset + n <= |t.file|)
    ensures var more := if n == 0 then [] else t.file[t.offset..t.offset + n];
            t.before + Slice(t.file, t.start, t.offset) + more == t.before + Slice(t.file, t.start, t.offset + n)
  {
    if n > 0 {
      assert t.file[t.start..t.offset] + t.file[t.offset..t.offset + n] == t.file[t.start..t.offset + n];
    }
  }

  lemma RequestKeepsInv(t: Transfer, file: seq<byte>, start: nat, total: nat, result: SendResult)
    requires Possible(Requested(t, file, start, total), result)
    ensures Inv(Begun(t, file, start, total, result)) && t.kernel <= Begun(t, file, start, total, result).kernel
  {
    hide Inv, Resumed, Possible;
    var r := Requested(t, file, start, total);
    assert Slice(file, start, start) == [];
    assert r.kernel == r.before + Slice(file, start, start);
    SendKeepsInv(r, result);
  }

  lemma StepKeepsInv(t: Transfer, step: Step)
    requires Inv(t) && Enabled(t, step)
    ensures Inv(Next(t, step)) && t.kernel <= Next(t, step).kernel
  {
    hide Resumed;
    match step
    case SendFile(file, start, total, result) =>
      if t.status == Connected { RequestKeepsInv(t, file, start, total, result); }
    case Writable(result) =>
      if t.writing && t.sending { SendKeepsInv(t, result); }
    case _ =>
  }

  /**
   What one sendfile call does to an open transfer: what the kernel took goes onto the wire, from the offset on; the
   rest waits for a write event, and with no rest completion is reported and waiting ends.  A fault gives the transfer
   up, and so does any call once the connection is closing.
   */
  lemma SendOutcome(t: Transfer, result: SendResult)
    requires Possible(t, result) && t.sending
    ensures var u := Resumed(t, result);
            if t.status in {DisConnected, DisConnecting} then u == t.(sending := false)
            else match result {
              case Sent(n) =>
                && u.offset == t.offset + n && u.kernel == t.kernel + Slice(t.file, t.offset, t.offset + n)
                && (n < t.count ==> u.count == t.count - n && u.sending && u.writing && u.completions == t.completions)
                && (n == t.count ==> !u.sending && !u.writing && u.completions == t.completions + 1)
              case Fault => u == t.(sending := false)
              case _ => u == if t.count > 0 then t.(writing := true) else t
            }
  {
    if result.Sent? && result.n == 0 {
      assert t.kernel + [] == t.kernel;
    }
  }

  /** Write events that take so many bytes each. */
  function Parts(counts: seq<nat>): seq<Step> {
    seq(|counts|, i requires 0 <= i < |counts| => Writable(Sent(counts[i])))
  }

  function Sum(counts: seq<nat>): nat {
    if counts == [] then 0 else counts[0] + Sum(counts[1..])
  }

  /** Write events move an open transfer on by what they take, and it completes with the last byte. */
  lemma {:induction false} PartsAdvance(t: Transfer, counts: seq<nat>)
    requires t.status == Connected && t.sending && t.writing && t.count > 0 && t.offset + t.count <= |t.file|
    requires (forall i :: 0 <= i < |counts| ==> counts[i] > 0) && Sum(counts) <= t.count
    ensures EnabledRun(t, Parts(counts))
    ensures var u := Run(t, Parts(counts));
            && u.offset == t.offset + Sum(counts)
            && u.kernel == t.kernel + Slice(t.file, t.offset, t.offset + Sum(counts))
            && (Sum(counts) < t.count ==> u.sending && u.completions == t.completions)
            && (Sum(counts) == t.count ==> !u.sending && !u.writing && u.completions == t.completions + 1)
    decreases |counts|
  {
    hide Next, Enabled, Resumed, Slice;
    if counts == [] {
      EmptySlice(t);
    } else {
      var n := counts[0];
      PartMoves(t, n);
      var u := Next(t, Writable(Sent(n)));
      assert Parts(counts)[0] == Writable(Sent(n)) && Parts(counts)[1..] == Parts(counts[1..]);
      if n < t.count {
        PartsAdvance(u, counts[1..]);
        RangesJoin(t.kernel, t.file, t.offset, t.offset + n, t.offset + Sum(counts));
      } else {
        NothingFollows(counts);
        assert Parts(counts[1..]) == [];
      }
    }
  }

  lemma EmptySlice(t: Transfer)
    ensures t.kernel == t.kernel + Slice(t.file, t.offset, t.offset)
  {
  }

  lemma NothingFollows(counts: seq<nat>)
    requires counts != [] && (forall i :: 0 <= i < |counts| ==> counts[i] > 0) && Sum(counts) <= counts[0]
    ensures counts[1..] == [] && Sum(counts) == counts[0]
  {
  }

  lemma PartMoves(t: Transfer, n: nat)
    requires t.status == Connected && t.sending && t.writing && 0 < n <= t.count && t.offset + t.count <= |t.file|
    ensures Enabled(t, Writable(Sent(n)))
    ensures var u := Next(t, Writable(Sent(n)));
            && u.offset == t.offset + n && u.file == t.file
            && u.kernel == t.kernel + Slice(t.file, t.offset, t.offset + n)
            && (n < t.count ==> u.status == Connected && u.count == t.count - n && u.sending && u.writing
                                && u.completions == t.completions)
            && (n == t.count ==> !u.sending && !u.writing && u.completions == t.completions + 1)
  {
  }

  /**
   A file inside its range that goes out in parts arrives: if the first call and the write events after it take `total`
   bytes together, the whole range is on the wire and completion is reported with the last of them, not before.
   */
  lemma PartsComplete(t: Transfer, file: seq<byte>, start: nat, total: nat, first: nat, counts: seq<nat>)
    returns (u: Transfer)
    requires t.status == Connected && total > 0 && start + total <= |file|
    requires first < total && (forall i :: 0 <= i < |counts| ==> counts[i] > 0) && first + Sum(counts) <= total
    ensures EnabledRun(t, [SendFile(file, start, total, Sent(first))] + Parts(counts))
    ensures u == Run(t, [SendFile(file, start, total, Sent(first))] + Parts(counts))
    ensures u.kernel == t.kernel + Slice(file, start, start + first + Sum(counts))
    ensures first + Sum(counts) == total ==> u.completions == t.completions + 1
    ensures first + Sum(counts) < total ==> u.completions == t.completions
  {
    hide *;
    BegunOpen(t, file, start, total, first);
    var begun := Begun(t, file, start, total, Sent(first));
    PartsAdvance(begun, counts);
    RequestIs(t, file, start, total, Sent(first));
    RunCons(t, SendFile(file, start, total, Sent(first)), Parts(counts));
    u := Run(begun, Parts(counts));
    RangesJoin(t.kernel, file, start, start + first, start + first + Sum(counts));
  }

  lemma RequestIs(t: Transfer, file: seq<byte>, start: nat, total: nat, first: SendResult)
    requires t.status == Connected && Possible(Requested(t, file, start, total), first)
    ensures Enabled(t, SendFile(file, start, total, first))
    ensures Next(t, SendFile(file, start, total, first)) == Begun(t, file, start, total, first)
  {
  }

  lemma RunCons(t: Transfer, step: Step, steps: seq<Step>)
    requires Enabled(t, step) && EnabledRun(Next(t, step), steps)
    ensures EnabledRun(t, [step] + steps) && Run(t, [step] + steps) == Run(Next(t, step), steps)
  {
    hide Enabled, Next;
    assert ([step] + steps)[1..] == steps;
  }

  /** After a shutdown or a close no byte is sent, nothing is reported and no request is taken. */
  lemma NothingAfterClose(t: Transfer, step: Step, steps: seq<Step>)
    requires step == Shutdown || step == Close
    requires EnabledRun(Next(t, step), steps)
    ensures var u := Run(Next(t, step), steps);
            u.kernel == t.kernel && u.completions == t.completions && u.file == t.file && u.offset == t.offset
  {
    StaysShut(Next(t, step), steps);
  }

  lemma {:induction false} StaysShut(t: Transfer, steps: seq<Step>)
    requires EnabledRun(t, steps) && t.status in {DisConnecting, DisConnected}
    ensures var u := Run(t, steps);
            u.kernel == t.kernel && u.completions == t.completions && u.file == t.file && u.offset == t.offset
    decreases |steps|
  {
    if steps != [] {
      StaysShut(Next(t, steps[0]), steps[1..]);
    }
  }

  lemma RangesJoin(wire: seq<byte>, file: seq<byte>, from: nat, middle: nat, to: nat)
    requires from <= middle <= to <= |file|
    ensures wire + Slice(file, from, middle) + Slice(file, middle, to) == wire + Slice(file, from, to)
  {
  }

  lemma BegunOpen(t: Transfer, file: seq<byte>, start: nat, total: nat, first: nat)
    requires t.status == Connected && first < total && start + total <= |file|
    ensures Possible(Requested(t, file, start, total), Sent(first))
    ensures var u := Begun(t, file, start, total, Sent(first));
            && u.status == Connected && u.sending && u.writing && u.file == file && u.completions == t.completions
            && u.offset == start + first && u.count == total - first
            && u.kernel == t.kernel + Slice(file, start, start + first)
  {
    SendOutcome(Requested(t, file, start, total), Sent(first));
  }

  /** A step that is no request goes on with the transfer there is. */
  lemma StepKeepsTransfer(t: Transfer, step: Step)
    requires Enabled(t, step) && !step.SendFile?
    ensures var u := Next(t, step);
            && u.file == t.file && u.start == t.start && u.total == t.total
            && u.before == t.before && u.earlier == t.earlier
  {
  }

  ghost function Run(t: Transfer, steps: seq<Step>): Transfer
    requires EnabledRun(t, steps)
    decreases |steps|
  {
    if steps == [] then t else Run(Next(t, steps[0]), steps[1..])
  }

  ghost predicate EnabledRun(t: Transfer, steps: seq<Step>)
    decreases |steps|
  {
    steps == [] || (Enabled(t, steps[0]) && EnabledRun(Next(t, steps[0]), steps[1..]))
  }

  /** Through every run of requests and write events, and nothing on the wire is ever taken back. */
  lemma {:induction false} RunKeepsInv(t: Transfer, steps: seq<Step>)
    requires Inv(t) && EnabledRun(t, steps)
    ensures Inv(Run(t, steps)) && t.kernel <= Run(t, steps).kernel
    decreases |steps|
  {
    hide Inv, Next, Enabled;
    if steps != [] {
      StepKeepsInv(t, steps[0]);
      RunKeepsInv(Next(t, steps[0]), steps[1..]);
    }
  }

  ghost predicate NoRequest(steps: seq<Step>) {
    forall s :: s in steps ==> !s.SendFile?
  }

  lemma {:induction false} RunKeepsTransfer(t: Transfer, steps: seq<Step>)
    requires EnabledRun(t, steps) && NoRequest(steps)
    ensures var u := Run(t, steps);
            && u.file == t.file && u.start == t.start && u.total == t.total
            && u.before == t.before && u.earlier == t.earlier
    decreases |steps|
  {
    hide Next, Enabled;
    if steps != [] {
      assert steps[0] in steps;
      StepKeepsTransfer(t, steps[0]);
      RunKeepsTransfer(Next(t, steps[0]), steps[1..]);
    }
  }

  lemma BegunIs(t: Transfer, file: seq<byte>, start: nat, total: nat, first: SendResult)
    requires Possible(Requested(t, file, start, total), first)
    ensures var u := Begun(t, file, start, total, first);
            u.file == file && u.start == start && u.total == total && u.before == t.kernel && u.earlier == t.completions
  {
  }

  /**
   For every file, the first on the connection or a later one, and every run until the next request: after what was on
   the wire before come the bytes of a prefix of the requested range, in order; completion is reported at most once, and
   then the whole range is on the wire; and an open transfer is always waiting for a write event.
   */
  lemma FileArrivesInOrder(t: Transfer, file: seq<byte>, start: nat, total: nat, first: SendResult, steps: seq<Step>)
    requires Possible(Requested(t, file, start, total), first)
    requires EnabledRun(Begun(t, file, start, total, first), steps) && NoRequest(steps)
    ensures var u := Run(Begun(t, file, start, total, first), steps);
            && start <= u.offset <= start + total && u.kernel == t.kernel + Slice(file, start, u.offset)
            && t.completions <= u.completions <= t.completions + 1
            && (u.completions > t.completions ==> u.kernel == t.kernel + Slice(file, start, start + total))
            && (u.sending && u.status == Connected ==> u.writing && u.offset < start + total)
  {
    hide Begun, Requested, Resumed, Possible, Next, Enabled, NoRequest;
    RequestKeepsInv(t, file, start, total, first);
    BegunIs(t, file, start, total, first);
    RunKeepsInv(Begun(t, file, start, total, first), steps);
    RunKeepsTransfer(Begun(t, file, start, total, first), steps);
  }

  /**
   Completion needs the range to be empty or to lie inside the file, and that suffices: if it does not, no run ever
   completes (a transfer past the end keeps its write interest for good); if it does, a first call that takes everything
   completes.
   */
  lemma CompletesIffInsideFile(t: Transfer, file: seq<byte>, start: nat, total: nat)
    requires t.status == Connected
    ensures (exists first, steps :: Completes(t, file, start, total, first, steps)) <==>
            total == 0 || start + total <= |file|
  {
    if total == 0 || start + total <= |file| {
      var steps: seq<Step> := [];
      assert Completes(t, file, start, total, Sent(total), steps);
    }
    forall first, steps | Completes(t, file, start, total, first, steps)
      ensures total == 0 || start + total <= |file|
    {
      RequestKeepsInv(t, file, start, total, first);
      BegunIs(t, file, start, total, first);
      RunKeepsInv(Begun(t, file, start, total, first), steps);
      RunKeepsTransfer(Begun(t, file, start, total, first), steps);
    }
  }

  /** A run in which the requested range is completed before another request. */
  ghost predicate Completes(t: Transfer, file: seq<byte>, start: nat, total: nat, first: SendResult, steps: seq<Step>) {
    && Possible(Requested(t, file, start, total), first)
    && EnabledRun(Begun(t, file, start, total, first), steps) && NoRequest(steps)
    && Run(Begun(t, file, start, total, first), steps).completions == t.completions + 1
  }

  /** The part of a connection that sends files: the flag, the three fields of `file_to_send` and the write interest. */
  class FileConnection {
    var state: Status
    var sendingFile: bool
    var writing: bool
    var file: seq<byte>
    var offset: nat
    var count: nat
    var completions: nat
    ghost var kernel: seq<byte>
    ghost var start: nat
    ghost var total: nat
    ghost var before: seq<byte>
    ghost var earlier: nat

    ghost function View(): Transfer
      reads this
    {
      Transfer(state, sendingFile, writing, file, offset, count, kernel, completions, start, total, before, earlier)
    }

    constructor ()
      ensures View() == OPENED && Inv(View())
    {
      state, sendingFile, writing, file, offset, count, completions := Connected, false, false, [], 0, 0, 0;
      kernel, start, total, before, earlier := [], 0, 0, [], 0;
    }

    method SendFileInLoop(result: SendResult)
      requires Possible(View(), result)
      modifies this`sendingFile, this`writing, this`offset, this`count, this`completions, this`kernel
      ensures View() == Resumed(old(View()), result)
    {
      if state == DisConnected || state == DisConnecting {
        sendingFile := false;
        return;
      }
      var remaining := count;
      var faulted := false;
      if sendingFile {
        match result {
          case Sent(n) =>
            if n > 0 {
              kernel := kernel + file[offset..offset + n];
            }
            offset := offset + n;
            remaining := remaining - n;
            if remaining == 0 {
              completions := completions + 1;
              sendingFile := false;
              writing := false;
            }
          case Fault =>
            faulted := true;
            sendingFile := false;
          case _ =>
        }
      }
      if remaining > 0 && !faulted {
        count := remaining;
        writing := true;
      }
    }

    /** A file to send, on the loop thread: refused unless connected. */
    method SendFile(newFile: seq<byte>, from: nat, length: nat, result: SendResult)
      requires Inv(View()) && Enabled(View(), Step.SendFile(newFile, from, length, result))
      modifies this
      ensures View() == Next(old(View()), Step.SendFile(newFile, from, length, result)) && Inv(View())
    {
      hide Inv, Resumed;
      StepKeepsInv(View(), Step.SendFile(newFile, from, length, result));
      if state == Connected {
        sendingFile, file, offset, count := true, newFile, from, length;
        start, total, before, earlier := from, length, kernel, completions;
        SendFileInLoop(result);
      }
    }

    method HandleWrite(result: SendResult)
      requires Inv(View()) && Possible(View(), result)
      modifies this`sendingFile, this`writing, this`offset, this`count, this`completions, this`kernel
      ensures View() == Next(old(View()), Writable(result)) && Inv(View())
    {
      StepKeepsInv(View(), Writable(result));
      if writing && sendingFile {
        SendFileInLoop(result);
      }
    }
  }
}
