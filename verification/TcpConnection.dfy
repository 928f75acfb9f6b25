/**
 The connection object: its state, its output buffer and its channel in the poller.  Each method is proved to do
 what the model's operation does, so the theorems about runs hold of it, down to the kernel's interest set.
 */
module TcpConnections {
  import opened ConnectionStates
  import opened ConnectionModel
  import Buffers
  import Pollers

  /** A connected connection reads, and only a reading one writes. */
  lemma OpenFacts(c: Conn)
    requires Inv(c)
    ensures c.status == Connecting ==> !c.writing
    ensures c.status == Connected ==> c.reading
    ensures c.status == DisConnected ==> !c.reading
    ensures c.writing ==> c.reading
  {
  }

  lemma PassedMeansEstablished(c: Conn)
    requires Inv(c) && c.passed > 0
    ensures c.status != Connecting
  {
  }

  class TcpConnection {
    const name: nat
    const loop: nat
    const poller: Pollers.EPollPoller
    const channel: Pollers.Channel
    const outputBuffer: Buffers.Buffer
    const highWaterMark: nat
    var state: Status
    var completions: nat
    var notices: nat
    var closes: nat
    var queued: nat
    ghost var halfCloses: seq<HalfClose>
    ghost var kernel: seq<Buffers.byte>
    ghost var accepted: seq<Buffers.byte>
    ghost var calls: nat
    ghost var passed: nat
    ghost var spare: bool

    ghost function View(): Conn
      requires outputBuffer.Valid()
      reads this, channel, outputBuffer, outputBuffer.storage
    {
      Conn(state, channel.IsReading(), channel.IsWriting(), outputBuffer.Contents(), kernel, accepted, highWaterMark,
           completions, notices, halfCloses, closes, calls, passed, queued, spare)
    }

    /** The parts are in order: the channel is watched while the connection reads and not known before. */
    ghost predicate Wired()
      reads this, poller, poller.live, channel, outputBuffer
    {
      && poller.Valid() && channel in poller.live && outputBuffer.Valid()
      && (state == Connecting ==> channel.index == Pollers.New)
      && (channel.IsReading() ==> channel.index == Pollers.Added)
    }

    ghost predicate Valid()
      reads this, poller, poller.live, channel, outputBuffer, outputBuffer.storage
    {
      Wired() && Inv(View())
    }

    lemma Registered()
      requires Valid()
      ensures poller.Valid() && channel in poller.live
    {
    }

    /** What happens to other channels of the poller does not disturb a connection. */
    twostate lemma Undisturbed()
      requires old(Valid()) && poller.Valid() && channel in poller.live
      requires unchanged(this) && unchanged(channel) && unchanged(outputBuffer) && unchanged(outputBuffer.storage)
      ensures Valid()
    {
      hide Inv, Pollers.EPollPoller.Valid;
      assert View() == old(View());
    }

    constructor (name: nat, loop: nat, poller: Pollers.EPollPoller, fd: int, mark: nat)
      requires poller.Valid() && forall c :: c in poller.live ==> c.fd != fd
      modifies poller`live
      ensures Valid() && View() == Created(mark) && fresh(outputBuffer) && fresh(outputBuffer.storage) && fresh(channel)
      ensures this.name == name && this.loop == loop && this.poller == poller && channel.fd == fd
      ensures poller.live == old(poller.live) + {channel} && channel.index == Pollers.New
    {
      var handle := poller.Open(fd);
      var buffer := new Buffers.Buffer(1024);
      this.name, this.loop := name, loop;
      this.poller, channel, outputBuffer := poller, handle, buffer;
      highWaterMark, state := mark, Connecting;
      completions, notices, closes, queued := 0, 0, 0, 0;
      halfCloses, kernel, accepted, calls, passed, spare := [], [], [], 0, 0, false;
    }

    /**
     No output is stranded: until the connection is closed the kernel watches the socket for writability exactly while
     the output buffer holds bytes.
     */
    lemma KernelWatchesForOutput()
      requires Valid() && (state == Connected || channel.IsReading())
      ensures channel.fd in poller.interest
      ensures outputBuffer.Contents() != [] <==> poller.interest[channel.fd].mask & Pollers.EPOLLOUT != 0
    {
      assert Pollers.Agrees(poller.CellOf(channel));
    }

    /** A step that queues a write-complete or high-water functor finds the channel in epoll. */
    lemma ReportsWhileRegistered(step: Step)
      requires Valid() && Enabled(View(), step)
      requires Next(View(), step).completions != completions || Next(View(), step).notices != notices
      ensures channel.index == Pollers.Added && (state == Connected || channel.IsWriting())
    {
      ReportsNeedAnOpenConnection(View(), step);
    }

    /** Change the channel's mask through the poller. */
    method Change(call: Pollers.Call)
      requires poller.Valid() && channel in poller.live
      requires call == Pollers.EnableReading || call == Pollers.EnableWriting || call == Pollers.DisableWriting
      requires call == Pollers.DisableWriting ==> channel.IsReading()
      modifies poller`channels, poller`interest, poller`failures, channel`events, channel`index
      ensures poller.Valid() && channel.index == Pollers.Added
      ensures channel.IsReading() == (old(channel.IsReading()) || call == Pollers.EnableReading)
      ensures channel.IsWriting() ==
              if call == Pollers.EnableReading then old(channel.IsWriting()) else call == Pollers.EnableWriting
    {
      hide Pollers.NewEvents, Pollers.Apply, Pollers.Agrees;
      Pollers.MasksAreIndependent(channel.events);
      Pollers.WatchedAfter(poller.CellOf(channel), call);
      poller.Change(channel, call);
    }

    /** Append what could not be written, note an upward crossing of the mark, and watch for writability. */
    method Keep(rest: seq<Buffers.byte>)
      requires Wired() && channel.IsReading() && state != Connecting
      modifies this`notices, outputBuffer, outputBuffer.storage
      modifies poller`channels, poller`interest, poller`failures, channel`events, channel`index
      ensures Wired() && View() == ConnectionModel.Keep(old(View()), rest)
      ensures outputBuffer.storage == old(outputBuffer.storage) || fresh(outputBuffer.storage)
    {
      hide Pollers.EPollPoller.Valid, Buffers.Buffer.Contents, Buffers.Buffer.ReadableBytes;
      if rest != [] {
        var oldLength := outputBuffer.ReadableBytes();
        if oldLength + |rest| >= highWaterMark && oldLength < highWaterMark {
          notices := notices + 1;
        }
        outputBuffer.Append(rest);
        if !channel.IsWriting() {
          Change(Pollers.EnableWriting);
        }
      }
    }

    /** `result` is what the kernel answers if the data is written directly. */
    method SendInLoop(data: seq<Buffers.byte>, result: WriteResult)
      requires Valid() && state != Connecting && (result.Wrote? ==> result.n <= |data|)
      modifies this`notices, this`completions, this`kernel, this`accepted, outputBuffer, outputBuffer.storage
      modifies poller`channels, poller`interest, poller`failures, channel`events, channel`index
      ensures Valid() && View() == ConnectionModel.SendInLoop(old(View()), data, result)
      ensures outputBuffer.storage == old(outputBuffer.storage) || fresh(outputBuffer.storage)
    {
      hide Inv, Pollers.EPollPoller.Valid, ConnectionModel.Keep, Buffers.Buffer.Contents, Buffers.Buffer.ReadableBytes;
      OpenFacts(View());
      SendKeepsInv(View(), data, result);
      if state == DisConnected || state == DisConnecting {
        return;
      }
      var nwrote := 0;
      if !channel.IsWriting() && outputBuffer.ReadableBytes() == 0 {
        match result {
          case Wrote(n) =>
            nwrote := n;
            kernel := kernel + data[..n];
            if n == |data| {
              completions := completions + 1;
            }
          case Fault =>
            return;
          case _ =>
        }
      }
      accepted := accepted + data;
      assert data[0..] == data;
      assert ConnectionModel.SendInLoop(old(View()), data, result) == ConnectionModel.Keep(View(), data[nwrote..]);
      hide ConnectionModel.SendInLoop;
      Keep(data[nwrote..]);
    }

    method ShutDownInLoop()
      requires outputBuffer.Valid()
      modifies this`halfCloses
      ensures View() == ConnectionModel.ShutDownInLoop(old(View()))
    {
      if !channel.IsWriting() {
        halfCloses := halfCloses + [HalfClose(state, channel.IsReading(), |outputBuffer.Contents()|)];
      }
    }

    /** send on the loop thread: refused unless connected. */
    method Send(data: seq<Buffers.byte>, result: WriteResult)
      requires Valid() && (result.Wrote? ==> result.n <= |data|)
      modifies this`notices, this`completions, this`kernel, this`accepted, outputBuffer, outputBuffer.storage
      modifies poller`channels, poller`interest, poller`failures, channel`events, channel`index
      ensures Valid() && View() == Next(old(View()), Step.Send(data, result))
      ensures outputBuffer.storage == old(outputBuffer.storage) || fresh(outputBuffer.storage)
    {
      hide Inv, Pollers.EPollPoller.Valid, ConnectionModel.SendInLoop;
      if state == Connected {
        SendInLoop(data, result);
      }
    }

    /** shutdown on the loop thread: the half-close is attempted at once. */
    method Shutdown()
      requires Valid()
      modifies this`state, this`halfCloses, this`spare
      ensures Valid() && View() == Next(old(View()), Step.Shutdown)
    {
      hide Inv, Pollers.EPollPoller.Valid;
      StepKeepsInv(View(), Step.Shutdown);
      if state == Connected {
        state, spare := DisConnecting, true;
        ShutDownInLoop();
      }
    }

    /** shutdown on another thread, up to its test of the state. */
    method CheckShutdown() returns (connected: bool)
      requires Valid()
      modifies this`calls, this`passed
      ensures connected <==> state == Connected
      ensures Valid() && View() == if connected then Next(old(View()), Step.CheckShutdown) else old(View())
    {
      hide Inv, Pollers.EPollPoller.Valid;
      connected := state == Connected;
      if connected {
        StepKeepsInv(View(), Step.CheckShutdown);
        calls, passed := calls + 1, passed + 1;
      }
    }

    /** The rest of it: whatever the state has become meanwhile is overwritten, and the half-close is queued. */
    method StoreShutdown()
      requires Valid() && passed > 0
      modifies this`state, this`passed, this`queued, this`spare
      ensures Valid() && View() == Next(old(View()), Step.StoreShutdown)
    {
      hide Inv, Pollers.EPollPoller.Valid;
      StepKeepsInv(View(), Step.StoreShutdown);
      PassedMeansEstablished(View());
      passed, spare := passed - 1, spare || (state == Connected && outputBuffer.Contents() != []);
      state := DisConnecting;
      queued := queued + 1;
    }

    /** The queued half-close runs. */
    method RunShutdownTask()
      requires Valid() && queued > 0
      modifies this`queued, this`halfCloses
      ensures Valid() && View() == Next(old(View()), ShutdownTask)
    {
      hide Inv, Pollers.EPollPoller.Valid;
      StepKeepsInv(View(), ShutdownTask);
      queued := queued - 1;
      ShutDownInLoop();
    }

    method Flush(n: nat)
      requires Wired() && channel.IsReading() && 0 < n <= |outputBuffer.Contents()| && state != Connecting
      modifies this`completions, this`kernel, outputBuffer`readIndex, outputBuffer`writeIndex
      modifies poller`channels, poller`interest, poller`failures, channel`events, channel`index
      ensures Wired() && View() == ConnectionModel.Flush(old(View()), n)
    {
      hide Pollers.EPollPoller.Valid;
      kernel := kernel + outputBuffer.Contents()[..n];
      outputBuffer.Retrieve(n);
      if outputBuffer.ReadableBytes() == 0 {
        Change(Pollers.DisableWriting);
        completions := completions + 1;
      }
    }

    /**
     A write event: send from the front of the buffer; once it is empty stop watching and finish a pending shutdown.
     */
    method HandleWrite(result: WriteResult)
      requires Valid() && (result.Wrote? ==> result.n <= |outputBuffer.Contents()|)
      modifies this`completions, this`kernel, this`halfCloses, outputBuffer`readIndex, outputBuffer`writeIndex
      modifies poller`channels, poller`interest, poller`failures, channel`events, channel`index
      ensures Valid() && View() == ConnectionModel.HandleWrite(old(View()), result)
    {
      hide Inv, Pollers.EPollPoller.Valid, ConnectionModel.ShutDownInLoop, ConnectionModel.Flush;
      OpenFacts(View());
      WriteKeepsInv(View(), result);
      if channel.IsWriting() && outputBuffer.ReadableBytes() > 0 && result.Wrote? && result.n > 0 {
        Flush(result.n);
        if state == DisConnecting {
          ShutDownInLoop();
        }
      }
    }

    method DisableAll()
      requires poller.Valid() && channel in poller.live
      modifies poller`channels, poller`interest, poller`failures, channel`events, channel`index
      ensures poller.Valid() && channel.events == Pollers.NONE_EVENT
      ensures channel.index == Pollers.Disabled(old(channel.index))
    {
      hide Pollers.EPollPoller.Valid, Pollers.Apply, Pollers.Agrees;
      poller.ChannelAgrees(channel);
      Pollers.UnwatchedAfter(poller.CellOf(channel));
      poller.Change(channel, Pollers.DisableAll);
    }

    method HandleClose()
      requires Valid() && state != Connecting
      modifies this`state, this`closes
      modifies poller`channels, poller`interest, poller`failures, channel`events, channel`index
      ensures Valid() && View() == ConnectionModel.HandleClose(old(View()))
      ensures channel.index == Pollers.Disabled(old(channel.index))
    {
      hide Inv, Pollers.EPollPoller.Valid;
      StepKeepsInv(View(), Close);
      state := DisConnected;
      DisableAll();
      closes := closes + 1;
    }

    method ConnectionEstablished()
      requires Valid() && state == Connecting
      modifies this`state, poller`channels, poller`interest, poller`failures, channel`events, channel`index
      ensures Valid() && View() == Next(old(View()), Establish) && channel.index == Pollers.Added
    {
      hide Inv, Pollers.EPollPoller.Valid;
      StepKeepsInv(View(), Establish);
      state := Connected;
      Change(Pollers.EnableReading);
    }

    method Remove()
      requires poller.Valid() && channel in poller.live
      modifies poller`channels, poller`interest, poller`failures, channel`events, channel`index
      ensures poller.Valid() && channel.events == old(channel.events)
      ensures channel.index == Pollers.New && channel.fd !in poller.interest && channel.fd !in poller.channels
    {
      hide Pollers.EPollPoller.Valid, Pollers.Apply, Pollers.Agrees;
      poller.ChannelAgrees(channel);
      Pollers.ForgottenAfter(poller.CellOf(channel));
      poller.Change(channel, Pollers.Unregister);
    }

    /** Leaves the poller knowing nothing of the channel, however often it runs. */
    method ConnectionDestroyed()
      requires Valid() && state != Connecting
      modifies this`state, poller`channels, poller`interest, poller`failures, channel`events, channel`index
      ensures Valid() && View() == Next(old(View()), Destroy)
      ensures channel.index == Pollers.New && channel.fd !in poller.interest && channel.fd !in poller.channels
    {
      hide Inv, Pollers.EPollPoller.Valid, Pollers.Agrees, Buffers.Buffer.Contents;
      OpenFacts(View());
      StepKeepsInv(View(), Destroy);
      if state == Connected || state == DisConnecting {
        state := DisConnected;
        DisableAll();
      }
      Remove();
    }
  }
}
