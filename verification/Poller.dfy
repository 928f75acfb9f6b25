/**
 Channels and the epoll poller.  A channel caches in `index` what the poller did with it; the theorem is that
 this cache, the poller's fd map and the kernel's interest set agree after every sequence of calls.
 */
module Pollers {
  type Mask = bv32

  const EPOLLIN: Mask := 0x1
  const EPOLLPRI: Mask := 0x2
  const EPOLLOUT: Mask := 0x4
  const EPOLLERR: Mask := 0x8
  const EPOLLHUP: Mask := 0x10
  const READ_EVENT: Mask := EPOLLIN | EPOLLPRI
  const WRITE_EVENT: Mask := EPOLLOUT
  const NONE_EVENT: Mask := 0

  datatype Option<T> = None | Some(value: T)

  /** kNew, kAdd and kDelete. */
  datatype Index = New | Added | Deleted

  datatype Operation = Add | Mod | Del

  // ----- one channel as a value -----

  /** A channel with what the poller's map and the kernel hold for its fd, and the failed epoll_ctl calls so far. */
  datatype Cell = Cell(events: Mask, index: Index, mapped: bool, interest: Option<Mask>, failures: nat)

  /** epoll_ctl: adding a present fd, or changing or deleting an absent one, fails. */
  function Ctl(cell: Cell, operation: Operation): Cell {
    if operation.Add? == cell.interest.Some? then cell.(failures := cell.failures + 1)
    else cell.(interest := if operation.Del? then None else Some(cell.events))
  }

  function Updated(cell: Cell): Cell {
    if cell.index == New || cell.index == Deleted then
      if cell.events == NONE_EVENT then cell
      else Ctl(cell.(mapped := true), Add).(index := Added)
    else if cell.events == NONE_EVENT then Ctl(cell, Del).(index := Deleted)
    else Ctl(cell, Mod)
  }

  function Removed(cell: Cell): Cell {
    if cell.index == New then cell
    else
      var unmapped := cell.(mapped := false);
      (if cell.index == Added then Ctl(unmapped, Del) else unmapped).(index := New)
  }

  datatype Call = EnableReading | DisableReading | EnableWriting | DisableWriting | DisableAll | Unregister

  function NewEvents(events: Mask, call: Call): Mask {
    match call
    case EnableReading => events | READ_EVENT
    case DisableReading => events & !READ_EVENT
    case EnableWriting => events | WRITE_EVENT
    case DisableWriting => events & !WRITE_EVENT
    case DisableAll => NONE_EVENT
    case Unregister => events
  }

  function Apply(cell: Cell, call: Call): Cell {
    if call == Unregister then Removed(cell)
    else Updated(cell.(events := NewEvents(cell.events, call)))
  }

  function ApplyAll(cell: Cell, calls: seq<Call>): Cell {
    if calls == [] then cell else Apply(ApplyAll(cell, calls[..|calls| - 1]), calls[|calls| - 1])
  }

  predicate Agrees(cell: Cell) {
    match cell.index
    case New => !cell.mapped && cell.interest == None
    case Added => cell.mapped && cell.interest == Some(cell.events) && cell.events != NONE_EVENT
    case Deleted => cell.mapped && cell.interest == None && cell.events == NONE_EVENT
  }

  const FRESH: Cell := Cell(NONE_EVENT, New, false, None, 0)

  /**
   After every sequence of calls: kAdd means the kernel watches the fd for exactly the channel's nonempty mask,
   kDelete that the poller knows it but the kernel does not, kNew neither; and no epoll_ctl ever failed.
   */
  lemma {:induction false} PollerAgreement(calls: seq<Call>)
    ensures Agrees(ApplyAll(FRESH, calls)) && ApplyAll(FRESH, calls).failures == 0
  {
    if calls != [] {
      PollerAgreement(calls[..|calls| - 1]);
    }
  }

  /**
   Each call sets or clears its whole part of the mask and leaves every other bit: reading is input and urgent data,
   writing is output.
   */
  lemma MasksAreExact(events: Mask)
    ensures NewEvents(events, EnableReading) & (EPOLLIN | EPOLLPRI) == EPOLLIN | EPOLLPRI
    ensures NewEvents(events, EnableReading) & !(EPOLLIN | EPOLLPRI) == events & !(EPOLLIN | EPOLLPRI)
    ensures NewEvents(events, DisableReading) & (EPOLLIN | EPOLLPRI) == 0
    ensures NewEvents(events, DisableReading) & !(EPOLLIN | EPOLLPRI) == events & !(EPOLLIN | EPOLLPRI)
    ensures NewEvents(events, EnableWriting) & EPOLLOUT == EPOLLOUT
    ensures NewEvents(events, EnableWriting) & !EPOLLOUT == events & !EPOLLOUT
    ensures NewEvents(events, DisableWriting) & EPOLLOUT == 0
    ensures NewEvents(events, DisableWriting) & !EPOLLOUT == events & !EPOLLOUT
    ensures NewEvents(events, DisableAll) == 0 && NewEvents(events, Unregister) == events
  {
    hide NewEvents;
    EnableReadingMask(events);
    DisableReadingMask(events);
    EnableWritingMask(events);
    DisableWritingMask(events);
    PassiveMask(events);
  }

  lemma EnableReadingMask(events: Mask)
    ensures NewEvents(events, EnableReading) & (EPOLLIN | EPOLLPRI) == EPOLLIN | EPOLLPRI
    ensures NewEvents(events, EnableReading) & !(EPOLLIN | EPOLLPRI) == events & !(EPOLLIN | EPOLLPRI)
  {
  }

  lemma DisableReadingMask(events: Mask)
    ensures NewEvents(events, DisableReading) & (EPOLLIN | EPOLLPRI) == 0
    ensures NewEvents(events, DisableReading) & !(EPOLLIN | EPOLLPRI) == events & !(EPOLLIN | EPOLLPRI)
  {
  }

  lemma EnableWritingMask(events: Mask)
    ensures NewEvents(events, EnableWriting) & EPOLLOUT == EPOLLOUT
    ensures NewEvents(events, EnableWriting) & !EPOLLOUT == events & !EPOLLOUT
  {
  }

  lemma DisableWritingMask(events: Mask)
    ensures NewEvents(events, DisableWriting) & EPOLLOUT == 0
    ensures NewEvents(events, DisableWriting) & !EPOLLOUT == events & !EPOLLOUT
  {
  }

  lemma PassiveMask(events: Mask)
    ensures NewEvents(events, DisableAll) == 0 && NewEvents(events, Unregister) == events
  {
  }

  /** Reading and writing interest are independent of each other. */
  lemma MasksAreIndependent(events: Mask)
    ensures NewEvents(events, EnableReading) & WRITE_EVENT == events & WRITE_EVENT
    ensures NewEvents(events, DisableReading) & WRITE_EVENT == events & WRITE_EVENT
    ensures NewEvents(events, EnableWriting) & READ_EVENT == events & READ_EVENT
    ensures NewEvents(events, DisableWriting) & READ_EVENT == events & READ_EVENT
    ensures NewEvents(events, EnableWriting) & WRITE_EVENT != 0
    ensures NewEvents(events, DisableWriting) & WRITE_EVENT == 0
    ensures NewEvents(events, EnableReading) & READ_EVENT != 0
    ensures NewEvents(events, DisableReading) & READ_EVENT == 0
  {
  }

  /** Any of these calls leaves the channel watched, for the mask it asked for. */
  lemma WatchedAfter(cell: Cell, call: Call)
    requires Agrees(cell) && NewEvents(cell.events, call) != NONE_EVENT && call != Unregister
    ensures Apply(cell, call).index == Added && Apply(cell, call).events == NewEvents(cell.events, call)
    ensures Apply(cell, call).interest == Some(NewEvents(cell.events, call))
  {
    hide NewEvents;
  }

  /** disableAll: a channel in epoll leaves it and stays known; any other is left alone. */
  function Disabled(index: Index): Index {
    if index == Added then Deleted else index
  }

  lemma UnwatchedAfter(cell: Cell)
    requires Agrees(cell)
    ensures Apply(cell, DisableAll).index == Disabled(cell.index)
    ensures Apply(cell, DisableAll).events == NONE_EVENT
  {
  }

  lemma ForgottenAfter(cell: Cell)
    requires Agrees(cell)
    ensures Apply(cell, Unregister) == cell.(index := New, mapped := false, interest := None)
  {
  }

  /** Whatever the mask was changed to, an update restores agreement without a failing call. */
  lemma UpdatedAgrees(cell: Cell, before: Mask)
    requires Agrees(cell.(events := before))
    ensures Agrees(Updated(cell)) && Updated(cell).failures == cell.failures
    ensures cell.index == Deleted ==> cell.mapped
  {
  }

  lemma WatchedIsAdded(cell: Cell)
    requires Agrees(cell) && cell.interest.Some?
    ensures cell.index == Added
  {
  }

  // ----- the objects -----

  class Channel {
    const fd: int
    var events: Mask
    var revents: Mask
    var index: Index

    constructor (fd: int)
      ensures this.fd == fd && events == NONE_EVENT && revents == NONE_EVENT && index == New
    {
      this.fd, events, revents, index := fd, NONE_EVENT, NONE_EVENT, New;
    }

    predicate IsReading()
      reads this
    {
      events & READ_EVENT != 0
    }

    predicate IsWriting()
      reads this
    {
      events & WRITE_EVENT != 0
    }
  }

  /** What the kernel keeps for an fd: the mask and the user data pointer. */
  datatype Registration = Registration(mask: Mask, channel: Channel)

  datatype Event = Event(mask: Mask, channel: Channel)

  class EPollPoller {
    var channels: map<int, Channel>
    var interest: map<int, Registration>
    var failures: nat
    ghost var live: set<Channel>

    ghost function CellOf(c: Channel): Cell
      reads this, c
    {
      Cell(c.events, c.index, c.fd in channels,
           if c.fd in interest then Some(interest[c.fd].mask) else None, failures)
    }

    /** One live channel per fd, and every map entry points at the channel of its fd. */
    ghost predicate Wired()
      reads this, live
    {
      && (forall c, d :: c in live && d in live && c.fd == d.fd ==> c == d)
      && (forall fd :: fd in channels ==> channels[fd] in live && channels[fd].fd == fd)
      && (forall fd :: fd in interest ==> interest[fd].channel in live && interest[fd].channel.fd == fd)
    }

    ghost predicate Valid()
      reads this, live
    {
      Wired() && failures == 0 && forall c :: c in live ==> Agrees(CellOf(c))
    }

    lemma ChannelAgrees(channel: Channel)
      requires Valid() && channel in live
      ensures Agrees(CellOf(channel))
    {
    }

    constructor ()
      ensures Valid() && live == {}
    {
      channels, interest, failures, live := map[], map[], 0, {};
    }

    /** A new channel, for an fd that no live channel has. */
    method Open(fd: int) returns (channel: Channel)
      requires Valid() && forall c :: c in live ==> c.fd != fd
      modifies this`live
      ensures Valid() && fresh(channel) && channel.fd == fd && live == old(live) + {channel}
      ensures CellOf(channel) == FRESH
    {
      channel := new Channel(fd);
      assert fd !in channels && fd !in interest;
      live := live + {channel};
    }

    /** The channel is destroyed and its fd closed: the poller holds no trace of it, so the fd can be used again. */
    method Release(channel: Channel)
      requires Valid() && channel in live && channel.index == New
      modifies this`live
      ensures Valid() && live == old(live) - {channel}
      ensures forall c :: c in live ==> c.fd != channel.fd
      ensures channel.fd !in channels && channel.fd !in interest
    {
      assert Agrees(CellOf(channel));
      live := live - {channel};
    }

    method Update(operation: Operation, channel: Channel)
      requires Wired() && channel in live
      modifies this`interest, this`failures
      ensures Wired() && CellOf(channel) == Ctl(old(CellOf(channel)), operation)
      ensures forall c :: c in live && c != channel ==> CellOf(c) == old(CellOf(c)).(failures := failures)
    {
      var fd := channel.fd;
      if operation.Add? == (fd in interest) {
        failures := failures + 1;
      } else if operation.Del? {
        interest := interest - {fd};
      } else {
        interest := interest[fd := Registration(channel.events, channel)];
      }
    }

    /** A channel that is not in epoll goes there, and into the map if it is new. */
    method Enroll(channel: Channel)
      requires Wired() && channel in live && channel.index != Added &&
               (channel.index == Deleted ==> channel.fd in channels)
      modifies this`channels, this`interest, this`failures, channel`index
      ensures Wired() && CellOf(channel) == Ctl(old(CellOf(channel)).(mapped := true), Add).(index := Added)
      ensures forall c :: c in live && c != channel ==> CellOf(c) == old(CellOf(c)).(failures := failures)
    {
      hide Ctl;
      if channel.index == New {
        channels := channels[channel.fd := channel];
      }
      Update(Add, channel);
      channel.index := Added;
    }

    /** Called when the mask of `channel` has just changed from `before`. */
    method UpdateChannel(channel: Channel, ghost before: Mask)
      requires Wired() && channel in live && Agrees(CellOf(channel).(events := before))
      modifies this`channels, this`interest, this`failures, channel`index
      ensures Wired() && Agrees(CellOf(channel)) && failures == old(failures)
      ensures CellOf(channel) == Updated(old(CellOf(channel)))
      ensures forall c :: c in live && c != channel ==> CellOf(c) == old(CellOf(c))
    {
      hide Agrees;
      UpdatedAgrees(CellOf(channel), before);
      if channel.index == New || channel.index == Deleted {
        if channel.events == NONE_EVENT {
          return;
        }
        Enroll(channel);
      } else if channel.events == NONE_EVENT {
        Update(Del, channel);
        channel.index := Deleted;
      } else {
        Update(Mod, channel);
      }
    }

    method RemoveChannel(channel: Channel)
      requires Wired() && channel in live && Agrees(CellOf(channel))
      modifies this`channels, this`interest, this`failures, channel`index
      ensures Wired() && Agrees(CellOf(channel)) && failures == old(failures)
      ensures CellOf(channel) == Removed(old(CellOf(channel)))
      ensures forall c :: c in live && c != channel ==> CellOf(c) == old(CellOf(c))
    {
      if channel.index == New {
        return;
      }
      channels := channels - {channel.fd};
      if channel.index == Added {
        Update(Del, channel);
      }
      channel.index := New;
    }

    /** The enable and disable functions of a channel and its removal; the other channels do not notice. */
    method Change(channel: Channel, call: Call)
      requires Valid() && channel in live
      modifies this`channels, this`interest, this`failures, channel`events, channel`index
      ensures Valid() && CellOf(channel) == Apply(old(CellOf(channel)), call)
      ensures forall c :: c in live && c != channel ==> CellOf(c) == old(CellOf(c))
    {
      hide Agrees, NewEvents, Updated, Removed;
      if call == Unregister {
        RemoveChannel(channel);
      } else {
        ghost var before := channel.events;
        channel.events := NewEvents(channel.events, call);
        UpdateChannel(channel, before);
      }
    }

    method HasChannel(channel: Channel) returns (known: bool)
      requires Valid() && channel in live
      ensures known <==> channel.index != New
    {
      assert Agrees(CellOf(channel));
      known := channel.fd in channels && channels[channel.fd] == channel;
    }

    /** What epoll_wait may report: registered channels, each at most once. */
    ghost predicate Reported(events: seq<Event>)
      reads this
    {
      && (forall i :: 0 <= i < |events| ==>
            events[i].channel.fd in interest && interest[events[i].channel.fd].channel == events[i].channel)
      && (forall i, j :: 0 <= i < j < |events| ==> events[i].channel != events[j].channel)
    }

    /** The user data pointers are live channels that the poller knows, and each gets its own events. */
    method FillActiveChannels(events: seq<Event>) returns (active: seq<Channel>)
      requires Valid() && Reported(events)
      modifies live`revents
      ensures |active| == |events|
      ensures forall i :: 0 <= i < |active| ==>
                active[i] == events[i].channel && active[i] in live && active[i].index == Added
                && active[i].revents == events[i].mask
      ensures Valid()
    {
      hide Agrees;
      active := [];
      for i := 0 to |events|
        invariant Valid() && |active| == i
        invariant forall k :: 0 <= k < i ==> active[k] == events[k].channel && active[k].revents == events[k].mask
      {
        var channel := events[i].channel;
        assert channel in live;
        channel.revents := events[i].mask;
        active := active + [channel];
      }
      forall i | 0 <= i < |active| ensures active[i] in live && active[i].index == Added {
        assert active[i] in live && Agrees(CellOf(active[i]));
        WatchedIsAdded(CellOf(active[i]));
      }
    }
  }
}
