/**
 The byte buffer: a growable array with a read index and a write index, refined against a plain queue of bytes.
 `Layout` is the shape of the storage alone; its runs give the bound on how far the storage grows.
 */
module Buffers {
  import opened Extremes

  type byte = bv8

  const CHEAP_PREPEND: nat := 8
  const EXTRA: nat := 65536

  // ----- shape -----

  datatype Layout = Layout(size: nat, read: nat, write: nat) {
    /** Indexes are in order, and an empty buffer is always rewound to the prepend area. */
    predicate Valid() {
      && CHEAP_PREPEND <= read <= write <= size
      && (read == write ==> read == CHEAP_PREPEND)
    }

    function Readable(): nat
      requires Valid()
    {
      write - read
    }

    function Writeable(): nat
      requires Valid()
    {
      size - write
    }

    /** What one readv can return: the extra segment is left out when the writeable area is larger than it. */
    function ReadCapacity(): (n: nat)
      requires Valid()
      ensures EXTRA <= n && Writeable() <= n <= Writeable() + EXTRA
    {
      if Writeable() > EXTRA then Writeable() else Writeable() + EXTRA
    }

    function Retrieve(len: nat): (next: Layout)
      requires Valid()
      ensures next.Valid() && next.size == size && next.Readable() == Readable() - Min(len, Readable())
    {
      if len < Readable() then this.(read := read + len) else this.(read := CHEAP_PREPEND, write := CHEAP_PREPEND)
    }

    function MakeSpace(len: nat): Layout
      requires Valid()
    {
      if read + Writeable() < len + CHEAP_PREPEND then this.(size := write + len)
      else this.(read := CHEAP_PREPEND, write := CHEAP_PREPEND + Readable())
    }

    function EnsureWriteable(len: nat): Layout
      requires Valid()
    {
      if Writeable() < len then MakeSpace(len) else this
    }

    /** Growth leaves at most as much dead space in front as there are bytes behind it. */
    function Append(len: nat): (next: Layout)
      requires Valid()
      ensures next.Valid() && next.Readable() == Readable() + len
      ensures next.size <= Max(size, Max(next.Readable() + 8, 2 * next.Readable() + 6))
    {
      var roomy := EnsureWriteable(len);
      roomy.(write := roomy.write + len)
    }

    function ReadFd(n: nat): (next: Layout)
      requires Valid()
      ensures next.Valid() && next.Readable() == Readable() + n
      ensures next.size <= Max(size, Max(next.Readable() + 8, 2 * next.Readable() + 6))
    {
      if n <= Writeable() then this.(write := write + n)
      else this.(write := size).Append(n - Writeable())
    }
  }

  // ----- the queue -----

  datatype Op = AppendOp(data: seq<byte>) | RetrieveOp(len: nat) | ReadOp(data: seq<byte>)

  function QueueStep(queue: seq<byte>, op: Op): seq<byte> {
    match op
    case AppendOp(data) => queue + data
    case RetrieveOp(len) => queue[Min(len, |queue|)..]
    case ReadOp(data) => queue + data
  }

  function LayoutStep(layout: Layout, op: Op): (next: Layout)
    requires layout.Valid()
    ensures next.Valid()
  {
    match op
    case AppendOp(data) => layout.Append(|data|)
    case RetrieveOp(len) => layout.Retrieve(len)
    case ReadOp(data) => layout.ReadFd(|data|)
  }

  function QueueRun(ops: seq<Op>): seq<byte> {
    if ops == [] then [] else QueueStep(QueueRun(ops[..|ops| - 1]), ops[|ops| - 1])
  }

  function LayoutRun(initialSize: nat, ops: seq<Op>): (layout: Layout)
    ensures layout.Valid()
  {
    if ops == [] then Layout(CHEAP_PREPEND + initialSize, CHEAP_PREPEND, CHEAP_PREPEND)
    else LayoutStep(LayoutRun(initialSize, ops[..|ops| - 1]), ops[|ops| - 1])
  }

  /** The most bytes ever waiting in the queue. */
  function Peak(ops: seq<Op>): nat {
    if ops == [] then 0 else Max(Peak(ops[..|ops| - 1]), |QueueRun(ops)|)
  }

  /** The storage a peak of `peak` bytes can have made necessary. */
  function Bound(initialSize: nat, peak: nat): nat {
    Max(CHEAP_PREPEND + initialSize, Max(peak + 8, 2 * peak + 6))
  }

  lemma StepWithinBound(layout: Layout, op: Op, queue: seq<byte>, initialSize: nat, peak: nat)
    requires layout.Valid() && layout.Readable() == |queue| && layout.size <= Bound(initialSize, peak)
    ensures var next := LayoutStep(layout, op);
            && next.Readable() == |QueueStep(queue, op)|
            && next.size <= Bound(initialSize, Max(peak, |QueueStep(queue, op)|))
  {
  }

  /**
   Over every run the shape follows the queue, and although the storage grows without compacting first, it stays
   within twice the peak number of waiting bytes.
   */
  lemma {:induction false} SpaceBound(initialSize: nat, ops: seq<Op>)
    ensures var layout := LayoutRun(initialSize, ops);
            && layout.Readable() == |QueueRun(ops)|
            && layout.size <= Bound(initialSize, Peak(ops))
  {
    if ops != [] {
      var front := ops[..|ops| - 1];
      SpaceBound(initialSize, front);
      StepWithinBound(LayoutRun(initialSize, front), ops[|ops| - 1], QueueRun(front), initialSize, Peak(front));
    }
  }

  /** The bound is reached: filling the buffer, leaving one byte and filling again doubles it. */
  lemma SpaceBoundIsTight(n: nat, data: seq<byte>)
    requires n > 0 && |data| == n
    ensures var ops := [AppendOp(data), RetrieveOp(n - 1), AppendOp(data)];
            LayoutRun(n, ops).size == Bound(n, Peak(ops)) == 2 * Peak(ops) + 6
  {
    var op1, op2 := AppendOp(data), RetrieveOp(n - 1);
    var ops := [op1, op2, op1];
    assert ops[..2] == [op1, op2] && [op1, op2][..1] == [op1] && [op1][..0] == [];
    assert QueueRun([op1]) == data && |QueueRun([op1, op2])| == 1 && |QueueRun(ops)| == n + 1;
    assert Peak([op1]) == n && Peak([op1, op2]) == n && Peak(ops) == n + 1;
    assert LayoutRun(n, [op1]) == Layout(8 + n, 8, 8 + n);
    assert LayoutRun(n, [op1, op2]) == Layout(8 + n, 8 + n - 1, 8 + n);
  }

  // ----- the buffer -----

  /** A readv result: an error, or bytes no more than the two segments hold. */
  datatype ReadResult = Failed(error: int) | Got(data: seq<byte>)

  class Buffer {
    var storage: array<byte>
    var readIndex: nat
    var writeIndex: nat

    ghost function Shape(): Layout
      reads this
    {
      Layout(storage.Length, readIndex, writeIndex)
    }

    ghost predicate Valid()
      reads this
    {
      Shape().Valid()
    }

    ghost function Contents(): seq<byte>
      requires Valid()
      reads this, storage
    {
      storage[readIndex..writeIndex]
    }

    function ReadableBytes(): (n: nat)
      requires Valid()
      reads this, storage
      ensures n == |Contents()|
    {
      writeIndex - readIndex
    }

    constructor (initialSize: nat)
      ensures Valid() && fresh(storage) && Contents() == [] && Shape() == LayoutRun(initialSize, [])
      ensures readIndex == writeIndex == CHEAP_PREPEND && storage.Length == CHEAP_PREPEND + initialSize
    {
      storage := new byte[CHEAP_PREPEND + initialSize];
      readIndex, writeIndex := CHEAP_PREPEND, CHEAP_PREPEND;
    }

    method Retrieve(len: nat)
      requires Valid()
      modifies this`readIndex, this`writeIndex
      ensures Valid() && Contents() == old(Contents())[Min(len, |old(Contents())|)..]
      ensures Shape() == old(Shape()).Retrieve(len)
    {
      if len < ReadableBytes() {
        readIndex := readIndex + len;
      } else {
        RetrieveAll();
      }
    }

    method RetrieveAll()
      requires Valid()
      modifies this`readIndex, this`writeIndex
      ensures Valid() && Contents() == []
      ensures readIndex == writeIndex == CHEAP_PREPEND
    {
      readIndex, writeIndex := CHEAP_PREPEND, CHEAP_PREPEND;
    }

    method RetrieveAsString(len: nat) returns (data: seq<byte>)
      requires Valid() && len <= |Contents()|
      modifies this`readIndex, this`writeIndex
      ensures Valid() && old(Contents()) == data + Contents() && |data| == len
      ensures Shape() == old(Shape()).Retrieve(len)
    {
      ghost var before := Contents();
      data := storage[readIndex..readIndex + len];
      assert data == before[..len];
      hide Contents, ReadableBytes;
      Retrieve(len);
      assert before == before[..len] + before[len..];
    }

    method RetrieveAllAsString() returns (data: seq<byte>)
      requires Valid()
      modifies this`readIndex, this`writeIndex
      ensures Valid() && data == old(Contents()) && Contents() == []
      ensures readIndex == writeIndex == CHEAP_PREPEND
    {
      data := RetrieveAsString(ReadableBytes());
    }

    /** Ascending copy inside one array; safe on overlap because the source lies strictly after the destination. */
    method CopyDown(from: nat, to: nat, dest: nat)
      requires dest < from <= to <= storage.Length
      modifies storage
      ensures storage[dest..dest + (to - from)] == old(storage[from..to])
    {
      var i := 0;
      while i < to - from
        invariant i <= to - from
        invariant storage[dest..dest + i] == old(storage[from..from + i])
        invariant storage[from + i..to] == old(storage[from + i..to])
      {
        assert storage[from + i] == storage[from + i..to][0];
        storage[dest + i] := storage[from + i];
        i := i + 1;
      }
    }

    method Resize(size: nat)
      requires storage.Length < size
      modifies this`storage
      ensures fresh(storage) && storage.Length == size
      ensures forall k :: 0 <= k < old(storage.Length) ==> storage[k] == old(storage[k])
    {
      var bigger := new byte[size];
      for i := 0 to storage.Length
        invariant storage == old(storage) && bigger != storage
        invariant forall k :: 0 <= k < i ==> bigger[k] == old(storage[k])
      {
        bigger[i] := storage[i];
      }
      storage := bigger;
    }

    method MakeSpace(len: nat)
      requires Valid() && storage.Length - writeIndex < len
      modifies this, storage
      ensures Valid() && Contents() == old(Contents()) && (storage == old(storage) || fresh(storage))
      ensures Shape() == old(Shape()).MakeSpace(len) && len <= storage.Length - writeIndex
    {
      if readIndex + (storage.Length - writeIndex) < len + CHEAP_PREPEND {
        Resize(writeIndex + len);
        assert Contents() == old(Contents());
      } else {
        var readable := ReadableBytes();
        CopyDown(readIndex, writeIndex, CHEAP_PREPEND);
        readIndex := CHEAP_PREPEND;
        writeIndex := readIndex + readable;
      }
    }

    method EnsureWriteableBytes(len: nat)
      requires Valid()
      modifies this, storage
      ensures Valid() && Contents() == old(Contents()) && (storage == old(storage) || fresh(storage))
      ensures Shape() == old(Shape()).EnsureWriteable(len) && len <= storage.Length - writeIndex
    {
      if storage.Length - writeIndex < len {
        MakeSpace(len);
      }
    }

    /** Bytes stored from the write index on, by us or by the kernel. */
    method Store(data: seq<byte>)
      requires Valid() && |data| <= storage.Length - writeIndex
      modifies storage, this`writeIndex
      ensures Valid() && Contents() == old(Contents()) + data
      ensures writeIndex == old(writeIndex) + |data|
    {
      for i := 0 to |data|
        invariant writeIndex == old(writeIndex)
        invariant storage[readIndex..writeIndex] == old(Contents())
        invariant storage[writeIndex..writeIndex + i] == data[..i]
      {
        storage[writeIndex + i] := data[i];
      }
      assert storage[readIndex..writeIndex + |data|]
          == storage[readIndex..writeIndex] + storage[writeIndex..writeIndex + |data|];
      writeIndex := writeIndex + |data|;
    }

    method Append(data: seq<byte>)
      requires Valid()
      modifies this, storage
      ensures Valid() && Contents() == old(Contents()) + data && (storage == old(storage) || fresh(storage))
      ensures Shape() == old(Shape()).Append(|data|)
    {
      EnsureWriteableBytes(|data|);
      Store(data);
    }

    /**
     One scatter read, into the writeable area and, unless that is already larger, a 64 KiB extra segment.  On
     success exactly the bytes read are appended, in order, however they fell on the two segments.
     */
    method ReadFd(result: ReadResult) returns (n: int)
      requires Valid()
      requires result.Got? ==> |result.data| <= Shape().ReadCapacity()
      modifies this, storage
      ensures Valid() && (storage == old(storage) || fresh(storage))
      ensures result.Failed? ==> n == -1 && Contents() == old(Contents()) && Shape() == old(Shape())
      ensures result.Got? ==> n == |result.data| && Contents() == old(Contents()) + result.data
      ensures result.Got? ==> Shape() == old(Shape()).ReadFd(|result.data|)
    {
      hide Contents, Layout.Append, Layout.Retrieve;
      var writeable := storage.Length - writeIndex;
      match result {
        case Failed(_) =>
          n := -1;
        case Got(data) =>
          n := |data|;
          if n <= writeable {
            Store(data);
          } else {
            Store(data[..writeable]);
            assert data == data[..writeable] + data[writeable..];
            Append(data[writeable..]);
          }
      }
    }
  }

  /** Any sequence of calls on a new buffer leaves in it what it leaves in the queue, within the space bound. */
  method Replay(initialSize: nat, ops: seq<Op>) returns (buffer: Buffer)
    requires forall k :: 0 <= k < |ops| && ops[k].ReadOp? ==>
               |ops[k].data| <= LayoutRun(initialSize, ops[..k]).ReadCapacity()
    ensures fresh(buffer) && fresh(buffer.storage) && buffer.Valid()
    ensures buffer.Contents() == QueueRun(ops)
    ensures buffer.storage.Length <= Bound(initialSize, Peak(ops))
  {
    buffer := new Buffer(initialSize);
    for k := 0 to |ops|
      invariant fresh(buffer) && fresh(buffer.storage) && buffer.Valid()
      invariant buffer.Contents() == QueueRun(ops[..k]) && buffer.Shape() == LayoutRun(initialSize, ops[..k])
    {
      assert ops[..k + 1][..k] == ops[..k];
      match ops[k] {
        case AppendOp(data) => buffer.Append(data);
        case RetrieveOp(len) => buffer.Retrieve(len);
        case ReadOp(data) => var _ := buffer.ReadFd(Got(data));
      }
    }
    assert ops[..|ops|] == ops;
    SpaceBound(initialSize, ops);
  }
}
