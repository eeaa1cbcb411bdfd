/** The byte ring shared by the RX thread and the worker of a `CommunicationObj`. */
module CacheManager {
  import opened Bytes
  import opened FrameQueue
  import opened Wrappers

  const ALIGNMENT: nat := 64
  const HEADER: nat := 4
  const MAX_BLOCKS: nat := 0x8000_0000     // block indices are cast to `int32_t`
  const MAX_READ: nat := 0x7FFF_FFFF

  /** Header plus the largest frame, rounded up to a multiple of four. */
  function BlockSize(maxFrameSize: nat): (size: nat)
    ensures size % 4 == 0 && maxFrameSize + HEADER <= size < maxFrameSize + HEADER + 4
  {
    (maxFrameSize + HEADER + 3) / 4 * 4
  }

  function BlockCount(totalSize: nat, blockSize: nat): (count: nat)
    requires blockSize > 0
    ensures if totalSize < 2 * blockSize then count == 2
            else count >= 2 && count * blockSize <= totalSize < (count + 1) * blockSize
  {
    if totalSize / blockSize < 2 then 2 else totalSize / blockSize
  }

  /** The ring of an object that keeps both defaults, like the UDP service: 15 blocks of 4100 bytes. */
  lemma DefaultRing()
    ensures BlockSize(4096) == 4100 && BlockCount(64 * 1024, 4100) == 15
  {
  }

  function AlignUp(address: nat): (aligned: nat)
    ensures aligned % ALIGNMENT == 0 && address <= aligned < address + ALIGNMENT
  {
    (address + ALIGNMENT - 1) / ALIGNMENT * ALIGNMENT
  }

  /** The block `k` places after block `from`, in a ring of `blocks` blocks. */
  function Slot(from: nat, k: nat, blocks: nat): (i: nat)
    requires from < blocks && k <= blocks
    ensures i < blocks
  {
    if from + k < blocks then from + k else from + k - blocks
  }

  /** How many blocks lie from `tail` up to but not including `head`. */
  function Distance(tail: nat, head: nat, blocks: nat): (d: nat)
    requires tail < blocks && head < blocks
    ensures d < blocks && Slot(tail, d, blocks) == head
  {
    if tail <= head then head - tail else head + blocks - tail
  }

  /** The index arithmetic of `push` and `process`. */
  method Next(i: nat, blocks: nat) returns (next: nat)
    requires i < blocks
    ensures next == Slot(i, 1, blocks)
  {
    if i + 1 == blocks {
      assert (i + 1) % blocks == 0;
    }
    next := (i + 1) % blocks;
  }

  /** Block contents that start with the little-endian length of `frame` and then `frame` itself. */
  ghost predicate Holds(contents: seq<byte>, frame: seq<byte>) {
    && HEADER + |frame| <= |contents|
    && |frame| < 0x1_0000_0000
    && contents[..HEADER] == U32Bytes(|frame|)
    && contents[HEADER..HEADER + |frame|] == frame
  }

  /** Where block `i` starts, counted from the first block. */
  function Offset(i: nat, blockSize: nat): nat {
    if i == 0 then 0 else Offset(i - 1, blockSize) + blockSize
  }

  lemma {:induction false} OffsetIsProduct(i: nat, blockSize: nat)
    ensures Offset(i, blockSize) == i * blockSize
  {
    if i > 0 {
      OffsetIsProduct(i - 1, blockSize);
    }
  }

  lemma {:induction false} OffsetsApart(i: nat, j: nat, blockSize: nat)
    requires i < j
    ensures Offset(i, blockSize) + blockSize <= Offset(j, blockSize)
  {
    if i + 1 < j {
      OffsetsApart(i, j - 1, blockSize);
    }
  }

  /** `memory` after copying `data` to address `at`. */
  function Splice(memory: seq<byte>, at: nat, data: seq<byte>): (after: seq<byte>)
    requires at + |data| <= |memory|
    ensures |after| == |memory|
  {
    memory[..at] + data + memory[at + |data|..]
  }

  lemma SpliceSlices(memory: seq<byte>, at: nat, data: seq<byte>, i: nat, j: nat)
    requires at + |data| <= |memory| && i <= j <= |memory|
    ensures at <= i && j <= at + |data| ==> Splice(memory, at, data)[i..j] == data[i - at..j - at]
    ensures j <= at || at + |data| <= i ==> Splice(memory, at, data)[i..j] == memory[i..j]
  {
  }

  /** The two stores of `push`: the length, then the bytes. */
  function Store(memory: seq<byte>, at: nat, frame: seq<byte>): (after: seq<byte>)
    requires at + HEADER + |frame| <= |memory| && |frame| < 0x1_0000_0000
    ensures |after| == |memory|
  {
    Splice(Splice(memory, at, U32Bytes(|frame|)), at + HEADER, frame)
  }

  /** The blocks of `blockSize` bytes that follow one another from address `origin`. */
  function BlocksOf(memory: seq<byte>, origin: nat, blockSize: nat, count: nat): (blocks: seq<seq<byte>>)
    requires origin + Offset(count, blockSize) <= |memory|
    ensures |blocks| == count
  {
    if count == 0 then []
    else
      var start := origin + Offset(count - 1, blockSize);
      BlocksOf(memory, origin, blockSize, count - 1) + [memory[start..start + blockSize]]
  }

  lemma {:induction false} BlockAt(memory: seq<byte>, origin: nat, blockSize: nat, count: nat, i: nat)
    requires origin + Offset(count, blockSize) <= |memory| && i < count
    ensures origin + Offset(i, blockSize) + blockSize <= |memory|
    ensures BlocksOf(memory, origin, blockSize, count)[i] ==
            memory[origin + Offset(i, blockSize)..origin + Offset(i, blockSize) + blockSize]
  {
    if i < count - 1 {
      BlockAt(memory, origin, blockSize, count - 1, i);
    }
  }

  lemma StoreSlices(memory: seq<byte>, at: nat, frame: seq<byte>, i: nat, j: nat)
    requires at + HEADER + |frame| <= |memory| && |frame| < 0x1_0000_0000
    requires i <= j <= |memory|
    requires j <= at || at + HEADER + |frame| <= i
    ensures Store(memory, at, frame)[i..j] == memory[i..j]
  {
    var middle := Splice(memory, at, U32Bytes(|frame|));
    SpliceSlices(memory, at, U32Bytes(|frame|), i, j);
    SpliceSlices(middle, at + HEADER, frame, i, j);
  }

  lemma StoreHolds(memory: seq<byte>, at: nat, frame: seq<byte>, end: nat)
    requires at + HEADER + |frame| <= end <= |memory| && |frame| < 0x1_0000_0000
    ensures Holds(Store(memory, at, frame)[at..end], frame)
  {
    var middle := Splice(memory, at, U32Bytes(|frame|));
    var after := Store(memory, at, frame);
    SpliceSlices(memory, at, U32Bytes(|frame|), at, at + HEADER);
    SpliceSlices(middle, at + HEADER, frame, at, at + HEADER);
    SpliceSlices(middle, at + HEADER, frame, at + HEADER, at + HEADER + |frame|);
    var contents := after[at..end];
    assert contents[..HEADER] == after[at..at + HEADER];
    assert contents[HEADER..HEADER + |frame|] == after[at + HEADER..at + HEADER + |frame|];
  }

  /** Storing a frame at the start of block `i` makes that block hold it and leaves every other byte alone. */
  lemma StoreInBlock(memory: seq<byte>, origin: nat, blockSize: nat, count: nat, i: nat, frame: seq<byte>)
    requires origin + Offset(count, blockSize) <= |memory| && i < count
    requires HEADER + |frame| <= blockSize && |frame| < 0x1_0000_0000
    ensures var start := origin + Offset(i, blockSize);
            && start + blockSize <= |memory|
            && var after := Store(memory, start, frame);
            && Holds(after[start..start + blockSize], frame)
            && after[..start] == memory[..start] && after[start + blockSize..] == memory[start + blockSize..]
            && BlocksOf(after, origin, blockSize, count) ==
               BlocksOf(memory, origin, blockSize, count)[i := after[start..start + blockSize]]
  {
    hide Store, Holds, BlocksOf, Offset;
    BlockAt(memory, origin, blockSize, count, i);
    var start := origin + Offset(i, blockSize);
    var after := Store(memory, start, frame);
    StoreHolds(memory, start, frame, start + blockSize);
    StoreSlices(memory, start, frame, 0, start);
    StoreSlices(memory, start, frame, start + blockSize, |memory|);
    forall j: nat | j < count
      ensures BlocksOf(after, origin, blockSize, count)[j] ==
              if j == i then after[start..start + blockSize] else BlocksOf(memory, origin, blockSize, count)[j]
    {
      BlockAt(memory, origin, blockSize, count, j);
      BlockAt(after, origin, blockSize, count, j);
      if j < i {
        OffsetsApart(j, i, blockSize);
        StoreSlices(memory, start, frame, origin + Offset(j, blockSize), origin + Offset(j, blockSize) + blockSize);
      } else if i < j {
        OffsetsApart(i, j, blockSize);
        StoreSlices(memory, start, frame, origin + Offset(j, blockSize), origin + Offset(j, blockSize) + blockSize);
      }
    }
  }

  lemma HeldFrame(memory: seq<byte>, start: nat, blockSize: nat, frame: seq<byte>)
    requires start + blockSize <= |memory| && blockSize >= HEADER
    requires Holds(memory[start..start + blockSize], frame)
    ensures U32At(memory[start..start + HEADER], 0) == |frame|
    ensures memory[start + HEADER..start + HEADER + |frame|] == frame
  {
    var contents := memory[start..start + blockSize];
    var header := memory[start..start + HEADER];
    assert header[0..4] == contents[..HEADER];
    U32AtBytes(header, 0, |frame|);
    assert memory[start + HEADER..start + HEADER + |frame|] == contents[HEADER..HEADER + |frame|];
  }

  /** Blocks `tail`, `tail + 1`, ... up to `head`, modulo their number, hold the waiting frames in order;
      the block being processed lies just before `tail` and is not the one `push` writes next. */
  ghost predicate Represents(blocks: seq<seq<byte>>, head: nat, tail: nat, processing: int, queue: Queue<seq<byte>>) {
    && queue.Valid() && queue.blocks == |blocks|
    && head < |blocks| && tail < |blocks|
    && |queue.waiting| == Distance(tail, head, |blocks|)
    && (forall k: nat {:trigger queue.waiting[k]} :: k < |queue.waiting| ==>
          Holds(blocks[Slot(tail, k, |blocks|)], queue.waiting[k]))
    && -1 <= processing < |blocks|
    && (queue.inFlight.Some? <==> processing >= 0)
    && (processing >= 0 ==>
          && tail == Slot(processing, 1, |blocks|)
          && head != processing
          && Holds(blocks[processing], queue.inFlight.value))
  }

  /** The two index tests of `push` are the capacity test of the queue. */
  lemma IndexTests(blocks: seq<seq<byte>>, head: nat, tail: nat, processing: int, queue: Queue<seq<byte>>)
    requires Represents(blocks, head, tail, processing, queue)
    ensures head < |blocks| && tail < |blocks| && queue.Valid() && (processing >= 0 ==> head != processing)
    ensures (Slot(head, 1, |blocks|) == processing) <==> queue.PushOutcome() == Refused
    ensures (Slot(head, 1, |blocks|) == tail && Slot(head, 1, |blocks|) != processing) <==>
              queue.PushOutcome() == StoredByEviction
  {
  }

  lemma StoreKeeps(blocks: seq<seq<byte>>, head: nat, tail: nat, processing: int, queue: Queue<seq<byte>>,
                   contents: seq<byte>, frame: seq<byte>)
    requires Represents(blocks, head, tail, processing, queue)
    requires queue.PushOutcome() != Refused && Holds(contents, frame)
    ensures var tail' := if Slot(head, 1, |blocks|) == tail then Slot(tail, 1, |blocks|) else tail;
            Represents(blocks[head := contents], Slot(head, 1, |blocks|), tail', processing, queue.Push(frame))
  {
    IndexTests(blocks, head, tail, processing, queue);
    var n := |blocks|;
    var queue' := queue.Push(frame);
    var tail' := if Slot(head, 1, n) == tail then Slot(tail, 1, n) else tail;
    forall k: nat | k < |queue'.waiting|
      ensures Holds(blocks[head := contents][Slot(tail', k, n)], queue'.waiting[k])
    {
      if k == |queue'.waiting| - 1 {
        assert Slot(tail', k, n) == head;
      } else if tail' == tail {
        assert queue'.waiting[k] == queue.waiting[k];
      } else {
        assert queue'.waiting[k] == queue.waiting[k + 1];
        assert Slot(tail', k, n) == Slot(tail, k + 1, n);
      }
    }
  }

  /** The same, down to the bytes of the allocation. */
  lemma PushKeeps(memory: seq<byte>, origin: nat, blockSize: nat, count: nat,
                  head: nat, tail: nat, processing: int, queue: Queue<seq<byte>>, frame: seq<byte>)
    requires origin + Offset(count, blockSize) <= |memory|
    requires HEADER + |frame| <= blockSize && |frame| < 0x1_0000_0000
    requires Represents(BlocksOf(memory, origin, blockSize, count), head, tail, processing, queue)
    requires queue.PushOutcome() != Refused
    ensures var start := origin + Offset(head, blockSize);
            && start + blockSize <= |memory|
            && var after := BlocksOf(Store(memory, start, frame), origin, blockSize, count);
            && var tail' := if Slot(head, 1, count) == tail then Slot(tail, 1, count) else tail;
            && Represents(after, Slot(head, 1, count), tail', processing, queue.Push(frame))
            && (forall i | 0 <= i < count && i != head :: after[i] == BlocksOf(memory, origin, blockSize, count)[i])
  {
    StoreInBlock(memory, origin, blockSize, count, head, frame);
    var start := origin + Offset(head, blockSize);
    var contents := Store(memory, start, frame)[start..start + blockSize];
    StoreKeeps(BlocksOf(memory, origin, blockSize, count), head, tail, processing, queue, contents, frame);
  }

  lemma TakeKeeps(blocks: seq<seq<byte>>, head: nat, tail: nat, queue: Queue<seq<byte>>)
    requires Represents(blocks, head, tail, -1, queue) && head != tail
    ensures queue.waiting != []
    ensures Represents(blocks, head, Slot(tail, 1, |blocks|), tail, queue.Take())
  {
    var n := |blocks|;
    var queue' := queue.Take();
    assert Holds(blocks[Slot(tail, 0, n)], queue.waiting[0]);
    forall k: nat | k < |queue'.waiting|
      ensures Holds(blocks[Slot(Slot(tail, 1, n), k, n)], queue'.waiting[k])
    {
      assert queue'.waiting[k] == queue.waiting[k + 1];
      assert Slot(Slot(tail, 1, n), k, n) == Slot(tail, k + 1, n);
    }
  }

  class CacheManager {
    const memory: array<byte>        // the whole allocation
    const origin: nat                // where its 64-byte aligned part starts
    const maxFrameSize: nat
    const blockSize: nat
    const numBlocks: nat
    var head: nat
    var tail: nat
    var processingIndex: int         // -1 if none
    ghost var queue: Queue<seq<byte>>

    ghost predicate Shape() {
      && blockSize == BlockSize(maxFrameSize)
      && 2 <= numBlocks <= MAX_BLOCKS
      && origin + Offset(numBlocks, blockSize) <= memory.Length
    }

    ghost function Blocks(): (blocks: seq<seq<byte>>)
      requires Shape()
      reads memory
      ensures |blocks| == numBlocks
    {
      BlocksOf(memory[..], origin, blockSize, numBlocks)
    }

    ghost predicate Valid()
      reads this, memory
    {
      Shape() && Represents(Blocks(), head, tail, processingIndex, queue)
    }

    /** `rawAddress` is the address the allocator returned. */
    constructor (totalSize: nat, maxFrameSize: nat, rawAddress: nat)
      requires BlockCount(totalSize, BlockSize(maxFrameSize)) <= MAX_BLOCKS
      ensures Valid() && fresh(memory)
      ensures this.maxFrameSize == maxFrameSize
      ensures blockSize % 4 == 0 && maxFrameSize + 4 <= blockSize < maxFrameSize + 8
      ensures if totalSize < 2 * blockSize then numBlocks == 2
              else numBlocks >= 2 && numBlocks * blockSize <= totalSize < (numBlocks + 1) * blockSize
      ensures queue == Queue(numBlocks, [], None)
      ensures (rawAddress + origin) % ALIGNMENT == 0
    {
      var size := BlockSize(maxFrameSize);
      var count := BlockCount(totalSize, size);
      OffsetIsProduct(count, size);
      this.maxFrameSize := maxFrameSize;
      blockSize := size;
      numBlocks := count;
      memory := new byte[count * size + ALIGNMENT](_ => 0);
      origin := AlignUp(rawAddress) - rawAddress;
      head, tail, processingIndex := 0, 0, -1;
      queue := Queue(count, [], None);
    }

    method Copy(at: nat, data: seq<byte>)
      requires at + |data| <= memory.Length
      modifies memory
      ensures memory[..] == Splice(old(memory[..]), at, data)
    {
      forall a | at <= a < at + |data| {
        memory[a] := data[a - at];
      }
    }

    method WriteBlock(i: nat, data: seq<byte>)
      requires Shape() && i < numBlocks && |data| <= maxFrameSize && |data| <= MAX_READ
      modifies memory
      ensures origin + Offset(i, blockSize) + HEADER + |data| <= memory.Length
      ensures memory[..] == Store(old(memory[..]), origin + Offset(i, blockSize), data)
    {
      OffsetIsProduct(i, blockSize);
      OffsetsApart(i, numBlocks, blockSize);
      var start := origin + i * blockSize;
      Copy(start, U32Bytes(|data|));
      Copy(start + HEADER, data);
    }

    /** Called by the RX thread with what `read` returned: at most `maxFrameSize` bytes, counted by an `int32_t`. */
    method Push(data: seq<byte>) returns (stored: bool)
      requires Valid() && |data| <= maxFrameSize && |data| <= MAX_READ
      modifies this`head, this`tail, this`queue, memory
      ensures Valid()
      ensures queue == old(queue).Push(data)
      ensures stored <==> old(queue).PushOutcome() != Refused
      ensures processingIndex >= 0 ==> tail == old(tail) && !(stored && old(head) == processingIndex)
      ensures forall i | 0 <= i < numBlocks && !(stored && i == old(head)) :: Blocks()[i] == old(Blocks())[i]
    {
      hide Represents, Store, Splice, BlocksOf, Offset, Holds;
      IndexTests(Blocks(), head, tail, processingIndex, queue);
      var nextHead := Next(head, numBlocks);
      if nextHead == processingIndex {
        return false;
      }
      PushKeeps(memory[..], origin, blockSize, numBlocks, head, tail, processingIndex, queue, data);
      if nextHead == tail {
        tail := Next(tail, numBlocks);
      }
      WriteBlock(head, data);
      queue := queue.Push(data);
      head := nextHead;
      return true;
    }

    /** Called by the worker under the lock, once the wait for a non-empty ring is over. */
    method Take() returns (index: nat)
      requires Valid() && head != tail && processingIndex == -1
      modifies this`tail, this`processingIndex, this`queue
      ensures Valid()
      ensures old(queue).waiting != [] && queue == old(queue).Take()
      ensures index < numBlocks && processingIndex == index
    {
      TakeKeeps(Blocks(), head, tail, queue);
      index := tail;
      processingIndex := index;
      tail := Next(tail, numBlocks);
      queue := queue.Take();
    }

    /** What the callback is given, read outside the lock. */
    method Read(index: nat) returns (frame: seq<byte>)
      requires Valid() && processingIndex == index
      ensures queue.inFlight == Some(frame)
    {
      hide Offset, BlocksOf;
      OffsetIsProduct(index, blockSize);
      BlockAt(memory[..], origin, blockSize, numBlocks, index);
      var start := origin + index * blockSize;
      HeldFrame(memory[..], start, blockSize, queue.inFlight.value);
      var header := memory[start..start + HEADER];
      assert header == memory[..][start..start + HEADER];
      var length := U32At(header, 0);
      frame := memory[start + HEADER..start + HEADER + length];
      assert frame == memory[..][start + HEADER..start + HEADER + length];
    }

    method Release()
      requires Valid()
      modifies this`processingIndex, this`queue
      ensures Valid()
      ensures queue == old(queue).Release() && processingIndex == -1
    {
      processingIndex := -1;
      queue := queue.Release();
    }
  }
}
