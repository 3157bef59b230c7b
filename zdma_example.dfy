/** The zero-copy DMA example program: the driver owns the DMA blocks; the
    program dequeues a block, fills it in place, sets its `bytes_used` and
    enqueues it again. Two blocks of 4096 samples go to each input of the
    joining adder, block i with seed i * 1000 on the left and i * (-1000) on
    the right, and both result blocks must hold 2 * j at sample j. */
module ZdmaExample {
  import opened Int32
  import opened TestVectors

  const SamplesPerBlock: uint32 := 4096
  const SizeOfInt: nat := 4
  const BytesPerBlock: nat := SamplesPerBlock * SizeOfInt
  const NumBlocks: uint32 := 2
  const LeftStep: int := 1000
  const RightStep: int := -1000

  datatype Option<T> = None | Some(value: T)

  /** A block of a DMA channel: a buffer mapped into the program and the
      number of its bytes that are valid. */
  class Block {
    const data: array<int32>
    var bytesUsed: nat

    constructor (samples: nat)
      ensures fresh(data) && data.Length == samples && bytesUsed == 0
    {
      data := new int32[samples];
      bytesUsed := 0;
    }
  }

  /** What the driver was handed by one `enqueue`: the block's samples and its
      `bytes_used` at that moment. */
  datatype Submission = Submission(data: seq<int32>, bytesUsed: nat)

  /** A DMA channel in zero-copy mode, as far as the program uses it. */
  class DmaFifo {
    const blockSamples: nat
    var free: seq<Block>
    var submitted: seq<Submission>

    ghost predicate Valid()
      reads this
    {
      forall k :: 0 <= k < |free| ==> free[k].data.Length == blockSamples
    }

    /** `reconfigure(mode, blockBytes, count, ...)`: the driver allocates
        `count` blocks of `blockBytes` bytes each, all free for the program. */
    constructor Reconfigure(blockBytes: nat, count: nat)
      ensures Valid() && blockSamples == blockBytes / SizeOfInt
      ensures |free| == count && submitted == []
      ensures forall k :: 0 <= k < |free| ==> fresh(free[k]) && fresh(free[k].data)
    {
      blockSamples := blockBytes / SizeOfInt;
      var blocks: seq<Block> := [];
      for k := 0 to count
        invariant |blocks| == k
        invariant forall j :: 0 <= j < k ==> blocks[j].data.Length == blockBytes / SizeOfInt
        invariant forall j :: 0 <= j < k ==> fresh(blocks[j]) && fresh(blocks[j].data)
      {
        var b := new Block(blockBytes / SizeOfInt);
        blocks := blocks + [b];
      }
      free := blocks;
      submitted := [];
    }

    /** `dequeue()`: the next free block; `None` where the real call would
        wait for the device to hand a block back. */
    method Dequeue() returns (b: Option<Block>)
      requires Valid()
      modifies this
      ensures Valid() && submitted == old(submitted)
      ensures old(free) == [] ==> b == None && free == []
      ensures old(free) != [] ==> b == Some(old(free)[0]) && free == old(free)[1..]
      ensures b.Some? ==> b.value.data.Length == blockSamples
    {
      if free == [] {
        b := None;
      } else {
        b := Some(free[0]);
        free := free[1..];
      }
    }

    /** `enqueue(block)`: hand the block to the driver. */
    method Enqueue(b: Block)
      requires Valid()
      modifies this
      ensures Valid() && free == old(free)
      ensures submitted == old(submitted) + [Submission(b.data[..], b.bytesUsed)]
    {
      submitted := submitted + [Submission(b.data[..], b.bytesUsed)];
    }
  }

  /** The seed of block `i` for a per-block step, computed in unsigned 32-bit
      arithmetic (`i * 1000`, `i * (-1000)` with an unsigned `i`) and passed
      as an `int`. */
  function BlockSeed(i: nat, step: int): (seed: int32)
    ensures Congruent(seed, i * step)
    ensures -TwoTo31 <= i * step < TwoTo31 ==> seed == i * step
  {
    Wrap(i * step)
  }

  /** Whatever the block index, the left and right seeds cancel modulo 2^32,
      so the sum of the two filled blocks is 2 * j at every sample j. */
  lemma {:induction false} BlockSeedsGiveDoubledIndices(i: nat)
    ensures forall j :: 0 <= j < SamplesPerBlock ==>
      AddBlocks(Filled(BlockSeed(i, LeftStep), SamplesPerBlock),
                Filled(BlockSeed(i, RightStep), SamplesPerBlock))[j] == 2 * j
  {
    var l, r := BlockSeed(i, LeftStep), BlockSeed(i, RightStep);
    assert Congruent(l + r, 0) by {
      assert (l + r) - 0 == (l - i * LeftStep) + (r - i * RightStep) + 0;
      CongruentSum(l - i * LeftStep, r - i * RightStep, 0);
    }
    SumOfFilledBlocks(l, r, SamplesPerBlock);
  }

  /** Every submission was marked full when it was enqueued. */
  ghost predicate AllFull(subs: seq<Submission>) {
    forall k :: 0 <= k < |subs| ==> subs[k].bytesUsed == BytesPerBlock
  }

  /** A sender's `num_blocks` submissions, all full, block i filled with
      seed `i * step`. */
  ghost predicate SentFilled(subs: seq<Submission>, step: int) {
    && |subs| == NumBlocks && AllFull(subs)
    && forall i :: 0 <= i < NumBlocks ==> subs[i].data == Filled(BlockSeed(i, step), SamplesPerBlock)
  }

  /** Result block i is the lane-wise sum of the i-th left and right blocks
      sent, as the joining adder computes it. */
  ghost predicate DeviceSums(results: seq<Block>, left: seq<Submission>, right: seq<Submission>)
    reads set b | b in results :: b.data
  {
    && |results| <= |left| && |results| <= |right|
    && forall i :: 0 <= i < |results| ==>
      |left[i].data| == |right[i].data| && results[i].data[..] == AddBlocks(left[i].data, right[i].data)
  }

  /** The reader is primed: each of its blocks is dequeued, marked full
      (`bytes_used = bytes_per_block`) and enqueued, so the driver can fill it. */
  method PrimeReader(fromAdder: DmaFifo)
    requires fromAdder.Valid() && |fromAdder.free| >= NumBlocks
    modifies fromAdder, set k | 0 <= k < |fromAdder.free| :: fromAdder.free[k]
    ensures fromAdder.Valid()
    ensures fromAdder.free == old(fromAdder.free)[NumBlocks..]
    ensures |fromAdder.submitted| == |old(fromAdder.submitted)| + NumBlocks
    ensures fromAdder.submitted[..|old(fromAdder.submitted)|] == old(fromAdder.submitted)
    ensures forall k :: |old(fromAdder.submitted)| <= k < |fromAdder.submitted| ==>
      fromAdder.submitted[k].bytesUsed == BytesPerBlock
  {
    ghost var before := fromAdder.submitted;
    for i := 0 to NumBlocks
      invariant fromAdder.Valid()
      invariant fromAdder.free == old(fromAdder.free)[i..]
      invariant |fromAdder.submitted| == |before| + i
      invariant fromAdder.submitted[..|before|] == before
      invariant forall k :: |before| <= k < |fromAdder.submitted| ==>
        fromAdder.submitted[k].bytesUsed == BytesPerBlock
    {
      var b := fromAdder.Dequeue();
      var block := b.value;
      block.bytesUsed := BytesPerBlock;
      fromAdder.Enqueue(block);
    }
  }

  /** The send loop of one adder input: block i is dequeued, filled in place
      with seed `i * step`, marked full and enqueued. */
  method SendBlocks(to: DmaFifo, step: int)
    requires to.Valid() && to.blockSamples == SamplesPerBlock && |to.free| >= NumBlocks
    modifies to, set k | 0 <= k < |to.free| :: to.free[k],
      set k | 0 <= k < |to.free| :: to.free[k].data
    ensures to.Valid()
    ensures to.free == old(to.free)[NumBlocks..]
    ensures |to.submitted| == |old(to.submitted)| + NumBlocks
    ensures to.submitted[..|old(to.submitted)|] == old(to.submitted)
    ensures forall k :: |old(to.submitted)| <= k < |to.submitted| ==> to.submitted[k].bytesUsed == BytesPerBlock
    ensures forall i :: 0 <= i < NumBlocks ==>
      to.submitted[|old(to.submitted)| + i] ==
        Submission(Filled(BlockSeed(i, step), SamplesPerBlock), BytesPerBlock)
  {
    ghost var before := to.submitted;
    for i := 0 to NumBlocks
      invariant to.Valid()
      invariant to.free == old(to.free)[i..]
      invariant |to.submitted| == |before| + i
      invariant to.submitted[..|before|] == before
      invariant forall k :: |before| <= k < |to.submitted| ==> to.submitted[k].bytesUsed == BytesPerBlock
      invariant forall k :: 0 <= k < i ==>
        to.submitted[|before| + k] == Submission(Filled(BlockSeed(k, step), SamplesPerBlock), BytesPerBlock)
    {
      var b := to.Dequeue();
      var block := b.value;
      FillBuffer(block.data, BlockSeed(i, step), SamplesPerBlock);
      assert block.data[..] == block.data[..SamplesPerBlock];
      block.bytesUsed := BytesPerBlock;
      to.Enqueue(block);
    }
  }

  /** The final loop: every sample of every result block is compared with
      2 * j; the first mismatch ends the program with 2, otherwise it reports
      `bytes_per_block * num_blocks` bytes. */
  method VerifyBlocks(blocks: seq<Block>) returns (r: Report)
    requires |blocks| == NumBlocks
    requires forall b :: 0 <= b < |blocks| ==> blocks[b].data.Length == SamplesPerBlock
    ensures r.Processed? <==>
      forall b :: 0 <= b < |blocks| ==> HoldsDoubledIndices(blocks[b].data[..], SamplesPerBlock)
    ensures r.Processed? ==> r.bytes == BytesPerBlock * NumBlocks
    ensures r.Mismatch? ==>
      && r.block < |blocks| && r.index < SamplesPerBlock
      && r.expected == 2 * r.index && r.actual == blocks[r.block].data[r.index] && r.actual != r.expected
      && HoldsDoubledIndices(blocks[r.block].data[..], r.index)
      && forall b :: 0 <= b < r.block ==> HoldsDoubledIndices(blocks[b].data[..], SamplesPerBlock)
  {
    for b := 0 to NumBlocks
      invariant forall c :: 0 <= c < b ==> HoldsDoubledIndices(blocks[c].data[..], SamplesPerBlock)
    {
      var blockReport := CheckBlock(blocks[b].data, SamplesPerBlock, b, 0);
      if blockReport.Mismatch? {
        return blockReport;
      }
    }
    return Processed(BytesPerBlock * NumBlocks);
  }

  /** The program after the hardware is programmed and routed: three channels
      of `num_blocks` blocks each, the reader primed, both senders filled and
      enqueued, and the blocks the reader then hands back checked. `results`
      are those blocks, filled by the device. */
  method RunZdmaExample(results: seq<Block>)
    returns (toLeft: DmaFifo, toRight: DmaFifo, fromAdder: DmaFifo, r: Report, code: int)
    requires |results| == NumBlocks
    requires forall b :: 0 <= b < |results| ==> results[b].data.Length == SamplesPerBlock
    ensures AllFull(fromAdder.submitted) && |fromAdder.submitted| == NumBlocks
    ensures SentFilled(toLeft.submitted, LeftStep) && SentFilled(toRight.submitted, RightStep)
    ensures r.Processed? <==>
      forall b :: 0 <= b < NumBlocks ==> HoldsDoubledIndices(results[b].data[..], SamplesPerBlock)
    ensures r.Processed? ==> r.bytes == BytesPerBlock * NumBlocks
    ensures r.Mismatch? ==>
      && r.block < NumBlocks && r.index < SamplesPerBlock
      && r.expected == 2 * r.index && r.actual == results[r.block].data[r.index] && r.actual != r.expected
      && HoldsDoubledIndices(results[r.block].data[..], r.index)
      && forall b :: 0 <= b < r.block ==> HoldsDoubledIndices(results[b].data[..], SamplesPerBlock)
    ensures DeviceSums(results, toLeft.submitted, toRight.submitted) ==> r == Processed(BytesPerBlock * NumBlocks)
    ensures code == ExitCode(r)
  {
    toLeft := new DmaFifo.Reconfigure(BytesPerBlock, NumBlocks);
    toRight := new DmaFifo.Reconfigure(BytesPerBlock, NumBlocks);
    fromAdder := new DmaFifo.Reconfigure(BytesPerBlock, NumBlocks);
    PrimeReader(fromAdder);
    ghost var primed := fromAdder.submitted;
    assert AllFull(primed) && |primed| == NumBlocks;
    SendBlocks(toLeft, LeftStep);
    ghost var left := toLeft.submitted;
    assert SentFilled(left, LeftStep);
    SendBlocks(toRight, RightStep);
    assert SentFilled(toRight.submitted, RightStep);
    assert fromAdder.submitted == primed && toLeft.submitted == left;
    r := VerifyBlocks(results);
    code := ExitCode(r);
    if DeviceSums(results, toLeft.submitted, toRight.submitted) {
      DeviceSumsPass(results, toLeft.submitted, toRight.submitted);
    }
  }

  /** When the device adds the blocks the two senders filled, every result
      block holds 2 * j at sample j, so the final check passes. */
  lemma DeviceSumsPass(results: seq<Block>, left: seq<Submission>, right: seq<Submission>)
    requires |results| == NumBlocks
    requires forall b :: 0 <= b < |results| ==> results[b].data.Length == SamplesPerBlock
    requires SentFilled(left, LeftStep) && SentFilled(right, RightStep)
    requires DeviceSums(results, left, right)
    ensures forall i :: 0 <= i < |results| ==> HoldsDoubledIndices(results[i].data[..], SamplesPerBlock)
  {
    forall i | 0 <= i < NumBlocks
      ensures HoldsDoubledIndices(results[i].data[..], SamplesPerBlock)
    {
      BlockSeedsGiveDoubledIndices(i);
      assert results[i].data[..] == AddBlocks(
        Filled(BlockSeed(i, LeftStep), SamplesPerBlock), Filled(BlockSeed(i, RightStep), SamplesPerBlock));
    }
  }
}
