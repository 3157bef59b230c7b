/** The test vectors of the two DMA example programs: `fillBuffer` writes an
    arithmetic sequence into a buffer, the joining adder in the FPGA adds a
    left and a right stream, and the program checks that sample `i` of the
    sum is `2 * i`. Both programs carry their own identical copy of
    `fillBuffer`; it is modelled once here. */
module TestVectors {
  import opened Int32

  /** `buffer[i]` after `fillBuffer(buffer, seed, count)`: `seed + i` computed
      with the unsigned loop index, so modulo 2^32. */
  function FillValue(seed: int32, i: nat): (v: int32)
    ensures Congruent(v, seed + i)
    ensures seed + i < TwoTo31 ==> v == seed + i
  {
    Wrap(seed + i)
  }

  /** The values `fillBuffer` writes: seed, seed + 1, ..., seed + count - 1. */
  function Filled(seed: int32, count: nat): (r: seq<int32>)
    ensures |r| == count
    ensures forall i :: 0 <= i < count ==> r[i] == FillValue(seed, i)
  {
    seq(count, (i: nat) => FillValue(seed, i))
  }

  /** `fillBuffer(buffer, seed, count)`. */
  method FillBuffer(buffer: array<int32>, seed: int32, count: uint32)
    requires count <= buffer.Length
    modifies buffer
    ensures buffer[..count] == Filled(seed, count)
    ensures buffer[count..] == old(buffer[count..])
  {
    for i := 0 to count
      invariant forall k :: 0 <= k < i ==> buffer[k] == FillValue(seed, k)
      invariant buffer[count..] == old(buffer[count..])
    {
      buffer[i] := FillValue(seed, i);
    }
  }

  /** What the hardware joining adder produces from a left and a right block:
      the lane-wise 32-bit sum. */
  function AddBlocks(left: seq<int32>, right: seq<int32>): (r: seq<int32>)
    requires |left| == |right|
    ensures |r| == |left|
    ensures forall i :: 0 <= i < |r| ==> r[i] == Add(left[i], right[i])
  {
    seq(|left|, i requires 0 <= i < |left| => Add(left[i], right[i]))
  }

  /** When the two seeds cancel modulo 2^32, sample `i` of the sum of the two
      filled buffers is `2 * i` computed in 32 bits, whatever the seeds. */
  lemma {:induction false} SeedsCancel(seedLeft: int32, seedRight: int32, i: nat)
    requires Congruent(seedLeft + seedRight, 0)
    ensures Add(FillValue(seedLeft, i), FillValue(seedRight, i)) == Wrap(2 * i)
  {
    WrapSum(seedLeft + i, seedRight + i);
    assert Congruent(seedLeft + i + seedRight + i, 2 * i) by {
      assert (seedLeft + i + seedRight + i) - 2 * i == (seedLeft + seedRight) - 0;
    }
    WrapCongruent(seedLeft + i + seedRight + i, 2 * i);
  }

  /** The expected sum of two filled blocks of `count` samples whose seeds
      cancel: `2 * i` at every index, as long as `2 * i` fits in an `int`. */
  lemma {:induction false} SumOfFilledBlocks(seedLeft: int32, seedRight: int32, count: nat)
    requires Congruent(seedLeft + seedRight, 0)
    requires 2 * count <= TwoTo31
    ensures forall i :: 0 <= i < count ==>
      AddBlocks(Filled(seedLeft, count), Filled(seedRight, count))[i] == 2 * i
  {
    forall i | 0 <= i < count
      ensures AddBlocks(Filled(seedLeft, count), Filled(seedRight, count))[i] == 2 * i
    {
      SeedsCancel(seedLeft, seedRight, i);
    }
  }

  /** What a verification loop reports: the first sample that differs from
      `2 * i` (the program prints it and exits with 2), or the number of bytes
      processed (the program prints "OK" and exits with 0). */
  datatype Report =
    | Mismatch(block: nat, index: nat, expected: int, actual: int)
    | Processed(bytes: nat)

  /** The exit status of the example program for a report. */
  function ExitCode(r: Report): (code: int)
    ensures code == 0 <==> r.Processed?
    ensures code == 2 <==> r.Mismatch?
  {
    match r
    case Mismatch(_, _, _, _) => 2
    case Processed(_) => 0
  }

  /** A block holds the expected stream: `2 * i` at every sample `i`. */
  ghost predicate HoldsDoubledIndices(data: seq<int32>, count: nat)
    requires count <= |data|
  {
    forall i :: 0 <= i < count ==> data[i] == 2 * i
  }

  /** The comparison loop over one block: stop at the first sample `i` with
      `data[i] != 2 * (int)i`. Block `block` and the byte count reported on
      success are the caller's. */
  method CheckBlock(data: array<int32>, count: nat, block: nat, bytes: nat) returns (r: Report)
    requires count <= data.Length
    ensures r.Processed? <==> HoldsDoubledIndices(data[..], count)
    ensures r.Processed? ==> r.bytes == bytes
    ensures r.Mismatch? ==>
      && r.block == block && r.index < count
      && r.expected == 2 * r.index && r.actual == data[r.index] && r.actual != r.expected
      && HoldsDoubledIndices(data[..], r.index)
  {
    for i := 0 to count
      invariant HoldsDoubledIndices(data[..], i)
    {
      if data[i] != 2 * i {
        return Mismatch(block, i, 2 * i, data[i]);
      }
    }
    return Processed(bytes);
  }
}
