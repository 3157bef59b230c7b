/** The DMA example program: one block of 4096 samples with seed 1000 goes
    to the left input of the joining adder, one with seed -1000 to its right
    input, and the summed block that comes back must be 2 * i at sample i.
    The program reuses one buffer for both sends and for the result. */
module DmaExample {
  import opened Int32
  import opened TestVectors

  const SamplesPerBlock: uint32 := 4096
  const SizeOfInt: nat := 4
  const BytesPerBlock: nat := SamplesPerBlock * SizeOfInt
  const LeftSeed: int32 := 1000
  const RightSeed: int32 := -1000

  /** The seeds of the example are chosen so that left plus right is 2 * i. */
  lemma {:induction false} ExampleSeedsGiveDoubledIndices()
    ensures forall i :: 0 <= i < SamplesPerBlock ==>
      AddBlocks(Filled(LeftSeed, SamplesPerBlock), Filled(RightSeed, SamplesPerBlock))[i] == 2 * i
  {
    SumOfFilledBlocks(LeftSeed, RightSeed, SamplesPerBlock);
  }

  /** `from_adder.read(data, bytes_per_block)`: the device overwrites the
      buffer with the block it has computed. */
  method DeviceRead(data: array<int32>, block: seq<int32>)
    requires |block| == data.Length
    modifies data
    ensures data[..] == block
  {
    for i := 0 to data.Length
      invariant data[..i] == block[..i]
    {
      data[i] := block[i];
    }
  }

  /** The body of the program after the hardware is set up: fill and send the
      left block, refill the same buffer and send the right block, read the
      result back into it and compare. `received` is what the joining adder
      returns; `write` copies the buffer, so each send is a snapshot. */
  method RunDmaExample(data: array<int32>, received: seq<int32>)
    returns (sentLeft: seq<int32>, sentRight: seq<int32>, report: Report, code: int)
    requires data.Length == SamplesPerBlock
    requires |received| == SamplesPerBlock
    modifies data
    ensures sentLeft == Filled(LeftSeed, SamplesPerBlock)
    ensures sentRight == Filled(RightSeed, SamplesPerBlock)
    ensures data[..] == received
    ensures report.Processed? <==> HoldsDoubledIndices(received, SamplesPerBlock)
    ensures report.Processed? ==> report.bytes == BytesPerBlock
    ensures received == AddBlocks(sentLeft, sentRight) ==> report == Processed(BytesPerBlock)
    ensures code == ExitCode(report)
  {
    FillBuffer(data, LeftSeed, SamplesPerBlock);
    sentLeft := data[..];
    FillBuffer(data, RightSeed, SamplesPerBlock);
    sentRight := data[..];
    DeviceRead(data, received);
    report := CheckBlock(data, SamplesPerBlock, 0, BytesPerBlock);
    code := ExitCode(report);
    if received == AddBlocks(sentLeft, sentRight) {
      ExampleSeedsGiveDoubledIndices();
    }
  }
}
