/** The software pipeline stages: `ThreadedProcessSink`, `TeeProcess` and
    `JoiningAddProcess`. Each stage holds nullable references to its queues,
    starts its worker thread from the setter that completes its endpoints,
    and runs a loop that moves one block of `blocksize` elements per
    iteration until a queue call raises `InterruptedException`, which ends
    the loop normally. The destructor interrupts every endpoint it holds and
    then joins the thread.

    The worker thread is modelled by a `Step` method: it runs the loop body
    from the call the thread is at (`pc`) until the iteration completes, a
    call would wait, or a call raises. A thread that waits resumes at the
    same call by the next `Step`. Each `Step` also returns the queue calls
    it made, in order. */
module SoftwareProcesses {
  import opened DyploQueue

  /** The endpoints of the stages, named after their fields. */
  datatype Port = Input | OutputLeft | OutputRight | InputLeft | InputRight | Output

  /** A call a stage makes on its queues, its callback or its thread. A
      begin call is recorded when it returns or raises, not while it waits. */
  datatype Call =
    | BeginRead(port: Port)
    | EndRead(port: Port, count: nat)
    | BeginWrite(port: Port)
    | EndWrite(port: Port, count: nat)
    | ProcessItem
    | InterruptRead(port: Port)
    | InterruptWrite(port: Port)
    | JoinThread

  /** How a `Step` of a worker ended. */
  datatype Outcome = BlockMoved | WaitingAt(port: Port) | InterruptedAt(port: Port)

  /** The worker thread: not started, running its loop, left its loop on an
      interruption, or joined by the destructor. */
  datatype Worker = Unbound | Running | Finished | Stopped

  /** How a step goes on from a begin call at `port` that returns `s`: it
      ends there when the call raises or would wait, and otherwise goes on
      to `next`. */
  function Continue(s: Status, port: Port, next: Outcome): Outcome {
    match s
    case Interrupted => InterruptedAt(port)
    case WouldBlock => WaitingAt(port)
    case Granted => next
  }

  /** The element-wise sum a join computes: `dst[i] = src_left[i] + src_right[i]`. */
  function ZipSum(left: seq<int>, right: seq<int>): (r: seq<int>)
    requires |left| == |right|
    ensures |r| == |left|
    ensures forall i :: 0 <= i < |r| ==> r[i] == left[i] + right[i]
  {
    seq(|left|, i requires 0 <= i < |left| => left[i] + right[i])
  }

  /** Summing two streams block by block is summing them as a whole. */
  lemma ZipSumAppend(a: seq<int>, b: seq<int>, c: seq<int>, d: seq<int>)
    requires |a| == |c| && |b| == |d|
    ensures ZipSum(a + b, c + d) == ZipSum(a, c) + ZipSum(b, d)
  {
    assert |ZipSum(a + b, c + d)| == |ZipSum(a, c) + ZipSum(b, d)|;
    forall i | 0 <= i < |a| + |b|
      ensures ZipSum(a + b, c + d)[i] == (ZipSum(a, c) + ZipSum(b, d))[i]
    {
      if i < |a| {
        assert (a + b)[i] == a[i] && (c + d)[i] == c[i];
      } else {
        assert (a + b)[i] == b[i - |a|] && (c + d)[i] == d[i - |c|];
      }
    }
  }

  /** Join pairing: when a join has written `ZipSum(left, right)`, its output
      block `k` is the sum of left block `k` and right block `k`. */
  lemma {:induction false} JoinPairsBlocks(left: seq<int>, right: seq<int>, sent: seq<int>, blocksize: nat, k: nat)
    requires |left| == |right| && sent == ZipSum(left, right)
    requires (k + 1) * blocksize <= |left|
    ensures k * blocksize <= (k + 1) * blocksize
    ensures sent[k * blocksize..(k + 1) * blocksize]
      == ZipSum(left[k * blocksize..(k + 1) * blocksize], right[k * blocksize..(k + 1) * blocksize])
  {
    var lo, hi := k * blocksize, (k + 1) * blocksize;
    assert hi == lo + blocksize;
    var l, r := left[lo..hi], right[lo..hi];
    forall i | 0 <= i < blocksize
      ensures sent[lo..hi][i] == ZipSum(l, r)[i]
    {
      assert sent[lo..hi][i] == sent[lo + i];
    }
  }

  /** Appending the next slice of an iteration trace extends the slice. */
  lemma SliceConcat(s: seq<Call>, a: nat, b: nat, c: nat)
    requires a <= b <= c <= |s|
    ensures s[a..b] + s[b..c] == s[a..c]
  {
  }

  // ---------------------------------------------------------------------
  // ThreadedProcessSink

  /** The calls of one sink iteration: `begin_read`, the callback, `end_read`. */
  function SinkIteration(n: nat): seq<Call> {
    [BeginRead(Input), ProcessItem, EndRead(Input, n)]
  }

  /** The part of a sink iteration a step makes before it ends with `outcome`. */
  function SinkCalls(outcome: Outcome, n: nat): seq<Call> {
    match outcome
    case BlockMoved => SinkIteration(n)
    case WaitingAt(_) => []
    case InterruptedAt(_) => SinkIteration(n)[..1]
  }

  /** A sink: each block read from `input` is handed to `processItem`, whose
      results are recorded, one per block, in `effects`. */
  class ThreadedProcessSink<T(0,!new), R> {
    const blocksize: nat
    /** The item function (`display_int` in the demo), applied to one block. */
    const processItem: seq<T> --> R
    var input: BlockQueue?<T>
    var worker: Worker
    /** What the item function produced, one entry per block processed. */
    var effects: seq<R>
    /** The blocks released from `input`, oldest first. */
    ghost var consumed: seq<seq<T>>

    ghost predicate Valid()
      reads this, input
    {
      && (forall b: seq<T> | |b| == blocksize :: processItem.requires(b))
      && (worker == Unbound ==> effects == [])
      && (worker == Running ==>
        && input != null && input.Valid() && input.reading == 0
        && |effects| == |consumed|
        && forall k :: 0 <= k < |consumed| ==>
          |consumed[k]| == blocksize && effects[k] == processItem(consumed[k]))
    }

    constructor (blocksize: nat, processItem: seq<T> --> R)
      requires forall b: seq<T> | |b| == blocksize :: processItem.requires(b)
      ensures Valid() && input == null && worker == Unbound
      ensures this.blocksize == blocksize && this.processItem == processItem
    {
      this.blocksize := blocksize;
      this.processItem := processItem;
      input := null;
      worker := Unbound;
      effects := [];
      consumed := [];
    }

    /** `set_input(value)`: a non-null queue starts the worker. */
    method SetInput(value: BlockQueue?<T>)
      requires Valid() && worker == Unbound
      requires value != null ==> value.Valid() && value.reading == 0
      modifies this
      ensures Valid() && input == value
      ensures worker == (if value != null then Running else Unbound)
      ensures worker == Running ==> consumed == [] && effects == []
    {
      input := value;
      if input != null {
        Start();
      }
    }

    /** `start()`: launch the worker thread. */
    method Start()
      requires Valid() && worker == Unbound
      requires input != null && input.Valid() && input.reading == 0
      modifies this
      ensures Valid() && worker == Running && input == old(input)
      ensures consumed == [] && effects == []
    {
      worker := Running;
      consumed := [];
    }

    /** One iteration of the loop in `process()`: `begin_read`, the item
        function on the block, `end_read(blocksize)`. An interruption ends
        the loop; the block is then neither processed nor released. */
    method Step() returns (outcome: Outcome, calls: seq<Call>)
      requires Valid() && worker == Running
      modifies this, input
      ensures Valid() && input == old(input)
      ensures outcome == if old(input.readInterrupted) then InterruptedAt(Input)
                         else if blocksize <= |old(input.contents)| then BlockMoved
                         else WaitingAt(Input)
      ensures worker == (if outcome.InterruptedAt? then Finished else Running)
      ensures input.readInterrupted == old(input.readInterrupted) && input.WriterUnchanged()
      ensures calls == SinkCalls(outcome, blocksize)
      ensures outcome.BlockMoved? ==>
        && consumed == old(consumed) + [old(input.contents)[..blocksize]]
        && effects == old(effects) + [processItem(old(input.contents)[..blocksize])]
        && input.contents == old(input.contents)[blocksize..]
      ensures !outcome.BlockMoved? ==>
        consumed == old(consumed) && effects == old(effects) && input.contents == old(input.contents)
    {
      var s := input.BeginRead(blocksize);
      if s == Interrupted {
        worker := Finished;
        return InterruptedAt(Input), [BeginRead(Input)];
      }
      if s == WouldBlock {
        return WaitingAt(Input), [];
      }
      var block := input.contents[..blocksize];
      effects := effects + [processItem(block)];
      consumed := consumed + [block];
      input.EndRead(blocksize);
      outcome, calls := BlockMoved, SinkIteration(blocksize);
    }

    /** `~ThreadedProcessSink()`: interrupt the input if there is one, then
        join the worker, which leaves its loop at its pending `begin_read`
        without processing another block. */
    method Destroy() returns (calls: seq<Call>)
      requires Valid() && worker != Stopped
      modifies this, input
      ensures worker == Stopped && input == old(input)
      ensures input != null ==> input.readInterrupted
      ensures calls == (if input != null then [InterruptRead(Input)] else []) + [JoinThread]
      ensures effects == old(effects)
      ensures input != null ==> input.contents == old(input.contents) && input.WriterUnchanged()
    {
      calls := [];
      if input != null {
        input.InterruptRead();
        calls := calls + [InterruptRead(Input)];
      }
      if worker == Running {
        var outcome, _ := Step();
        assert outcome == InterruptedAt(Input);
      }
      worker := Stopped;
      calls := calls + [JoinThread];
    }
  }

  // ---------------------------------------------------------------------
  // TeeProcess

  /** Where a tee worker is in its loop: at `begin_read` of the input, at
      `begin_write` of the left output, or at `begin_write` of the right one. */
  datatype TeePc = AtInput | AtLeft | AtRight

  /** The calls of one tee iteration, in the order the loop makes them. */
  function TeeIteration(n: nat): seq<Call> {
    [ BeginRead(Input),
      BeginWrite(OutputLeft), EndWrite(OutputLeft, n),
      BeginWrite(OutputRight), EndWrite(OutputRight, n),
      EndRead(Input, n) ]
  }

  /** The position in `TeeIteration` of the begin call at `port`. */
  function TeeBeginAt(port: Port): nat {
    if port == Input then 0 else if port == OutputLeft then 1 else 3
  }

  function TeeResumeAt(pc: TeePc): nat {
    match pc
    case AtInput => TeeBeginAt(Input)
    case AtLeft => TeeBeginAt(OutputLeft)
    case AtRight => TeeBeginAt(OutputRight)
  }

  /** Where in `TeeIteration` a step that ended with `outcome` stopped: after
      the whole iteration, before the call that waits, or right after the
      call that raised. */
  function TeeStopAt(outcome: Outcome): nat {
    match outcome
    case BlockMoved => 6
    case WaitingAt(p) => TeeBeginAt(p)
    case InterruptedAt(p) => TeeBeginAt(p) + 1
  }

  /** The outcome of a tee step from `pc` when its begin calls on the input,
      the left output and the right output would return `input`, `left` and
      `right`: the step makes the calls in loop order from `pc` on and ends
      at the first one that raises or would wait. */
  function TeeOutcome(pc: TeePc, input: Status, left: Status, right: Status): Outcome {
    var fromRight := Continue(right, OutputRight, BlockMoved);
    var fromLeft := Continue(left, OutputLeft, fromRight);
    match pc
    case AtInput => Continue(input, Input, fromLeft)
    case AtLeft => fromLeft
    case AtRight => fromRight
  }

  /** Where a tee worker is after a step that ended with `outcome`: back at
      the top of its loop, or still at the begin call that waited or raised. */
  function TeePcAfter(outcome: Outcome): TeePc {
    if outcome.BlockMoved? || outcome.port == Input then AtInput
    else if outcome.port == OutputLeft then AtLeft
    else AtRight
  }

  /** Whether a tee step from `pc` that ended with `outcome` committed its
      block to the left output: it began before the left output and got past
      it. */
  predicate TeeCommitsLeft(pc: TeePc, outcome: Outcome) {
    pc != AtRight && (outcome.BlockMoved? || outcome.port == OutputRight)
  }

  /** Whether a tee step from `pc` gets as far as the begin call at `port`:
      it starts at or before that call, and each begin call before it is
      granted. */
  predicate TeeReaches(pc: TeePc, input: Status, left: Status, port: Port) {
    && TeeResumeAt(pc) <= TeeBeginAt(port)
    && (pc == AtInput && port != Input ==> input == Granted)
    && (pc != AtRight && port == OutputRight ==> left == Granted)
  }

  /** What the begin call at `port` returns, of the three a tee makes. */
  function TeeStatusAt(port: Port, input: Status, left: Status, right: Status): Status {
    if port == Input then input else if port == OutputLeft then left else right
  }

  /** A tee step ends at a begin call exactly when it gets there and that
      call raises or would wait, and it moves a block exactly when it gets
      to the right output and that call is granted. Nothing else ends it. */
  lemma TeeOutcomeMeaning(pc: TeePc, input: Status, left: Status, right: Status, port: Port)
    requires port == Input || port == OutputLeft || port == OutputRight
    ensures TeeOutcome(pc, input, left, right) == InterruptedAt(port) <==>
      TeeReaches(pc, input, left, port) && TeeStatusAt(port, input, left, right) == Interrupted
    ensures TeeOutcome(pc, input, left, right) == WaitingAt(port) <==>
      TeeReaches(pc, input, left, port) && TeeStatusAt(port, input, left, right) == WouldBlock
    ensures TeeOutcome(pc, input, left, right).BlockMoved? <==>
      TeeReaches(pc, input, left, OutputRight) && right == Granted
    ensures !TeeOutcome(pc, input, left, right).BlockMoved? ==>
      TeeOutcome(pc, input, left, right).port in {Input, OutputLeft, OutputRight}
  {
  }

  /** The queues a tee can start with: three distinct queues, its input not
      being read and its outputs not being written. */
  ghost predicate TeeReady<T(0)>(input: BlockQueue<T>, left: BlockQueue<T>, right: BlockQueue<T>)
    reads input, left, right
  {
    && input != left && input != right && left != right
    && input.Valid() && left.Valid() && right.Valid()
    && input.reading == 0 && left.writing == 0 && right.writing == 0
  }

  /** A tee: each input block is copied to the left output, then to the right
      output, and only then released. */
  class TeeProcess<T(0)> {
    const blocksize: nat
    var input: BlockQueue?<T>
    var outputLeft: BlockQueue?<T>
    var outputRight: BlockQueue?<T>
    var worker: Worker
    var pc: TeePc
    /** The elements released from the input, oldest first. */
    ghost var consumed: seq<T>
    /** The elements committed to each output, oldest first. */
    ghost var sentLeft: seq<T>
    ghost var sentRight: seq<T>

    ghost predicate Bound()
      reads this
    {
      input != null && outputLeft != null && outputRight != null
    }

    /** While the worker runs, both outputs have received exactly the input
        stream consumed so far, except that the left output is one block
        ahead while the worker waits on the right output. */
    ghost predicate Valid()
      reads this, input, outputLeft, outputRight
    {
      worker == Running ==>
        && Bound()
        && input != outputLeft && input != outputRight && outputLeft != outputRight
        && input.Valid() && outputLeft.Valid() && outputRight.Valid()
        && outputLeft.writing == 0 && outputRight.writing == 0
        && input.reading == (if pc == AtInput then 0 else blocksize)
        && sentRight == consumed
        && sentLeft == consumed + (if pc == AtRight then input.contents[..blocksize] else [])
    }

    /** How a step from `at` ends in the current queue states. */
    function OutcomeFrom(at: TeePc): Outcome
      requires Bound()
      reads this, input, outputLeft, outputRight
    {
      TeeOutcome(at, input.ReadStatus(blocksize),
        outputLeft.WriteStatus(blocksize), outputRight.WriteStatus(blocksize))
    }

    constructor (blocksize: nat)
      ensures Valid() && worker == Unbound && this.blocksize == blocksize
      ensures input == null && outputLeft == null && outputRight == null
    {
      this.blocksize := blocksize;
      input, outputLeft, outputRight := null, null, null;
      worker := Unbound;
      pc := AtInput;
      consumed, sentLeft, sentRight := [], [], [];
    }

    /** `set_input(value)`, then `try_start()`. */
    method SetInput(value: BlockQueue?<T>)
      requires worker == Unbound
      requires value != null && outputLeft != null && outputRight != null ==>
        TeeReady(value, outputLeft, outputRight)
      modifies this
      ensures input == value && outputLeft == old(outputLeft) && outputRight == old(outputRight)
      ensures worker == (if Bound() then Running else Unbound)
      ensures Valid()
      ensures worker == Running ==> pc == AtInput && consumed == [] && sentLeft == [] && sentRight == []
    {
      input := value;
      TryStart();
    }

    /** `set_output_left(value)`, then `try_start()`. */
    method SetOutputLeft(value: BlockQueue?<T>)
      requires worker == Unbound
      requires input != null && value != null && outputRight != null ==>
        TeeReady(input, value, outputRight)
      modifies this
      ensures outputLeft == value && input == old(input) && outputRight == old(outputRight)
      ensures worker == (if Bound() then Running else Unbound)
      ensures Valid()
      ensures worker == Running ==> pc == AtInput && consumed == [] && sentLeft == [] && sentRight == []
    {
      outputLeft := value;
      TryStart();
    }

    /** `set_output_right(value)`, then `try_start()`. */
    method SetOutputRight(value: BlockQueue?<T>)
      requires worker == Unbound
      requires input != null && outputLeft != null && value != null ==>
        TeeReady(input, outputLeft, value)
      modifies this
      ensures outputRight == value && input == old(input) && outputLeft == old(outputLeft)
      ensures worker == (if Bound() then Running else Unbound)
      ensures Valid()
      ensures worker == Running ==> pc == AtInput && consumed == [] && sentLeft == [] && sentRight == []
    {
      outputRight := value;
      TryStart();
    }

    /** `try_start()`: start the worker once all three endpoints are set. */
    method TryStart()
      requires worker == Unbound
      requires Bound() ==> TeeReady(input, outputLeft, outputRight)
      modifies this
      ensures input == old(input) && outputLeft == old(outputLeft) && outputRight == old(outputRight)
      ensures worker == (if Bound() then Running else Unbound)
      ensures Valid()
      ensures worker == Running ==> pc == AtInput && consumed == [] && sentLeft == [] && sentRight == []
    {
      if input != null && outputLeft != null && outputRight != null {
        Start();
      }
    }

    /** `start()`: launch the worker thread at the top of its loop. */
    method Start()
      requires worker == Unbound && Bound() && TeeReady(input, outputLeft, outputRight)
      modifies this
      ensures input == old(input) && outputLeft == old(outputLeft) && outputRight == old(outputRight)
      ensures Valid() && worker == Running
      ensures pc == AtInput && consumed == [] && sentLeft == [] && sentRight == []
    {
      worker := Running;
      pc := AtInput;
      consumed, sentLeft, sentRight := [], [], [];
    }

    /** Copy the block the worker holds on the input into the window of `out`
        (`dst[i] = src[i]`) and commit it. */
    method CopyBlockTo(out: BlockQueue<T>)
      requires input != null && input != out && input.Valid() && out.Valid()
      requires input.reading == blocksize && out.writing == blocksize
      modifies out, out.window
      ensures out.Valid() && out.writing == 0
      ensures out.contents == old(out.contents) + input.contents[..blocksize]
      ensures out.reading == old(out.reading) && out.window == old(out.window)
      ensures out.readInterrupted == old(out.readInterrupted) && out.writeInterrupted == old(out.writeInterrupted)
    {
      var dst := out.window;
      for i := 0 to blocksize
        invariant unchanged(out)
        invariant forall k :: 0 <= k < i ==> dst[k] == input.Peek(k)
      {
        dst[i] := input.Peek(i);
      }
      assert dst[..blocksize] == input.contents[..blocksize];
      out.EndWrite(blocksize);
    }

    /** `Valid()` in the state between a granted `begin_write` on one
        output (the left one at `AtLeft`, the right one at `AtRight`) and the
        matching `end_write`. */
    ghost predicate WritingBlock()
      reads this, input, outputLeft, outputRight
    {
      && worker == Running && pc != AtInput && Bound()
      && input != outputLeft && input != outputRight && outputLeft != outputRight
      && input.Valid() && outputLeft.Valid() && outputRight.Valid()
      && outputLeft.writing == (if pc == AtLeft then blocksize else 0)
      && outputRight.writing == (if pc == AtRight then blocksize else 0)
      && input.reading == blocksize
      && sentRight == consumed
      && sentLeft == consumed + (if pc == AtRight then input.contents[..blocksize] else [])
    }

    /** With the left window granted: copy the block there and commit it. */
    method CommitLeft()
      requires WritingBlock() && pc == AtLeft
      modifies this, outputLeft, outputLeft.window
      ensures Valid() && worker == Running && pc == AtRight
      ensures input == old(input) && outputLeft == old(outputLeft) && outputRight == old(outputRight)
      ensures outputLeft.ReaderUnchanged()
      ensures outputLeft.writeInterrupted == old(outputLeft.writeInterrupted)
      ensures outputLeft.contents == old(outputLeft.contents) + input.contents[..blocksize]
      ensures sentLeft == old(sentLeft) + input.contents[..blocksize]
      ensures consumed == old(consumed) && sentRight == old(sentRight)
    {
      ghost var block := input.contents[..blocksize];
      CopyBlockTo(outputLeft);
      sentLeft := sentLeft + block;
      pc := AtRight;
    }

    /** With the right window granted: copy the block there, commit it and
        release the input block. */
    method CommitRight()
      requires WritingBlock() && pc == AtRight
      modifies this, input, outputRight, outputRight.window
      ensures Valid() && worker == Running && pc == AtInput
      ensures input == old(input) && outputLeft == old(outputLeft) && outputRight == old(outputRight)
      ensures input.readInterrupted == old(input.readInterrupted) && input.WriterUnchanged()
      ensures outputRight.ReaderUnchanged()
      ensures outputRight.writeInterrupted == old(outputRight.writeInterrupted)
      ensures sentLeft == old(sentLeft)
      ensures consumed == old(consumed) + old(input.contents)[..blocksize]
      ensures input.contents == old(input.contents)[blocksize..]
      ensures outputRight.contents == old(outputRight.contents) + old(input.contents)[..blocksize]
    {
      ghost var block := input.contents[..blocksize];
      CopyBlockTo(outputRight);
      sentRight := sentRight + block;
      input.EndRead(blocksize);
      consumed := consumed + block;
      pc := AtInput;
    }

    /** The end of an iteration, from `begin_write` on the right output:
        copy the block there, commit it and release the input block. */
    method FromRight() returns (outcome: Outcome, calls: seq<Call>)
      requires Valid() && worker == Running && pc == AtRight
      modifies this, input, outputRight
      ensures Valid()
      ensures input == old(input) && outputLeft == old(outputLeft) && outputRight == old(outputRight)
      ensures input.Valid() && outputLeft.Valid() && outputRight.Valid()
      ensures outcome == old(OutcomeFrom(AtRight))
      ensures worker == (if outcome.InterruptedAt? then Finished else Running)
      ensures pc == TeePcAfter(outcome)
      ensures input.readInterrupted == old(input.readInterrupted)
      ensures outputRight.writeInterrupted == old(outputRight.writeInterrupted)
      ensures input.WriterUnchanged() && outputRight.ReaderUnchanged()
      ensures calls == TeeIteration(blocksize)[3..TeeStopAt(outcome)]
      ensures sentLeft == old(sentLeft)
      ensures outcome.BlockMoved? ==>
        && blocksize <= |old(input.contents)|
        && consumed == old(consumed) + old(input.contents)[..blocksize]
        && input.contents == old(input.contents)[blocksize..]
        && outputRight.contents == old(outputRight.contents) + old(input.contents)[..blocksize]
      ensures !outcome.BlockMoved? ==>
        consumed == old(consumed) && sentRight == old(sentRight)
        && input.contents == old(input.contents) && outputRight.contents == old(outputRight.contents)
    {
      var s := outputRight.BeginWrite(blocksize);
      if s == Interrupted {
        worker := Finished;
        return InterruptedAt(OutputRight), [BeginWrite(OutputRight)];
      }
      if s == WouldBlock {
        return WaitingAt(OutputRight), [];
      }
      CommitRight();
      outcome := BlockMoved;
      calls := [BeginWrite(OutputRight), EndWrite(OutputRight, blocksize), EndRead(Input, blocksize)];
    }

    /** The middle of an iteration, from `begin_write` on the left output:
        copy the block there and commit it, then go on to the right output. */
    method FromLeft() returns (outcome: Outcome, calls: seq<Call>)
      requires Valid() && worker == Running && pc == AtLeft
      modifies this, input, outputLeft, outputRight
      ensures Valid()
      ensures input == old(input) && outputLeft == old(outputLeft) && outputRight == old(outputRight)
      ensures input.Valid() && outputLeft.Valid() && outputRight.Valid()
      ensures outcome == old(OutcomeFrom(AtLeft))
      ensures worker == (if outcome.InterruptedAt? then Finished else Running)
      ensures pc == TeePcAfter(outcome)
      ensures input.readInterrupted == old(input.readInterrupted)
      ensures outputLeft.writeInterrupted == old(outputLeft.writeInterrupted)
      ensures outputRight.writeInterrupted == old(outputRight.writeInterrupted)
      ensures input.WriterUnchanged() && outputLeft.ReaderUnchanged() && outputRight.ReaderUnchanged()
      ensures 1 <= TeeStopAt(outcome) <= 6
      ensures calls == TeeIteration(blocksize)[1..TeeStopAt(outcome)]
      ensures outcome.BlockMoved? ==>
        && blocksize <= |old(input.contents)|
        && consumed == old(consumed) + old(input.contents)[..blocksize]
        && input.contents == old(input.contents)[blocksize..]
        && outputRight.contents == old(outputRight.contents) + old(input.contents)[..blocksize]
      ensures !outcome.BlockMoved? ==>
        consumed == old(consumed) && sentRight == old(sentRight)
        && input.contents == old(input.contents) && outputRight.contents == old(outputRight.contents)
      ensures sentLeft == old(sentLeft)
        + (if TeeCommitsLeft(AtLeft, outcome) then old(input.contents)[..blocksize] else [])
      ensures outputLeft.contents == old(outputLeft.contents)
        + (if TeeCommitsLeft(AtLeft, outcome) then old(input.contents)[..blocksize] else [])
    {
      var s := outputLeft.BeginWrite(blocksize);
      if s == Interrupted {
        worker := Finished;
        return InterruptedAt(OutputLeft), [BeginWrite(OutputLeft)];
      }
      if s == WouldBlock {
        return WaitingAt(OutputLeft), [];
      }
      CommitLeft();
      var rest;
      outcome, rest := FromRight();
      calls := [BeginWrite(OutputLeft), EndWrite(OutputLeft, blocksize)] + rest;
      SliceConcat(TeeIteration(blocksize), 1, 3, TeeStopAt(outcome));
    }

    /** The start of an iteration, at `begin_read` on the input. */
    method FromInput() returns (outcome: Outcome, calls: seq<Call>)
      requires Valid() && worker == Running && pc == AtInput
      modifies this, input, outputLeft, outputRight
      ensures Valid()
      ensures input == old(input) && outputLeft == old(outputLeft) && outputRight == old(outputRight)
      ensures input.Valid() && outputLeft.Valid() && outputRight.Valid()
      ensures outcome == old(OutcomeFrom(AtInput))
      ensures worker == (if outcome.InterruptedAt? then Finished else Running)
      ensures pc == TeePcAfter(outcome)
      ensures input.readInterrupted == old(input.readInterrupted)
      ensures outputLeft.writeInterrupted == old(outputLeft.writeInterrupted)
      ensures outputRight.writeInterrupted == old(outputRight.writeInterrupted)
      ensures input.WriterUnchanged() && outputLeft.ReaderUnchanged() && outputRight.ReaderUnchanged()
      ensures TeeStopAt(outcome) <= 6
      ensures calls == TeeIteration(blocksize)[..TeeStopAt(outcome)]
      ensures outcome.BlockMoved? ==>
        && blocksize <= |old(input.contents)|
        && consumed == old(consumed) + old(input.contents)[..blocksize]
        && input.contents == old(input.contents)[blocksize..]
        && outputRight.contents == old(outputRight.contents) + old(input.contents)[..blocksize]
      ensures !outcome.BlockMoved? ==>
        consumed == old(consumed) && sentRight == old(sentRight)
        && input.contents == old(input.contents) && outputRight.contents == old(outputRight.contents)
      ensures sentLeft == old(sentLeft)
        + (if TeeCommitsLeft(AtInput, outcome) then old(input.contents)[..blocksize] else [])
      ensures outputLeft.contents == old(outputLeft.contents)
        + (if TeeCommitsLeft(AtInput, outcome) then old(input.contents)[..blocksize] else [])
    {
      var s := input.BeginRead(blocksize);
      if s == Interrupted {
        worker := Finished;
        return InterruptedAt(Input), [BeginRead(Input)];
      }
      if s == WouldBlock {
        return WaitingAt(Input), [];
      }
      pc := AtLeft;
      var rest;
      outcome, rest := FromLeft();
      calls := [BeginRead(Input)] + rest;
      SliceConcat(TeeIteration(blocksize), 0, 1, TeeStopAt(outcome));
    }

    /** The worker: the body of the `for(;;)` loop in `process()`, from the
        call the worker is at. An interruption ends the loop (`run` catches
        it); the input block is then not released. */
    method Step() returns (outcome: Outcome, calls: seq<Call>)
      requires Valid() && worker == Running
      modifies this, input, outputLeft, outputRight
      ensures Valid()
      ensures input == old(input) && outputLeft == old(outputLeft) && outputRight == old(outputRight)
      ensures input.Valid() && outputLeft.Valid() && outputRight.Valid()
      ensures outcome == old(OutcomeFrom(pc))
      ensures worker == (if outcome.InterruptedAt? then Finished else Running)
      ensures pc == TeePcAfter(outcome)
      ensures input.readInterrupted == old(input.readInterrupted)
      ensures outputLeft.writeInterrupted == old(outputLeft.writeInterrupted)
      ensures outputRight.writeInterrupted == old(outputRight.writeInterrupted)
      ensures input.WriterUnchanged() && outputLeft.ReaderUnchanged() && outputRight.ReaderUnchanged()
      ensures TeeResumeAt(old(pc)) <= TeeStopAt(outcome) <= |TeeIteration(blocksize)|
      ensures calls == TeeIteration(blocksize)[TeeResumeAt(old(pc))..TeeStopAt(outcome)]
      ensures outcome.BlockMoved? ==>
        && blocksize <= |old(input.contents)|
        && consumed == old(consumed) + old(input.contents)[..blocksize]
        && input.contents == old(input.contents)[blocksize..]
        && outputRight.contents == old(outputRight.contents) + old(input.contents)[..blocksize]
      ensures !outcome.BlockMoved? ==>
        consumed == old(consumed) && sentRight == old(sentRight)
        && input.contents == old(input.contents) && outputRight.contents == old(outputRight.contents)
      ensures sentLeft == old(sentLeft)
        + (if TeeCommitsLeft(old(pc), outcome) then old(input.contents)[..blocksize] else [])
      ensures outputLeft.contents == old(outputLeft.contents)
        + (if TeeCommitsLeft(old(pc), outcome) then old(input.contents)[..blocksize] else [])
      ensures old(input.readInterrupted && outputLeft.writeInterrupted && outputRight.writeInterrupted) ==>
        outcome.InterruptedAt?
    {
      if pc == AtInput {
        outcome, calls := FromInput();
      } else if pc == AtLeft {
        outcome, calls := FromLeft();
      } else {
        outcome, calls := FromRight();
      }
    }

    /** `~TeeProcess()`: `interrupt_read` on the input, `interrupt_write` on
        the left and the right output, each only if it is set, then join the
        worker, which raises at its pending call and stops. */
    method Destroy() returns (calls: seq<Call>)
      requires Valid() && worker != Stopped
      modifies this, input, outputLeft, outputRight
      ensures worker == Stopped
      ensures input == old(input) && outputLeft == old(outputLeft) && outputRight == old(outputRight)
      ensures input != null ==> input.readInterrupted
      ensures outputLeft != null ==> outputLeft.writeInterrupted
      ensures outputRight != null ==> outputRight.writeInterrupted
      ensures calls ==
        (if input != null then [InterruptRead(Input)] else [])
        + (if outputLeft != null then [InterruptWrite(OutputLeft)] else [])
        + (if outputRight != null then [InterruptWrite(OutputRight)] else [])
        + [JoinThread]
      ensures consumed == old(consumed) && sentLeft == old(sentLeft) && sentRight == old(sentRight)
      ensures input != null ==> input.contents == old(input.contents)
      ensures outputLeft != null ==> outputLeft.contents == old(outputLeft.contents)
      ensures outputRight != null ==> outputRight.contents == old(outputRight.contents)
      ensures input != null && input != outputLeft && input != outputRight ==> input.WriterUnchanged()
      ensures outputLeft != null && outputLeft != input && outputLeft != outputRight ==> outputLeft.ReaderUnchanged()
      ensures outputRight != null && outputRight != input && outputRight != outputLeft ==> outputRight.ReaderUnchanged()
    {
      calls := [];
      if input != null {
        input.InterruptRead();
        calls := calls + [InterruptRead(Input)];
      }
      if outputLeft != null {
        outputLeft.InterruptWrite();
        calls := calls + [InterruptWrite(OutputLeft)];
      }
      if outputRight != null {
        outputRight.InterruptWrite();
        calls := calls + [InterruptWrite(OutputRight)];
      }
      if worker == Running {
        var outcome, _ := Step();
        assert outcome.InterruptedAt?;
      }
      worker := Stopped;
      calls := calls + [JoinThread];
    }
  }

  // ---------------------------------------------------------------------
  // JoiningAddProcess

  /** Where a join worker is in its loop: at `begin_read` of the left input,
      of the right input, or at `begin_write` of the output. */
  datatype JoinPc = AtInputLeft | AtInputRight | AtOutput

  /** The calls of one join iteration: acquire left, right, output; release
      output, right, left. */
  function JoinIteration(n: nat): seq<Call> {
    [ BeginRead(InputLeft), BeginRead(InputRight), BeginWrite(Output),
      EndWrite(Output, n), EndRead(InputRight, n), EndRead(InputLeft, n) ]
  }

  function JoinBeginAt(port: Port): nat {
    if port == InputLeft then 0 else if port == InputRight then 1 else 2
  }

  function JoinResumeAt(pc: JoinPc): nat {
    match pc
    case AtInputLeft => JoinBeginAt(InputLeft)
    case AtInputRight => JoinBeginAt(InputRight)
    case AtOutput => JoinBeginAt(Output)
  }

  function JoinStopAt(outcome: Outcome): nat {
    match outcome
    case BlockMoved => 6
    case WaitingAt(p) => JoinBeginAt(p)
    case InterruptedAt(p) => JoinBeginAt(p) + 1
  }

  /** The outcome of a join step from `pc` when its begin calls on the left
      input, the right input and the output would return `left`, `right` and
      `output`: the step makes the calls in loop order from `pc` on and ends
      at the first one that raises or would wait. */
  function JoinOutcome(pc: JoinPc, left: Status, right: Status, output: Status): Outcome {
    var fromOutput := Continue(output, Output, BlockMoved);
    var fromRight := Continue(right, InputRight, fromOutput);
    match pc
    case AtInputLeft => Continue(left, InputLeft, fromRight)
    case AtInputRight => fromRight
    case AtOutput => fromOutput
  }

  /** Where a join worker is after a step that ended with `outcome`: back at
      the top of its loop, or still at the begin call that waited or raised. */
  function JoinPcAfter(outcome: Outcome): JoinPc {
    if outcome.BlockMoved? || outcome.port == InputLeft then AtInputLeft
    else if outcome.port == InputRight then AtInputRight
    else AtOutput
  }

  /** Whether a join step from `pc` gets as far as the begin call at `port`:
      it starts at or before that call, and each begin call before it is
      granted. */
  predicate JoinReaches(pc: JoinPc, left: Status, right: Status, port: Port) {
    && JoinResumeAt(pc) <= JoinBeginAt(port)
    && (pc == AtInputLeft && port != InputLeft ==> left == Granted)
    && (pc != AtOutput && port == Output ==> right == Granted)
  }

  /** What the begin call at `port` returns, of the three a join makes. */
  function JoinStatusAt(port: Port, left: Status, right: Status, output: Status): Status {
    if port == InputLeft then left else if port == InputRight then right else output
  }

  /** A join step ends at a begin call exactly when it gets there and that
      call raises or would wait, and it moves a block exactly when it gets
      to the output and that call is granted. Nothing else ends it. */
  lemma JoinOutcomeMeaning(pc: JoinPc, left: Status, right: Status, output: Status, port: Port)
    requires port == InputLeft || port == InputRight || port == Output
    ensures JoinOutcome(pc, left, right, output) == InterruptedAt(port) <==>
      JoinReaches(pc, left, right, port) && JoinStatusAt(port, left, right, output) == Interrupted
    ensures JoinOutcome(pc, left, right, output) == WaitingAt(port) <==>
      JoinReaches(pc, left, right, port) && JoinStatusAt(port, left, right, output) == WouldBlock
    ensures JoinOutcome(pc, left, right, output).BlockMoved? <==>
      JoinReaches(pc, left, right, Output) && output == Granted
    ensures !JoinOutcome(pc, left, right, output).BlockMoved? ==>
      JoinOutcome(pc, left, right, output).port in {InputLeft, InputRight, Output}
  {
  }

  /** The queues a join can start with. */
  ghost predicate JoinReady(left: BlockQueue<int>, right: BlockQueue<int>, output: BlockQueue<int>)
    reads left, right, output
  {
    && left != right && left != output && right != output
    && left.Valid() && right.Valid() && output.Valid()
    && left.reading == 0 && right.reading == 0 && output.writing == 0
  }

  /** A join: output block k is the element-wise sum of left block k and
      right block k. */
  class JoiningAddProcess {
    const blocksize: nat
    var inputLeft: BlockQueue?<int>
    var inputRight: BlockQueue?<int>
    var output: BlockQueue?<int>
    var worker: Worker
    var pc: JoinPc
    ghost var consumedLeft: seq<int>
    ghost var consumedRight: seq<int>
    ghost var sent: seq<int>

    ghost predicate Bound()
      reads this
    {
      inputLeft != null && inputRight != null && output != null
    }

    /** While the worker runs, both inputs have been consumed equally far and
        the output stream is their element-wise sum. */
    ghost predicate Valid()
      reads this, inputLeft, inputRight, output
    {
      worker == Running ==>
        && Bound()
        && inputLeft != inputRight && inputLeft != output && inputRight != output
        && inputLeft.Valid() && inputRight.Valid() && output.Valid()
        && output.writing == 0
        && inputLeft.reading == (if pc == AtInputLeft then 0 else blocksize)
        && inputRight.reading == (if pc == AtOutput then blocksize else 0)
        && |consumedLeft| == |consumedRight|
        && sent == ZipSum(consumedLeft, consumedRight)
    }

    /** How a step from `at` ends in the current queue states. */
    function OutcomeFrom(at: JoinPc): Outcome
      requires Bound()
      reads this, inputLeft, inputRight, output
    {
      JoinOutcome(at, inputLeft.ReadStatus(blocksize),
        inputRight.ReadStatus(blocksize), output.WriteStatus(blocksize))
    }

    constructor (blocksize: nat)
      ensures Valid() && worker == Unbound && this.blocksize == blocksize
      ensures inputLeft == null && inputRight == null && output == null
    {
      this.blocksize := blocksize;
      inputLeft, inputRight, output := null, null, null;
      worker := Unbound;
      pc := AtInputLeft;
      consumedLeft, consumedRight, sent := [], [], [];
    }

    /** `set_input_left(value)`, then `try_start()`. */
    method SetInputLeft(value: BlockQueue?<int>)
      requires worker == Unbound
      requires value != null && inputRight != null && output != null ==> JoinReady(value, inputRight, output)
      modifies this
      ensures inputLeft == value && inputRight == old(inputRight) && output == old(output)
      ensures worker == (if Bound() then Running else Unbound)
      ensures Valid()
      ensures worker == Running ==> pc == AtInputLeft && consumedLeft == [] && consumedRight == [] && sent == []
    {
      inputLeft := value;
      TryStart();
    }

    /** `set_input_right(value)`, then `try_start()`. */
    method SetInputRight(value: BlockQueue?<int>)
      requires worker == Unbound
      requires inputLeft != null && value != null && output != null ==> JoinReady(inputLeft, value, output)
      modifies this
      ensures inputRight == value && inputLeft == old(inputLeft) && output == old(output)
      ensures worker == (if Bound() then Running else Unbound)
      ensures Valid()
      ensures worker == Running ==> pc == AtInputLeft && consumedLeft == [] && consumedRight == [] && sent == []
    {
      inputRight := value;
      TryStart();
    }

    /** `set_output(value)`, then `try_start()`. */
    method SetOutput(value: BlockQueue?<int>)
      requires worker == Unbound
      requires inputLeft != null && inputRight != null && value != null ==> JoinReady(inputLeft, inputRight, value)
      modifies this
      ensures output == value && inputLeft == old(inputLeft) && inputRight == old(inputRight)
      ensures worker == (if Bound() then Running else Unbound)
      ensures Valid()
      ensures worker == Running ==> pc == AtInputLeft && consumedLeft == [] && consumedRight == [] && sent == []
    {
      output := value;
      TryStart();
    }

    /** `try_start()`: start the worker once all three endpoints are set. */
    method TryStart()
      requires worker == Unbound
      requires Bound() ==> JoinReady(inputLeft, inputRight, output)
      modifies this
      ensures inputLeft == old(inputLeft) && inputRight == old(inputRight) && output == old(output)
      ensures worker == (if Bound() then Running else Unbound)
      ensures Valid()
      ensures worker == Running ==> pc == AtInputLeft && consumedLeft == [] && consumedRight == [] && sent == []
    {
      if output != null && inputLeft != null && inputRight != null {
        Start();
      }
    }

    /** `start()`: launch the worker thread at the top of its loop. */
    method Start()
      requires worker == Unbound && Bound() && JoinReady(inputLeft, inputRight, output)
      modifies this
      ensures inputLeft == old(inputLeft) && inputRight == old(inputRight) && output == old(output)
      ensures Valid() && worker == Running
      ensures pc == AtInputLeft && consumedLeft == [] && consumedRight == [] && sent == []
    {
      worker := Running;
      pc := AtInputLeft;
      consumedLeft, consumedRight, sent := [], [], [];
    }

    /** Write `dst[i] = src_left[i] + src_right[i]` into the output window and
        commit it. */
    method AddBlocksToOutput()
      requires inputLeft != null && inputRight != null && output != null
      requires inputLeft != output && inputRight != output
      requires inputLeft.Valid() && inputRight.Valid() && output.Valid()
      requires inputLeft.reading == blocksize && inputRight.reading == blocksize && output.writing == blocksize
      modifies output, output.window
      ensures output.Valid() && output.writing == 0
      ensures output.contents ==
        old(output.contents) + ZipSum(inputLeft.contents[..blocksize], inputRight.contents[..blocksize])
      ensures output.reading == old(output.reading) && output.window == old(output.window)
      ensures output.readInterrupted == old(output.readInterrupted)
      ensures output.writeInterrupted == old(output.writeInterrupted)
    {
      var dst := output.window;
      for i := 0 to blocksize
        invariant unchanged(output)
        invariant forall k :: 0 <= k < i ==> dst[k] == inputLeft.Peek(k) + inputRight.Peek(k)
      {
        dst[i] := inputLeft.Peek(i) + inputRight.Peek(i);
      }
      assert dst[..blocksize] == ZipSum(inputLeft.contents[..blocksize], inputRight.contents[..blocksize]);
      output.EndWrite(blocksize);
    }

    /** The end of an iteration, from `begin_write` on the output: write the
        sum there, commit it, release the right block and then the left one. */
    method FromOutput() returns (outcome: Outcome, calls: seq<Call>)
      requires Valid() && worker == Running && pc == AtOutput
      modifies this, inputLeft, inputRight, output
      ensures Valid()
      ensures inputLeft == old(inputLeft) && inputRight == old(inputRight) && output == old(output)
      ensures inputLeft.Valid() && inputRight.Valid() && output.Valid()
      ensures outcome == old(OutcomeFrom(AtOutput))
      ensures worker == (if outcome.InterruptedAt? then Finished else Running)
      ensures pc == JoinPcAfter(outcome)
      ensures inputLeft.readInterrupted == old(inputLeft.readInterrupted)
      ensures inputRight.readInterrupted == old(inputRight.readInterrupted)
      ensures output.writeInterrupted == old(output.writeInterrupted)
      ensures inputLeft.WriterUnchanged() && inputRight.WriterUnchanged() && output.ReaderUnchanged()
      ensures calls == JoinIteration(blocksize)[2..JoinStopAt(outcome)]
      ensures outcome.BlockMoved? ==>
        && blocksize <= |old(inputLeft.contents)| && blocksize <= |old(inputRight.contents)|
        && consumedLeft == old(consumedLeft) + old(inputLeft.contents)[..blocksize]
        && consumedRight == old(consumedRight) + old(inputRight.contents)[..blocksize]
        && inputLeft.contents == old(inputLeft.contents)[blocksize..]
        && inputRight.contents == old(inputRight.contents)[blocksize..]
        && output.contents == old(output.contents)
          + ZipSum(old(inputLeft.contents)[..blocksize], old(inputRight.contents)[..blocksize])
      ensures !outcome.BlockMoved? ==>
        && consumedLeft == old(consumedLeft) && consumedRight == old(consumedRight) && sent == old(sent)
        && inputLeft.contents == old(inputLeft.contents) && inputRight.contents == old(inputRight.contents)
        && output.contents == old(output.contents)
    {
      var s := output.BeginWrite(blocksize);
      if s == Interrupted {
        worker := Finished;
        return InterruptedAt(Output), [BeginWrite(Output)];
      }
      if s == WouldBlock {
        return WaitingAt(Output), [];
      }
      CommitSum();
      outcome := BlockMoved;
      calls := [BeginWrite(Output), EndWrite(Output, blocksize),
                EndRead(InputRight, blocksize), EndRead(InputLeft, blocksize)];
      assert calls == JoinIteration(blocksize)[2..6];
    }

    /** `Valid()` in the state between a granted `begin_write` on the output
        and the matching `end_write`. */
    ghost predicate WritingSum()
      reads this, inputLeft, inputRight, output
    {
      && worker == Running && pc == AtOutput && Bound()
      && inputLeft != inputRight && inputLeft != output && inputRight != output
      && inputLeft.Valid() && inputRight.Valid() && output.Valid()
      && output.writing == blocksize
      && inputLeft.reading == blocksize && inputRight.reading == blocksize
      && |consumedLeft| == |consumedRight|
      && sent == ZipSum(consumedLeft, consumedRight)
    }

    /** With the output window granted: write the sum there, commit it, then
        release the right block and the left one. */
    method CommitSum()
      requires WritingSum()
      modifies this, inputLeft, inputRight, output, output.window
      ensures Valid() && worker == Running && pc == AtInputLeft
      ensures inputLeft == old(inputLeft) && inputRight == old(inputRight) && output == old(output)
      ensures inputLeft.readInterrupted == old(inputLeft.readInterrupted)
      ensures inputRight.readInterrupted == old(inputRight.readInterrupted)
      ensures output.writeInterrupted == old(output.writeInterrupted)
      ensures inputLeft.WriterUnchanged() && inputRight.WriterUnchanged() && output.ReaderUnchanged()
      ensures consumedLeft == old(consumedLeft) + old(inputLeft.contents)[..blocksize]
      ensures consumedRight == old(consumedRight) + old(inputRight.contents)[..blocksize]
      ensures inputLeft.contents == old(inputLeft.contents)[blocksize..]
      ensures inputRight.contents == old(inputRight.contents)[blocksize..]
      ensures output.contents == old(output.contents)
        + ZipSum(old(inputLeft.contents)[..blocksize], old(inputRight.contents)[..blocksize])
    {
      ghost var left, right := inputLeft.contents[..blocksize], inputRight.contents[..blocksize];
      AddBlocksToOutput();
      inputRight.EndRead(blocksize);
      inputLeft.EndRead(blocksize);
      ZipSumAppend(consumedLeft, left, consumedRight, right);
      consumedLeft, consumedRight := consumedLeft + left, consumedRight + right;
      sent := sent + ZipSum(left, right);
      pc := AtInputLeft;
    }

    /** The middle of an iteration, at `begin_read` on the right input. */
    method FromInputRight() returns (outcome: Outcome, calls: seq<Call>)
      requires Valid() && worker == Running && pc == AtInputRight
      modifies this, inputLeft, inputRight, output
      ensures Valid()
      ensures inputLeft == old(inputLeft) && inputRight == old(inputRight) && output == old(output)
      ensures inputLeft.Valid() && inputRight.Valid() && output.Valid()
      ensures outcome == old(OutcomeFrom(AtInputRight))
      ensures worker == (if outcome.InterruptedAt? then Finished else Running)
      ensures pc == JoinPcAfter(outcome)
      ensures inputLeft.readInterrupted == old(inputLeft.readInterrupted)
      ensures inputRight.readInterrupted == old(inputRight.readInterrupted)
      ensures output.writeInterrupted == old(output.writeInterrupted)
      ensures inputLeft.WriterUnchanged() && inputRight.WriterUnchanged() && output.ReaderUnchanged()
      ensures 1 <= JoinStopAt(outcome) <= 6
      ensures calls == JoinIteration(blocksize)[1..JoinStopAt(outcome)]
      ensures outcome.BlockMoved? ==>
        && blocksize <= |old(inputLeft.contents)| && blocksize <= |old(inputRight.contents)|
        && consumedLeft == old(consumedLeft) + old(inputLeft.contents)[..blocksize]
        && consumedRight == old(consumedRight) + old(inputRight.contents)[..blocksize]
        && inputLeft.contents == old(inputLeft.contents)[blocksize..]
        && inputRight.contents == old(inputRight.contents)[blocksize..]
        && output.contents == old(output.contents)
          + ZipSum(old(inputLeft.contents)[..blocksize], old(inputRight.contents)[..blocksize])
      ensures !outcome.BlockMoved? ==>
        && consumedLeft == old(consumedLeft) && consumedRight == old(consumedRight) && sent == old(sent)
        && inputLeft.contents == old(inputLeft.contents) && inputRight.contents == old(inputRight.contents)
        && output.contents == old(output.contents)
    {
      var s := inputRight.BeginRead(blocksize);
      if s == Interrupted {
        worker := Finished;
        return InterruptedAt(InputRight), [BeginRead(InputRight)];
      }
      if s == WouldBlock {
        return WaitingAt(InputRight), [];
      }
      pc := AtOutput;
      var rest;
      outcome, rest := FromOutput();
      calls := [BeginRead(InputRight)] + rest;
      SliceConcat(JoinIteration(blocksize), 1, 2, JoinStopAt(outcome));
    }

    /** The start of an iteration, at `begin_read` on the left input. */
    method FromInputLeft() returns (outcome: Outcome, calls: seq<Call>)
      requires Valid() && worker == Running && pc == AtInputLeft
      modifies this, inputLeft, inputRight, output
      ensures Valid()
      ensures inputLeft == old(inputLeft) && inputRight == old(inputRight) && output == old(output)
      ensures inputLeft.Valid() && inputRight.Valid() && output.Valid()
      ensures outcome == old(OutcomeFrom(AtInputLeft))
      ensures worker == (if outcome.InterruptedAt? then Finished else Running)
      ensures pc == JoinPcAfter(outcome)
      ensures inputLeft.readInterrupted == old(inputLeft.readInterrupted)
      ensures inputRight.readInterrupted == old(inputRight.readInterrupted)
      ensures output.writeInterrupted == old(output.writeInterrupted)
      ensures inputLeft.WriterUnchanged() && inputRight.WriterUnchanged() && output.ReaderUnchanged()
      ensures JoinStopAt(outcome) <= 6
      ensures calls == JoinIteration(blocksize)[..JoinStopAt(outcome)]
      ensures outcome.BlockMoved? ==>
        && blocksize <= |old(inputLeft.contents)| && blocksize <= |old(inputRight.contents)|
        && consumedLeft == old(consumedLeft) + old(inputLeft.contents)[..blocksize]
        && consumedRight == old(consumedRight) + old(inputRight.contents)[..blocksize]
        && inputLeft.contents == old(inputLeft.contents)[blocksize..]
        && inputRight.contents == old(inputRight.contents)[blocksize..]
        && output.contents == old(output.contents)
          + ZipSum(old(inputLeft.contents)[..blocksize], old(inputRight.contents)[..blocksize])
      ensures !outcome.BlockMoved? ==>
        && consumedLeft == old(consumedLeft) && consumedRight == old(consumedRight) && sent == old(sent)
        && inputLeft.contents == old(inputLeft.contents) && inputRight.contents == old(inputRight.contents)
        && output.contents == old(output.contents)
    {
      var s := inputLeft.BeginRead(blocksize);
      if s == Interrupted {
        worker := Finished;
        return InterruptedAt(InputLeft), [BeginRead(InputLeft)];
      }
      if s == WouldBlock {
        return WaitingAt(InputLeft), [];
      }
      pc := AtInputRight;
      var rest;
      outcome, rest := FromInputRight();
      calls := [BeginRead(InputLeft)] + rest;
      SliceConcat(JoinIteration(blocksize), 0, 1, JoinStopAt(outcome));
    }

    /** The worker: the body of the `for(;;)` loop in `process()`, from the
        call the worker is at. An interruption ends the loop (`run` catches
        it); nothing held is released then. */
    method Step() returns (outcome: Outcome, calls: seq<Call>)
      requires Valid() && worker == Running
      modifies this, inputLeft, inputRight, output
      ensures Valid()
      ensures inputLeft == old(inputLeft) && inputRight == old(inputRight) && output == old(output)
      ensures inputLeft.Valid() && inputRight.Valid() && output.Valid()
      ensures outcome == old(OutcomeFrom(pc))
      ensures worker == (if outcome.InterruptedAt? then Finished else Running)
      ensures pc == JoinPcAfter(outcome)
      ensures inputLeft.readInterrupted == old(inputLeft.readInterrupted)
      ensures inputRight.readInterrupted == old(inputRight.readInterrupted)
      ensures output.writeInterrupted == old(output.writeInterrupted)
      ensures inputLeft.WriterUnchanged() && inputRight.WriterUnchanged() && output.ReaderUnchanged()
      ensures JoinResumeAt(old(pc)) <= JoinStopAt(outcome) <= |JoinIteration(blocksize)|
      ensures calls == JoinIteration(blocksize)[JoinResumeAt(old(pc))..JoinStopAt(outcome)]
      ensures outcome.BlockMoved? ==>
        && blocksize <= |old(inputLeft.contents)| && blocksize <= |old(inputRight.contents)|
        && consumedLeft == old(consumedLeft) + old(inputLeft.contents)[..blocksize]
        && consumedRight == old(consumedRight) + old(inputRight.contents)[..blocksize]
        && inputLeft.contents == old(inputLeft.contents)[blocksize..]
        && inputRight.contents == old(inputRight.contents)[blocksize..]
        && output.contents == old(output.contents)
          + ZipSum(old(inputLeft.contents)[..blocksize], old(inputRight.contents)[..blocksize])
      ensures !outcome.BlockMoved? ==>
        && consumedLeft == old(consumedLeft) && consumedRight == old(consumedRight) && sent == old(sent)
        && inputLeft.contents == old(inputLeft.contents) && inputRight.contents == old(inputRight.contents)
        && output.contents == old(output.contents)
      ensures old(inputLeft.readInterrupted && inputRight.readInterrupted && output.writeInterrupted) ==>
        outcome.InterruptedAt?
    {
      if pc == AtInputLeft {
        outcome, calls := FromInputLeft();
      } else if pc == AtInputRight {
        outcome, calls := FromInputRight();
      } else {
        outcome, calls := FromOutput();
      }
    }

    /** `~JoiningAddProcess()`: `interrupt_read` on the left and the right
        input, `interrupt_write` on the output, each only if it is set, then
        join the worker, which raises at its pending call and stops. */
    method Destroy() returns (calls: seq<Call>)
      requires Valid() && worker != Stopped
      modifies this, inputLeft, inputRight, output
      ensures worker == Stopped
      ensures inputLeft == old(inputLeft) && inputRight == old(inputRight) && output == old(output)
      ensures inputLeft != null ==> inputLeft.readInterrupted
      ensures inputRight != null ==> inputRight.readInterrupted
      ensures output != null ==> output.writeInterrupted
      ensures calls ==
        (if inputLeft != null then [InterruptRead(InputLeft)] else [])
        + (if inputRight != null then [InterruptRead(InputRight)] else [])
        + (if output != null then [InterruptWrite(Output)] else [])
        + [JoinThread]
      ensures consumedLeft == old(consumedLeft) && consumedRight == old(consumedRight) && sent == old(sent)
      ensures inputLeft != null ==> inputLeft.contents == old(inputLeft.contents)
      ensures inputRight != null ==> inputRight.contents == old(inputRight.contents)
      ensures output != null ==> output.contents == old(output.contents)
      ensures inputLeft != null && inputLeft != output ==> inputLeft.WriterUnchanged()
      ensures inputRight != null && inputRight != output ==> inputRight.WriterUnchanged()
      ensures output != null && output != inputLeft && output != inputRight ==> output.ReaderUnchanged()
    {
      calls := [];
      if inputLeft != null {
        inputLeft.InterruptRead();
        calls := calls + [InterruptRead(InputLeft)];
      }
      if inputRight != null {
        inputRight.InterruptRead();
        calls := calls + [InterruptRead(InputRight)];
      }
      if output != null {
        output.InterruptWrite();
        calls := calls + [InterruptWrite(Output)];
      }
      if worker == Running {
        var outcome, _ := Step();
        assert outcome.InterruptedAt?;
      }
      worker := Stopped;
      calls := calls + [JoinThread];
    }
  }
}
