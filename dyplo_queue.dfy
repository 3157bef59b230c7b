/** The queue interface the software stages use (`begin_read`, `end_read`,
    `begin_write`, `end_write`, `interrupt_read`, `interrupt_write`), as an
    abstract bounded FIFO. The dyplo queue classes themselves are not part of
    this model; nothing here says how they store their elements or how they
    wait.

    A blocking call of the real queue either succeeds, raises
    `InterruptedException`, or waits for the thread on the other side. In this
    sequential model the waiting case is a result of its own, `WouldBlock`,
    that changes nothing: the caller repeats the call later. */
module DyploQueue {

  datatype Status = Granted | WouldBlock | Interrupted

  class BlockQueue<T(0)> {
    /** The number of elements the queue can hold. */
    const capacity: nat
    /** The elements written and not yet released by the reader, oldest first. */
    var contents: seq<T>
    /** The size of the block the reader holds since its last `begin_read`. */
    var reading: nat
    /** The size of the block the writer holds since its last `begin_write`. */
    var writing: nat
    /** The storage `begin_write` hands to the writer. */
    var window: array<T>
    var readInterrupted: bool
    var writeInterrupted: bool

    ghost predicate Valid()
      reads this
    {
      && reading <= |contents|
      && |contents| + writing <= capacity
      && writing <= window.Length
    }

    /** Neither side holds a block. */
    ghost predicate Idle()
      reads this
    {
      reading == 0 && writing == 0
    }

    constructor (capacity: nat)
      ensures Valid() && Idle()
      ensures this.capacity == capacity && contents == []
      ensures !readInterrupted && !writeInterrupted
    {
      this.capacity := capacity;
      contents := [];
      reading, writing := 0, 0;
      window := new T[0];
      readInterrupted, writeInterrupted := false, false;
    }

    /** What `begin_read(n)` returns now. */
    function ReadStatus(n: nat): Status
      reads this
    {
      if readInterrupted then Interrupted else if n <= |contents| then Granted else WouldBlock
    }

    /** What `begin_write(n)` returns now. */
    function WriteStatus(n: nat): Status
      reads this
    {
      if writeInterrupted then Interrupted else if |contents| + n <= capacity then Granted else WouldBlock
    }

    /** The reader's side is as it was: the block it holds and whether it
        was interrupted. A writer promises this to the thread reading. */
    twostate predicate ReaderUnchanged()
      reads this
    {
      reading == old(reading) && readInterrupted == old(readInterrupted)
    }

    /** The writer's side is as it was: the block it holds, its window and
        whether it was interrupted. A reader promises this to the thread
        writing. */
    twostate predicate WriterUnchanged()
      reads this
    {
      writing == old(writing) && window == old(window) && writeInterrupted == old(writeInterrupted)
    }

    /** The element at offset `i` of the block the reader holds (`src[i]`). */
    function Peek(i: nat): T
      reads this
      requires i < reading <= |contents|
    {
      contents[i]
    }

    /** `begin_read(src, n)`: interrupted once `interrupt_read` was called;
        otherwise the first `n` elements are handed to the reader when they
        are there, and the reader waits when they are not. */
    method BeginRead(n: nat) returns (s: Status)
      requires Valid() && reading == 0
      modifies this
      ensures Valid()
      ensures s == old(ReadStatus(n))
      ensures reading == (if s == Granted then n else 0)
      ensures contents == old(contents) && writing == old(writing) && window == old(window)
      ensures readInterrupted == old(readInterrupted) && writeInterrupted == old(writeInterrupted)
    {
      if readInterrupted {
        s := Interrupted;
      } else if n <= |contents| {
        reading := n;
        s := Granted;
      } else {
        s := WouldBlock;
      }
    }

    /** `end_read(n)`: release the block the reader holds. */
    method EndRead(n: nat)
      requires Valid() && reading == n
      modifies this
      ensures Valid() && reading == 0
      ensures contents == old(contents)[n..]
      ensures writing == old(writing) && window == old(window)
      ensures readInterrupted == old(readInterrupted) && writeInterrupted == old(writeInterrupted)
    {
      contents := contents[n..];
      reading := 0;
    }

    /** `begin_write(dst, n)`: interrupted once `interrupt_write` was called;
        otherwise `n` free slots are handed to the writer when they are there,
        and the writer waits when they are not. */
    method BeginWrite(n: nat) returns (s: Status)
      requires Valid() && writing == 0
      modifies this
      ensures Valid()
      ensures s == old(WriteStatus(n))
      ensures writing == (if s == Granted then n else 0)
      ensures s == Granted ==> fresh(window) && window.Length == n
      ensures s != Granted ==> window == old(window)
      ensures contents == old(contents) && reading == old(reading)
      ensures readInterrupted == old(readInterrupted) && writeInterrupted == old(writeInterrupted)
    {
      if writeInterrupted {
        s := Interrupted;
      } else if |contents| + n <= capacity {
        window := new T[n];
        writing := n;
        s := Granted;
      } else {
        s := WouldBlock;
      }
    }

    /** `end_write(n)`: commit the `n` elements written into the window. */
    method EndWrite(n: nat)
      requires Valid() && writing == n
      modifies this
      ensures Valid() && writing == 0
      ensures contents == old(contents) + old(window[..n])
      ensures reading == old(reading) && window == old(window)
      ensures readInterrupted == old(readInterrupted) && writeInterrupted == old(writeInterrupted)
    {
      contents := contents + window[..n];
      writing := 0;
    }

    /** `interrupt_read()`: every later `begin_read` raises. */
    method InterruptRead()
      modifies this
      ensures readInterrupted && writeInterrupted == old(writeInterrupted)
      ensures contents == old(contents) && reading == old(reading)
      ensures writing == old(writing) && window == old(window)
    {
      readInterrupted := true;
    }

    /** `interrupt_write()`: every later `begin_write` raises. */
    method InterruptWrite()
      modifies this
      ensures writeInterrupted && readInterrupted == old(readInterrupted)
      ensures contents == old(contents) && reading == old(reading)
      ensures writing == old(writing) && window == old(window)
    {
      writeInterrupted := true;
    }
  }
}
