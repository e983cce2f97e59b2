/** The byte pump between the pseudo console's pipes and the session
    (TermRunner/Pty/PtyIoPump.cs). Its two loops run on their own tasks in
    the source; here each is a method that advances one loop over given
    native outcomes: `ReadLoop` over a sequence of `ReadFile` results,
    `WriteLoop` over one wake-up of the writer with the queued chunks. */
module Pump {
  import opened Kernel

  type Chunk = seq<Byte>

  /** The size of the read buffer. */
  const BufferSize: nat := 4096

  /** One `ReadFile` on the output pipe: the bytes it placed in the buffer,
      or failure (a broken pipe, or the read cancelled by `Dispose`). */
  datatype ReadOutcome = ReadOk(bytes: seq<Byte>) | ReadFailed

  /** `ReadFile` never returns more than the buffer holds. */
  predicate WithinBuffer(outcomes: seq<ReadOutcome>) {
    forall i :: 0 <= i < |outcomes| && outcomes[i].ReadOk? ==> |outcomes[i].bytes| <= BufferSize
  }

  predicate FailsAt(outcomes: seq<ReadOutcome>, i: nat) {
    i < |outcomes| && outcomes[i].ReadFailed?
  }

  predicate HasFailure(outcomes: seq<ReadOutcome>) {
    exists i: nat | i < |outcomes| :: FailsAt(outcomes, i)
  }

  /** The `Output` chunks raised for a run of reads: one per non-empty
      successful read, in order, up to the first failed read. */
  function Deliveries(outcomes: seq<ReadOutcome>): (r: seq<Chunk>)
    ensures |r| <= |outcomes|
  {
    if |outcomes| == 0 then []
    else match outcomes[0]
      case ReadFailed => []
      case ReadOk(bytes) => (if |bytes| > 0 then [bytes] else []) + Deliveries(outcomes[1..])
  }

  /** Every byte the successful reads returned before the first failure. */
  function BytesRead(outcomes: seq<ReadOutcome>): seq<Byte> {
    if |outcomes| == 0 then []
    else match outcomes[0]
      case ReadFailed => []
      case ReadOk(bytes) => bytes + BytesRead(outcomes[1..])
  }

  function Flatten(chunks: seq<Chunk>): seq<Byte> {
    if |chunks| == 0 then [] else chunks[0] + Flatten(chunks[1..])
  }

  lemma {:induction false} FlattenAppend(a: seq<Chunk>, b: seq<Chunk>)
    ensures Flatten(a + b) == Flatten(a) + Flatten(b)
  {
    if |a| == 0 {
      assert a + b == b;
    } else {
      assert (a + b)[1..] == a[1..] + b;
      FlattenAppend(a[1..], b);
    }
  }

  /** Dropping empty reads loses no byte: the delivered chunks, joined,
      are exactly the bytes read before the first failure, in order. */
  lemma {:induction false} DeliveriesKeepEveryByte(outcomes: seq<ReadOutcome>)
    ensures Flatten(Deliveries(outcomes)) == BytesRead(outcomes)
  {
    if |outcomes| > 0 && outcomes[0].ReadOk? {
      var bytes := outcomes[0].bytes;
      DeliveriesKeepEveryByte(outcomes[1..]);
      FlattenAppend(if |bytes| > 0 then [bytes] else [], Deliveries(outcomes[1..]));
      if |bytes| > 0 {
        var one: seq<Chunk> := [bytes];
        assert one[1..] == [];
      } else {
        assert bytes + BytesRead(outcomes[1..]) == BytesRead(outcomes[1..]);
      }
    }
  }

  /** Every delivered chunk is non-empty and fits the buffer. */
  lemma {:induction false} DeliveriesAreBounded(outcomes: seq<ReadOutcome>)
    requires WithinBuffer(outcomes)
    ensures forall c :: c in Deliveries(outcomes) ==> 0 < |c| <= BufferSize
  {
    if |outcomes| > 0 && outcomes[0].ReadOk? {
      assert WithinBuffer(outcomes[1..]) by {
        forall i | 0 <= i < |outcomes[1..]| && outcomes[1..][i].ReadOk?
          ensures |outcomes[1..][i].bytes| <= BufferSize
        {
          assert outcomes[1..][i] == outcomes[i + 1];
        }
      }
      DeliveriesAreBounded(outcomes[1..]);
    }
  }

  /** The reader can be run in stages: until a read fails, delivering for
      `a` and then for `b` is delivering for `a + b`. */
  lemma {:induction false} DeliveriesSplit(a: seq<ReadOutcome>, b: seq<ReadOutcome>)
    requires !HasFailure(a)
    ensures Deliveries(a + b) == Deliveries(a) + Deliveries(b)
  {
    if |a| == 0 {
      assert a + b == b;
    } else {
      assert !FailsAt(a, 0);
      var rest := a[1..];
      assert !HasFailure(rest) by {
        forall i: nat | i < |rest| ensures !FailsAt(rest, i) {
          assert rest[i] == a[i + 1] && !FailsAt(a, i + 1);
        }
      }
      assert (a + b)[0] == a[0] && (a + b)[1..] == rest + b;
      var head := if |a[0].bytes| > 0 then [a[0].bytes] else [];
      assert Deliveries(a) == head + Deliveries(rest);
      assert Deliveries(a + b) == head + Deliveries(rest + b);
      DeliveriesSplit(rest, b);
    }
  }

  class PtyIoPump {
    const os: Os
    const outputReader: Handle
    const inputWriter: Handle
    /** Both loops have been launched (`_readTask`/`_writeTask` exist). */
    var started: bool
    /** `_disposed`; `Dispose` also cancels the token and completes the
        channel, so this flag stands for all three. */
    var disposed: bool
    var readerEnded: bool
    var writerEnded: bool
    /** The chunks waiting in the unbounded input channel, oldest first. */
    var pending: seq<Chunk>
    /** The chunks written whole to the input pipe, in write order. */
    var written: seq<Chunk>
    /** The chunk taken from the channel whose write failed, if any. */
    var failed: seq<Chunk>
    /** Every chunk the channel has accepted, in enqueue order. */
    ghost var accepted: seq<Chunk>

    /** The queue is FIFO and loses nothing silently: the accepted chunks
        are the written ones, then at most one whose write failed (which
        ends the writer), then the pending ones. */
    ghost predicate Valid()
      reads this
    {
      && accepted == written + failed + pending
      && |failed| <= 1
      && (failed != [] ==> writerEnded)
      && (readerEnded || writerEnded ==> started)
    }

    constructor (os: Os, outputReader: Handle, inputWriter: Handle)
      ensures this.os == os && this.outputReader == outputReader && this.inputWriter == inputWriter
      ensures !started && !disposed && !readerEnded && !writerEnded
      ensures pending == [] && written == [] && failed == [] && accepted == []
      ensures Valid()
    {
      this.os := os;
      this.outputReader := outputReader;
      this.inputWriter := inputWriter;
      started, disposed, readerEnded, writerEnded := false, false, false, false;
      pending, written, failed := [], [], [];
      accepted := [];
    }

    /** `Start`: launches the loops the first time only. */
    method Start()
      requires Valid()
      modifies this`started
      ensures started && Valid()
    {
      if started {
        return;
      }
      started := true;
    }

    /** `EnqueueInput`: appends to the channel unless disposed. */
    method EnqueueInput(data: Chunk)
      requires Valid()
      modifies this
      ensures Valid()
      ensures pending == if old(disposed) then old(pending) else old(pending) + [data]
      ensures accepted == if old(disposed) then old(accepted) else old(accepted) + [data]
      ensures written == old(written) && failed == old(failed)
      ensures started == old(started) && disposed == old(disposed)
      ensures readerEnded == old(readerEnded) && writerEnded == old(writerEnded)
    {
      if disposed {
        return;
      }
      pending := pending + [data];
      accepted := accepted + [data];
    }

    /** The reader over the next `ReadFile` results. Each pass checks for
        cancellation, then reads into the 4096-byte buffer; a failed read
        ends the loop, an empty one delivers nothing, any other delivers a
        new chunk holding the bytes read. Running out of `outcomes` means
        the reader is still waiting in `ReadFile`. */
    method ReadLoop(outcomes: seq<ReadOutcome>) returns (chunks: seq<Chunk>)
      requires Valid() && WithinBuffer(outcomes)
      modifies this`readerEnded
      ensures Valid()
      ensures !old(started) || old(readerEnded) ==> chunks == [] && readerEnded == old(readerEnded)
      ensures old(started) && !old(readerEnded) && disposed ==> chunks == [] && readerEnded
      ensures old(started) && !old(readerEnded) && !disposed ==>
        chunks == Deliveries(outcomes) && readerEnded == HasFailure(outcomes)
    {
      chunks := [];
      if !started || readerEnded {
        return;
      }
      var buffer := new Byte[BufferSize];
      var i := 0;
      while i < |outcomes|
        invariant 0 <= i <= |outcomes|
        invariant !HasFailure(outcomes[..i])
        invariant chunks == Deliveries(outcomes[..i])
        invariant !readerEnded
      {
        if disposed {
          readerEnded := true;
          chunks := [];
          return;
        }
        assert outcomes[..i + 1] == outcomes[..i] + [outcomes[i]];
        DeliveriesSplit(outcomes[..i], [outcomes[i]]);
        match outcomes[i] {
          case ReadFailed =>
            readerEnded := true;
            assert outcomes == outcomes[..i] + outcomes[i..];
            DeliveriesSplit(outcomes[..i], outcomes[i..]);
            assert FailsAt(outcomes, i);
            return;
          case ReadOk(bytes) =>
            var read := |bytes|;
            forall j | 0 <= j < read {
              buffer[j] := bytes[j];
            }
            if read > 0 {
              var chunk := buffer[..read];
              assert chunk == bytes;
              chunks := chunks + [chunk];
            }
            var prefix := outcomes[..i + 1];
            assert !HasFailure(prefix) by {
              forall k: nat | k < i + 1 ensures !FailsAt(prefix, k) {
                if k < i {
                  assert !FailsAt(outcomes[..i], k);
                }
              }
            }
        }
        i := i + 1;
      }
      if disposed {
        readerEnded := true;
        chunks := [];
        return;
      }
      assert outcomes[..i] == outcomes;
    }

    /** One wake-up of the writer. A cancelled wait ends it; otherwise it
        takes the queued chunks in order and writes each whole, and the
        write numbered `failAt` (counting from 0) fails, which ends it with
        the later chunks left in the channel. */
    method WriteLoop(failAt: nat)
      requires Valid()
      modifies this`pending, this`written, this`failed, this`writerEnded
      ensures Valid()
      ensures !old(started) || old(writerEnded) ==>
        pending == old(pending) && written == old(written) && failed == old(failed) && writerEnded == old(writerEnded)
      ensures old(started) && !old(writerEnded) && disposed ==>
        pending == old(pending) && written == old(written) && failed == old(failed) && writerEnded
      ensures old(started) && !old(writerEnded) && !disposed && failAt < |old(pending)| ==>
        && written == old(written) + old(pending)[..failAt]
        && failed == [old(pending)[failAt]]
        && pending == old(pending)[failAt + 1..]
        && writerEnded
      ensures old(started) && !old(writerEnded) && !disposed && failAt >= |old(pending)| ==>
        written == old(written) + old(pending) && pending == [] && failed == old(failed) && !writerEnded
    {
      if !started || writerEnded {
        return;
      }
      if disposed {
        writerEnded := true;
        return;
      }
      var n := 0;
      while pending != []
        invariant n <= |old(pending)|
        invariant pending == old(pending)[n..] && written == old(written) + old(pending)[..n]
        invariant n <= failAt
        invariant failed == old(failed) == [] && !writerEnded
        invariant accepted == written + failed + pending
        decreases |pending|
      {
        var data := pending[0];
        pending := pending[1..];
        assert old(pending)[..n + 1] == old(pending)[..n] + [data];
        if n == failAt {
          failed := [data];
          writerEnded := true;
          return;
        }
        written := written + [data];
        n := n + 1;
      }
    }

    /** The native call the next `Dispose` makes. */
    ghost function DisposeCalls(): seq<Call>
      reads this
    {
      if disposed then [] else [IoCancelled(outputReader)]
    }

    /** `Dispose`: once only; cancels the loops, completes the channel and
        cancels the reader's pending `ReadFile`. */
    method Dispose()
      requires Valid() && os.Valid()
      modifies this`disposed, os
      ensures Valid() && os.Valid() && disposed
      ensures os.trace == old(os.trace) + old(DisposeCalls())
      ensures os.open == old(os.open) && os.next == old(os.next)
      ensures os.blocks == old(os.blocks) && os.lists == old(os.lists)
    {
      if disposed {
        return;
      }
      disposed := true;
      os.CancelIo(outputReader);
    }
  }
}
