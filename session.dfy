/** One terminal session (TermRunner/Runtime/TerminalSession.cs): it waits
    for its frontend to announce a size, then creates the pseudo console,
    starts the shell on it and pumps bytes both ways, and it tears all of
    that down in a fixed order. Events from the frontend arrive through
    `Dispatch`; the pump's `Output` event is `OnOutput`, driven by
    `RunReader`. The UTF-8 codec is a pair of functions given at
    construction. */
module Session {
  import opened Wrappers
  import opened Kernel
  import opened ConPty
  import opened Process
  import opened Pump
  import opened Frontend
  import opened WebView

  /** The command line of the shell every session starts. */
  const Shell: string := "cmd.exe"

  /** The size the frontend announced (`PtySize`). */
  datatype Size = Size(cols: int, rows: int)

  /** Why `StartAsync` fails: a platform error from creating the console or
      the process, or no ready signal within the timeout. */
  datatype SessionError = Platform(error: Error) | Timeout

  /** The frontend message `OnOutput` leads to for one chunk: none for an
      empty chunk or an empty decoded text. */
  function OutputFor(sessionId: string, decode: seq<Byte> -> string, chunk: Chunk): (m: seq<Outgoing>)
    ensures |m| <= 1
    ensures m != [] <==> |chunk| > 0 && decode(chunk) != ""
    ensures m != [] ==> m[0] == Output(sessionId, decode(chunk))
  {
    if |chunk| == 0 || decode(chunk) == "" then [] else [Output(sessionId, decode(chunk))]
  }

  /** The frontend messages for a run of chunks, in order. */
  function Forwarded(sessionId: string, decode: seq<Byte> -> string, chunks: seq<Chunk>): (r: seq<Outgoing>)
    ensures |r| <= |chunks|
  {
    if |chunks| == 0 then []
    else Forwarded(sessionId, decode, chunks[..|chunks| - 1]) + OutputFor(sessionId, decode, chunks[|chunks| - 1])
  }

  /** Forwarding one more chunk appends that chunk's message. */
  lemma ForwardedStep(sessionId: string, decode: seq<Byte> -> string, chunks: seq<Chunk>, i: nat)
    requires i < |chunks|
    ensures Forwarded(sessionId, decode, chunks[..i + 1])
         == Forwarded(sessionId, decode, chunks[..i]) + OutputFor(sessionId, decode, chunks[i])
  {
    assert chunks[..i + 1][..i] == chunks[..i] && chunks[..i + 1][i] == chunks[i];
  }

  /** Every forwarded message is an output message of the frontend's session,
      and there is at most one per chunk. */
  lemma {:induction false} ForwardedIsOutput(sessionId: string, decode: seq<Byte> -> string, chunks: seq<Chunk>)
    ensures |Forwarded(sessionId, decode, chunks)| <= |chunks|
    ensures forall m :: m in Forwarded(sessionId, decode, chunks) ==> m.Output? && m.sessionId == sessionId && m.text != ""
  {
    if |chunks| > 0 {
      ForwardedIsOutput(sessionId, decode, chunks[..|chunks| - 1]);
    }
  }

  /** Regrouping a trace extended three times; stated once here, it keeps
      the proof of `Dispose` small. */
  lemma AppendThree<T>(s: seq<T>, a: seq<T>, b: seq<T>, c: seq<T>)
    ensures s + a + b + c == s + (a + b + c)
  {
  }

  class TerminalSession {
    const sessionId: string
    const os: Os
    const encode: string -> seq<Byte>
    const decode: seq<Byte> -> string
    var frontend: TerminalWebViewHost?
    /** `OnReady`, `OnInput` and `OnResized` are registered on the frontend. */
    var subscribed: bool
    /** The result of the ready signal (`_readyTcs`), once set. */
    var readySize: Option<Size>
    /** `_started`. */
    var started: bool
    /** The first `StartAsync` is waiting for the ready signal. */
    var waiting: bool
    var pty: ConPtyHost?
    var process: ProcessHost?
    var io: PtyIoPump?
    var disposed: bool

    ghost predicate Valid()
      reads this, os, pty, process, io, frontend
    {
      && os.Valid()
      && (waiting ==> started && pty == null && process == null && io == null)
      && (pty != null ==> started && pty.os == os && pty.Valid())
      && (process != null ==> pty != null && process.os == os && process.Valid())
      && (io != null ==>
            process != null && io.os == os && io.Valid()
            && io.outputReader == pty.outputReader && io.inputWriter == pty.inputWriter)
      && (!disposed ==> (pty != null ==> !pty.disposed) && (process != null ==> !process.disposed)
                        && (io != null ==> !io.disposed))
      && (subscribed ==> frontend != null)
      && (frontend != null ==> frontend.Valid())
    }

    constructor (sessionId: string, os: Os, encode: string -> seq<Byte>, decode: seq<Byte> -> string)
      requires os.Valid()
      ensures this.sessionId == sessionId && this.os == os && this.encode == encode && this.decode == decode
      ensures frontend == null && !subscribed && readySize == None && !started && !waiting && !disposed
      ensures pty == null && process == null && io == null
      ensures Valid()
    {
      this.sessionId := sessionId;
      this.os := os;
      this.encode := encode;
      this.decode := decode;
      frontend := null;
      subscribed := false;
      readySize := None;
      started, waiting, disposed := false, false, false;
      pty, process, io := null, null, null;
    }

    method AttachFrontend(f: TerminalWebViewHost)
      requires Valid() && f.Valid()
      modifies this`frontend, this`subscribed
      ensures Valid() && frontend == f && subscribed
    {
      frontend := f;
      subscribed := true;
    }

    /** The first part of `StartAsync`: only the first call goes on to wait
        for the ready signal; every later call returns at once. */
    method StartAsync() returns (proceeds: bool)
      requires Valid()
      modifies this`started, this`waiting
      ensures Valid() && started
      ensures proceeds == !old(started)
      ensures waiting == (old(waiting) || proceeds)
    {
      proceeds := !started;
      started := true;
      if proceeds {
        waiting := true;
      }
    }

    /** What the rest of `StartAsync` achieves once the wait is over: with no
        size announced the timeout won; otherwise the console is created at
        the announced size, the shell started on it, and the pump wired to
        the console's two pipe ends and started. The first failure raises
        and leaves what was already created in place, for `Dispose`. */
    twostate predicate Launched(o: CreateOutcomes, l: StartOutcomes, cwd: string, new r: Outcome<SessionError>)
      reads this, os, pty, process, io
    {
      && (readySize.None? ==>
            && r == Fail(Timeout) && pty == null && process == null && io == null
            && os.open == old(os.open) && os.trace == old(os.trace))
      && (readySize.Some? && !CreateSucceeds(o) ==>
            && r == Fail(Platform(CreateError(o))) && pty == null && process == null && io == null
            && os.open == old(os.open))
      && (readySize.Some? && CreateSucceeds(o) ==>
            && pty != null && fresh(pty) && !pty.disposed
            && pty.size == ConsoleSize(readySize.value.cols, readySize.value.rows))
      && (readySize.Some? && CreateSucceeds(o) && !LaunchSucceeds(l) ==>
            r == Fail(Platform(LaunchError(l))) && process == null && io == null)
      && (readySize.Some? && CreateSucceeds(o) && LaunchSucceeds(l) ==>
            && r == Pass
            && process != null && fresh(process) && !process.disposed
            && process.console == pty.pseudoConsole && process.commandLine == Shell && process.cwd == cwd
            && process.processHandle in os.open && process.threadHandle in os.open
            && process.processHandle !in old(os.open) && process.threadHandle !in old(os.open)
            && io != null && fresh(io) && io.started && !io.disposed && io.accepted == []
            && io.outputReader == pty.outputReader && io.inputWriter == pty.inputWriter)
    }

    /** The launch itself, shared by both versions of the continuation. */
    method Launch(o: CreateOutcomes, l: StartOutcomes, cwd: string) returns (r: Outcome<SessionError>)
      requires Valid() && started && !waiting && pty == null && process == null && io == null
      modifies this`pty, this`process, this`io, os
      ensures Valid() && Launched(o, l, cwd, r)
    {
      if readySize.None? {
        return Fail(Timeout);
      }
      var size := readySize.value;
      var created := ConPtyHost.Create(os, size.cols, size.rows, o);
      if created.Failure? {
        return Fail(Platform(created.error));
      }
      pty := created.value;
      r := StartShell(l, cwd);
    }

    /** The second half of the launch, once the console exists: the shell
        on the console, then the pump on its two pipe ends. */
    method StartShell(l: StartOutcomes, cwd: string) returns (r: Outcome<SessionError>)
      requires Valid() && pty != null && !pty.disposed && process == null && io == null
      modifies this`process, this`io, os
      ensures Valid()
      ensures !LaunchSucceeds(l) ==> r == Fail(Platform(LaunchError(l))) && process == null && io == null
      ensures LaunchSucceeds(l) ==>
        && r == Pass
        && process != null && fresh(process) && !process.disposed
        && process.console == pty.pseudoConsole && process.commandLine == Shell && process.cwd == cwd
        && process.processHandle in os.open && process.threadHandle in os.open
        && process.processHandle !in old(os.open) && process.threadHandle !in old(os.open)
        && io != null && fresh(io) && io.started && !io.disposed && io.accepted == []
        && io.outputReader == pty.outputReader && io.inputWriter == pty.inputWriter
    {
      var launched := ProcessHost.StartAttachedToPty(os, pty.pseudoConsole, Shell, cwd, l);
      if launched.Failure? {
        return Fail(Platform(launched.error));
      }
      process := launched.value;
      var pump := new PtyIoPump(os, pty.outputReader, pty.inputWriter);
      // `_io.Output += OnOutput` comes before `Start`, so every chunk the
      // reader delivers reaches `OnOutput` (see `RunReader`).
      pump.Start();
      io := pump;
      r := Pass;
    }

    /** The continuation of the first `StartAsync` after the wait, as
        written: it does not look at `_disposed`. The ready signal can set
        the size and schedule this continuation, and `Dispose` can then run
        before the continuation does; the continuation still creates a
        console and a running shell, and nothing will release them, since
        `Dispose` has already run. */
    method ResumeStartAsWritten(o: CreateOutcomes, l: StartOutcomes, cwd: string) returns (r: Outcome<SessionError>)
      requires Valid()
      modifies this`waiting, this`pty, this`process, this`io, os
      ensures Valid() && !waiting
      ensures !old(waiting) ==> r == Pass && pty == old(pty) && process == old(process) && io == old(io)
      ensures old(waiting) ==> Launched(o, l, cwd, r)
      ensures old(waiting) && disposed && readySize.Some? && CreateSucceeds(o) && LaunchSucceeds(l) ==>
        process != null && process.processHandle !in old(os.open) && process.processHandle in os.open
    {
      if !waiting {
        return Pass;
      }
      waiting := false;
      r := Launch(o, l, cwd);
    }

    /** The continuation with the disposal check the source lacks: a session
        disposed before its continuation runs creates nothing. */
    method ResumeStart(o: CreateOutcomes, l: StartOutcomes, cwd: string) returns (r: Outcome<SessionError>)
      requires Valid()
      modifies this`waiting, this`pty, this`process, this`io, os
      ensures Valid() && !waiting
      ensures !old(waiting) ==> r == Pass && pty == old(pty) && process == old(process) && io == old(io)
      ensures old(waiting) && disposed ==>
        && r == Pass && pty == null && process == null && io == null
        && os.open == old(os.open) && os.trace == old(os.trace)
      ensures old(waiting) && !disposed ==> Launched(o, l, cwd, r)
    {
      if !waiting {
        return Pass;
      }
      waiting := false;
      if disposed {
        return Pass;
      }
      r := Launch(o, l, cwd);
    }

    /** `OnReady`: only the first Ready for this session sets the size. */
    method OnReady(e: ReadyArgs)
      requires Valid()
      modifies this`readySize
      ensures Valid()
      ensures readySize == if e.sessionId == sessionId && old(readySize).None?
                           then Some(Size(e.cols, e.rows)) else old(readySize)
    {
      if e.sessionId != sessionId {
        return;
      }
      if readySize.None? {
        readySize := Some(Size(e.cols, e.rows));
      }
    }

    /** `SendTextInput`: the UTF-8 bytes of non-empty text go to the pump,
        once; nothing happens for null or empty text or without a pump. */
    method SendTextInput(text: Option<string>)
      requires Valid()
      modifies io
      ensures Valid()
      ensures io != null ==>
        && io.pending == old(io.pending) +
             (if text.None? || text.value == "" || old(io.disposed) then [] else [encode(text.value)])
        && io.written == old(io.written) && io.disposed == old(io.disposed)
    {
      if text.None? || text.value == "" || io == null {
        return;
      }
      io.EnqueueInput(encode(text.value));
    }

    method OnInput(e: InputArgs)
      requires Valid()
      modifies io
      ensures Valid()
      ensures io != null ==>
        && io.pending == old(io.pending) +
             (if e.sessionId != sessionId || e.text == "" || old(io.disposed) then [] else [encode(e.text)])
        && io.written == old(io.written) && io.disposed == old(io.disposed)
    {
      if e.sessionId != sessionId {
        return;
      }
      SendTextInput(Some(e.text));
    }

    /** `OnResized`: forwarded to the console once it exists, dropped
        before and while the host holds no console handle. `hr` is the
        HRESULT `ResizePseudoConsole` returns. */
    method OnResized(e: ResizeArgs, hr: int) returns (r: Outcome<Error>)
      requires Valid()
      modifies os
      ensures Valid()
      ensures e.sessionId != sessionId || pty == null || pty.pseudoConsole == NULL ==>
        r == Pass && os.trace == old(os.trace)
      ensures e.sessionId == sessionId && pty != null && pty.pseudoConsole != NULL ==>
        && os.trace == old(os.trace) + [ConsoleResized(pty.pseudoConsole, ConsoleSize(e.cols, e.rows), hr)]
        && r == (if HResultFailed(hr) then Fail(HResultError(hr)) else Pass)
      ensures os.open == old(os.open)
    {
      if e.sessionId != sessionId || pty == null {
        return Pass;
      }
      r := pty.Resize(e.cols, e.rows, hr);
    }

    /** A frontend event: it reaches the handlers only while they are
        registered. `resizeHr` is the HRESULT a forwarded resize gets. */
    method Dispatch(ev: Event, resizeHr: int) returns (r: Outcome<Error>)
      requires Valid()
      modifies this`readySize, io, os
      ensures Valid()
      ensures !subscribed ==> r == Pass && readySize == old(readySize) && os.trace == old(os.trace)
      ensures !ev.Resized? ==> r == Pass && os.trace == old(os.trace)
      ensures subscribed && ev.Ready? ==>
        readySize == if ev.ready.sessionId == sessionId && old(readySize).None?
                     then Some(Size(ev.ready.cols, ev.ready.rows)) else old(readySize)
      ensures !(subscribed && ev.Ready?) ==> readySize == old(readySize)
      ensures subscribed && ev.Input? && io != null ==>
        && io.pending == old(io.pending) +
             (if ev.input.sessionId != sessionId || ev.input.text == "" || old(io.disposed) then []
              else [encode(ev.input.text)])
        && io.written == old(io.written) && io.disposed == old(io.disposed)
      ensures io != null && !(subscribed && ev.Input?) ==> unchanged(io)
      ensures subscribed && ev.Resized? &&
              (ev.resize.sessionId != sessionId || pty == null || pty.pseudoConsole == NULL) ==>
        r == Pass && os.trace == old(os.trace)
      ensures subscribed && ev.Resized? && ev.resize.sessionId == sessionId && pty != null && pty.pseudoConsole != NULL ==>
        && os.trace == old(os.trace) + [ConsoleResized(pty.pseudoConsole, ConsoleSize(ev.resize.cols, ev.resize.rows), resizeHr)]
        && r == (if HResultFailed(resizeHr) then Fail(HResultError(resizeHr)) else Pass)
      ensures os.open == old(os.open)
    {
      r := Pass;
      if !subscribed {
        return;
      }
      match ev {
        case Ready(a) => OnReady(a);
        case Input(a) => OnInput(a);
        case Resized(a) => r := OnResized(a, resizeHr);
      }
    }

    /** `OnOutput`: an empty chunk is dropped; otherwise the decoded text
        goes to the frontend. */
    method OnOutput(data: Chunk)
      requires frontend != null ==> frontend.Valid()
      modifies frontend
      ensures frontend != null ==>
        && frontend.Valid()
        && frontend.queued == old(frontend.queued) +
             (if frontend.disposed then [] else OutputFor(frontend.sessionId, decode, data))
        && frontend.disposed == old(frontend.disposed)
    {
      if |data| == 0 {
        return;
      }
      if frontend != null {
        frontend.WriteOutput(Some(decode(data)));
      }
    }

    /** The `Output` subscription: each chunk, in order, to `OnOutput`. */
    method ForwardAll(chunks: seq<Chunk>)
      requires frontend != null ==> frontend.Valid()
      modifies frontend
      ensures frontend != null ==>
        && frontend.Valid()
        && frontend.queued == old(frontend.queued) +
             (if frontend.disposed then [] else Forwarded(frontend.sessionId, decode, chunks))
        && frontend.disposed == old(frontend.disposed)
    {
      var i := 0;
      while i < |chunks|
        invariant 0 <= i <= |chunks|
        invariant frontend != null ==>
          && frontend.Valid()
          && frontend.disposed == old(frontend.disposed)
          && frontend.queued == old(frontend.queued) +
               (if frontend.disposed then [] else Forwarded(frontend.sessionId, decode, chunks[..i]))
      {
        if frontend != null {
          ForwardedStep(frontend.sessionId, decode, chunks, i);
        }
        OnOutput(chunks[i]);
        i := i + 1;
      }
      assert chunks[..i] == chunks;
    }

    /** The pump's reader over the next read results, each chunk it delivers
        handed to `OnOutput` in order. */
    method RunReader(outcomes: seq<ReadOutcome>) returns (chunks: seq<Chunk>)
      requires Valid() && WithinBuffer(outcomes)
      modifies io, frontend
      ensures Valid()
      ensures io == null ==> chunks == []
      ensures io != null && old(io.started) && !old(io.readerEnded) && !io.disposed ==>
        chunks == Deliveries(outcomes)
      ensures frontend != null ==>
        frontend.queued == old(frontend.queued) +
          (if frontend.disposed then [] else Forwarded(frontend.sessionId, decode, chunks))
    {
      chunks := [];
      if io != null {
        chunks := io.ReadLoop(outcomes);
      }
      ForwardAll(chunks);
    }

    /** The native calls `Dispose` makes, in order: cancel the pump's read,
        terminate the shell, close its thread and process handles, close
        the console's pipe ends and the console. */
    ghost function DisposeCalls(): seq<Call>
      reads this, pty, process, io
    {
      (if io != null then io.DisposeCalls() else [])
      + (if process != null then process.TerminateCalls() + process.DisposeCalls() else [])
      + (if pty != null then pty.DisposeCalls() else [])
    }

    /** `Dispose`: once only; unregisters the handlers, then disposes the
        pump, terminates and disposes the process, disposes the console. */
    method Dispose()
      requires Valid()
      modifies this`disposed, this`subscribed, os, pty, process, io
      ensures Valid() && disposed
      ensures old(disposed) ==> os.trace == old(os.trace) && os.open == old(os.open) && subscribed == old(subscribed)
      ensures !old(disposed) ==> !subscribed && os.trace == old(os.trace) + old(DisposeCalls())
      ensures !old(disposed) && pty != null ==>
        pty.inputWriter !in os.open && pty.outputReader !in os.open && old(pty.pseudoConsole) !in os.open
      ensures !old(disposed) && process != null ==>
        old(process.processHandle) !in os.open && old(process.threadHandle) !in os.open
      ensures !old(disposed) && io != null ==> io.disposed
    {
      if disposed {
        return;
      }
      ghost var pumpCalls := if io != null then io.DisposeCalls() else [];
      ghost var processCalls := if process != null then process.TerminateCalls() + process.DisposeCalls() else [];
      ghost var ptyCalls := if pty != null then pty.DisposeCalls() else [];
      ghost var calls := pumpCalls + processCalls + ptyCalls;
      assert old(DisposeCalls()) == calls;
      disposed := true;
      if frontend != null {
        subscribed := false;
      }
      ReleasePump();
      assert os.trace == old(os.trace) + pumpCalls;
      ReleaseProcess();
      assert os.trace == old(os.trace) + pumpCalls + processCalls;
      ReleasePty();
      assert os.trace == old(os.trace) + pumpCalls + processCalls + ptyCalls;
      AppendThree(old(os.trace), pumpCalls, processCalls, ptyCalls);
    }

    method ReleasePump()
      requires os.Valid() && (io != null ==> io.os == os && io.Valid())
      modifies os, io
      ensures os.Valid() && (io != null ==> io.Valid() && io.disposed)
      ensures os.trace == old(os.trace) + (if io != null then old(io.DisposeCalls()) else [])
      ensures os.open == old(os.open)
    {
      if io != null {
        io.Dispose();
      }
    }

    method ReleaseProcess()
      requires os.Valid() && (process != null ==> process.os == os && process.Valid())
      modifies os, process
      ensures os.Valid() && (process != null ==> process.Valid() && process.disposed)
      ensures os.trace == old(os.trace) +
        (if process != null then old(process.TerminateCalls() + process.DisposeCalls()) else [])
      ensures process == null || old(process.disposed) ==> os.open == old(os.open)
      ensures process != null && !old(process.disposed) ==>
        os.open == old(os.open) - {old(process.threadHandle), old(process.processHandle)}
    {
      if process != null {
        process.Terminate();
        process.Dispose();
      }
    }

    method ReleasePty()
      requires os.Valid() && (pty != null ==> pty.os == os && pty.Valid())
      modifies os, pty
      ensures os.Valid() && (pty != null ==> pty.Valid() && pty.disposed)
      ensures os.trace == old(os.trace) + (if pty != null then old(pty.DisposeCalls()) else [])
      ensures pty == null || old(pty.disposed) ==> os.open == old(os.open)
      ensures pty != null && !old(pty.disposed) ==>
        os.open == old(os.open) - {pty.inputWriter, pty.outputReader, old(pty.pseudoConsole)}
    {
      if pty != null {
        pty.Dispose();
      }
    }
  }
}
