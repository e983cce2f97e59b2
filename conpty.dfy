/** The pseudo console and its two pipes (TermRunner/Pty/ConPtyHost.cs).
    `Create` makes an input pipe and an output pipe, hands the pty-side
    ends to `CreatePseudoConsole`, closes them, and keeps the host-side
    ends: the write end of the input pipe and the read end of the output
    pipe. */
module ConPty {
  import opened Wrappers
  import opened Kernel
  import opened Arith

  /** `Math.Max(n, 1)`. */
  function AtLeastOne(n: int): (r: int)
    ensures r >= 1
    ensures n >= 1 ==> r == n
    ensures n < 1 ==> r == 1
  {
    if n < 1 then 1 else n
  }

  /** The C# `(short)` cast: keeps the low 16 bits, two's complement. */
  function ToShort(n: int): (r: int)
    ensures -0x8000 <= r < 0x8000
    ensures -0x8000 <= n < 0x8000 ==> r == n
  {
    var m := (n + 0x8000) % 0x1_0000;
    assert -0x8000 <= n < 0x8000 ==> m == n + 0x8000 by {
      if -0x8000 <= n < 0x8000 {
        ModUnique(n + 0x8000, 0x1_0000, 0, n + 0x8000);
      }
    }
    m - 0x8000
  }

  /** The cast only sees the value modulo 2^16. */
  lemma ToShortWraps(n: int)
    ensures ToShort(n + 0x1_0000) == ToShort(n)
  {
    var q, m := (n + 0x8000) / 0x1_0000, (n + 0x8000) % 0x1_0000;
    ModUnique(n + 0x8000 + 0x1_0000, 0x1_0000, q + 1, m);
  }

  /** The `COORD` both `Create` and `Resize` pass: each dimension clamped to
      at least 1, then cast to a short. */
  function ConsoleSize(cols: int, rows: int): (c: Coord)
    ensures -0x8000 <= c.x < 0x8000 && -0x8000 <= c.y < 0x8000
    ensures 1 <= cols < 0x8000 ==> c.x == cols
    ensures 1 <= rows < 0x8000 ==> c.y == rows
    ensures cols < 1 ==> c.x == 1
    ensures rows < 1 ==> c.y == 1
  {
    Coord(ToShort(AtLeastOne(cols)), ToShort(AtLeastOne(rows)))
  }

  /** `Marshal.ThrowExceptionForHR` raises only for failure HRESULTs,
      which are the negative ones. */
  predicate HResultFailed(hr: int) {
    hr < 0
  }

  /** The outcomes of the three fallible native calls of `Create`:
      the two pipes, the HRESULT of `CreatePseudoConsole`, and whether a
      positive HRESULT still comes with a console handle in `hPc`. */
  datatype CreateOutcomes = CreateOutcomes(inputPipe: NativeResult, outputPipe: NativeResult, consoleHr: int,
                                           consoleOnWarning: bool)

  /** `Create` returns a host exactly when both pipes are made and the
      console's HRESULT is not a failure. */
  predicate CreateSucceeds(o: CreateOutcomes) {
    o.inputPipe.Succeeds? && o.outputPipe.Succeeds? && !HResultFailed(o.consoleHr)
  }

  /** The error a failed `Create` raises: the first failing call's. */
  function CreateError(o: CreateOutcomes): (e: Error)
    requires !CreateSucceeds(o)
    ensures o.inputPipe.FailsWith? ==> e == Win32Error(o.inputPipe.code)
    ensures o.inputPipe.Succeeds? && o.outputPipe.FailsWith? ==> e == Win32Error(o.outputPipe.code)
    ensures o.inputPipe.Succeeds? && o.outputPipe.Succeeds? ==> e == HResultError(o.consoleHr) && o.consoleHr < 0
  {
    if o.inputPipe.FailsWith? then Win32Error(o.inputPipe.code)
    else if o.outputPipe.FailsWith? then Win32Error(o.outputPipe.code)
    else HResultError(o.consoleHr)
  }

  /** The calls of a successful `Create`: both pipes, the console on the
      pty-side ends, and the closing of those ends. */
  function CreateTrace(size: Coord, inputRead: Handle, inputWrite: Handle,
                       outputRead: Handle, outputWrite: Handle, console: Handle): seq<Call>
  {
    [PipeCreated(inputRead, inputWrite), PipeCreated(outputRead, outputWrite),
     ConsoleCreated(size, inputRead, outputWrite, console),
     Closed(inputRead), Closed(outputWrite)]
  }

  /** Lines 44-46 as written: the two `CloseHandle` calls succeed, which
      clears the last error, so the exception reports code 0 and not the
      code of the failed `CreatePipe`. `Create` below reports the failed
      call's code instead. */
  method ReportSecondPipeFailure(os: Os, inputRead: Handle, inputWrite: Handle) returns (e: Error)
    requires os.Valid() && inputRead in os.open && inputWrite in os.open && inputRead != inputWrite
    modifies os
    ensures os.Valid()
    ensures e == Win32Error(0)
    ensures os.open == old(os.open) - {inputRead, inputWrite}
    ensures os.trace == old(os.trace) + [Closed(inputRead), Closed(inputWrite)]
  {
    os.CloseHandle(inputRead);
    os.CloseHandle(inputWrite);
    e := Win32Error(os.lastError);
  }

  /** Lines 50-61 of `Create`: the console on the pty-side ends, then the
      closing of those ends; on a nonzero HRESULT all four ends are closed
      first, and only a failure HRESULT raises. */
  method OpenConsole(os: Os, size: Coord, inputRead: Handle, inputWrite: Handle, outputRead: Handle,
                     outputWrite: Handle, hr: int, opensOnWarning: bool)
    returns (failure: Option<Error>, console: Handle)
    requires os.Valid() && {inputRead, inputWrite, outputRead, outputWrite} <= os.open
    modifies os
    ensures os.Valid()
    ensures os.blocks == old(os.blocks) && os.lists == old(os.lists)
    ensures failure.Some? <==> HResultFailed(hr)
    ensures failure.Some? ==>
      failure.value == HResultError(hr) && os.open == old(os.open) - {inputRead, inputWrite, outputRead, outputWrite}
    ensures hr == 0 ==>
      && console == old(os.next)
      && os.open == old(os.open) - {inputRead, outputWrite} + {console}
      && os.trace == old(os.trace) + [ConsoleCreated(size, inputRead, outputWrite, console),
                                      Closed(inputRead), Closed(outputWrite)]
    ensures hr > 0 ==>
      && (console != NULL <==> opensOnWarning)
      && (console != NULL ==> console == old(os.next))
      && os.open == old(os.open) - {inputRead, inputWrite, outputRead, outputWrite}
                    + (if console != NULL then {console} else {})
  {
    failure := None;
    var result;
    result, console := os.CreatePseudoConsole(size, inputRead, outputWrite, hr, opensOnWarning);
    if result != 0 {
      os.CloseHandle(inputRead);
      os.CloseHandle(inputWrite);
      os.CloseHandle(outputRead);
      os.CloseHandle(outputWrite);
      if HResultFailed(result) {
        return Some(HResultError(result)), console;
      }
    }
    os.CloseHandle(inputRead);
    os.CloseHandle(outputWrite);
  }

  class ConPtyHost {
    const os: Os
    /** The write end of the input pipe: what is written here reaches the console. */
    const inputWriter: Handle
    /** The read end of the output pipe: what the console prints arrives here. */
    const outputReader: Handle
    /** The size the console was created with. */
    ghost const size: Coord
    var pseudoConsole: Handle
    var disposed: bool

    ghost predicate Valid()
      reads this
    {
      disposed ==> pseudoConsole == NULL
    }

    constructor FromParts(os: Os, ghost size: Coord, console: Handle, inputWriter: Handle, outputReader: Handle)
      ensures this.os == os && this.size == size && pseudoConsole == console
      ensures this.inputWriter == inputWriter && this.outputReader == outputReader
      ensures !disposed && Valid()
    {
      this.os := os;
      this.size := size;
      pseudoConsole := console;
      this.inputWriter := inputWriter;
      this.outputReader := outputReader;
      disposed := false;
    }

    /** The native calls the next `Dispose` makes: the input writer, the
        output reader, then the console if there still is one. */
    ghost function DisposeCalls(): seq<Call>
      reads this
    {
      if disposed then []
      else
        [Closed(inputWriter), Closed(outputReader)]
        + (if pseudoConsole != NULL then [ConsoleClosed(pseudoConsole)] else [])
    }

    /** `Create(cols, rows)`. The three native calls' outcomes are inputs.
        A failure leaves no handle open. A positive (non-failure) HRESULT
        from `CreatePseudoConsole` closes all four pipe ends without
        raising, and the host returned then holds two closed pipe ends and
        whatever `hPc` received: a console that stays open (and that
        `Dispose` closes) or a null handle. */
    static method Create(os: Os, cols: int, rows: int, o: CreateOutcomes) returns (r: Result<ConPtyHost, Error>)
      requires os.Valid()
      modifies os
      ensures os.Valid()
      ensures os.blocks == old(os.blocks) && os.lists == old(os.lists)
      ensures r.Success? <==> CreateSucceeds(o)
      ensures r.Failure? ==> r.error == CreateError(o) && os.open == old(os.open)
      ensures r.Success? ==>
        && fresh(r.value) && r.value.os == os && !r.value.disposed && r.value.Valid()
        && r.value.size == ConsoleSize(cols, rows)
        && r.value.inputWriter !in old(os.open) && r.value.outputReader !in old(os.open)
        && r.value.inputWriter != r.value.outputReader
      ensures r.Success? && o.consoleHr == 0 ==>
        && r.value.pseudoConsole !in old(os.open) && r.value.pseudoConsole != NULL
        && r.value.pseudoConsole != r.value.inputWriter && r.value.pseudoConsole != r.value.outputReader
        && os.open == old(os.open) + {r.value.inputWriter, r.value.outputReader, r.value.pseudoConsole}
        && os.trace == old(os.trace) + CreateTrace(ConsoleSize(cols, rows), r.value.inputWriter - 1,
             r.value.inputWriter, r.value.outputReader, r.value.outputReader + 1, r.value.pseudoConsole)
      ensures r.Success? && o.consoleHr > 0 ==>
        && (r.value.pseudoConsole != NULL <==> o.consoleOnWarning)
        && r.value.pseudoConsole !in old(os.open)
        && os.open == old(os.open) + (if o.consoleOnWarning then {r.value.pseudoConsole} else {})
        && r.value.inputWriter !in os.open && r.value.outputReader !in os.open
    {
      var size := ConsoleSize(cols, rows);
      var ok, inputRead, inputWrite := os.CreatePipe(o.inputPipe);
      if !ok {
        return Failure(Win32Error(os.lastError));
      }
      var outputRead, outputWrite;
      ok, outputRead, outputWrite := os.CreatePipe(o.outputPipe);
      if !ok {
        var code := os.lastError;
        os.CloseHandle(inputRead);
        os.CloseHandle(inputWrite);
        return Failure(Win32Error(code));
      }
      var failure, console := OpenConsole(os, size, inputRead, inputWrite, outputRead, outputWrite,
                                          o.consoleHr, o.consoleOnWarning);
      if failure.Some? {
        return Failure(failure.value);
      }
      var host := new ConPtyHost.FromParts(os, size, console, inputWrite, outputRead);
      r := Success(host);
    }

    /** `Resize`: nothing once the console is gone; otherwise the clamped
        size is passed on and a failure HRESULT is raised. */
    method Resize(cols: int, rows: int, hr: int) returns (r: Outcome<Error>)
      requires os.Valid()
      modifies os
      ensures os.Valid()
      ensures old(pseudoConsole) == NULL ==> r == Pass && os.trace == old(os.trace)
      ensures old(pseudoConsole) != NULL ==>
        os.trace == old(os.trace) + [ConsoleResized(pseudoConsole, ConsoleSize(cols, rows), hr)]
      ensures r == if pseudoConsole != NULL && HResultFailed(hr) then Fail(HResultError(hr)) else Pass
      ensures os.open == old(os.open) && os.next == old(os.next)
      ensures os.blocks == old(os.blocks) && os.lists == old(os.lists)
    {
      if pseudoConsole == NULL {
        return Pass;
      }
      var result := os.ResizePseudoConsole(pseudoConsole, ConsoleSize(cols, rows), hr);
      r := if HResultFailed(result) then Fail(HResultError(result)) else Pass;
    }

    /** `Dispose`: once only; closes both pipe ends and then the console. */
    method Dispose()
      requires os.Valid() && Valid()
      modifies this, os
      ensures os.Valid() && Valid() && disposed
      ensures old(disposed) ==> os.open == old(os.open)
      ensures os.trace == old(os.trace) + old(DisposeCalls())
      ensures !old(disposed) ==> os.open == old(os.open) - {inputWriter, outputReader, old(pseudoConsole)}
      ensures pseudoConsole == NULL
      ensures os.next == old(os.next) && os.blocks == old(os.blocks) && os.lists == old(os.lists)
    {
      if disposed {
        return;
      }
      disposed := true;
      os.CloseHandle(inputWriter);
      os.CloseHandle(outputReader);
      if pseudoConsole != NULL {
        os.ClosePseudoConsole(pseudoConsole);
        pseudoConsole := NULL;
      }
    }
  }
}
