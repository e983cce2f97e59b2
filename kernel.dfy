/** The operating-system side of the pseudo-console core, reduced to a
    ledger. Each native call the core makes is a method here; whether it
    succeeds (and with which error code) is an argument supplied by the
    caller, and the ledger only keeps account of what is open:
    kernel objects (pipe ends, pseudo consoles, processes, threads),
    unmanaged memory blocks, initialised attribute lists, the thread's last
    Win32 error, and the order in which calls were made. Handle values are
    handed out from a counter, so a new handle is never one already in use;
    0 stands for `IntPtr.Zero`. */
module Kernel {

  type Handle = nat

  const NULL: Handle := 0

  type Byte = x: int | 0 <= x < 256

  /** Creation flags and the attribute number the launcher uses. */
  const EXTENDED_STARTUPINFO_PRESENT: bv32 := 0x0008_0000
  const CREATE_UNICODE_ENVIRONMENT: bv32 := 0x0000_0400
  const PROC_THREAD_ATTRIBUTE_PSEUDOCONSOLE: int := 0x0002_0016

  /** `ERROR_INVALID_HANDLE`, what closing a handle that is not open reports. */
  const ERROR_INVALID_HANDLE: int := 6

  /** A console size as the kernel receives it (`COORD`, two shorts). */
  datatype Coord = Coord(x: int, y: int)

  /** How a fallible native call ends. */
  datatype NativeResult = Succeeds | FailsWith(code: int)

  /** The errors the core raises. */
  datatype Error =
    | Win32Error(code: int)     // `Win32Exception(GetLastWin32Error())`
    | HResultError(hr: int)     // `Marshal.ThrowExceptionForHR`
    | OutOfMemory               // `Marshal.AllocHGlobal` failing

  /** One native call, as the ledger records it. */
  datatype Call =
    | PipeCreated(read: Handle, write: Handle)
    | PipeFailed
    | Closed(h: Handle)
    | ConsoleCreated(size: Coord, input: Handle, output: Handle, console: Handle)
    | ConsoleFailed(size: Coord, input: Handle, output: Handle, hr: int)
    | ConsoleResized(console: Handle, size: Coord, hr: int)
    | ConsoleClosed(console: Handle)
    | Allocated(block: Handle)
    | HandleWritten(block: Handle, value: Handle)
    | Freed(block: Handle)
    | ListSized
    | ListInitialized(list: Handle, ok: bool)
    | AttributeUpdated(list: Handle, attribute: int, value: Handle, ok: bool)
    | ListDeleted(list: Handle)
    | ProcessCreated(commandLine: string, inheritHandles: bool, flags: bv32, cwd: string, list: Handle, ok: bool)
    | Terminated(process: Handle, exitCode: int)
    | IoCancelled(file: Handle)

  class Os {
    var next: Handle
    var open: set<Handle>
    var blocks: set<Handle>
    var lists: set<Handle>
    var lastError: int
    var trace: seq<Call>

    /** Every handle in use was handed out by the counter. */
    ghost predicate Valid()
      reads this
    {
      && 0 < next
      && (forall h :: h in open ==> 0 < h < next)
      && (forall h :: h in blocks ==> 0 < h < next)
      && lists <= blocks
    }

    constructor ()
      ensures Valid()
      ensures open == {} && blocks == {} && lists == {} && trace == [] && lastError == 0
    {
      next := 1;
      open, blocks, lists := {}, {}, {};
      lastError := 0;
      trace := [];
    }

    /** `CreatePipe`: on success, a read end and a write end, both new. */
    method CreatePipe(outcome: NativeResult) returns (ok: bool, read: Handle, write: Handle)
      requires Valid()
      modifies this
      ensures Valid()
      ensures ok == outcome.Succeeds?
      ensures ok ==> read == old(next) && write == old(next) + 1 && next == old(next) + 2
      ensures ok ==> open == old(open) + {read, write} && trace == old(trace) + [PipeCreated(read, write)]
      ensures !ok ==> read == NULL && write == NULL && next == old(next) && open == old(open)
      ensures !ok ==> trace == old(trace) + [PipeFailed]
      ensures lastError == if ok then 0 else outcome.code
      ensures blocks == old(blocks) && lists == old(lists)
    {
      trace := trace + [if outcome.Succeeds? then PipeCreated(next, next + 1) else PipeFailed];
      if outcome.FailsWith? {
        ok, read, write := false, NULL, NULL;
        lastError := outcome.code;
        return;
      }
      ok, read, write := true, next, next + 1;
      open := open + {read, write};
      next := next + 2;
      lastError := 0;
    }

    /** `CloseHandle`: releases an open handle; any other value only sets
        the last error. */
    method CloseHandle(h: Handle)
      requires Valid()
      modifies this
      ensures Valid()
      ensures open == old(open) - {h} && trace == old(trace) + [Closed(h)]
      ensures lastError == if h in old(open) then 0 else ERROR_INVALID_HANDLE
      ensures next == old(next) && blocks == old(blocks) && lists == old(lists)
    {
      lastError := if h in open then 0 else ERROR_INVALID_HANDLE;
      open := open - {h};
      trace := trace + [Closed(h)];
    }

    /** `CreatePseudoConsole`: HRESULT `hr`. A zero HRESULT hands back a new
        console and a failure (negative) one hands back none; whether a
        positive HRESULT, which is neither, comes with a console is the
        argument `opensOnWarning`. */
    method CreatePseudoConsole(size: Coord, input: Handle, output: Handle, hr: int, opensOnWarning: bool)
      returns (result: int, console: Handle)
      requires Valid()
      modifies this
      ensures Valid()
      ensures result == hr
      ensures console != NULL <==> hr == 0 || (hr > 0 && opensOnWarning)
      ensures console != NULL ==> console == old(next) && next == old(next) + 1 && open == old(open) + {console}
      ensures console != NULL ==> trace == old(trace) + [ConsoleCreated(size, input, output, console)]
      ensures console == NULL ==> next == old(next) && open == old(open)
      ensures console == NULL ==> trace == old(trace) + [ConsoleFailed(size, input, output, hr)]
      ensures blocks == old(blocks) && lists == old(lists) && lastError == old(lastError)
    {
      result := hr;
      if hr < 0 || (hr > 0 && !opensOnWarning) {
        console := NULL;
        trace := trace + [ConsoleFailed(size, input, output, hr)];
        return;
      }
      console := next;
      next := next + 1;
      open := open + {console};
      trace := trace + [ConsoleCreated(size, input, output, console)];
    }

    method ResizePseudoConsole(console: Handle, size: Coord, hr: int) returns (result: int)
      requires Valid()
      modifies this
      ensures Valid()
      ensures result == hr && trace == old(trace) + [ConsoleResized(console, size, hr)]
      ensures next == old(next) && open == old(open) && blocks == old(blocks) && lists == old(lists)
      ensures lastError == old(lastError)
    {
      result := hr;
      trace := trace + [ConsoleResized(console, size, hr)];
    }

    method ClosePseudoConsole(console: Handle)
      requires Valid()
      modifies this
      ensures Valid()
      ensures open == old(open) - {console} && trace == old(trace) + [ConsoleClosed(console)]
      ensures next == old(next) && blocks == old(blocks) && lists == old(lists) && lastError == old(lastError)
    {
      open := open - {console};
      trace := trace + [ConsoleClosed(console)];
    }

    /** `Marshal.AllocHGlobal`: a new block, or `OutOfMemoryException`. */
    method AllocHGlobal(succeeds: bool) returns (block: Handle)
      requires Valid()
      modifies this
      ensures Valid()
      ensures succeeds ==> block == old(next) && next == old(next) + 1 && blocks == old(blocks) + {block}
      ensures succeeds ==> trace == old(trace) + [Allocated(block)]
      ensures !succeeds ==> block == NULL && next == old(next) && blocks == old(blocks) && trace == old(trace)
      ensures open == old(open) && lists == old(lists) && lastError == old(lastError)
    {
      if !succeeds {
        return NULL;
      }
      block := next;
      next := next + 1;
      blocks := blocks + {block};
      trace := trace + [Allocated(block)];
    }

    /** `Marshal.FreeHGlobal`. */
    method FreeHGlobal(block: Handle)
      requires Valid()
      modifies this
      ensures Valid()
      ensures blocks == old(blocks) - {block} && lists == old(lists) - {block}
      ensures trace == old(trace) + [Freed(block)]
      ensures next == old(next) && open == old(open) && lastError == old(lastError)
    {
      blocks := blocks - {block};
      lists := lists - {block};
      trace := trace + [Freed(block)];
    }

    /** The sizing call of `InitializeProcThreadAttributeList` (null list);
        its result is not used. */
    method SizeAttributeList()
      requires Valid()
      modifies this
      ensures Valid()
      ensures trace == old(trace) + [ListSized]
      ensures next == old(next) && open == old(open) && blocks == old(blocks) && lists == old(lists)
      ensures lastError == old(lastError)
    {
      trace := trace + [ListSized];
    }

    /** `Marshal.WriteIntPtr`: stores a handle value in an allocated block. */
    method WriteHandle(block: Handle, value: Handle)
      requires Valid() && block in blocks
      modifies this
      ensures Valid()
      ensures trace == old(trace) + [HandleWritten(block, value)]
      ensures next == old(next) && open == old(open) && blocks == old(blocks) && lists == old(lists)
      ensures lastError == old(lastError)
    {
      trace := trace + [HandleWritten(block, value)];
    }

    /** `InitializeProcThreadAttributeList` on an allocated block. */
    method InitializeAttributeList(list: Handle, outcome: NativeResult) returns (ok: bool)
      requires Valid() && list in blocks
      modifies this
      ensures Valid()
      ensures ok == outcome.Succeeds?
      ensures lists == if ok then old(lists) + {list} else old(lists)
      ensures lastError == if ok then 0 else outcome.code
      ensures trace == old(trace) + [ListInitialized(list, ok)]
      ensures next == old(next) && open == old(open) && blocks == old(blocks)
    {
      ok := outcome.Succeeds?;
      if ok {
        lists := lists + {list};
        lastError := 0;
      } else {
        lastError := outcome.code;
      }
      trace := trace + [ListInitialized(list, ok)];
    }

    /** `UpdateProcThreadAttribute` on an initialised list. */
    method UpdateAttribute(list: Handle, attribute: int, value: Handle, outcome: NativeResult) returns (ok: bool)
      requires Valid() && list in lists
      modifies this
      ensures Valid()
      ensures ok == outcome.Succeeds?
      ensures lastError == if ok then 0 else outcome.code
      ensures trace == old(trace) + [AttributeUpdated(list, attribute, value, ok)]
      ensures next == old(next) && open == old(open) && blocks == old(blocks) && lists == old(lists)
    {
      ok := outcome.Succeeds?;
      lastError := if ok then 0 else outcome.code;
      trace := trace + [AttributeUpdated(list, attribute, value, ok)];
    }

    /** `DeleteProcThreadAttributeList`. */
    method DeleteAttributeList(list: Handle)
      requires Valid()
      modifies this
      ensures Valid()
      ensures lists == old(lists) - {list} && trace == old(trace) + [ListDeleted(list)]
      ensures next == old(next) && open == old(open) && blocks == old(blocks) && lastError == old(lastError)
    {
      lists := lists - {list};
      trace := trace + [ListDeleted(list)];
    }

    /** `CreateProcessW`: on success a new process handle and thread handle
        and the process id reported by the kernel. */
    method CreateProcess(commandLine: string, inheritHandles: bool, flags: bv32, cwd: string, list: Handle,
                         outcome: NativeResult, reportedId: nat)
      returns (ok: bool, process: Handle, thread: Handle, processId: nat)
      requires Valid()
      modifies this
      ensures Valid()
      ensures ok == outcome.Succeeds?
      ensures ok ==> process == old(next) && thread == old(next) + 1 && next == old(next) + 2
      ensures ok ==> open == old(open) + {process, thread} && processId == reportedId
      ensures !ok ==> process == NULL && thread == NULL && next == old(next) && open == old(open)
      ensures lastError == if ok then 0 else outcome.code
      ensures trace == old(trace) + [ProcessCreated(commandLine, inheritHandles, flags, cwd, list, ok)]
      ensures blocks == old(blocks) && lists == old(lists)
    {
      ok := outcome.Succeeds?;
      trace := trace + [ProcessCreated(commandLine, inheritHandles, flags, cwd, list, ok)];
      if !ok {
        process, thread, processId := NULL, NULL, 0;
        lastError := outcome.code;
        return;
      }
      process, thread, processId := next, next + 1, reportedId;
      next := next + 2;
      open := open + {process, thread};
      lastError := 0;
    }

    /** `TerminateProcess`: a request only; no handle is released. */
    method TerminateProcess(process: Handle, exitCode: int)
      requires Valid()
      modifies this
      ensures Valid()
      ensures trace == old(trace) + [Terminated(process, exitCode)]
      ensures next == old(next) && open == old(open) && blocks == old(blocks) && lists == old(lists)
    {
      trace := trace + [Terminated(process, exitCode)];
    }

    /** `CancelIoEx`: interrupts a pending read on `file`. */
    method CancelIo(file: Handle)
      requires Valid()
      modifies this
      ensures Valid()
      ensures trace == old(trace) + [IoCancelled(file)]
      ensures next == old(next) && open == old(open) && blocks == old(blocks) && lists == old(lists)
    {
      trace := trace + [IoCancelled(file)];
    }
  }
}
