/** The shell process attached to a pseudo console
    (TermRunner/Pty/ProcessHost.cs). Launching builds a one-entry
    process-thread attribute list naming the console, starts the process
    with it, and releases the list and the buffer holding the console
    handle whichever way the launch ends. */
module Process {
  import opened Wrappers
  import opened Kernel

  /** The outcomes of the native calls a launch makes, in call order. */
  datatype StartOutcomes = StartOutcomes(
    listAllocated: bool,        // `AllocHGlobal` for the attribute list
    listInitialized: NativeResult,
    slotAllocated: bool,        // `AllocHGlobal` for the console-handle buffer
    attributeUpdated: NativeResult,
    processCreated: NativeResult,
    processId: nat)             // `dwProcessId` as the kernel reports it

  /** The creation flags `CreateProcessW` receives. */
  function LaunchFlags(): (f: bv32)
    ensures f & EXTENDED_STARTUPINFO_PRESENT == EXTENDED_STARTUPINFO_PRESENT
    ensures f & CREATE_UNICODE_ENVIRONMENT == CREATE_UNICODE_ENVIRONMENT
    ensures f & !(EXTENDED_STARTUPINFO_PRESENT | CREATE_UNICODE_ENVIRONMENT) == 0
  {
    EXTENDED_STARTUPINFO_PRESENT | CREATE_UNICODE_ENVIRONMENT
  }

  /** The launch fails exactly when one of its native calls does. */
  predicate LaunchSucceeds(o: StartOutcomes) {
    o.listAllocated && o.listInitialized.Succeeds? && o.slotAllocated
    && o.attributeUpdated.Succeeds? && o.processCreated.Succeeds?
  }

  /** The error a failed launch raises: the first failing call's. */
  function LaunchError(o: StartOutcomes): (e: Error)
    requires !LaunchSucceeds(o)
    ensures !o.listAllocated ==> e == OutOfMemory
    ensures o.listAllocated && o.listInitialized.FailsWith? ==> e == Win32Error(o.listInitialized.code)
    ensures o.listAllocated && o.listInitialized.Succeeds? && !o.slotAllocated ==> e == OutOfMemory
    ensures o.listAllocated && o.listInitialized.Succeeds? && o.slotAllocated && o.attributeUpdated.FailsWith? ==>
      e == Win32Error(o.attributeUpdated.code)
    ensures o.listAllocated && o.listInitialized.Succeeds? && o.slotAllocated && o.attributeUpdated.Succeeds? ==>
      e == Win32Error(o.processCreated.code)
  {
    if !o.listAllocated then OutOfMemory
    else if o.listInitialized.FailsWith? then Win32Error(o.listInitialized.code)
    else if !o.slotAllocated then OutOfMemory
    else if o.attributeUpdated.FailsWith? then Win32Error(o.attributeUpdated.code)
    else Win32Error(o.processCreated.code)
  }

  /** How a launch hands the console to `UpdateProcThreadAttribute`: as
      the address of the buffer the handle was written into, or as the
      handle itself, which is how the pseudo-console attribute is
      documented to be passed. */
  datatype ConsoleValue = BufferAddress | HandleItself

  /** The attribute value for console `console` written into buffer `slot`. */
  function AttributeValue(how: ConsoleValue, console: Handle, slot: Handle): Handle {
    if how.BufferAddress? then slot else console
  }

  /** The calls of a successful launch on list block `list` and console
      buffer `slot`, passing `value` for the pseudo-console attribute: the
      console handle is written into the buffer, the attribute is set
      before the process is created, and everything allocated is released
      at the end. */
  function LaunchTrace(console: Handle, commandLine: string, cwd: string, list: Handle, slot: Handle,
                       value: Handle): (t: seq<Call>)
    ensures ProcessCreated(commandLine, true, LaunchFlags(), cwd, list, true) in t
    ensures HandleWritten(slot, console) in t
    ensures AttributeUpdated(list, PROC_THREAD_ATTRIBUTE_PSEUDOCONSOLE, value, true) in t
    ensures Allocated(list) in t && Freed(list) in t && Allocated(slot) in t && Freed(slot) in t
  {
    [ListSized, Allocated(list), ListInitialized(list, true), Allocated(slot), HandleWritten(slot, console),
     AttributeUpdated(list, PROC_THREAD_ATTRIBUTE_PSEUDOCONSOLE, value, true),
     ProcessCreated(commandLine, true, LaunchFlags(), cwd, list, true),
     ListDeleted(list), Freed(list), Freed(slot)]
  }

  /** The try block of `StartAttachedToPty` on an allocated list block:
      initialise the list, allocate the buffer and write the console handle
      into it, set the pseudo-console attribute, create the process. The
      first failing call ends it with that call's error. */
  method LaunchTry(os: Os, list: Handle, console: Handle, commandLine: string, cwd: string, o: StartOutcomes,
                   how: ConsoleValue)
    returns (slot: Handle, failure: Option<Error>, process: Handle, thread: Handle, processId: nat)
    requires os.Valid() && list in os.blocks && list !in os.lists && o.listAllocated
    modifies os
    ensures os.Valid() && old(os.next) <= os.next
    ensures slot != NULL <==> o.listInitialized.Succeeds? && o.slotAllocated
    ensures slot != NULL ==> slot !in old(os.blocks) && slot == old(os.next)
    ensures os.blocks == old(os.blocks) + (if slot != NULL then {slot} else {})
    ensures os.lists == old(os.lists) + (if o.listInitialized.Succeeds? then {list} else {})
    ensures failure.None? <==> LaunchSucceeds(o)
    ensures failure.Some? ==> failure.value == LaunchError(o) && os.open == old(os.open)
    ensures failure.None? ==>
      && process == old(os.next) + 1 && thread == old(os.next) + 2 && processId == o.processId
      && os.open == old(os.open) + {process, thread}
      && os.trace == old(os.trace) + [ListInitialized(list, true), Allocated(slot), HandleWritten(slot, console),
           AttributeUpdated(list, PROC_THREAD_ATTRIBUTE_PSEUDOCONSOLE, AttributeValue(how, console, slot), true),
           ProcessCreated(commandLine, true, LaunchFlags(), cwd, list, true)]
  {
    slot, failure, process, thread, processId := NULL, None, NULL, NULL, 0;
    var ok := os.InitializeAttributeList(list, o.listInitialized);
    if !ok {
      failure := Some(Win32Error(os.lastError));
      return;
    }
    slot := os.AllocHGlobal(o.slotAllocated);
    if slot == NULL {
      failure := Some(OutOfMemory);
      return;
    }
    os.WriteHandle(slot, console);
    ok := os.UpdateAttribute(list, PROC_THREAD_ATTRIBUTE_PSEUDOCONSOLE, AttributeValue(how, console, slot),
                             o.attributeUpdated);
    if !ok {
      failure := Some(Win32Error(os.lastError));
      return;
    }
    ok, process, thread, processId := os.CreateProcess(commandLine, true, LaunchFlags(), cwd, list,
                                                       o.processCreated, o.processId);
    if !ok {
      failure := Some(Win32Error(os.lastError));
    }
  }

  /** The finally block: delete and free the list if allocated, free the
      console-handle buffer if allocated. */
  method LaunchFinally(os: Os, list: Handle, slot: Handle)
    requires os.Valid()
    modifies os
    ensures os.Valid()
    ensures os.blocks == old(os.blocks) - {list, slot} && os.lists == old(os.lists) - {list, slot}
    ensures os.trace == old(os.trace) + (if list != NULL then [ListDeleted(list), Freed(list)] else [])
      + (if slot != NULL then [Freed(slot)] else [])
    ensures os.open == old(os.open) && os.next == old(os.next)
  {
    if list != NULL {
      os.DeleteAttributeList(list);
      os.FreeHGlobal(list);
    }
    if slot != NULL {
      os.FreeHGlobal(slot);
    }
  }

  /** The native calls of `StartAttachedToPty`: size and allocate the
      list, run the try block, then the finally block. */
  method Launch(os: Os, console: Handle, commandLine: string, cwd: string, o: StartOutcomes, how: ConsoleValue)
    returns (failure: Option<Error>, process: Handle, thread: Handle, processId: nat)
    requires os.Valid()
    modifies os
    ensures os.Valid()
    ensures os.blocks == old(os.blocks) && os.lists == old(os.lists)
    ensures failure.None? <==> LaunchSucceeds(o)
    ensures failure.Some? ==> failure.value == LaunchError(o) && os.open == old(os.open)
    ensures failure.None? ==>
      && process == old(os.next) + 2 && thread == old(os.next) + 3 && processId == o.processId
      && os.open == old(os.open) + {process, thread}
      && os.trace == old(os.trace) + LaunchTrace(console, commandLine, cwd, old(os.next), old(os.next) + 1,
                                                 AttributeValue(how, console, old(os.next) + 1))
  {
    process, thread, processId := NULL, NULL, 0;
    os.SizeAttributeList();
    var list := os.AllocHGlobal(o.listAllocated);
    if list == NULL {
      // `AllocHGlobal` raises before the try block: nothing to release.
      return Some(OutOfMemory), process, thread, processId;
    }
    var slot;
    slot, failure, process, thread, processId := LaunchTry(os, list, console, commandLine, cwd, o, how);
    LaunchFinally(os, list, slot);
  }

  /** What a launch achieves, `value` being what it passed for the
      pseudo-console attribute. Whatever the outcome, no memory block and
      no attribute list outlives the call; a failure raises the first
      failing step's error and opens no handle; a success holds exactly the
      new process and thread handles. */
  twostate predicate Started(os: Os, console: Handle, commandLine: string, cwd: string, o: StartOutcomes,
                             value: Handle, new r: Result<ProcessHost, Error>)
    reads os, if r.Success? then {r.value} else {}
  {
    && os.blocks == old(os.blocks) && os.lists == old(os.lists)
    && (r.Success? <==> LaunchSucceeds(o))
    && (r.Failure? ==> r.error == LaunchError(o) && os.open == old(os.open))
    && (r.Success? ==>
          && fresh(r.value) && r.value.os == os && r.value.Valid() && !r.value.disposed
          && r.value.processId == o.processId
          && r.value.console == console && r.value.commandLine == commandLine && r.value.cwd == cwd
          && r.value.processHandle != NULL && r.value.threadHandle != NULL
          && r.value.processHandle != r.value.threadHandle
          && r.value.processHandle !in old(os.open) && r.value.threadHandle !in old(os.open)
          && os.open == old(os.open) + {r.value.processHandle, r.value.threadHandle}
          && os.trace == old(os.trace) + LaunchTrace(console, commandLine, cwd, old(os.next), old(os.next) + 1, value))
  }

  class ProcessHost {
    const os: Os
    const processId: nat
    /** What the process was launched with. */
    ghost const console: Handle
    ghost const commandLine: string
    ghost const cwd: string
    var processHandle: Handle
    var threadHandle: Handle
    var disposed: bool

    ghost predicate Valid()
      reads this
    {
      disposed ==> processHandle == NULL && threadHandle == NULL
    }

    constructor FromParts(os: Os, ghost console: Handle, ghost commandLine: string, ghost cwd: string,
                          processHandle: Handle, threadHandle: Handle, processId: nat)
      ensures this.console == console && this.commandLine == commandLine && this.cwd == cwd
      ensures this.os == os && this.processHandle == processHandle && this.threadHandle == threadHandle
      ensures this.processId == processId && !disposed && Valid()
    {
      this.os := os;
      this.console, this.commandLine, this.cwd := console, commandLine, cwd;
      this.processHandle := processHandle;
      this.threadHandle := threadHandle;
      this.processId := processId;
      disposed := false;
    }

    /** The launch, shared by both versions of `StartAttachedToPty`. */
    static method Start(os: Os, console: Handle, commandLine: string, cwd: string, o: StartOutcomes,
                        how: ConsoleValue)
      returns (r: Result<ProcessHost, Error>)
      requires os.Valid()
      modifies os
      ensures os.Valid() && Started(os, console, commandLine, cwd, o, AttributeValue(how, console, old(os.next) + 1), r)
    {
      var failure, process, thread, processId := Launch(os, console, commandLine, cwd, o, how);
      if failure.Some? {
        return Failure(failure.value);
      }
      var host := new ProcessHost.FromParts(os, console, commandLine, cwd, process, thread, processId);
      r := Success(host);
    }

    /** `StartAttachedToPty` as written: line 51 passes the buffer holding
        the console handle where the handle itself is expected, so the
        console handle never reaches the attribute list. */
    static method StartAttachedToPtyAsWritten(os: Os, console: Handle, commandLine: string, cwd: string,
                                              o: StartOutcomes)
      returns (r: Result<ProcessHost, Error>)
      requires os.Valid()
      modifies os
      ensures os.Valid() && Started(os, console, commandLine, cwd, o, old(os.next) + 1, r)
      ensures r.Success? && (console == NULL || console in old(os.open)) ==>
        AttributeUpdated(old(os.next), PROC_THREAD_ATTRIBUTE_PSEUDOCONSOLE, console, true) !in os.trace[|old(os.trace)|..]
    {
      r := Start(os, console, commandLine, cwd, o, BufferAddress);
      if r.Success? {
        assert os.trace[|old(os.trace)|..]
          == LaunchTrace(console, commandLine, cwd, old(os.next), old(os.next) + 1, old(os.next) + 1);
      }
    }

    /** `StartAttachedToPty` passing the console handle itself as the
        attribute value. */
    static method StartAttachedToPty(os: Os, console: Handle, commandLine: string, cwd: string, o: StartOutcomes)
      returns (r: Result<ProcessHost, Error>)
      requires os.Valid()
      modifies os
      ensures os.Valid() && Started(os, console, commandLine, cwd, o, console, r)
      ensures r.Success? ==>
        AttributeUpdated(old(os.next), PROC_THREAD_ATTRIBUTE_PSEUDOCONSOLE, console, true) in os.trace[|old(os.trace)|..]
    {
      r := Start(os, console, commandLine, cwd, o, HandleItself);
      if r.Success? {
        assert os.trace[|old(os.trace)|..]
          == LaunchTrace(console, commandLine, cwd, old(os.next), old(os.next) + 1, console);
      }
    }

    /** The native call the next `Terminate` makes. */
    ghost function TerminateCalls(): seq<Call>
      reads this
    {
      if processHandle != NULL then [Terminated(processHandle, 0)] else []
    }

    /** The native calls the next `Dispose` makes: the thread handle, then
        the process handle, each if held. */
    ghost function DisposeCalls(): seq<Call>
      reads this
    {
      if disposed then []
      else
        (if threadHandle != NULL then [Closed(threadHandle)] else [])
        + (if processHandle != NULL then [Closed(processHandle)] else [])
    }

    /** `Terminate`: exit code 0; nothing once the handle is zero. */
    method Terminate()
      requires os.Valid()
      modifies os
      ensures os.Valid() && unchanged(this)
      ensures os.trace == old(os.trace) + TerminateCalls()
      ensures os.open == old(os.open) && os.next == old(os.next)
      ensures os.blocks == old(os.blocks) && os.lists == old(os.lists)
    {
      if processHandle == NULL {
        return;
      }
      os.TerminateProcess(processHandle, 0);
    }

    /** `Dispose`: once only; the thread handle, then the process handle,
        each closed if held and zeroed. */
    method Dispose()
      requires os.Valid() && Valid()
      modifies this, os
      ensures os.Valid() && Valid() && disposed
      ensures processHandle == NULL && threadHandle == NULL
      ensures os.trace == old(os.trace) + old(DisposeCalls())
      ensures old(disposed) ==> os.open == old(os.open)
      ensures !old(disposed) ==> os.open == old(os.open) - {old(threadHandle), old(processHandle)}
      ensures os.next == old(os.next) && os.blocks == old(os.blocks) && os.lists == old(os.lists)
    {
      if disposed {
        return;
      }
      disposed := true;
      if threadHandle != NULL {
        os.CloseHandle(threadHandle);
        threadHandle := NULL;
      }
      if processHandle != NULL {
        os.CloseHandle(processHandle);
        processHandle := NULL;
      }
    }
  }
}
