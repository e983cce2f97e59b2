# CUIBOX terminal core, modelled in Dafny

CUIBOX has two halves, and this project models the bookkeeping core of both.

- **Rust terminal UI** (`src/tabs.rs`, `src/app.rs`):
  - an ordered tab list with an active cursor, which can be clamped, added to, removed from with cursor repair, and cycled;
  - the application policy on top of the tab list: one to four profiles with one pane per profile, resize de-duplication through a cached pane size, and the Ctrl+Q / Ctrl+N / Ctrl+P keys.
- **C# ConPTY host** (`TermRunner/...`):
  - the pseudo console and its two pipes (`ConPtyHost`);
  - the shell process started on it (`ProcessHost`);
  - the byte pump between the pipes and the session (`PtyIoPump`);
  - the session that wires these together (`TerminalSession`);
  - the WebView2 frontend with its init handshake and message dispatch (`TerminalWebViewHost`).

Each source class whose fields change becomes a Dafny `class` with a `Valid()` invariant. Its methods carry `modifies` clauses and state their whole new state. The decisions and sequences the methods follow are pure functions, and lemmas prove the properties the source promises about them.

Two collaborators are abstract and only record the calls made on them:

- The pane library `cockpit` is `Cockpit.PaneManager`.
- The Windows kernel is `Kernel.Os`, a **ledger** of:
  - open kernel handles;
  - `AllocHGlobal` blocks;
  - initialised attribute lists;
  - the thread's last Win32 error;
  - the ordered trace of native calls.

Every fallible native call takes its outcome as an argument. Handles are drawn from a counter, so a new handle is never one already open. On each failure path, the ledger is what shows that exactly the handles opened so far are closed.

| module (file) | source |
|---|---|
| `Wrappers` (wrappers.dfy), `Arith` (arith.dfy) | shared helpers: Option/Result/Outcome and the uniqueness of Euclidean remainders |
| `Tabs` (tabs.dfy) | src/tabs.rs |
| `Cockpit` (cockpit.dfy) | the `cockpit` crate as a call recorder |
| `App` (app.dfy) | src/app.rs |
| `Kernel` (kernel.dfy) | the kernel32 / `Marshal` calls of TermRunner/Pty |
| `ConPty` (conpty.dfy) | TermRunner/Pty/ConPtyHost.cs |
| `Process` (process.dfy) | TermRunner/Pty/ProcessHost.cs |
| `Pump` (pump.dfy) | TermRunner/Pty/PtyIoPump.cs |
| `Frontend` (frontend.dfy) | the event-argument records of TermRunner/Terminal/ITerminalFrontend.cs |
| `WebView` (webview.dfy) | TermRunner/Terminal/TerminalWebViewHost.cs |
| `Session` (session.dfy) | TermRunner/Runtime/TerminalSession.cs |

Two behaviours of the code worth stating:

- **Zero-byte reads.** `ReadLoop` continues after a successful zero-byte read (TermRunner/Pty/PtyIoPump.cs:55-65); it does not end there. `Pump.Deliveries` delivers nothing for such a read and goes on.
- **HRESULT failures.** `Marshal.ThrowExceptionForHR` raises only for failure HRESULTs, which are the negative ones. `ConPtyHost.Create` tests `hr != 0` but then calls it. So a positive HRESULT from `CreatePseudoConsole` closes all four pipe ends without raising. `Create` then returns a host holding two closed pipe ends and whatever `hPc` received. Whether that is a console, which stays open until `Dispose` closes it, or a null handle is an input (`CreateOutcomes.consoleOnWarning`). Likewise a positive HRESULT from `ResizePseudoConsole` is not an error. `ConPty.HResultFailed` captures this, and the contracts of `Create` and `Resize` state both cases.

## Model

| member | source | states |
|---|---|---|
| Tabs.RemovedAt | src/tabs.rs:64 | the list `Vec::remove` leaves is one shorter, identical before `index`, and shifted down by one after it |
| Tabs.ClampActive | src/tabs.rs:37-43 | `set_active` yields 0 on an empty list, the index itself when in range, and the last index otherwise; the cursor invariant holds |
| Tabs.NextActive | src/tabs.rs:75-80 | `next` leaves an empty list's cursor alone and otherwise steps forward, wrapping the last tab to the first; the result is a valid index |
| Tabs.PrevActive | src/tabs.rs:82-91 | `prev` leaves an empty list's cursor alone and otherwise steps back, wrapping the first tab to the last |
| Tabs.RepairKeepsInvariant | src/tabs.rs:65-71 | the cursor repair after a removal keeps "empty ⇒ 0, else in range" |
| Tabs.RemoveKeepsActiveTab | src/tabs.rs:65-71 | removing a tab other than the active one leaves the cursor on the same tab |
| Tabs.RemoveActiveTab | src/tabs.rs:65-71 | removing the active tab moves the cursor to the tab after it, or to the new last tab when it was the last |
| Tabs.PrevUndoesNext | src/tabs.rs:75-91 | `prev` after `next` restores the cursor, and so does `next` after `prev` |
| Tabs.NextTimesIsRotation | src/tabs.rs:75-80 | `k` calls of `next` move the cursor to `(active + k) % len` |
| Tabs.FullCycleReturns | src/tabs.rs:75-80 | `len` calls of `next` return to the starting tab |
| Tabs.RepairActive | src/tabs.rs:65-71 | the repaired cursor never moves forward, stays put when the removed tab came after it, is 0 for an empty list, and stays on a remaining tab when it was on a tab before |
| Tabs.TabsState.constructor | src/tabs.rs:17-19 | `new` keeps the given tabs and starts with `active == 0` |
| Tabs.TabsState.IsEmpty | src/tabs.rs:29-31 | true exactly when there are no tabs |
| Tabs.TabsState.ActiveTab | src/tabs.rs:45-47 | `Some` exactly when `active < len`, and then the tab at `active` |
| Tabs.TabsState.SetActive | src/tabs.rs:37-43 | the cursor becomes `ClampActive(index, len)`; the tabs are untouched |
| Tabs.TabsState.AddTab | src/tabs.rs:53-58 | appends at the end; the cursor becomes 0 only on the first tab and is otherwise unchanged |
| Tabs.TabsState.RemoveTab | src/tabs.rs:60-73 | out of range: None and nothing changes; in range: returns that tab, the list becomes `RemovedAt`, the cursor is repaired and keeps naming the same tab when another tab went |
| Tabs.TabsState.Next | src/tabs.rs:75-80 | the cursor becomes `NextActive`; the invariant is kept |
| Tabs.TabsState.Prev | src/tabs.rs:82-91 | the cursor becomes `PrevActive`; the invariant is kept |
| Cockpit.PaneManager.constructor | src/app.rs:26 | a fresh manager has recorded no call |
| Cockpit.PaneManager.Spawn | src/app.rs:43-45 | records the spawn request and answers the supplied outcome |
| Cockpit.PaneManager.ResizePane | src/app.rs:95 | records one resize of that pane to that size |
| Cockpit.PaneManager.SetFocus | src/app.rs:140 | records one focus of that pane |
| Cockpit.PaneManager.RouteKey | src/app.rs:119 | records the routed key and answers the supplied outcome |
| Cockpit.PaneManager.SendInput | src/app.rs:124 | records the input text and answers the supplied outcome |
| App.CheckProfileCount | src/app.rs:19-24 | passes exactly for 1 to 4 profiles; an empty list and more than 4 fail with their own errors |
| App.FirstFailedSpawnIsFirst | src/app.rs:29-50 | the index found is the first failed spawn and every earlier spawn succeeded; finding none means all succeeded |
| App.FirstFailedSpawn | src/app.rs:29-50 | a failed spawn it reports lies in the range searched and did fail |
| App.SpawnCalls | src/app.rs:29-45 | one spawn per profile, in profile order, each with that profile's configuration |
| App.TabsFor | src/app.rs:46-49 | one tab per profile, in order, holding the profile and the pane its spawn returned |
| App.PaneSizeFor | src/app.rs:82-86 | a size exists exactly when both sides exceed 2, and it is each side minus 2 |
| App.ResizeEach | src/app.rs:93-96 | one resize per tab, in tab order, all to the same pane size |
| App.ResizeCalls | src/app.rs:81-97 | calls are made only when the area leaves room for a pane and its size differs from the cached one, and then one resize per tab, in tab order, to the area minus 2 each way |
| App.LastSizeAfter | src/app.rs:81-97 | the cache becomes the area minus 2 each way when that leaves room for a pane, and is kept otherwise |
| App.ResizeAllIdempotent | src/app.rs:87-90 | a second `resize_all` of the same area issues no call and keeps the cached size |
| App.ClearedCacheReapplies | src/app.rs:99-101 | after `handle_resize`, `resize_all` resizes every pane again even for an unchanged area |
| App.ActionFor | src/app.rs:103-117 | Ctrl+Q, Ctrl+N and Ctrl+P map to quit, next and previous (each if and only if), and every other key is forwarded |
| App.App.New | src/app.rs:18-61 | fails for 0 or more than 4 profiles before spawning; otherwise the first failed spawn aborts with that profile's name; on success one tab per profile, cursor 0, no cached size, and the calls are the spawns in order and then one focus of the first pane |
| App.App.ActivePaneId | src/app.rs:71-75 | the active tab's pane, present exactly when the cursor names a tab |
| App.App.ActiveProfileName | src/app.rs:77-79 | the active tab's profile name, present exactly when the cursor names a tab |
| App.App.ResizeAll | src/app.rs:81-97 | the calls made are `ResizeCalls` of the cached size and the area, and the cache becomes `LastSizeAfter` |
| App.App.HandleResize | src/app.rs:99-101 | clears the cached pane size |
| App.App.HandleKey | src/app.rs:103-121 | Ctrl+Q sets quit and calls nothing; Ctrl+N / Ctrl+P move the cursor and focus the new active pane; any other key is routed and the manager's refusal is an error |
| App.App.HandlePaste | src/app.rs:123-126 | sends the text as input and reports the manager's refusal |
| App.App.NextTab | src/app.rs:128-131 | the cursor moves by `NextActive` and the new active pane is focused |
| App.App.PrevTab | src/app.rs:133-136 | the cursor moves by `PrevActive` and the new active pane is focused |
| App.App.FocusActive | src/app.rs:138-142 | focuses the active tab's pane, and calls nothing when there is none |
| Kernel.Os.CreatePipe | TermRunner/Pty/ConPtyHost.cs:170-171 | on success two new, distinct, open handles and a cleared last error; on failure nothing opened and the failure code as last error |
| Kernel.Os.CloseHandle | TermRunner/Pty/ConPtyHost.cs:220-221 | the handle is no longer open; the last error is 0 if it was open and `ERROR_INVALID_HANDLE` otherwise |
| Kernel.Os.CreatePseudoConsole | TermRunner/Pty/ConPtyHost.cs:173-174 | returns the HRESULT; a new open console handle when it is 0, none for a failure HRESULT, and for a positive one as the outcome says |
| Kernel.Os.ResizePseudoConsole | TermRunner/Pty/ConPtyHost.cs:176-177 | records the resize and returns the HRESULT; no handle changes |
| Kernel.Os.ClosePseudoConsole | TermRunner/Pty/ConPtyHost.cs:179-180 | the console handle is no longer open |
| Kernel.Os.AllocHGlobal | TermRunner/Pty/ProcessHost.cs:34 | on success a new memory block; on failure nothing is allocated |
| Kernel.Os.WriteHandle | TermRunner/Pty/ProcessHost.cs:45 | records the handle written into an allocated block; no resource changes |
| Kernel.Os.FreeHGlobal | TermRunner/Pty/ProcessHost.cs:83 | the block is released, and with it any attribute list living in it |
| Kernel.Os.SizeAttributeList | TermRunner/Pty/ProcessHost.cs:32-33 | the sizing call changes no resource |
| Kernel.Os.InitializeAttributeList | TermRunner/Pty/ConPtyHost.cs:204-205 | on an allocated block: on success makes it an attribute list and clears the last error; a failure sets the failure code as last error |
| Kernel.Os.UpdateAttribute | TermRunner/Pty/ConPtyHost.cs:207-215 | on an initialised list: records the attribute and value; the last error is cleared on success and the failure code otherwise |
| Kernel.Os.DeleteAttributeList | TermRunner/Pty/ConPtyHost.cs:217-218 | the list is no longer initialised; its memory is still allocated |
| Kernel.Os.CreateProcess | TermRunner/Pty/ConPtyHost.cs:191-202 | on success new process and thread handles and the reported process id; on failure nothing opened and the failure code as last error |
| Kernel.Os.TerminateProcess | TermRunner/Pty/ConPtyHost.cs:223-224 | a request only: no handle is released |
| Kernel.Os.CancelIo | TermRunner/Pty/ConPtyHost.cs:188-189 | records the cancellation; no handle is released |
| ConPty.AtLeastOne | TermRunner/Pty/ConPtyHost.cs:27-28 | `Math.Max(n, 1)`: at least 1, and `n` itself when it already is |
| ConPty.ToShort | TermRunner/Pty/ConPtyHost.cs:49 | the `(short)` cast lies in the 16-bit signed range and is the identity on it |
| ConPty.ToShortWraps | TermRunner/Pty/ConPtyHost.cs:49 | the cast sees its argument only modulo 2^16 |
| ConPty.ConsoleSize | TermRunner/Pty/ConPtyHost.cs:27-49 | each side is clamped to at least 1 and cast; an in-range side is passed unchanged and no upper clamp exists |
| ConPty.CreateError | TermRunner/Pty/ConPtyHost.cs:37-58 | the error of a failed `Create` is that of the first failing call: either pipe's Win32 code or the console's negative HRESULT |
| ConPty.ReportSecondPipeFailure | TermRunner/Pty/ConPtyHost.cs:42-47 | as written, the second pipe's failure closes both input-pipe ends and then reports Win32 code 0 |
| ConPty.OpenConsole | TermRunner/Pty/ConPtyHost.cs:50-61 | a failure HRESULT closes all four pipe ends and raises; HRESULT 0 opens the console and closes the two pty-side ends; a positive HRESULT closes all four ends and keeps the console if one was handed back |
| ConPty.ConPtyHost.Create | TermRunner/Pty/ConPtyHost.cs:25-66 | succeeds exactly when both pipes are made and the HRESULT is not a failure; a failure raises `CreateError` with no handle left open; on HRESULT 0 exactly the input writer, output reader and console stay open, with the clamped size and the pty-side ends closed; on a positive HRESULT all four pipe ends are closed and the host holds a console exactly when the call handed one back, which is then the only handle left open |
| ConPty.ConPtyHost.Resize | TermRunner/Pty/ConPtyHost.cs:68-83 | a no-op once the console is gone; otherwise passes the clamped size and raises only a failure HRESULT; no handle changes |
| ConPty.ConPtyHost.Dispose | TermRunner/Pty/ConPtyHost.cs:85-101 | the first call closes the input writer, then the output reader, then the console, and zeroes it; later calls change nothing |
| Process.LaunchFlags | TermRunner/Pty/ProcessHost.cs:67 | exactly the two bits `EXTENDED_STARTUPINFO_PRESENT` and `CREATE_UNICODE_ENVIRONMENT` are set |
| Process.LaunchError | TermRunner/Pty/ProcessHost.cs:34-74 | the error of a failed launch is that of the first failing step: out of memory, or the Win32 code of the failing call |
| Process.LaunchTrace | TermRunner/Pty/ProcessHost.cs:32-90 | a successful launch writes the console handle into its buffer, sets the pseudo-console attribute to the value passed, creates the process with handle inheritance and the two flags, and frees both blocks it allocated |
| Process.LaunchTry | TermRunner/Pty/ProcessHost.cs:37-77 | the console-handle buffer is allocated exactly when initialisation succeeded and its allocation did; the console handle is written into it and the attribute gets the buffer's address (as written) or the handle (corrected); the first failing call ends the block with its error; success opens exactly the process and thread handles |
| Process.LaunchFinally | TermRunner/Pty/ProcessHost.cs:78-90 | deletes and frees the list when allocated and frees the buffer when allocated; no handle changes |
| Process.Launch | TermRunner/Pty/ProcessHost.cs:32-90 | on every path no memory block or attribute list outlives the call; succeeds exactly when every step does; a failure raises `LaunchError` and opens nothing; a success opens exactly the process and thread handles, and the calls are `LaunchTrace` |
| Process.ProcessHost.Start | TermRunner/Pty/ProcessHost.cs:22-91 | the launch as `Started` states it: no block or list outlives the call; a failure raises `LaunchError` and opens nothing; a success holds exactly the two new handles and the reported process id |
| Process.ProcessHost.StartAttachedToPtyAsWritten | TermRunner/Pty/ProcessHost.cs:22-91 | as written: the attribute value is the buffer's address, so a console that is open or null is never the value passed |
| Process.ProcessHost.StartAttachedToPty | TermRunner/Pty/ProcessHost.cs:22-91 | corrected: the same launch, with the console handle itself as the pseudo-console attribute value |
| Process.ProcessHost.Terminate | TermRunner/Pty/ProcessHost.cs:93-101 | terminates with exit code 0 while the process handle is held, and does nothing once it is zero |
| Process.ProcessHost.Dispose | TermRunner/Pty/ProcessHost.cs:103-123 | the first call closes the thread handle, then the process handle, each if held, and zeroes both; later calls change nothing |
| Pump.Deliveries | TermRunner/Pty/PtyIoPump.cs:53-66 | at most one chunk per read |
| Pump.DeliveriesKeepEveryByte | TermRunner/Pty/PtyIoPump.cs:53-66 | the delivered chunks, joined, are exactly the bytes of the successful reads before the first failure, in order |
| Pump.DeliveriesAreBounded | TermRunner/Pty/PtyIoPump.cs:51-65 | every delivered chunk is non-empty and at most 4096 bytes |
| Pump.DeliveriesSplit | TermRunner/Pty/PtyIoPump.cs:53-66 | until a read fails, the reader over `a` then `b` delivers what it delivers over `a + b` |
| Pump.PtyIoPump.constructor | TermRunner/Pty/PtyIoPump.cs:19-24 | a new pump holds the two pipe ends, an empty channel, and no running loop |
| Pump.PtyIoPump.Start | TermRunner/Pty/PtyIoPump.cs:28-37 | launches the loops the first time and leaves them alone afterwards |
| Pump.PtyIoPump.EnqueueInput | TermRunner/Pty/PtyIoPump.cs:39-47 | after dispose nothing changes; before, the chunk is appended to the channel |
| Pump.PtyIoPump.ReadLoop | TermRunner/Pty/PtyIoPump.cs:49-67 | a running reader delivers `Deliveries(outcomes)` and ends exactly when a read failed; a cancelled one ends and delivers nothing |
| Pump.PtyIoPump.WriteLoop | TermRunner/Pty/PtyIoPump.cs:69-87 | writes the queued chunks whole and in FIFO order; the first failed write ends the writer and no later chunk is written; a cancelled wait writes nothing |
| Pump.PtyIoPump.Dispose | TermRunner/Pty/PtyIoPump.cs:89-105 | the first call marks the pump disposed and cancels the pending read; later calls change nothing; no handle is closed |
| WebView.Route | TermRunner/Terminal/TerminalWebViewHost.cs:140-202 | undecodable and untyped messages are ignored; a handled type raises exactly when the payload decodes with the host's session id, with an Input's null text as `""`; other types are ignored |
| WebView.TrySendInit | TermRunner/Terminal/TerminalWebViewHost.cs:105-126 | init is sent exactly when it is pending, navigation is done and the host is not disposed, and sending clears the pending flag |
| WebView.AfterSendInit | TermRunner/Terminal/TerminalWebViewHost.cs:58-62 | init goes out now exactly when navigation is done; otherwise it stays pending |
| WebView.AfterNavigation | TermRunner/Terminal/TerminalWebViewHost.cs:99-103 | init goes out now exactly when it was pending |
| WebView.HandshakeOrderIrrelevant | TermRunner/Terminal/TerminalWebViewHost.cs:58-126 | whichever of `SendInit` and navigation completion comes first, init is sent once, at the second |
| WebView.NoResendWithoutSendInit | TermRunner/Terminal/TerminalWebViewHost.cs:124-125 | once init has gone out, any number of further navigation completions send nothing |
| WebView.TerminalWebViewHost.constructor | TermRunner/Terminal/TerminalWebViewHost.cs:24-29 | a new host has the session id, no core, no flags set and no message |
| WebView.TerminalWebViewHost.InitializeAsync | TermRunner/Terminal/TerminalWebViewHost.cs:37-56 | nothing after dispose or without a core; otherwise the handlers are hooked and the index page is navigated to |
| WebView.TerminalWebViewHost.InitMessage | TermRunner/Terminal/TerminalWebViewHost.cs:112-122 | the init message carries the session id, theme "dark", font size 13 and 5000 scrollback lines |
| WebView.TerminalWebViewHost.TrySend | TermRunner/Terminal/TerminalWebViewHost.cs:105-126 | the flags and posted messages follow `TrySendInit` |
| WebView.TerminalWebViewHost.SendInit | TermRunner/Terminal/TerminalWebViewHost.cs:58-62 | the flags and posted messages follow `AfterSendInit` |
| WebView.TerminalWebViewHost.OnNavigationCompleted | TermRunner/Terminal/TerminalWebViewHost.cs:99-103 | while hooked, the flags and posted messages follow `AfterNavigation`; unhooked, nothing happens |
| WebView.TerminalWebViewHost.WriteOutput | TermRunner/Terminal/TerminalWebViewHost.cs:64-82 | one "output" message with the session id and text, unless the text is null or empty or the host is disposed |
| WebView.TerminalWebViewHost.DispatchNext | TermRunner/Terminal/TerminalWebViewHost.cs:128-138 | the oldest posted message reaches the page only if the core exists and the host is not disposed when it runs |
| WebView.TerminalWebViewHost.OnWebMessageReceived | TermRunner/Terminal/TerminalWebViewHost.cs:140-169 | while hooked the message is routed by `Route`, and a raised event is recorded; unhooked it is ignored |
| WebView.TerminalWebViewHost.Dispose | TermRunner/Terminal/TerminalWebViewHost.cs:84-97 | the first call marks the host disposed and unhooks both handlers; later calls change nothing |
| Session.OutputFor | TermRunner/Runtime/TerminalSession.cs:102-111 | at most one message per chunk: none for an empty chunk or empty text, otherwise an output message with the decoded text |
| Session.Forwarded | TermRunner/Runtime/TerminalSession.cs:102-111 | a run of chunks forwards at most one message per chunk |
| Session.ForwardedIsOutput | TermRunner/Runtime/TerminalSession.cs:102-111 | a run of chunks forwards at most one message per chunk, each a non-empty output message of the session |
| Session.TerminalSession.constructor | TermRunner/Runtime/TerminalSession.cs:21-24 | a new session has no frontend, no size, and nothing started or created |
| Session.TerminalSession.AttachFrontend | TermRunner/Runtime/TerminalSession.cs:26-32 | the frontend is kept and the three handlers are registered |
| Session.TerminalSession.StartAsync | TermRunner/Runtime/TerminalSession.cs:34-39 | only the first call proceeds, and every later call returns at once, even after a timeout |
| Session.TerminalSession.Launch | TermRunner/Runtime/TerminalSession.cs:41-59 | a timeout creates nothing; otherwise the console gets the announced size, "cmd.exe" starts on it, and the pump is wired to the console's pipe ends and started; the first failure raises and leaves what already exists |
| Session.TerminalSession.StartShell | TermRunner/Runtime/TerminalSession.cs:43-47 | once the console exists, "cmd.exe" starts on it and the pump is wired to its pipe ends and started; a failed launch raises and creates no pump |
| Session.TerminalSession.ResumeStartAsWritten | TermRunner/Runtime/TerminalSession.cs:34-48 | as written, a session disposed after the ready signal but before the continuation ran still launches and holds a new, open process handle |
| Session.TerminalSession.ResumeStart | TermRunner/Runtime/TerminalSession.cs:34-48 | corrected: a session disposed before the continuation ran creates nothing; otherwise it launches as `Launch` states |
| Session.TerminalSession.OnReady | TermRunner/Runtime/TerminalSession.cs:61-69 | only the first Ready for this session fixes the size; other sessions' events are ignored |
| Session.TerminalSession.SendTextInput | TermRunner/Runtime/TerminalSession.cs:91-100 | the encoded text goes to the pump once, unless it is null or empty or there is no pump |
| Session.TerminalSession.OnInput | TermRunner/Runtime/TerminalSession.cs:71-79 | input for this session goes through `SendTextInput`; other sessions' input is ignored |
| Session.TerminalSession.OnResized | TermRunner/Runtime/TerminalSession.cs:81-89 | dropped for other sessions, before the console exists and while the host holds a null console; otherwise forwarded to `Resize` with its result |
| Session.TerminalSession.Dispatch | TermRunner/Runtime/TerminalSession.cs:61-89 | an event reaches its handler only while the handlers are registered, with that handler's effect: Ready fixes the first size, Input appends the encoded non-empty text of this session to the pump's channel, Resized reaches the console when there is one; unregistered, nothing changes, the pump included |
| Session.TerminalSession.OnOutput | TermRunner/Runtime/TerminalSession.cs:102-111 | an empty chunk is dropped; otherwise the decoded text goes to the frontend as `OutputFor` says |
| Session.TerminalSession.ForwardAll | TermRunner/Runtime/TerminalSession.cs:102-111 | every chunk of a run goes through `OnOutput`, in order |
| Session.TerminalSession.RunReader | TermRunner/Runtime/TerminalSession.cs:45-47 | the chunks the pump's reader delivers all reach the frontend in order, since the subscription precedes `Start` |
| Session.TerminalSession.Dispose | TermRunner/Runtime/TerminalSession.cs:113-133 | the first call unregisters the handlers and then disposes the pump, terminates and disposes the process, and disposes the console, in that order; every handle they held is closed; later calls change nothing |
| Session.TerminalSession.ReleasePump | TermRunner/Runtime/TerminalSession.cs:129 | the pump, if any, is disposed |
| Session.TerminalSession.ReleaseProcess | TermRunner/Runtime/TerminalSession.cs:130-131 | the process, if any, is terminated and then disposed |
| Session.TerminalSession.ReleasePty | TermRunner/Runtime/TerminalSession.cs:132 | the console, if any, is disposed |

## Left out

- Native calls: the kernel32 and `Marshal` calls are ledger operations whose outcomes, HRESULTs and returned process ids are inputs. The ledger encodes only these Win32 rules:
  - a zero HRESULT from `CreatePseudoConsole` hands back a new console, and a failure HRESULT hands back none;
  - `CloseHandle` clears the last error for an open handle and reports `ERROR_INVALID_HANDLE` for any other;
  - a failed call sets its failure code as the last error;
  - the attribute-list calls need an allocated block and an initialised list, which their preconditions demand.
  Nothing else of Win32 is modelled: what a process inherits, and what the attribute value passed means to `CreateProcessW`, are not.
- SECURITY_ATTRIBUTES and the STARTUPINFOEX layout are not modelled. `Marshal.WriteIntPtr` is a trace entry recording the block and the value written.
- Threads and timing:
  - `Task.Run`, the `Channel`, `CancellationTokenSource`, the 1-second `TryWait` of the pump's tasks and the 10-second `Task.Delay` race of `WaitReadyAsync` are not modelled.
  - The wait is resolved by whether the frontend announced a size before the continuation runs; with none, the timeout won.
  - The loops run sequentially over given outcome sequences. Nothing is claimed about concurrent enqueues or about how quickly shutdown completes.
- Pump.PtyIoPump.WriteLoop: one call models a single wake-up of the writer; repeated calls model later wake-ups.
- Pump.PtyIoPump.Dispose: completing the channel is folded into the `disposed` flag, which the writer reads as a cancelled wait.
- The UTF-8 codec the session uses is a pair of function parameters. Nothing is assumed about it.
- JSON and the UI dispatcher:
  - Incoming web messages arrive already decoded as `WebView.Incoming`. A payload `Deserialize` throws for is `Unreadable`, and routing it is `Throw`.
  - Outgoing JSON is a value. The dispatcher is a queue that `DispatchNext` runs one message at a time.
- WebView.TerminalWebViewHost.InitializeAsync: a dispose during the `EnsureCoreWebView2Async` await is not modelled. A second call, which would register the handlers twice, is not modelled either.
- Session.TerminalSession.AttachFrontend: attaching a second frontend, which would leave the first one's handlers registered, is not modelled.
- Session.TerminalSession.Launch: the working directory (`Environment.CurrentDirectory`) is a parameter.
- `active_handle` (src/app.rs:71-75) calls `TabsState::active_pane_id`, which src/tabs.rs does not define, and `PaneManager::get_pane`. `App.App.ActivePaneId` models the pane id of the active tab.
- `Tab` doesn't match its use. src/app.rs:46-49 builds `Tab { profile, pane_id }`, while src/tabs.rs:4-9 declares other fields. The model follows src/app.rs, and `TabsState` is generic over its element.
- `new_tab` (src/tabs.rs:94-116) builds a tab with its own pane manager. The application never calls it, so it is not modelled.
- `Profile.scrollback` is read by src/app.rs:39-41 but not declared in src/profiles.rs. The model follows src/app.rs.
- `tabs`, `tabs_mut`, `active`, `active_tab_mut`, `manager` and `tabs()` are plain accessors and are read as fields.
- src/main.rs, src/ui.rs, src/profiles.rs, the WPF views and terminal.js are not part of this model: they are terminal I/O, rendering, file reading and UI glue.
- The `cockpit` crate is not part of this model beyond recording the calls made on it.

## Findings

| source | as written | input that shows it | evidently intended | confidence | as-written member | corrected member |
|---|---|---|---|---|---|---|
| TermRunner/Pty/ConPtyHost.cs:42-47 | after the second `CreatePipe` fails, two successful `CloseHandle` calls run before `Marshal.GetLastWin32Error()`, so the exception reports their last error, 0 | the first `CreatePipe` succeeds and the second fails with code 5 | the `Win32Exception` carries the failed `CreatePipe`'s code, read before the handles are closed | medium, not executed | ConPty.ReportSecondPipeFailure | ConPty.ConPtyHost.Create |
| TermRunner/Runtime/TerminalSession.cs:34-48 | the continuation after `WaitReadyAsync` never checks `_disposed` | `StartAsync` is called and waits; Ready reaches `OnReady`, whose `TrySetResult` queues the continuation (the source is created with `RunContinuationsAsynchronously`, line 13); `Dispose` runs before that continuation does; the continuation then runs and every native call succeeds: a console, a running `cmd.exe` and a pump are created, and nothing will release them | a session disposed before its launch creates nothing | medium, not executed | Session.TerminalSession.ResumeStartAsWritten | Session.TerminalSession.ResumeStart |
| TermRunner/Pty/ProcessHost.cs:44-54 | the console handle is written into a fresh buffer, and the buffer's address is passed as `lpValue` of `UpdateProcThreadAttribute` for `PROC_THREAD_ATTRIBUTE_PSEUDOCONSOLE` | any launch whose native calls all succeed: the attribute list names the buffer's address, not the console | the console handle itself is the attribute value, which is how the pseudo-console attribute is documented to be passed | medium, not executed | Process.ProcessHost.StartAttachedToPtyAsWritten | Process.ProcessHost.StartAttachedToPty |
