# IntegratedProgram — a Dafny model

mRemoteNG's integrated-program protocol starts an external tool. When the tool
is configured to integrate, the protocol embeds the tool's main window in the
connection's panel, keeps that window fitted to the panel, and shuts the tool
down on close. One WinEvent hook callback is shared by every instance. It finds
the instance behind a notified window through a static dictionary from window
handle to instance.

The model keeps the protocol's decision logic and treats everything foreign as
an oracle:

- `native.dfy` (module `Native`): the call log. Every Win32 call, every
  `System.Diagnostics.Process` call that acts on the process (`Start`,
  `WaitForInputIdle`, `CloseMainWindow`, `WaitForExit`, `Kill`, `Dispose`)
  and every change to the handle dictionary is appended, in order, as an
  `Event` to a shared `Trace` object. The process queries (`Refresh`,
  `HasExited`, `MainWindowTitle`, `MainWindowHandle`, `Id`) are not logged:
  what they return comes in as oracle parameters. Native
  constants (`EVENT_SYSTEM_MOVESIZEEND`, the `SWP_*` flags) keep their Win32
  values.
- `geometry.dfy` (module `Geometry`): the rectangle `Resize` asks for and the
  two `SetWindowPos` calls it makes.
- `acquisition.dfy` (module `Acquisition`): the loop that polls for the main
  window. Each poll is either a title read followed by a handle read, or a
  read that threw. The tick clock is a sequence of readings, one per loop
  test.
- `dispatch.dfy` (module `Dispatch`): the guard of `WinEventProc`.
- `termination.dfy` (module `Termination`): the process calls `Close` makes.
- `protocol.dfy` (module `Protocol`): the classes `IntegratedProgram` and
  `Registry` (the static `handles` dictionary), the host panel
  `InterfaceControl`, and the static callback `WinEventProc`.
- `scenarios.dfy` (module `Scenarios`): client methods that compose these
  operations.

Time is in integer milliseconds. `DateTime.Now` is an `Instant` (a `nat`
counted from `DateTime.MinValue`, which is also the initial `lastResize`).
`Environment.TickCount` is a plain `int`. Every "now" is a parameter.
Exceptions are explicit outcomes (`Launch`, `Outcome`, `ProcessOracle`), and
each `catch` becomes an early return in the model.

In these places the model follows the code rather than an idealised reading of
it:

- When acquisition times out with handle 0, `Connect` does not fail. It still
  re-parents, resizes and registers handle 0, and can return true.
- `Close` unhooks before it removes the dictionary entry.
- The graceful close, the wait and `Kill` share one exception handler. A throw
  from `CloseMainWindow` or `WaitForExit` therefore skips `Kill`.
- `Dispose` is called only when the process has NOT exited.
- A read in the polling loop that throws (the process exited without a main
  window) is caught by `Connect`'s handler. `Connect` returns false without
  re-parenting, resizing, registering or hooking.

## Model

| member | source | states |
|---|---|---|
| `Geometry.WindowRect` | mRemoteV1/Connection/Protocol/IntegratedProgram.cs:160-163 | the client area of the requested window rectangle is exactly the container: origin (0,0), size W x H; the window is at least the container's size exactly when the border width, and the caption height plus both border heights, are non-negative |
| `Geometry.WindowRectUnique` | mRemoteV1/Connection/Protocol/IntegratedProgram.cs:160-163 | any rectangle whose client area is exactly the container equals the one `Resize` requests |
| `Geometry.ResizeCalls` | mRemoteV1/Connection/Protocol/IntegratedProgram.cs:153-172 | no call when the size is `Size.Empty` (both dimensions 0) or there is no tool; otherwise exactly two `SetWindowPos` calls on the window with identical rectangles: size-only (NOMOVE) first, move-only (NOSIZE) second, filling the container |
| `Acquisition.PollForWindow` | mRemoteV1/Connection/Protocol/IntegratedProgram.cs:94-108 | the loop ends at the first test where the handle is non-zero or the clock has reached `start + wait`, or right after a poll whose read threw. Before every poll it ran, the handle was 0 and the clock was before the deadline. Only the last poll it ran can have thrown, and `threw` says whether it did. The result is the handle those polls produce |
| `Acquisition.AdoptedIsObserved` | mRemoteV1/Connection/Protocol/IntegratedProgram.cs:99-102 | after a run of polls the handle is either the initial one (no poll read a title other than "Default IME") or the handle read by the last poll whose title read was not "Default IME" |
| `Acquisition.AcquiredNeverIme` | mRemoteV1/Connection/Protocol/IntegratedProgram.cs:95-102 | a handle the loop adopts was read in a poll whose title read was not "Default IME" |
| `Acquisition.AcquiredUnique` | mRemoteV1/Connection/Protocol/IntegratedProgram.cs:95-96 | the loop's outcome (polls run, handle, whether it threw) is uniquely determined by the polls and the clock readings |
| `Acquisition.StaysZero` | mRemoteV1/Connection/Protocol/IntegratedProgram.cs:99-102 | polls that are placeholders or show no window leave a zero handle at zero |
| `Acquisition.PlaceholderThenReal` | mRemoteV1/Connection/Protocol/IntegratedProgram.cs:94-108 | if the polls show placeholders or no window and then a real window before the deadline, the loop stops right after that poll, without a throw, holding the real window |
| `Acquisition.ExitBeforeWindowThrows` | mRemoteV1/Connection/Protocol/IntegratedProgram.cs:94-108 | if the polls show placeholders or no window and then a read throws before the deadline, the loop stops right after that poll by a throw, with the handle still 0 |
| `Dispatch.SubElementIgnored` | mRemoteV1/Connection/Protocol/IntegratedProgram.cs:247-250 | a notification with `idObject != 0` or `idChild != 0` never resizes, whatever the registry holds |
| `Dispatch.OtherEventsIgnored` | mRemoteV1/Connection/Protocol/IntegratedProgram.cs:252 | only `EVENT_SYSTEM_MOVESIZEEND` can cause a resize |
| `Dispatch.UnregisteredIgnored` | mRemoteV1/Connection/Protocol/IntegratedProgram.cs:255-258 | a window that is not in the registry causes nothing |
| `Dispatch.EchoSuppressed` | mRemoteV1/Connection/Protocol/IntegratedProgram.cs:257-258 | no resize up to and including 3000 ms after the owner's last Resize; the comparison is strict |
| `Dispatch.ExternalMoveHonoured` | mRemoteV1/Connection/Protocol/IntegratedProgram.cs:252-261 | a top-level move/size end for a registered window more than 3000 ms after its last Resize does resize |
| `Dispatch.ShouldResizeMonotone` | mRemoteV1/Connection/Protocol/IntegratedProgram.cs:258 | a notification that would resize now would also resize at any later time |
| `Termination.TerminationCalls` | mRemoteV1/Connection/Protocol/IntegratedProgram.cs:186-216 | no process call at all unless the process was started (null process, or Start threw so HasExited throws) |
| `Termination.KillOnlyAfterGracefulWait` | mRemoteV1/Connection/Protocol/IntegratedProgram.cs:188-198 | Kill only if the process is still running after the wait; when the graceful path was taken, the close request and the wait come first |
| `Termination.UnresponsiveProcessKilled` | mRemoteV1/Connection/Protocol/IntegratedProgram.cs:190-198 | a process that is still running after a close request and wait that both returned is killed |
| `Termination.GracefulThrowSkipsKill` | mRemoteV1/Connection/Protocol/IntegratedProgram.cs:188-203 | a throw from CloseMainWindow or WaitForExit skips Kill (one shared handler) |
| `Termination.DisposeIndependentOfKill` | mRemoteV1/Connection/Protocol/IntegratedProgram.cs:205-215 | the disposal block runs whatever happened before: Dispose is called iff the process is still running at that point, and it is then the last call |
| `Protocol.Registry.constructor` | mRemoteV1/Connection/Protocol/IntegratedProgram.cs:29 | the dictionary starts empty |
| `Protocol.Registry.Add` | mRemoteV1/Connection/Protocol/IntegratedProgram.cs:123 | adds the entry iff the key is absent; a duplicate key throws and changes nothing |
| `Protocol.Registry.Remove` | mRemoteV1/Connection/Protocol/IntegratedProgram.cs:219 | removes the key; removing an absent key changes nothing |
| `Protocol.IntegratedProgram.constructor` | mRemoteV1/Connection/Protocol/IntegratedProgram.cs:18-22 | no tool, handle 0, no process, hook 0, `lastResize` at `DateTime.MinValue` |
| `Protocol.IntegratedProgram.Initialize` | mRemoteV1/Connection/Protocol/IntegratedProgram.cs:35-53 | no connection info: the base result; unknown tool: false and the tool field cleared; known tool: it is stored with the connection attached and the base result is returned |
| `Protocol.IntegratedProgram.Resize` | mRemoteV1/Connection/Protocol/IntegratedProgram.cs:148-178 | `lastResize := now` on every call, even when nothing else happens; the calls made are `ResizeCalls` for the panel's current size |
| `Protocol.IntegratedProgram.Connect` | mRemoteV1/Connection/Protocol/IntegratedProgram.cs:55-134 | no tool: false and nothing changes. No integration: only the tool start and false, with no process, entry or hook. A launch failure: false with nothing registered. A read in the loop that throws: false after the idle wait, with no re-parenting, no resize, no entry and no hook. Otherwise start, idle wait, acquisition, SetParent, Resize, then the registry entry, then the hook, in that order. It returns true iff the handle was not yet registered, and then it adds exactly the entry `handle -> this` |
| `Protocol.IntegratedProgram.Close` | mRemoteV1/Connection/Protocol/IntegratedProgram.cs:180-222 | runs the termination calls, then always unhooks and removes `handle` from the registry; safe with no process |
| `Protocol.WinEventProc` | mRemoteV1/Connection/Protocol/IntegratedProgram.cs:237-263 | resizes exactly the owner, and only when `ShouldResize` holds for the guard's clock reading; the owner is then stamped with Resize's own, separate reading; otherwise neither the log nor any instance changes |
| `Scenarios.ConnectEchoThenUserMove` | mRemoteV1/Connection/Protocol/IntegratedProgram.cs:252-261 | after a successful Connect, the echo of its own Resize (at most 3 s later) changes nothing, and a later external move re-fits the window once |
| `Scenarios.CloseTwice` | mRemoteV1/Connection/Protocol/IntegratedProgram.cs:218-219 | two Closes leave no entry for the handle, and the second one removes nothing |
| `Scenarios.StartWithoutIntegration` | mRemoteV1/Connection/Protocol/IntegratedProgram.cs:62-74 | a non-integrating tool is only started: no registry entry, no process, no hook |

## Left out

- Win32 interop (`SetParent`, `SetWindowPos`, `SetWinEventHook`, `UnhookWinEvent`): foreign calls. They appear only as `Event`s in the trace. The hook handle that `SetWinEventHook` returns is a parameter.
- `System.Diagnostics.Process` behaviour and `ExternalTool.Start`: oracles. `Launch` says which of Start and WaitForInputIdle threw. `ProcessOracle` gives the three `HasExited` answers and says whether the close request and the wait threw.
- Exceptions from `Kill` and `Dispose`, and from `ExternalTool.Start`: each only produces a message, and the model ends the same way whether they throw or not.
- Argument templating (`ExternalToolArgumentParser`): `ProcessStart` records the unexpanded file name and argument templates.
- `Runtime.ExternalToolsService`: the tool lookup is a map from tool name to tool. `ExternalTool` is a value, so setting its connection does not affect other holders of the same tool object.
- `ProtocolBase` (`base.Initialize`, `base.Connect`, `base.Close`) is not part of this model; the result of `base.Initialize` is a parameter.
- Message-collector output, localised strings and log text: these only produce messages. The model assumes `Runtime.MessageCollector` is not null. The messages are built only when it exists (the `?.` calls), and the message in `Resize` reads the tool's `DisplayName`. So `Resize` without a tool makes no call only when the collector exists. With a null collector it would make both `SetWindowPos` calls. The reads of `MainWindowTitle` and `InterfaceControl.Parent.Handle` made only for messages are left out as well, and are assumed not to throw: `_process.MainWindowTitle` reads afresh when the loop ran no poll, and throws if the process has exited; `InterfaceControl.Parent.Handle` throws if the panel has no parent. Either throw would make `Connect` return false after `SetParent` and before `Resize`.
- `Focus` (one foreign call in a try/catch) and the `ProcessExited` callback (asynchronous).
- Concurrency: hook delivery concurrent with `Close`, and the process exiting on its own, are not modelled. The model is sequential.
- `Environment.TickCount` wrap-around, and 32-bit overflow of `MaxPuttyWaitTime * 1000` and `startTicks + wait`: integers are unbounded.
- `Thread.Sleep(0)` in the loop: it has no effect on state.
- `Acquisition.PollForWindow`: requires the clock readings to reach the deadline within the given polls. This is a hypothesis about the environment; the source relies on the clock advancing.
- `Acquisition.Poll`, `Acquisition.AcquiredNeverIme`: a poll's title and handle are two separate reads. When the title read finds no main window it returns "", and the handle read then looks for the window again. A window that appears between the two reads is adopted without its title ever being compared with "Default IME". `AcquiredNeverIme` therefore speaks of the title read, not of the adopted window's own title.
- The loop writes `_handle` on every poll whose title read is not "Default IME"; the model writes it once, after the loop. In a sequential model nothing can observe the difference.
