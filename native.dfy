/**
 * The foreign world the integrated-program protocol talks to: Win32 window
 * calls, System.Diagnostics.Process calls and the shared handle dictionary.
 * None of their effects is modelled; every call is recorded, in order, as an
 * Event of a Trace, and whatever a call returns is supplied by the caller of
 * the model as an oracle value.
 */
module Native {

  datatype Option<T> = None | Some(value: T)

  /** Whether a foreign call that may throw returned normally or threw. */
  datatype Outcome = Returns | Throws

  /** Wall-clock time (DateTime.Now), in milliseconds since DateTime.MinValue. */
  type Instant = nat

  /** EVENT_SYSTEM_MOVESIZEEND: a window finished moving or resizing. */
  const EventSystemMoveSizeEnd: int := 0x000B
  /** WINEVENT_OUTOFCONTEXT: the hook runs in the caller's process. */
  const WinEventOutOfContext: int := 0x0000

  /** The SWP_* flags of SetWindowPos that the protocol uses. */
  datatype PosFlag = NoSize | NoMove | NoSendChanging

  /** A window rectangle: origin relative to the parent, then size. */
  datatype Rect = Rect(x: int, y: int, width: int, height: int)

  datatype Event =
    | StartTool(tool: string)                        // ExternalTool.Start, no embedding
    | ProcessStart(fileName: string, arguments: string)
    | WaitForInputIdle(pid: int, ms: int)
    | SetParent(child: int, newParent: int)
    // hWndInsertAfter is always IntPtr.Zero (HWND_TOP) and SWP_NOZORDER is never
    // passed, so every SetWindowPos also raises the window to the top of the Z order
    | SetWindowPos(hwnd: int, rect: Rect, flags: set<PosFlag>)
    | SetWinEventHook(eventMin: int, eventMax: int, pid: int, hookFlags: int)
    | UnhookWinEvent(hook: int)
    | CloseMainWindow(pid: int)
    | WaitForExit(pid: int, ms: int)
    | Kill(pid: int)
    | Dispose(pid: int)
    | Registered(hwnd: int)                          // an entry added to the handle dictionary
    | Unregistered(hwnd: int)                        // an entry removed from the handle dictionary

  /** The log of everything the protocol asked of the outside world, oldest first. */
  class Trace {
    var events: seq<Event>

    constructor ()
      ensures events == []
    {
      events := [];
    }
  }
}
