/**
 * The integrated-program protocol: launches an external tool, embeds its main
 * window in the connection's panel, keeps it sized to the panel, and tears it
 * down. Foreign calls are recorded in a Trace; what they return comes in as
 * parameters (oracles). The process-wide dictionary from window handle to
 * instance is the Registry object shared by all instances.
 */
module Protocol {
  import opened Native
  import opened Geometry
  import opened Acquisition
  import opened Dispatch
  import opened Termination

  /** The connection record; only the name of its external tool matters here. */
  datatype ConnectionInfo = ConnectionInfo(extApp: string)

  /** An external tool's configuration, as the tool service hands it out. */
  datatype ExternalTool = ExternalTool(
    displayName: string,
    fileName: string,
    arguments: string,
    tryIntegrate: bool,
    connection: Option<ConnectionInfo>)

  /** What starting the process did: Start threw, WaitForInputIdle threw, or both returned. */
  datatype Launch = StartFailed | IdleWaitFailed(pid: int) | Launched(pid: int)

  /** The host panel the window is embedded in; the host owns and resizes it. */
  class InterfaceControl {
    var info: Option<ConnectionInfo>
    var handle: int
    var width: int
    var height: int

    constructor (info: Option<ConnectionInfo>, handle: int, width: int, height: int)
      ensures this.info == info && this.handle == handle
      ensures this.width == width && this.height == height
    {
      this.info := info;
      this.handle := handle;
      this.width := width;
      this.height := height;
    }
  }

  /** The static dictionary from embedded window handle to its instance. */
  class Registry {
    var handles: map<int, IntegratedProgram>

    constructor ()
      ensures handles == map[]
    {
      handles := map[];
    }

    /** The lastResize of the instance registered under hwnd, if any. */
    function LastResizeOf(hwnd: int): (r: Option<Instant>)
      reads this, handles.Values
    {
      if hwnd in handles then Some(handles[hwnd].lastResize) else None
    }

    /** Dictionary.Add: a key that is already present makes it throw and change nothing. */
    method Add(hwnd: int, p: IntegratedProgram, trace: Trace) returns (ok: bool)
      modifies this, trace
      ensures ok <==> hwnd !in old(handles)
      ensures handles == if ok then old(handles)[hwnd := p] else old(handles)
      ensures trace.events == old(trace.events) + if ok then [Registered(hwnd)] else []
    {
      if hwnd in handles {
        return false;
      }
      handles := handles[hwnd := p];
      trace.events := trace.events + [Registered(hwnd)];
      return true;
    }

    /** Dictionary.Remove: removing an absent key changes nothing. */
    method Remove(hwnd: int, trace: Trace)
      modifies this, trace
      ensures handles == old(handles) - {hwnd}
      ensures trace.events == old(trace.events) + if hwnd in old(handles) then [Unregistered(hwnd)] else []
    {
      if hwnd in handles {
        handles := handles - {hwnd};
        trace.events := trace.events + [Unregistered(hwnd)];
      }
    }
  }

  class IntegratedProgram {
    const control: InterfaceControl
    var tool: Option<ExternalTool>
    var handle: int
    var process: ProcessRef
    var hook: int
    var lastResize: Instant

    /** A fresh instance: no tool, no window, no process, no hook, never resized. */
    constructor (control: InterfaceControl)
      ensures this.control == control
      ensures tool == None && handle == 0 && process == NoProcess && hook == 0 && lastResize == 0
    {
      this.control := control;
      tool := None;
      handle := 0;
      process := NoProcess;
      hook := 0;
      lastResize := 0;
    }

    /**
     * Looks up the connection's external tool. tools is the tool service's
     * catalogue by name; baseInitialize is what the base protocol's
     * Initialize returns.
     */
    method Initialize(tools: map<string, ExternalTool>, baseInitialize: bool) returns (ok: bool)
      modifies this`tool
      ensures control.info.None? ==> ok == baseInitialize && tool == old(tool)
      ensures control.info.Some? && control.info.value.extApp !in tools ==> !ok && tool == None
      ensures control.info.Some? && control.info.value.extApp in tools ==>
                ok == baseInitialize &&
                tool == Some(tools[control.info.value.extApp].(connection := control.info))
    {
      if control.info.None? {
        return baseInitialize;
      }
      var name := control.info.value.extApp;
      if name !in tools {
        tool := None;
        return false;
      }
      tool := Some(tools[name].(connection := control.info));
      return baseInitialize;
    }

    /**
     * Fits the window to the panel. The time stamp is taken first, whatever
     * follows; nothing is called for an empty panel.
     */
    method Resize(metrics: Metrics, now: Instant, trace: Trace)
      modifies this`lastResize, trace
      ensures lastResize == now
      ensures trace.events ==
                old(trace.events) + ResizeCalls(handle, tool.Some?, control.width, control.height, metrics)
    {
      lastResize := now;
      if IsEmptySize(control.width, control.height) {
        return;
      }
      if tool.None? {
        return;
      }
      var r := WindowRect(control.width, control.height, metrics);
      trace.events := trace.events + [SetWindowPos(handle, r, SizeOnly)];
      trace.events := trace.events + [SetWindowPos(handle, r, MoveOnly)];
    }

    /**
     * Starts the tool and, when it integrates, embeds its window. launch is
     * what Start and WaitForInputIdle do; startTicks, polls and ticks feed the
     * acquisition loop; maxWaitSeconds is the configured wait; now is the
     * wall clock at the Resize; hookToken is what SetWinEventHook returns.
     */
    method Connect(reg: Registry, trace: Trace, maxWaitSeconds: int, launch: Launch,
                   startTicks: int, polls: seq<Poll>, ticks: seq<int>,
                   metrics: Metrics, now: Instant, hookToken: int) returns (ok: bool)
      requires |ticks| == |polls| + 1 && startTicks + maxWaitSeconds * 1000 <= ticks[|polls|]
      modifies this, reg, trace
      ensures tool == old(tool)
      // success: exactly one new entry, for this instance, and the hook installed
      ensures ok ==> && tool.Some? && tool.value.tryIntegrate && launch.Launched?
                     && handle !in old(reg.handles)
                     && reg.handles == old(reg.handles)[handle := this]
                     && hook == hookToken
      // failure: the registry and the hook are as they were
      ensures !ok ==> reg.handles == old(reg.handles) && hook == old(hook)
      // no tool: reading TryIntegrate of the missing tool throws, and the handler catches it
      ensures tool.None? ==> !ok && unchanged(this) && trace.events == old(trace.events)
      // no integration: the tool starts itself, nothing else happens
      ensures tool.Some? && !tool.value.tryIntegrate ==>
                && !ok && process == old(process) && handle == old(handle)
                && lastResize == old(lastResize)
                && trace.events == old(trace.events) + [StartTool(tool.value.displayName)]
      ensures tool.Some? && tool.value.tryIntegrate && launch.StartFailed? ==>
                && !ok && process == Unstarted && handle == old(handle)
                && lastResize == old(lastResize)
                && trace.events == old(trace.events) + [ProcessStart(tool.value.fileName, tool.value.arguments)]
      ensures tool.Some? && tool.value.tryIntegrate && launch.IdleWaitFailed? ==>
                && !ok && process == Started(launch.pid) && handle == old(handle)
                && lastResize == old(lastResize)
                && trace.events == old(trace.events) +
                     [ProcessStart(tool.value.fileName, tool.value.arguments),
                      WaitForInputIdle(launch.pid, maxWaitSeconds * 1000)]
      // a read in the loop throws: the handler ends Connect before anything is embedded
      ensures tool.Some? && tool.value.tryIntegrate && launch.Launched? &&
              AcquisitionThrows(old(handle), polls, ticks, startTicks + maxWaitSeconds * 1000, handle) ==>
                && !ok && process == Started(launch.pid)
                && lastResize == old(lastResize)
                && trace.events == old(trace.events) +
                     [ProcessStart(tool.value.fileName, tool.value.arguments),
                      WaitForInputIdle(launch.pid, maxWaitSeconds * 1000)]
      // otherwise the loop ends normally, and whatever handle it ends with (zero
      // after a timeout) is re-parented, resized, registered, and only then hooked
      ensures tool.Some? && tool.value.tryIntegrate && launch.Launched? &&
              !AcquisitionThrows(old(handle), polls, ticks, startTicks + maxWaitSeconds * 1000, handle) ==>
                && process == Started(launch.pid)
                && Acquires(old(handle), polls, ticks, startTicks + maxWaitSeconds * 1000, handle)
                && lastResize == now
                && ok == (handle !in old(reg.handles))
                && trace.events == old(trace.events) +
                     [ProcessStart(tool.value.fileName, tool.value.arguments),
                      WaitForInputIdle(launch.pid, maxWaitSeconds * 1000),
                      SetParent(handle, control.handle)] +
                     ResizeCalls(handle, true, control.width, control.height, metrics) +
                     (if ok then [Registered(handle),
                                  SetWinEventHook(EventSystemMoveSizeEnd, EventSystemMoveSizeEnd,
                                                  launch.pid, WinEventOutOfContext)]
                      else [])
    {
      if tool.None? {
        return false;
      }
      var t := tool.value;
      if !t.tryIntegrate {
        // ExternalTool.Start; a throw from it is caught and ends the same way
        trace.events := trace.events + [StartTool(t.displayName)];
        return false;
      }
      process := Unstarted;
      trace.events := trace.events + [ProcessStart(t.fileName, t.arguments)];
      if launch.StartFailed? {
        return false;
      }
      process := Started(launch.pid);
      trace.events := trace.events + [WaitForInputIdle(launch.pid, maxWaitSeconds * 1000)];
      if launch.IdleWaitFailed? {
        return false;
      }
      var n, threw;
      handle, n, threw := PollForWindow(handle, polls, ticks, startTicks + maxWaitSeconds * 1000);
      if threw {
        return false;
      }
      trace.events := trace.events + [SetParent(handle, control.handle)];
      Resize(metrics, now, trace);
      var added := reg.Add(handle, this, trace);
      if !added {
        return false;
      }
      hook := hookToken;
      trace.events := trace.events + [SetWinEventHook(EventSystemMoveSizeEnd, EventSystemMoveSizeEnd,
                                                      launch.pid, WinEventOutOfContext)];
      return true;
    }

    /**
     * Ends the tool and forgets the window: terminates the process if there is
     * one, then always unhooks and removes the registry entry. The instance's
     * own fields are left as they are.
     */
    method Close(reg: Registry, trace: Trace, maxWaitSeconds: int, oracle: ProcessOracle)
      modifies reg, trace
      ensures reg.handles == old(reg.handles) - {handle}
      ensures trace.events ==
                old(trace.events) + TerminationCalls(process, oracle, maxWaitSeconds * 1000) +
                [UnhookWinEvent(hook)] +
                (if handle in old(reg.handles) then [Unregistered(handle)] else [])
    {
      match process {
        case NoProcess =>
        case Unstarted =>
          // HasExited throws in both blocks; both handlers catch it
        case Started(pid) =>
          var threw := false;
          if oracle.runningAtClose {
            trace.events := trace.events + [CloseMainWindow(pid)];
            if oracle.closeMainWindow == Throws {
              threw := true;
            } else {
              trace.events := trace.events + [WaitForExit(pid, maxWaitSeconds * 1000)];
              threw := oracle.waitForExit == Throws;
            }
          }
          if !threw && oracle.runningAfterWait {
            trace.events := trace.events + [Kill(pid)];
          }
          if oracle.runningBeforeDispose {
            trace.events := trace.events + [Dispose(pid)];
          }
      }
      trace.events := trace.events + [UnhookWinEvent(hook)];
      reg.Remove(handle, trace);
    }
  }

  /**
   * The shared hook callback: resizes the instance registered under hwnd when
   * ShouldResize allows it, and changes nothing otherwise. now is the wall
   * clock the guard reads; stampAt is the later reading Resize takes for its
   * time stamp.
   */
  method WinEventProc(reg: Registry, trace: Trace, eventType: int, hwnd: int, idObject: int, idChild: int,
                      metrics: Metrics, now: Instant, stampAt: Instant)
    modifies reg.handles.Values, trace
    ensures var fire := ShouldResize(eventType, idObject, idChild, old(reg.LastResizeOf(hwnd)), now);
            && (!fire ==> trace.events == old(trace.events) && unchanged(reg.handles.Values))
            && (fire ==>
                  var owner := reg.handles[hwnd];
                  && owner.lastResize == stampAt
                  && trace.events == old(trace.events) +
                       ResizeCalls(owner.handle, owner.tool.Some?, owner.control.width, owner.control.height, metrics)
                  && forall p :: p in reg.handles.Values && p != owner ==> unchanged(p))
    // a resize re-stamps its owner and touches nothing else of it
    ensures forall p :: p in reg.handles.Values ==>
              && p.tool == old(p.tool) && p.handle == old(p.handle)
              && p.process == old(p.process) && p.hook == old(p.hook)
  {
    if idObject != 0 || idChild != 0 {
      return;
    }
    if eventType == EventSystemMoveSizeEnd {
      if hwnd in reg.handles {
        var owner := reg.handles[hwnd];
        if owner.lastResize + SuppressionMs < now {
          owner.Resize(metrics, stampAt, trace);
        }
      }
    }
  }
}
