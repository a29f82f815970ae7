/**
 * Clients of the protocol, composing its operations the way the host and the
 * operating system do, to show what their contracts add up to.
 */
module Scenarios {
  import opened Native
  import opened Geometry
  import opened Acquisition
  import opened Dispatch
  import opened Termination
  import opened Protocol

  /**
   * A successful Connect, then the move/size end its own Resize provokes
   * (at most SuppressionMs later), then a move by the user after that. The
   * echo is ignored; the user's move re-fits the window once.
   */
  method ConnectEchoThenUserMove(p: IntegratedProgram, reg: Registry, trace: Trace, maxWaitSeconds: int,
                                 launch: Launch, startTicks: int, polls: seq<Poll>, ticks: seq<int>,
                                 metrics: Metrics, now: Instant, hookToken: int, echoAt: Instant, moveAt: Instant)
    returns (ok: bool, echo: seq<Event>, resync: seq<Event>)
    requires |ticks| == |polls| + 1 && startTicks + maxWaitSeconds * 1000 <= ticks[|polls|]
    requires now <= echoAt <= now + SuppressionMs < moveAt
    modifies p, reg, trace, reg.handles.Values
    ensures ok ==> echo == []
    ensures ok ==> resync == ResizeCalls(p.handle, true, p.control.width, p.control.height, metrics)
    ensures ok ==> p.lastResize == moveAt && p.handle in reg.handles && reg.handles[p.handle] == p
  {
    ok := p.Connect(reg, trace, maxWaitSeconds, launch, startTicks, polls, ticks, metrics, now, hookToken);
    echo, resync := [], [];
    if ok {
      var before := trace.events;
      WinEventProc(reg, trace, EventSystemMoveSizeEnd, p.handle, 0, 0, metrics, echoAt, echoAt);
      echo := trace.events[|before|..];
      before := trace.events;
      WinEventProc(reg, trace, EventSystemMoveSizeEnd, p.handle, 0, 0, metrics, moveAt, moveAt);
      resync := trace.events[|before|..];
    }
  }

  /** Close is idempotent: after two calls the window has no entry, and the second removes nothing. */
  method CloseTwice(p: IntegratedProgram, reg: Registry, trace: Trace, maxWaitSeconds: int,
                    first: ProcessOracle, second: ProcessOracle)
    modifies reg, trace
    ensures reg.handles == old(reg.handles) - {p.handle}
    ensures p.handle !in reg.handles
    ensures |trace.events| > 0 && trace.events[|trace.events| - 1] == UnhookWinEvent(p.hook)
  {
    p.Close(reg, trace, maxWaitSeconds, first);
    assert p.handle !in reg.handles;
    p.Close(reg, trace, maxWaitSeconds, second);
  }

  /** A tool that does not integrate is started and never embedded, registered or hooked. */
  method StartWithoutIntegration(p: IntegratedProgram, reg: Registry, trace: Trace, maxWaitSeconds: int,
                                 launch: Launch, startTicks: int, polls: seq<Poll>, ticks: seq<int>,
                                 metrics: Metrics, now: Instant, hookToken: int)
    returns (ok: bool)
    requires |ticks| == |polls| + 1 && startTicks + maxWaitSeconds * 1000 <= ticks[|polls|]
    requires p.tool.Some? && !p.tool.value.tryIntegrate
    modifies p, reg, trace
    ensures !ok && reg.handles == old(reg.handles) && p.process == old(p.process) && p.hook == old(p.hook)
    ensures p.tool == old(p.tool) && trace.events == old(trace.events) + [StartTool(old(p.tool).value.displayName)]
  {
    ok := p.Connect(reg, trace, maxWaitSeconds, launch, startTicks, polls, ticks, metrics, now, hookToken);
  }
}
