/**
 * The process side of Close: ask the main window to close, wait, kill what
 * is still running, then dispose what is still running. The first three
 * share one exception handler, disposal has its own.
 */
module Termination {
  import opened Native

  /** The _process field: null, a Process whose Start threw, or a started one. */
  datatype ProcessRef = NoProcess | Unstarted | Started(pid: int)

  /**
   * What the process answers during Close. running* are the negations of
   * Process.HasExited read before the graceful close (runningAtClose), before
   * Kill (runningAfterWait) and before Dispose (runningBeforeDispose);
   * closeMainWindow and waitForExit say whether those calls threw. A throw
   * from Kill or Dispose ends its block with nothing left to do in it, so it
   * does not appear here.
   */
  datatype ProcessOracle = ProcessOracle(
    runningAtClose: bool,
    closeMainWindow: Outcome,
    waitForExit: Outcome,
    runningAfterWait: bool,
    runningBeforeDispose: bool)

  /**
   * The process calls Close makes. A process whose Start threw has no OS
   * process behind it: its HasExited throws in both blocks, and both handlers
   * catch it before anything is called.
   */
  function TerminationCalls(p: ProcessRef, o: ProcessOracle, waitMs: int): (calls: seq<Event>)
    ensures !p.Started? ==> calls == []
  {
    match p
    case NoProcess => []
    case Unstarted => []
    case Started(pid) =>
      var graceful :=
        if !o.runningAtClose then []
        else if o.closeMainWindow == Throws then [CloseMainWindow(pid)]
        else [CloseMainWindow(pid), WaitForExit(pid, waitMs)];
      var gracefulThrew := o.runningAtClose && (o.closeMainWindow == Throws || o.waitForExit == Throws);
      var kill := if !gracefulThrew && o.runningAfterWait then [Kill(pid)] else [];
      var dispose := if o.runningBeforeDispose then [Dispose(pid)] else [];
      graceful + kill + dispose
  }

  /**
   * Kill is attempted only on a process still running after the graceful
   * attempt, and only when that attempt (if made) completed: then the close
   * request and the full wait come first.
   */
  lemma KillOnlyAfterGracefulWait(pid: int, o: ProcessOracle, waitMs: int)
    requires Kill(pid) in TerminationCalls(Started(pid), o, waitMs)
    ensures o.runningAfterWait
    ensures o.runningAtClose ==>
              TerminationCalls(Started(pid), o, waitMs)[..3] == [CloseMainWindow(pid), WaitForExit(pid, waitMs), Kill(pid)]
    ensures !o.runningAtClose ==> TerminationCalls(Started(pid), o, waitMs)[0] == Kill(pid)
  {
  }

  /**
   * A process that ignores the close request is killed after the wait: the
   * escalation reaches Kill whenever the graceful calls return.
   */
  lemma UnresponsiveProcessKilled(pid: int, o: ProcessOracle, waitMs: int)
    requires o.runningAtClose && o.runningAfterWait
    requires o.closeMainWindow == Returns && o.waitForExit == Returns
    ensures Kill(pid) in TerminationCalls(Started(pid), o, waitMs)
  {
    assert TerminationCalls(Started(pid), o, waitMs)[2] == Kill(pid);
  }

  /**
   * A throw in the close request or the wait skips Kill, because they share
   * one handler.
   */
  lemma GracefulThrowSkipsKill(pid: int, o: ProcessOracle, waitMs: int)
    requires o.runningAtClose && (o.closeMainWindow == Throws || o.waitForExit == Throws)
    ensures Kill(pid) !in TerminationCalls(Started(pid), o, waitMs)
  {
  }

  /**
   * The disposal block runs whatever happened in the first one: Dispose is
   * called exactly when the process is still running before it, and is then
   * the last call.
   */
  lemma DisposeIndependentOfKill(pid: int, o: ProcessOracle, waitMs: int)
    ensures var calls := TerminationCalls(Started(pid), o, waitMs);
            (Dispose(pid) in calls <==> o.runningBeforeDispose) &&
            (o.runningBeforeDispose ==> calls[|calls| - 1] == Dispose(pid))
  {
  }
}
