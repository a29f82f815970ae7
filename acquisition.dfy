/**
 * Window acquisition: after the launched process goes idle, Connect polls its
 * main window until it has a non-zero handle or the tick clock reaches the
 * deadline. A poll whose window title is the input-method placeholder
 * "Default IME" is skipped; any other poll's handle is taken, zero included.
 * A poll whose reads throw (the process exited without a main window) ends
 * the loop, and Connect with it.
 */
module Acquisition {

  const DefaultIme: string := "Default IME"

  /**
   * One pass of the loop body after Process.Refresh. Window carries what
   * MainWindowTitle returned and then what MainWindowHandle returned; they are
   * two reads, and when the first found no window (title "") the second looks
   * again and may find one. ReadFails: one of the reads threw.
   */
  datatype Poll = Window(title: string, mainWindow: int) | ReadFails

  /** Whether the loop body takes the handle read by this poll. */
  predicate Adopts(p: Poll)
  {
    p.Window? && p.title != DefaultIme
  }

  /** The handle after one poll, starting from handle h; a failed read leaves it as it was. */
  function Adopt(h: int, p: Poll): (r: int)
  {
    if Adopts(p) then p.mainWindow else h
  }

  /** The handle after the polls ps, in order, starting from h0. */
  function Adopted(h0: int, ps: seq<Poll>): (r: int)
    decreases |ps|
  {
    if ps == [] then h0 else Adopt(Adopted(h0, ps[..|ps| - 1]), ps[|ps| - 1])
  }

  /**
   * What the loop leaves behind, starting from handle h0: it ran the body for
   * the first n polls, h is the handle they produce, and before each of them
   * the handle was still zero and the tick clock was still before the
   * deadline. Either the last of them threw (threw), and no earlier one did,
   * or none threw and at the next test the handle was non-zero or the clock
   * had reached the deadline. ticks[k] is the clock read by the k-th test.
   */
  ghost predicate Acquired(h0: int, polls: seq<Poll>, ticks: seq<int>, deadline: int,
                           n: nat, h: int, threw: bool)
  {
    && n <= |polls| && n < |ticks|
    && h == Adopted(h0, polls[..n])
    && (forall k :: 0 <= k < n ==> Adopted(h0, polls[..k]) == 0 && ticks[k] < deadline)
    && (forall k :: 0 <= k < n ==> (polls[k].ReadFails? <==> threw && k == n - 1))
    && (threw ==> 0 < n && polls[n - 1].ReadFails?)
    && (!threw ==> h != 0 || deadline <= ticks[n])
  }

  /** The loop, started with handle h0, ends normally holding h. */
  ghost predicate Acquires(h0: int, polls: seq<Poll>, ticks: seq<int>, deadline: int, h: int)
  {
    exists n: nat :: Acquired(h0, polls, ticks, deadline, n, h, false)
  }

  /** The loop, started with handle h0, ends by a throw, the handle field holding h. */
  ghost predicate AcquisitionThrows(h0: int, polls: seq<Poll>, ticks: seq<int>, deadline: int, h: int)
  {
    exists n: nat :: Acquired(h0, polls, ticks, deadline, n, h, true)
  }

  /**
   * The polling loop of Connect. The clock readings extend to one at or past
   * the deadline, so the loop ends within the polls given.
   */
  method PollForWindow(h0: int, polls: seq<Poll>, ticks: seq<int>, deadline: int)
    returns (h: int, n: nat, threw: bool)
    requires |ticks| == |polls| + 1 && deadline <= ticks[|polls|]
    ensures Acquired(h0, polls, ticks, deadline, n, h, threw)
  {
    h, n, threw := h0, 0, false;
    while !threw && h == 0 && ticks[n] < deadline
      invariant n <= |polls|
      invariant h == Adopted(h0, polls[..n])
      invariant forall k :: 0 <= k < n ==> Adopted(h0, polls[..k]) == 0 && ticks[k] < deadline
      invariant forall k :: 0 <= k < n ==> (polls[k].ReadFails? <==> threw && k == n - 1)
      invariant threw ==> 0 < n && polls[n - 1].ReadFails?
      decreases |polls| - n
    {
      match polls[n] {
        case ReadFails =>
          threw := true;
        case Window(title, mainWindow) =>
          if title != DefaultIme {
            h := mainWindow;
          }
      }
      assert polls[..n + 1][..n] == polls[..n];
      n := n + 1;
    }
  }

  /**
   * The handle after a run of polls is either the starting one, when no poll
   * was adopted, or the window of the last poll that was: one that read a
   * title other than the placeholder.
   */
  lemma {:induction false} AdoptedIsObserved(h0: int, ps: seq<Poll>)
    ensures
      || (Adopted(h0, ps) == h0 && forall k :: 0 <= k < |ps| ==> !Adopts(ps[k]))
      || (exists k :: && 0 <= k < |ps| && Adopts(ps[k]) && ps[k].mainWindow == Adopted(h0, ps)
                      && forall j :: k < j < |ps| ==> !Adopts(ps[j]))
    decreases |ps|
  {
    if ps != [] {
      var last := |ps| - 1;
      var init := ps[..last];
      if Adopts(ps[last]) {
        assert ps[last].mainWindow == Adopted(h0, ps);
      } else {
        AdoptedIsObserved(h0, init);
        assert Adopted(h0, ps) == Adopted(h0, init);
        if Adopted(h0, init) == h0 && forall k :: 0 <= k < |init| ==> !Adopts(init[k]) {
          assert forall k :: 0 <= k < |ps| ==> !Adopts(ps[k]) by {
            forall k | 0 <= k < |ps| ensures !Adopts(ps[k]) {
              if k < last { assert ps[k] == init[k]; }
            }
          }
        } else {
          var k :| && 0 <= k < |init| && Adopts(init[k]) && init[k].mainWindow == Adopted(h0, init)
                   && forall j :: k < j < |init| ==> !Adopts(init[j]);
          assert ps[k] == init[k];
          forall j | k < j < |ps| ensures !Adopts(ps[j]) {
            if j < last { assert ps[j] == init[j]; }
          }
        }
      }
    }
  }

  /**
   * The loop never adopts a handle from a poll that read the placeholder
   * title: a handle it did not start with came from a poll it ran whose title
   * read was something else.
   */
  lemma AcquiredNeverIme(h0: int, polls: seq<Poll>, ticks: seq<int>, deadline: int, n: nat, h: int, threw: bool)
    requires Acquired(h0, polls, ticks, deadline, n, h, threw)
    ensures h == h0 || exists k :: && 0 <= k < n && polls[k].Window? && polls[k].title != DefaultIme
                                   && polls[k].mainWindow == h
  {
    AdoptedIsObserved(h0, polls[..n]);
    if h != h0 {
      var k :| 0 <= k < n && Adopts(polls[..n][k]) && polls[..n][k].mainWindow == h;
      assert polls[k] == polls[..n][k];
    }
  }

  /** The loop's outcome is determined by its inputs: Acquired has one solution. */
  lemma AcquiredUnique(h0: int, polls: seq<Poll>, ticks: seq<int>, deadline: int,
                       n1: nat, h1: int, threw1: bool, n2: nat, h2: int, threw2: bool)
    requires Acquired(h0, polls, ticks, deadline, n1, h1, threw1)
    requires Acquired(h0, polls, ticks, deadline, n2, h2, threw2)
    ensures n1 == n2 && h1 == h2 && threw1 == threw2
  {
  }

  /** Polls that adopt nothing non-zero keep a zero handle zero. */
  lemma {:induction false} StaysZero(polls: seq<Poll>, j: nat)
    requires j <= |polls|
    requires forall k :: 0 <= k < j ==> !Adopts(polls[k]) || polls[k].mainWindow == 0
    ensures Adopted(0, polls[..j]) == 0
    decreases j
  {
    if j > 0 {
      StaysZero(polls, j - 1);
      assert polls[..j][..j - 1] == polls[..j - 1];
    }
  }

  /**
   * A process whose window first shows the placeholder (or no window) and then
   * a real window before the deadline is acquired with the real window, right
   * after the poll that first shows it.
   */
  lemma PlaceholderThenReal(polls: seq<Poll>, ticks: seq<int>, deadline: int, j: nat,
                            n: nat, h: int, threw: bool)
    requires j < |polls|
    requires forall k :: 0 <= k < j ==> polls[k].Window? && (polls[k].title == DefaultIme || polls[k].mainWindow == 0)
    requires polls[j].Window? && polls[j].title != DefaultIme && polls[j].mainWindow != 0
    requires forall k :: 0 <= k <= j && k < |ticks| ==> ticks[k] < deadline
    requires Acquired(0, polls, ticks, deadline, n, h, threw)
    ensures n == j + 1 && h == polls[j].mainWindow && !threw
  {
    assert Adopted(0, polls[..j + 1]) == polls[j].mainWindow by {
      assert polls[..j + 1][..j] == polls[..j];
    }
    if n <= j {
      StaysZero(polls, n);
      assert false;
    } else if n > j + 1 {
      assert false;
    }
  }

  /**
   * A process that exits without ever showing a window ends the loop by a
   * throw, before the deadline, with the handle still zero.
   */
  lemma ExitBeforeWindowThrows(polls: seq<Poll>, ticks: seq<int>, deadline: int, j: nat,
                               n: nat, h: int, threw: bool)
    requires j < |polls|
    requires forall k :: 0 <= k < j ==> polls[k].Window? && (polls[k].title == DefaultIme || polls[k].mainWindow == 0)
    requires polls[j].ReadFails?
    requires forall k :: 0 <= k <= j && k < |ticks| ==> ticks[k] < deadline
    requires Acquired(0, polls, ticks, deadline, n, h, threw)
    ensures n == j + 1 && h == 0 && threw
  {
    StaysZero(polls, j + 1);
    if n <= j {
      StaysZero(polls, n);
      assert false;
    } else if n > j + 1 {
      assert false;
    }
  }
}
