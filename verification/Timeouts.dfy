/**
  Timeouts that survive retries: xTaskCheckForTimeOut (tasks.c) measured against
  true time, and the retry loop of xQueueReceive (queue.c) that relies on it.
 */
module Timeouts {
  import opened Lists
  import opened TaskModel

  /** TimeOut_t */
  datatype Entry = Entry(overflows: nat, tick: Tick)

  datatype Verdict = Verdict(expired: bool, entry: Entry, wait: Tick)

  function EntryTime(e: Entry): nat {
    e.overflows * 0x1_0000_0000 + e.tick
  }

  /** The true time at which a finite wait ends. */
  function Deadline(e: Entry, wait: Tick): nat {
    EntryTime(e) + wait
  }

  /** xConstTickCount - pxTimeOut->xTimeOnEntering in 32-bit arithmetic. */
  function WrappedElapsed(e: Entry, c: Clock): Tick {
    (c.tick - e.tick) % 0x1_0000_0000
  }

  /** xTaskCheckForTimeOut for a task whose delay was not aborted. */
  function Check(e: Entry, c: Clock, wait: Tick): Verdict {
    if wait == MAX_DELAY then Verdict(false, e, wait)
    else if c.overflows != e.overflows && c.tick >= e.tick then Verdict(true, e, 0)
    else if WrappedElapsed(e, c) < wait then Verdict(false, Entry(c.overflows, c.tick), wait - WrappedElapsed(e, c))
    else Verdict(true, e, 0)
  }

  /** ... and for any task: an aborted delay counts as a timeout, with the wait left as it is. */
  function Checked(e: Entry, c: Clock, wait: Tick, aborted: bool): Verdict {
    if aborted then Verdict(true, e, wait) else Check(e, c, wait)
  }

  /** The 32-bit comparison cannot see that the count wrapped a second time. */
  predicate LostAWrap(e: Entry, c: Clock, wait: Tick) {
    c.overflows >= e.overflows + 2 && c.tick < e.tick && WrappedElapsed(e, c) < wait
  }

  /** A timeout is never reported early, however often the count wrapped. */
  lemma NeverEarly(e: Entry, c: Clock, wait: Tick)
    requires EntryTime(e) <= Now(c) && Check(e, c, wait).expired
    ensures Now(c) >= Deadline(e, wait)
  {
  }

  /**
    On a finite wait the verdict is "deadline reached" exactly, except in the one
    case where the count wrapped at least twice since the last check.
   */
  lemma VerdictIsExact(e: Entry, c: Clock, wait: Tick)
    requires EntryTime(e) <= Now(c) && wait < MAX_DELAY
    ensures (Check(e, c, wait).expired <==> Now(c) >= Deadline(e, wait)) <==> !LostAWrap(e, c, wait)
  {
  }

  /**
    A retry goes on with the same deadline, counted from now; it never makes it
    earlier, and makes it later only if a wrap was lost.
   */
  lemma RetryKeepsDeadline(e: Entry, c: Clock, wait: Tick)
    requires EntryTime(e) <= Now(c) && wait < MAX_DELAY && !Check(e, c, wait).expired
    ensures var v := Check(e, c, wait);
      && EntryTime(v.entry) == Now(c) && v.wait <= wait
      && Deadline(v.entry, v.wait) >= Deadline(e, wait)
      && (Deadline(v.entry, v.wait) == Deadline(e, wait) <==> !LostAWrap(e, c, wait))
  {
  }

  /** An example of the lost wrap: nearly two wraps late, and still not expired. */
  lemma LostWrapExample()
    ensures var e, c := Entry(0, 100), Clock(50, 2, MAX_DELAY, [], []);
      && LostAWrap(e, c, MAX_DELAY - 1) && Now(c) > Deadline(e, MAX_DELAY - 1) && !Check(e, c, MAX_DELAY - 1).expired
  {
  }

  class TimeOut {
    var overflowCount: nat
    var timeOnEntering: Tick

    constructor ()
      ensures View() == Entry(0, 0)
    {
      overflowCount, timeOnEntering := 0, 0;
    }

    function View(): Entry
      reads this
    {
      Entry(overflowCount, timeOnEntering)
    }

    /** vTaskInternalSetTimeOutState */
    method Set(c: Clock)
      modifies this
      ensures View() == Entry(c.overflows, c.tick)
    {
      overflowCount := c.overflows;
      timeOnEntering := c.tick;
    }

    /** xTaskCheckForTimeOut; delayAborted is the running task's ucDelayAborted, which is then cleared */
    method CheckForTimeOut(c: Clock, ticksToWait: Tick, delayAborted: bool) returns (expired: bool, left: Tick)
      modifies this
      ensures Verdict(expired, View(), left) == Checked(old(View()), c, ticksToWait, delayAborted)
    {
      left := ticksToWait;
      var elapsed := (c.tick - timeOnEntering) % 0x1_0000_0000;
      if delayAborted {
        expired := true;
      } else if ticksToWait == MAX_DELAY {
        expired := false;
      } else if c.overflows != overflowCount && c.tick >= timeOnEntering {
        expired := true;
        left := 0;
      } else if elapsed < ticksToWait {
        left := ticksToWait - elapsed;
        Set(c);
        expired := false;
      } else {
        left := 0;
        expired := true;
      }
    }
  }

  // ----- the retry loop of xQueueReceive ---------------------------------------------------

  /** What one turn of the loop sees of the queue and the clock; others run in between. */
  datatype Turn = Turn(
    messages: nat,     // uxMessagesWaiting in the critical section
    entry: Clock,      // the clock in that section
    check: Clock,      // the clock when the timeout is checked
    aborted: bool,     // xTaskAbortDelay woke the task since
    empty: bool        // prvIsQueueEmpty after the check
  )

  /** Empty is reported at the clock `at`. */
  datatype Outcome = Received | Empty(at: Clock) | Waiting

  ghost predicate TimeMovesForward(ts: seq<Turn>) {
    && (forall i {:trigger ts[i]} :: 0 <= i < |ts| ==> Now(ts[i].entry) <= Now(ts[i].check))
    && (forall i, j {:trigger ts[i], ts[j]} :: 0 <= i < j < |ts| ==> Now(ts[i].check) <= Now(ts[j].entry))
  }

  /** The overflow count when time was last taken: at the last check that was not cut short by an aborted delay. */
  ghost function Since(ts: seq<Turn>, n: nat): nat
    requires n <= |ts|
  {
    if n == 0 then (if |ts| > 0 then ts[0].entry.overflows else 0)
    else if ts[n - 1].aborted then Since(ts, n - 1)
    else ts[n - 1].check.overflows
  }

  /** At most one overflow from when time was last taken to the next check. */
  ghost predicate ChecksAreFrequent(ts: seq<Turn>) {
    forall i {:trigger ts[i]} :: 0 <= i < |ts| ==> ts[i].check.overflows <= Since(ts, i) + 1
  }

  /** Where a finite wait stands after n turns without data: the loop's state e, wait against the turns seen. */
  ghost predicate Underway(ts: seq<Turn>, n: nat, e: Entry, wait: Tick, ticksToWait: Tick)
    requires n <= |ts|
  {
    if n == 0 then wait == ticksToWait
    else
      var deadline, last := Now(ts[0].entry) + ticksToWait, ts[n - 1].check;
      if wait == 0 then Now(last) >= deadline
      else
        && EntryTime(e) <= Now(last) && e.overflows == Since(ts, n) && Deadline(e, wait) >= deadline
        && (ChecksAreFrequent(ts) ==> Deadline(e, wait) == deadline)
  }

  /** One turn whose check at e with wait w > 0 went by. */
  lemma TurnGoesBy(ts: seq<Turn>, n: nat, e: Entry, w: Tick, ticksToWait: Tick)
    requires TimeMovesForward(ts) && n < |ts| && ticksToWait < MAX_DELAY && 0 < w < MAX_DELAY
    requires if n == 0 then e == Entry(ts[0].entry.overflows, ts[0].entry.tick) && w == ticksToWait
             else Underway(ts, n, e, w, ticksToWait)
    ensures var v := Checked(e, ts[n].check, w, ts[n].aborted);
      && Underway(ts, n + 1, v.entry, v.wait, ticksToWait)
      && (ts[n].aborted ==> v.expired) && (v.expired && !ts[n].aborted ==> v.wait == 0) && v.wait <= w
      && (v.expired && !ts[n].aborted ==> Now(ts[n].check) >= Now(ts[0].entry) + ticksToWait)
      && (!v.expired && ChecksAreFrequent(ts) ==> Now(ts[n].check) < Now(ts[0].entry) + ticksToWait)
  {
    assert n > 0 ==> Now(ts[n - 1].check) <= Now(ts[n].entry);
    assert Since(ts, n) == e.overflows && Since(ts, n + 1) == if ts[n].aborted then Since(ts, n) else ts[n].check.overflows;
    hide Check;
    CheckAgainst(e, ts[n].check, w);
  }

  lemma CheckAgainst(e: Entry, c: Clock, wait: Tick)
    requires EntryTime(e) <= Now(c) && 0 < wait < MAX_DELAY
    ensures var v := Check(e, c, wait);
      && (v.expired ==> Now(c) >= Deadline(e, wait) && v.wait == 0)
      && (!v.expired ==> v.entry == Entry(c.overflows, c.tick) && 0 < v.wait <= wait && Deadline(v.entry, v.wait) >= Deadline(e, wait))
      && (c.overflows <= e.overflows + 1 ==>
            (v.expired <==> Now(c) >= Deadline(e, wait)) && (!v.expired ==> Deadline(v.entry, v.wait) == Deadline(e, wait)))
  {
  }

  /**
    xQueueReceive, blocked and woken any number of times.  Unless its delay is
    aborted it reports an empty queue only at or after the deadline set on entry,
    and never on an indefinite wait; and if checks are frequent, a turn at or after
    the deadline that finds the queue empty is the last.  An aborted delay ends it
    at once if the queue is empty.
   */
  method Receive(ts: seq<Turn>, ticksToWait: Tick) returns (outcome: Outcome, n: nat)
    requires TimeMovesForward(ts)
    ensures n <= |ts| && (outcome == Waiting <==> n == |ts|)
    ensures forall i {:trigger ts[i]} :: 0 <= i < n ==> ts[i].messages == 0 && !(ts[i].aborted && ts[i].empty)
    ensures outcome == Received <==> n < |ts| && ts[n].messages > 0
    ensures outcome.Empty? ==> n < |ts| && (outcome.at == ts[n].entry || (outcome.at == ts[n].check && ts[n].empty))
    ensures outcome.Empty? ==>
      || (ts[n].aborted && ts[n].empty)
      || (ticksToWait != MAX_DELAY && Now(outcome.at) >= Now(ts[0].entry) + ticksToWait)
    ensures ChecksAreFrequent(ts) && ticksToWait != MAX_DELAY ==>
      forall i {:trigger ts[i]} :: 0 <= i < n && ts[i].empty ==> Now(ts[i].check) < Now(ts[0].entry) + ticksToWait
  {
    hide ChecksAreFrequent, Since, Checked, Now;
    var timeOut := new TimeOut();
    var wait: Tick, entryTimeSet := ticksToWait, false;
    n := 0;
    while n < |ts|
      invariant n <= |ts| && (entryTimeSet <==> n > 0)
      invariant forall i {:trigger ts[i]} :: 0 <= i < n ==> ts[i].messages == 0 && !(ts[i].aborted && ts[i].empty)
      invariant if ticksToWait == MAX_DELAY then wait == MAX_DELAY
                else wait < MAX_DELAY && Underway(ts, n, timeOut.View(), wait, ticksToWait)
      invariant ChecksAreFrequent(ts) && ticksToWait != MAX_DELAY ==>
        forall i {:trigger ts[i]} :: 0 <= i < n && ts[i].empty ==> Now(ts[i].check) < Now(ts[0].entry) + ticksToWait
    {
      if ts[n].messages > 0 {
        return Received, n;
      } else if wait == 0 {
        AtOrAfter(ts, n, timeOut.View(), ticksToWait);
        return Empty(ts[n].entry), n;
      } else if !entryTimeSet {
        timeOut.Set(ts[n].entry);
        entryTimeSet := true;
      }
      if ticksToWait == MAX_DELAY {
        NeverExpires(timeOut.View(), ts[n].check, ts[n].aborted);
      } else {
        TurnGoesBy(ts, n, timeOut.View(), wait, ticksToWait);
      }
      var expired;
      expired, wait := timeOut.CheckForTimeOut(ts[n].check, wait, ts[n].aborted);
      if expired {
        if ts[n].empty {
          return Empty(ts[n].check), n;
        }
      }
      n := n + 1;
    }
    outcome := Waiting;
  }

  lemma NeverExpires(e: Entry, c: Clock, aborted: bool)
    ensures Checked(e, c, MAX_DELAY, aborted) == Verdict(aborted, e, MAX_DELAY)
  {
  }

  lemma AtOrAfter(ts: seq<Turn>, n: nat, e: Entry, ticksToWait: Tick)
    requires TimeMovesForward(ts) && n < |ts| && Underway(ts, n, e, 0, ticksToWait)
    ensures Now(ts[n].entry) >= Now(ts[0].entry) + ticksToWait
  {
    assert n > 0 ==> Now(ts[n - 1].check) <= Now(ts[n].entry);
  }
}
