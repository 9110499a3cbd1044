/**
  Ticks that arrive while the scheduler is suspended are counted and delivered
  on resume (tasks.c): none is lost, and late delivery leaves the same state as
  delivery on time.
 */
module DeferredTicks {
  import opened TaskModel
  import opened TaskPartition

  // ----- no tick is lost ------------------------------------------------------------------

  /** Ticks counted by the tick count or waiting to be. */
  function Heard(s: State): nat {
    Now(s.clock) + s.pended
  }

  lemma {:induction false} UnblockKeepsTime(s: State)
    ensures Now(Unblock(s).clock) == Now(s.clock) && Unblock(s).pended == s.pended
    decreases |s.clock.delayed|
  {
    if |s.clock.delayed| == 0 || s.clock.tick < s.clock.delayed[0].value {
    } else {
      UnblockKeepsTime(UnblockHead(s));
    }
  }

  lemma {:induction false} CatchUpTakesTime(s: State, n: nat)
    ensures Now(CatchUp(s, n).clock) == Now(s.clock) + n && CatchUp(s, n).pended == s.pended
    decreases n
  {
    if n > 0 {
      UnblockKeepsTime(s.(clock := Advance(s.clock)));
      CatchUpTakesTime(CatchUpTick(s), n - 1);
    }
  }

  lemma {:induction false} DrainTakesNone(s: State)
    ensures Now(Drain(s).clock) == Now(s.clock) && Drain(s).pended == s.pended
    decreases |s.pendingReady|
  {
    if |s.pendingReady| > 0 { DrainTakesNone(DrainHead(s)); }
  }

  /** The operations that leave time alone: those that block, wake or notify a task. */
  lemma WakingHears(s: State, e: Event)
    requires Enabled(s, e)
    requires e.BlockCurrent? || e.Woken? || e.WokenUnordered? || e.Notified? || e.NotifiedFromISR? || e.DelayAborted?
    ensures Heard(Step(s, e)) == Heard(s)
  {
    hide InsertEnd, RemoveReady, Without, WithoutOwner, IsReady, WakeTime;
  }

  /** ... and the others. */
  lemma OthersHear(s: State, e: Event)
    requires Enabled(s, e)
    requires e.SchedulerSuspended? || e.ContextSwitch? || e.Created? || e.Deleted? || e.IdleCleanup? || e.TaskSuspended?
      || e.TaskResumed? || e.ResumedFromISR? || e.PriorityChanged?
    ensures Heard(Step(s, e)) == Heard(s)
  {
    hide InsertEnd, RemoveReady, Without, WithoutOwner, TopNonEmpty, IsReady;
  }

  /** A tick interrupt is heard once, whether or not the scheduler is suspended; nothing else makes time. */
  lemma StepHears(s: State, e: Event)
    requires Enabled(s, e)
    ensures Heard(Step(s, e)) == Heard(s) + if e.TickInterrupt? then 1 else 0
  {
    if e.TickInterrupt? {
      UnblockKeepsTime(s.(clock := Advance(s.clock)));
    } else if e.SchedulerResumed? {
      DrainTakesNone(s.(depth := 0));
      CatchUpTakesTime(DrainPending(s.(depth := 0)), s.pended);
    } else {
      hide Heard, Step, Enabled;
      if e.BlockCurrent? || e.Woken? || e.WokenUnordered? || e.Notified? || e.NotifiedFromISR? || e.DelayAborted? {
        WakingHears(s, e);
      } else {
        OthersHear(s, e);
      }
    }
  }

  function Ticks(es: seq<Event>): nat {
    if |es| == 0 then 0 else Ticks(es[..|es| - 1]) + if es[|es| - 1].TickInterrupt? then 1 else 0
  }

  /** Over any run, and under any nesting of suspensions, time is the number of tick interrupts. */
  lemma {:induction false} RunHearsEveryTick(tr: seq<State>, es: seq<Event>, i: nat)
    requires Run(tr, es) && i < |tr|
    ensures Heard(tr[i]) == Heard(tr[0]) + Ticks(es[..i])
    decreases i
  {
    hide Step, Enabled, Heard;
    if i > 0 {
      RunHearsEveryTick(tr, es, i - 1);
      StepHears(tr[i - 1], es[i - 1]);
      assert es[..i][..i - 1] == es[..i - 1];
    }
  }

  /** ... and is fully counted by xTickCount whenever the scheduler is not suspended. */
  lemma TickCountIsTime(tr: seq<State>, es: seq<Event>, i: nat)
    requires Run(tr, es) && i < |tr| && Partition(tr[0]) && tr[0].depth == 0 && tr[i].depth == 0
    ensures Now(tr[i].clock) == Now(tr[0].clock) + Ticks(es[..i])
    ensures tr[i].pendingReady == []
  {
    RunHearsEveryTick(tr, es, i);
    RunKeepsPartition(tr, es, i);
  }

  // ----- late delivery is equivalent to delivery on time -------------------------------------

  function Framed(s: State, pended: nat, depth: nat, wants: bool): State {
    s.(pended := pended, depth := depth, yieldPending := wants)
  }

  lemma {:induction false} UnblockFramed(s: State, pended: nat, depth: nat, wants: bool)
    ensures Unblock(Framed(s, pended, depth, wants)) == Framed(Unblock(s), pended, depth, wants)
    decreases |s.clock.delayed|
  {
    if |s.clock.delayed| == 0 || s.clock.tick < s.clock.delayed[0].value {
    } else {
      UnblockFramed(UnblockHead(s), pended, depth, wants);
      assert UnblockHead(Framed(s, pended, depth, wants)) == Framed(UnblockHead(s), pended, depth, wants);
    }
  }

  lemma TickFramed(s: State, pended: nat, depth: nat, wants: bool)
    ensures DoTick(Framed(s, pended, depth, wants)) == Framed(DoTick(s), pended, depth, wants)
  {
    UnblockFramed(s.(clock := Advance(s.clock)), pended, depth, wants);
  }

  /** n ticks delivered on time. */
  function Direct(s: State, n: nat): State {
    if n == 0 then s else DoTick(Direct(s, n - 1))
  }

  lemma {:induction false} CatchUpLast(s: State, n: nat)
    ensures CatchUp(s, n + 1) == CatchUpTick(CatchUp(s, n))
    decreases n
  {
    hide CatchUpTick;
    if n > 0 { CatchUpLast(CatchUpTick(s), n - 1); }
  }

  /** The catch-up loop delivers what n ticks on time would have; only the switch request can differ. */
  lemma {:induction false} CatchUpIsDirect(s: State, n: nat, pended: nat, depth: nat, wants: bool)
    ensures var c := CatchUp(Framed(s, pended, depth, wants), n);
      c == Framed(Direct(s, n), pended, depth, c.yieldPending)
    decreases n
  {
    hide DoTick, TickWantsSwitch;
    if n > 0 {
      var c := CatchUp(Framed(s, pended, depth, wants), n - 1);
      CatchUpIsDirect(s, n - 1, pended, depth, wants);
      CatchUpLast(Framed(s, pended, depth, wants), n - 1);
      TickFramed(Direct(s, n - 1), pended, depth, c.yieldPending);
    }
  }

  ghost predicate OnlyTicksAndNesting(es: seq<Event>) {
    forall i {:trigger es[i]} :: 0 <= i < |es| ==> es[i].TickInterrupt? || es[i].SchedulerSuspended? || es[i].SchedulerResumed?
  }

  /** s0 after n ticks, the last s.pended of them still to be delivered. */
  ghost predicate Lags(s: State, s0: State, n: nat) {
    && s.pended <= n
    && s == Framed(Direct(s0, n - s.pended), s.pended, s.depth, s.yieldPending)
    && (s.depth == 0 ==> s.pended == 0)
  }

  lemma {:induction false} DirectKeeps(s: State, n: nat)
    requires s.pendingReady == []
    ensures Direct(s, n).pendingReady == [] && Direct(s, n).prio == s.prio
  {
    if n > 0 {
      DirectKeeps(s, n - 1);
      DoTickWakesNobodyElse(Direct(s, n - 1));
    }
  }

  lemma DoTickWakesNobodyElse(s: State)
    requires s.pendingReady == []
    ensures DoTick(s).pendingReady == [] && DoTick(s).prio == s.prio
  {
    UnblockWakesNobodyElse(s.(clock := Advance(s.clock)));
  }

  lemma {:induction false} UnblockWakesNobodyElse(s: State)
    requires s.pendingReady == []
    ensures Unblock(s).pendingReady == [] && Unblock(s).prio == s.prio
    decreases |s.clock.delayed|
  {
    if |s.clock.delayed| == 0 || s.clock.tick < s.clock.delayed[0].value {
    } else {
      UnblockWakesNobodyElse(UnblockHead(s));
    }
  }

  lemma {:induction false} DirectAdds(s: State, m: nat, n: nat)
    ensures Direct(Direct(s, m), n) == Direct(s, m + n)
    decreases n
  {
    hide DoTick;
    if n > 0 { DirectAdds(s, m, n - 1); }
  }

  lemma ResumeCatchesUp(s: State, d: State)
    requires s.depth == 1 && s.pendingReady == [] && |s.prio| > 0
    requires s == Framed(d, s.pended, s.depth, s.yieldPending)
    ensures ResumeAll(s) == Framed(Direct(d, s.pended), 0, 0, ResumeAll(s).yieldPending)
  {
    CatchUpIsDirect(d, s.pended, s.pended, 0, s.yieldPending);
  }

  lemma OuterResumeLags(s: State, s0: State, n: nat)
    requires Lags(s, s0, n) && s.depth == 1 && s0.pendingReady == [] && |s0.prio| > 0
    ensures Lags(ResumeAll(s), s0, n)
  {
    hide ResumeAll, Direct;
    DirectKeeps(s0, n - s.pended);
    ResumeCatchesUp(s, Direct(s0, n - s.pended));
    DirectAdds(s0, n - s.pended, s.pended);
    var r := ResumeAll(s);
    assert r.pended == 0 && r.depth == 0;
  }

  lemma InnerResumeLags(s: State, s0: State, n: nat)
    requires Lags(s, s0, n) && s.depth > 1
    ensures Lags(ResumeAll(s), s0, n)
  {
    hide Direct, CatchUp, DrainPending;
  }

  lemma TickLags(s: State, s0: State, n: nat)
    requires Lags(s, s0, n)
    ensures Lags(IncrementTick(s), s0, n + 1)
  {
    if s.depth == 0 {
      TickFramed(Direct(s0, n), s.pended, s.depth, s.yieldPending);
    }
  }

  lemma StepLags(s: State, s0: State, n: nat, e: Event)
    requires Lags(s, s0, n) && Enabled(s, e) && s0.pendingReady == [] && |s0.prio| > 0
    requires e.TickInterrupt? || e.SchedulerSuspended? || e.SchedulerResumed?
    ensures Lags(Step(s, e), s0, n + if e.TickInterrupt? then 1 else 0)
  {
    hide Direct, IncrementTick, ResumeAll;
    match e
    case TickInterrupt => TickLags(s, s0, n);
    case SchedulerResumed => if s.depth == 1 { OuterResumeLags(s, s0, n); } else { InnerResumeLags(s, s0, n); }
    case SchedulerSuspended =>
  }

  lemma {:induction false} RunLags(tr: seq<State>, es: seq<Event>, s0: State, i: nat)
    requires Run(tr, es) && OnlyTicksAndNesting(es) && i < |tr|
    requires Lags(tr[0], s0, 0) && s0.pendingReady == [] && |s0.prio| > 0
    ensures Lags(tr[i], s0, Ticks(es[..i]))
    decreases i
  {
    hide Step, Enabled, Lags;
    if i > 0 {
      RunLags(tr, es, s0, i - 1);
      StepLags(tr[i - 1], s0, Ticks(es[..i - 1]), es[i - 1]);
      assert es[..i][..i - 1] == es[..i - 1];
    }
  }

  /**
    Deferred ticks equal direct ticks.  However suspensions and ticks are nested
    and interleaved, once the scheduler runs again the whole state, lists and
    counters included, is the one the same ticks would have left if delivered
    unsuspended; only the recorded request for a context switch may differ.
   */
  lemma DeferredTicksAreDirectTicks(tr: seq<State>, es: seq<Event>, i: nat)
    requires Run(tr, es) && OnlyTicksAndNesting(es) && i < |tr|
    requires Partition(tr[0]) && tr[0].depth == 0 && tr[i].depth == 0
    ensures tr[i] == Direct(tr[0], Ticks(es[..i])).(yieldPending := tr[i].yieldPending)
  {
    hide Direct, Step, Enabled;
    assert |tr[0].prio| > 0 by { assert tr[0].current in tr[0].prio; }
    assert Direct(tr[0], 0) == tr[0] by { DirectZero(tr[0]); }
    RunLags(tr, es, tr[0], i);
    DirectFrame(tr[0], Ticks(es[..i]));
  }

  lemma DirectZero(s: State)
    ensures Direct(s, 0) == s
  {
  }

  lemma {:induction false} DirectFrame(s: State, n: nat)
    ensures Direct(s, n).pended == s.pended && Direct(s, n).depth == s.depth
  {
    if n > 0 {
      DirectFrame(s, n - 1);
      TickFramed(Direct(s, n - 1), s.pended, s.depth, Direct(s, n - 1).yieldPending);
    }
  }
}
