/**
  Exact delays under wrap (tasks.c): the two sorted lists of 32-bit wake times,
  their swap on overflow and the cached next unblock time refine an unbounded
  clock on which every blocked task has one true wake time.
 */
module DelayedTasks {
  import opened Lists
  import opened TaskModel
  import TaskPartition

  // ----- the invariant ----------------------------------------------------------------

  ghost predicate AllAtLeast(l: seq<Item>, v: nat) {
    forall e :: e in l ==> v <= e.value
  }

  ghost predicate AllBelow(l: seq<Item>, v: nat) {
    forall e :: e in l ==> e.value < v
  }

  /**
    The current list holds no wake time before the tick count and the overflow
    list only wake times before it; the cached time is a lower bound of the
    current list, possibly stale.  At the last tick before the wrap the current
    list is empty, so the list that is swapped out holds nobody.
   */
  ghost predicate DelayInv(c: Clock) {
    && Ordered(c.delayed) && Ordered(c.overflow)
    && AllAtLeast(c.delayed, if c.tick == MAX_DELAY then TICKS else c.tick)
    && AllBelow(c.overflow, c.tick)
    && AllAtLeast(c.delayed, c.nextUnblock)
  }

  /** Task t sits on a delayed list with true wake time a. */
  ghost predicate Asleep(c: Clock, t: nat, a: nat) {
    var r := a - c.overflows * 0x1_0000_0000;  // relative to the last wrap of the tick count
    || (0 <= r < TICKS && Item(t, r) in c.delayed)
    || (TICKS <= r < 2 * TICKS && Item(t, r - TICKS) in c.overflow)
  }

  lemma HeadIsMember(l: seq<Item>)
    ensures |l| > 0 ==> l[0] in l
    ensures |l| > 0 ==> forall e :: e in l <==> e == l[0] || e in l[1..]
  {
    if |l| > 0 { assert l == [l[0]] + l[1..]; }
  }

  lemma InsertedKeeps(l: seq<Item>, x: Item)
    requires Ordered(l)
    ensures Ordered(Inserted(l, x))
    ensures forall e :: e in Inserted(l, x) <==> e in l || e == x
  {
    OrderedInserted(l, x);
    InsertAtMembers(l, InsertPos(l, x.value), x);
  }

  // ----- what the operations do to the clock ---------------------------------------------

  lemma ResetKeepsInv(c: Clock)
    requires Ordered(c.delayed)
    ensures AllAtLeast(c.delayed, Reset(c).nextUnblock)
    ensures DelayInv(c) ==> DelayInv(Reset(c))
  {
    HeadIsMember(c.delayed);
  }

  /** The assertion of taskSWITCH_DELAYED_LISTS: the list swapped out is empty. */
  lemma SwapFindsNobody(c: Clock)
    requires DelayInv(c) && c.tick == MAX_DELAY
    ensures c.delayed == []
  {
    HeadIsMember(c.delayed);
  }

  lemma WrapKeepsAlarms(c: Clock, t: nat, a: nat)
    requires c.tick == MAX_DELAY && c.delayed == []
    ensures Asleep(SwitchLists(c.(tick := 0)), t, a) <==> Asleep(c, t, a)
  {
    var v := SwitchLists(c.(tick := 0));
    assert v.delayed == c.overflow && v.overflow == [] && v.overflows == c.overflows + 1;
  }

  lemma WrapKeepsInv(c: Clock)
    requires DelayInv(c) && c.tick == MAX_DELAY && c.delayed == []
    ensures var v := SwitchLists(c.(tick := 0));
      Ordered(v.delayed) && Ordered(v.overflow) && AllBelow(v.overflow, v.tick) && AllAtLeast(v.delayed, v.nextUnblock)
  {
    hide Ordered;
    assert Ordered([]) by { OrderedIsSorted([]); }
    ResetKeepsInv(c.(tick := 0, delayed := c.overflow, overflow := c.delayed, overflows := c.overflows + 1));
  }

  /** Moving the clock, the swap included, changes nobody's true wake time. */
  lemma AdvanceKeepsAlarms(c: Clock, t: nat, a: nat)
    requires DelayInv(c)
    ensures var v := Advance(c);
      && Now(v) == Now(c) + 1
      && Ordered(v.delayed) && Ordered(v.overflow) && AllBelow(v.overflow, v.tick) && AllAtLeast(v.delayed, v.nextUnblock)
      && (Asleep(v, t, a) <==> Asleep(c, t, a))
  {
    if c.tick == MAX_DELAY {
      SwapFindsNobody(c);
      hide Ordered, AllAtLeast, AllBelow, Asleep;
      WrapKeepsAlarms(c, t, a);
      WrapKeepsInv(c);
    } else {
      hide Ordered;
    }
  }

  lemma RemovingKeepsInv(c: Clock, x: nat)
    requires DelayInv(c)
    ensures DelayInv(c.(delayed := WithoutOwner(c.delayed, x), overflow := WithoutOwner(c.overflow, x)))
  {
    hide WithoutOwner, Ordered;
    WithoutOwnerMembers(c.delayed, x);
    WithoutOwnerMembers(c.overflow, x);
    WithoutOwnerOrdered(c.delayed, x);
    WithoutOwnerOrdered(c.overflow, x);
  }

  lemma RemovingAnother(c: Clock, x: nat, t: nat, a: nat)
    requires x != t
    ensures Asleep(c.(delayed := WithoutOwner(c.delayed, x), overflow := WithoutOwner(c.overflow, x)), t, a) <==> Asleep(c, t, a)
  {
    hide WithoutOwner;
    WithoutOwnerMembers(c.delayed, x);
    WithoutOwnerMembers(c.overflow, x);
  }

  /** An alarm set with a zero wait at the last tick before the wrap, and no other, breaks the invariant. */
  lemma SetAlarmKeepsInv(c: Clock, x: nat, wait: Tick)
    requires DelayInv(c)
    ensures DelayInv(SetAlarm(c, x, wait)) <==> wait > 0 || c.tick < MAX_DELAY
  {
    hide Ordered, InsertPos;
    var i := Item(x, WakeTime(c, wait));
    if i.value < c.tick { InsertedKeeps(c.overflow, i); } else { InsertedKeeps(c.delayed, i); }
  }

  /** The alarm rings `wait` ticks of true time from now, whichever list it goes to. */
  lemma SetAlarmIsExact(c: Clock, x: nat, wait: Tick)
    requires DelayInv(c)
    ensures Asleep(SetAlarm(c, x, wait), x, Now(c) + wait)
  {
    hide Ordered, InsertPos;
    var i := Item(x, WakeTime(c, wait));
    if i.value < c.tick { InsertedKeeps(c.overflow, i); } else { InsertedKeeps(c.delayed, i); }
  }

  lemma SetAlarmOfAnother(c: Clock, x: nat, wait: Tick, t: nat, a: nat)
    requires DelayInv(c) && x != t
    ensures Asleep(SetAlarm(c, x, wait), t, a) <==> Asleep(c, t, a)
  {
    hide Ordered, InsertPos;
    var i := Item(x, WakeTime(c, wait));
    if i.value < c.tick { InsertedKeeps(c.overflow, i); } else { InsertedKeeps(c.delayed, i); }
  }

  // ----- what one tick does ---------------------------------------------------------------

  /** The loop wakes exactly the tasks that are due, and leaves the cached time exact. */
  lemma {:induction false} UnblockEffect(s: State)
    requires Ordered(s.clock.delayed)
    ensures var u := Unblock(s);
      && u.clock == s.clock.(delayed := u.clock.delayed, nextUnblock := u.clock.nextUnblock)
      && Ordered(u.clock.delayed)
      && (forall e :: e in u.clock.delayed <==> e in s.clock.delayed && s.clock.tick < e.value)
      && AllAtLeast(u.clock.delayed, u.clock.nextUnblock)
      && (forall e :: e in s.clock.delayed && e.value <= s.clock.tick ==> IsReady(u, e.owner))
      && (forall x: nat :: IsReady(s, x) ==> IsReady(u, x))
      && (forall x :: x in u.pendingReady ==> x in s.pendingReady)
      && u.pended == s.pended && u.depth == s.depth && u.prio == s.prio
    decreases |s.clock.delayed|
  {
    hide InsertEnd, Without;
    var d := s.clock.delayed;
    HeadIsMember(d);
    if |d| == 0 || s.clock.tick < d[0].value {
    } else {
      var h := UnblockHead(s);
      UnblockEffect(h);
      WithoutMembers(s.pendingReady, d[0].owner);
      forall x: nat ensures IsReady(h, x) <==> x == d[0].owner || IsReady(s, x) {
        ReadyAfterAdd(RemoveEvent(s.(clock := s.clock.(delayed := d[1..])), d[0].owner), d[0].owner, x);
      }
    }
  }

  /**
    One tick: true time grows by one, also across the wrap; a sleeper with true
    wake time a is still asleep after it iff a lies beyond the new time, and
    otherwise has become ready.
   */
  lemma TickIsExact(s: State, t: nat, a: nat)
    requires DelayInv(s.clock)
    ensures var s' := DoTick(s);
      && DelayInv(s'.clock)
      && Now(s'.clock) == Now(s.clock) + 1
      && (Asleep(s'.clock, t, a) <==> Asleep(s.clock, t, a) && a > Now(s'.clock))
      && (Asleep(s.clock, t, a) && a <= Now(s'.clock) ==> IsReady(s', t))
      && (IsReady(s, t) ==> IsReady(s', t))
      && (t in s'.pendingReady ==> t in s.pendingReady)
      && s'.pended == s.pended && s'.depth == s.depth && s'.prio == s.prio
  {
    var v := s.(clock := Advance(s.clock));
    AdvanceKeepsAlarms(s.clock, t, a);
    if v.clock.tick >= v.clock.nextUnblock {
      UnblockEffect(v);
      DueOrAsleep(v.clock, Unblock(v).clock, t, a);
    } else {
      DueOrAsleep(v.clock, v.clock, t, a);
    }
  }

  /** t is at least as urgent as the running task. */
  ghost predicate Peer(prio: map<nat, Priority>, current: nat, t: nat) {
    (if t in prio then prio[t] else 0) >= if current in prio then prio[current] else 0
  }

  /** The switch request of the unblocking loop: some task that is due is at least as urgent as the running one. */
  lemma {:induction false} SwitchAskedFor(s: State)
    requires Ordered(s.clock.delayed)
    ensures UnblocksPeer(s) <==>
      exists e :: e in s.clock.delayed && e.value <= s.clock.tick && Peer(s.prio, s.current, e.owner)
    decreases |s.clock.delayed|
  {
    hide InsertEnd, Without;
    var d := s.clock.delayed;
    HeadIsMember(d);
    if |d| > 0 && d[0].value <= s.clock.tick { SwitchAskedFor(UnblockHead(s)); }
  }

  /** The one xTaskResumeAll records for the tasks it moves out of the pending ready list. */
  lemma {:induction false} SwitchRecorded(s: State)
    ensures Drain(s).yieldPending <==> s.yieldPending || exists t :: t in s.pendingReady && Peer(s.prio, s.current, t)
    decreases |s.pendingReady|
  {
    hide InsertEnd, RemoveReady, Without, WithoutOwner;
    if |s.pendingReady| > 0 {
      var t, r := s.pendingReady[0], s.pendingReady[1..];
      assert s.pendingReady == [t] + r;
      assert forall x :: x in s.pendingReady <==> x == t || x in r;
      SwitchRecorded(DrainHead(s));
      assert DrainHead(s).yieldPending <==> s.yieldPending || Peer(s.prio, s.current, t);
    }
  }

  lemma DueOrAsleep(c: Clock, d: Clock, t: nat, a: nat)
    requires d == c.(delayed := d.delayed, nextUnblock := d.nextUnblock)
    requires forall e :: e in d.delayed <==> e in c.delayed && c.tick < e.value
    ensures Asleep(d, t, a) <==> Asleep(c, t, a) && a > Now(c)
    ensures Asleep(c, t, a) && a <= Now(c) ==> exists e :: e in c.delayed && e.owner == t && e.value <= c.tick
  {
    if Asleep(c, t, a) && a <= Now(c) { assert Item(t, a - c.overflows * 0x1_0000_0000) in c.delayed; }
  }

  /** n ticks in a row, as the catch-up loop of xTaskResumeAll delivers them. */
  lemma {:induction false} CatchUpIsExact(s: State, n: nat, t: nat, a: nat)
    requires DelayInv(s.clock)
    ensures var s' := CatchUp(s, n);
      && DelayInv(s'.clock)
      && Now(s'.clock) == Now(s.clock) + n
      && (Asleep(s'.clock, t, a) <==> Asleep(s.clock, t, a) && (a > Now(s'.clock) || n == 0))
      && (Asleep(s.clock, t, a) && a <= Now(s'.clock) && n > 0 ==> IsReady(s', t))
      && (IsReady(s, t) ==> IsReady(s', t))
      && (t in s'.pendingReady ==> t in s.pendingReady)
      && s'.pended == s.pended && s'.depth == s.depth && s'.prio == s.prio
    decreases n
  {
    if n > 0 {
      TickIsExact(s, t, a);
      CatchUpIsExact(CatchUpTick(s), n - 1, t, a);
    }
  }

  // ----- every step keeps the invariant -------------------------------------------------------

  lemma {:induction false} DrainKeepsInv(s: State)
    requires DelayInv(s.clock)
    ensures DelayInv(Drain(s).clock) && Now(Drain(s).clock) == Now(s.clock)
    ensures Drain(s).pendingReady == []
    ensures Drain(s).pended == s.pended && Drain(s).depth == s.depth && Drain(s).prio == s.prio
    decreases |s.pendingReady|
  {
    if |s.pendingReady| > 0 {
      RemovingKeepsInv(s.clock, s.pendingReady[0]);
      DrainKeepsInv(DrainHead(s));
    }
  }

  lemma DrainPendingKeepsInv(s: State)
    requires DelayInv(s.clock)
    ensures var d := DrainPending(s);
      && DelayInv(d.clock) && Now(d.clock) == Now(s.clock)
      && d.pendingReady == []
      && d.pended == s.pended && d.depth == s.depth && d.prio == s.prio
  {
    DrainKeepsInv(s);
    ResetKeepsInv(Drain(s).clock);
  }

  lemma ResumeAllKeepsInv(s: State)
    requires DelayInv(s.clock) && s.depth > 0
    ensures DelayInv(ResumeAll(s).clock)
  {
    if s.depth == 1 && |s.prio| > 0 {
      DrainPendingKeepsInv(s.(depth := 0));
      CatchUpIsExact(DrainPending(s.(depth := 0)), s.pended, 0, 0);
    }
  }

  lemma InvIsOrdered(c: Clock)
    requires DelayInv(c)
    ensures Ordered(c.delayed)
  {
  }

  lemma SwitchKeepsClock(s: State)
    requires Enabled(s, ContextSwitch)
    ensures SwitchContext(s).clock == s.clock
  {
  }

  lemma RemoveStateKeepsInv(s: State, x: nat)
    requires DelayInv(s.clock)
    ensures DelayInv(RemoveState(s, x).clock) && DelayInv(Reset(RemoveState(s, x).clock))
  {
    hide DelayInv, RemoveReady, Without, WithoutOwner, Reset;
    RemovingKeepsInv(s.clock, x);
    InvIsOrdered(RemoveState(s, x).clock);
    ResetKeepsInv(RemoveState(s, x).clock);
  }

  lemma WakingKeepsInv(s: State, e: Event)
    requires DelayInv(s.clock) && Enabled(s, e)
    requires e.Woken? || e.WokenUnordered? || e.Notified? || e.NotifiedFromISR? || e.DelayAborted?
    ensures DelayInv(Step(s, e).clock)
  {
    hide DelayInv, InsertEnd, RemoveReady, Without, WithoutOwner, IsReady, Reset;
    InvIsOrdered(s.clock);
    ResetKeepsInv(s.clock);
    RemoveStateKeepsInv(s, e.task);
    RemovingKeepsInv(s.clock, e.task);
    RemovingKeepsInv(Reset(s.clock), e.task);
  }

  lemma MovingKeepsInv(s: State, e: Event)
    requires DelayInv(s.clock) && Enabled(s, e)
    requires e.Deleted? || e.TaskSuspended? || e.TaskResumed? || e.ResumedFromISR? || e.PriorityChanged?
    ensures DelayInv(Step(s, e).clock)
  {
    hide DelayInv, InsertEnd, RemoveReady, Without, WithoutOwner, IsReady, Reset;
    RemoveStateKeepsInv(s, e.task);
  }

  lemma StepKeepsInv(s: State, e: Event)
    requires DelayInv(s.clock) && Enabled(s, e)
    ensures DelayInv(Step(s, e).clock)
  {
    hide DelayInv, InsertEnd, RemoveReady, SetAlarm, DoTick, ResumeAll, SwitchContext, EventWake, UnorderedWake, Notify;
    hide NotifyFromISR, AbortDelay, Delete, Suspend, Resume, ResumeFromISR, ChangePriority;
    match e
    case TickInterrupt => TickIsExact(s, 0, 0);
    case BlockCurrent(wait, _, _) => SetAlarmKeepsInv(s.clock, s.current, wait);
    case Woken(_) => WakingKeepsInv(s, e);
    case WokenUnordered(_) => WakingKeepsInv(s, e);
    case SchedulerSuspended =>
    case SchedulerResumed => ResumeAllKeepsInv(s);
    case ContextSwitch => SwitchKeepsClock(s);
    case Created(_, _) =>
    case Deleted(_) => MovingKeepsInv(s, e);
    case IdleCleanup =>
    case TaskSuspended(_) => MovingKeepsInv(s, e);
    case TaskResumed(_) => MovingKeepsInv(s, e);
    case ResumedFromISR(_) => MovingKeepsInv(s, e);
    case Notified(_) => WakingKeepsInv(s, e);
    case NotifiedFromISR(_) => WakingKeepsInv(s, e);
    case DelayAborted(_) => WakingKeepsInv(s, e);
    case PriorityChanged(_, _) => MovingKeepsInv(s, e);
  }

  // ----- exact delays over every run --------------------------------------------------------------

  /** The step is about t itself: it blocks, wakes, suspends, resumes, creates or deletes t. */
  ghost predicate Touches(s: State, e: Event, t: nat) {
    match e
    case TickInterrupt => false
    case BlockCurrent(_, _, _) => s.current == t
    case Woken(x) => x == t
    case WokenUnordered(x) => x == t
    case SchedulerSuspended => false
    case SchedulerResumed => false
    case ContextSwitch => false
    case Created(x, _) => x == t
    case Deleted(x) => x == t
    case IdleCleanup => |s.terminating| > 0 && s.terminating[0] == t
    case TaskSuspended(x) => x == t
    case TaskResumed(x) => x == t
    case ResumedFromISR(x) => x == t
    case Notified(x) => x == t
    case NotifiedFromISR(x) => x == t
    case DelayAborted(x) => x == t
    case PriorityChanged(_, _) => false
  }

  /** t sleeps before true time a; from a on it is ready and off the list. */
  ghost predicate OnTime(s: State, t: nat, a: nat) {
    && t !in s.pendingReady
    && (Asleep(s.clock, t, a) <==> Now(s.clock) < a)
    && (a <= Now(s.clock) ==> IsReady(s, t))
  }

  lemma {:induction false} DrainOnTime(s: State, t: nat, a: nat)
    requires OnTime(s, t, a)
    ensures OnTime(Drain(s), t, a)
    decreases |s.pendingReady|
  {
    if |s.pendingReady| > 0 {
      MoveOnTime(s.(pendingReady := s.pendingReady[1..]), s.pendingReady[0], t, a);
      DrainOnTime(DrainHead(s), t, a);
    }
  }

  lemma SameOnTime(s: State, r: State, t: nat, a: nat)
    requires OnTime(s, t, a) && r.ready == s.ready && r.prio == s.prio && t !in r.pendingReady
    requires r.clock == s.clock.(nextUnblock := r.clock.nextUnblock)
    ensures OnTime(r, t, a)
  {
  }

  lemma MoveOnTime(s: State, x: nat, t: nat, a: nat)
    requires OnTime(s, t, a) && x != t
    ensures OnTime(RemoveState(s, x), t, a)
    ensures OnTime(AddToReady(RemoveState(s, x), x), t, a)
  {
    RemovingAnother(s.clock, x, t, a);
    ReadyAfterRemove(s, x, t);
    ReadyAfterAdd(RemoveState(s, x), x, t);
  }

  lemma CatchUpOnTime(s: State, n: nat, t: nat, a: nat)
    requires DelayInv(s.clock) && OnTime(s, t, a)
    ensures OnTime(CatchUp(s, n), t, a)
  {
    CatchUpIsExact(s, n, t, a);
  }

  lemma DrainPendingOnTime(s: State, t: nat, a: nat)
    requires OnTime(s, t, a)
    ensures OnTime(DrainPending(s), t, a)
  {
    hide OnTime, Drain;
    DrainOnTime(s, t, a);
    NotPendingNow(Drain(s), t, a);
    SameOnTime(Drain(s), ResetNextUnblock(Drain(s)), t, a);
  }

  lemma ResumeAllOnTime(s: State, t: nat, a: nat)
    requires DelayInv(s.clock) && s.depth > 0 && OnTime(s, t, a)
    ensures OnTime(ResumeAll(s), t, a)
  {
    if s.depth == 1 && |s.prio| > 0 {
      DrainPendingKeepsInv(s.(depth := 0));
      DrainPendingOnTime(s.(depth := 0), t, a);
      CatchUpOnTime(DrainPending(s.(depth := 0)), s.pended, t, a);
    }
  }

  lemma BlockOnTime(s: State, wait: Tick, indefinite: bool, onEvent: bool, t: nat, a: nat)
    requires DelayInv(s.clock) && t != s.current && OnTime(s, t, a)
    ensures OnTime(Block(s, wait, indefinite, onEvent), t, a)
  {
    SetAlarmOfAnother(s.clock, s.current, wait, t, a);
    ReadyAfterRemove(s, s.current, t);
    assert LeaveReady(s, onEvent).ready == RemoveState(s, s.current).ready;
  }

  lemma DeleteOnTime(s: State, x: nat, t: nat, a: nat)
    requires OnTime(s, t, a) && x != t
    ensures OnTime(Delete(s, x), t, a)
  {
    hide OnTime, Without, RemoveState;
    MoveOnTime(s, x, t, a);
    NotPendingStill(RemoveState(s, x), x, t, a);
    var r := RemoveEvent(RemoveState(s, x), x);
    SameOnTime(RemoveState(s, x), r, t, a);
    if x == s.current {
      SameOnTime(r, Delete(s, x), t, a);
    } else {
      ForgottenOnTime(r, x, t, a);
      SameOnTime(r.(prio := r.prio - {x}), Delete(s, x), t, a);
    }
  }

  lemma ForgottenOnTime(s: State, x: nat, t: nat, a: nat)
    requires OnTime(s, t, a) && x != t
    ensures OnTime(s.(prio := s.prio - {x}), t, a)
  {
  }

  lemma NotPendingStill(s: State, x: nat, t: nat, a: nat)
    requires OnTime(s, t, a)
    ensures t !in RemoveEvent(s, x).pendingReady
  {
    WithoutMembers(s.pendingReady, x);
  }

  lemma NotPendingNow(s: State, t: nat, a: nat)
    requires OnTime(s, t, a)
    ensures t !in s.pendingReady
  {
  }

  lemma SuspendOnTime(s: State, x: nat, t: nat, a: nat)
    requires OnTime(s, t, a) && x != t
    ensures OnTime(Suspend(s, x), t, a)
  {
    hide OnTime, Without, RemoveState;
    MoveOnTime(s, x, t, a);
    NotPendingStill(RemoveState(s, x), x, t, a);
    SameOnTime(RemoveState(s, x), Suspend(s, x), t, a);
  }

  lemma WakeOnTime(s: State, x: nat, t: nat, a: nat)
    requires OnTime(s, t, a) && x != t
    ensures OnTime(EventWake(s, x), t, a)
  {
    hide OnTime, RemoveState, AddToReady;
    var e := s.(waiting := s.waiting - {x});
    NotPendingNow(s, t, a);
    SameOnTime(s, e, t, a);
    if s.depth == 0 {
      MoveOnTime(e, x, t, a);
      NotPendingNow(AddToReady(RemoveState(e, x), x), t, a);
      SameOnTime(AddToReady(RemoveState(e, x), x), EventWake(s, x), t, a);
    } else {
      SameOnTime(e, EventWake(s, x), t, a);
    }
  }

  lemma UnorderedWakeOnTime(s: State, x: nat, t: nat, a: nat)
    requires OnTime(s, t, a) && x != t
    ensures OnTime(UnorderedWake(s, x), t, a)
  {
    hide OnTime, RemoveState, AddToReady;
    var e := s.(waiting := s.waiting - {x});
    var r := if s.tickless then ResetNextUnblock(e) else e;
    NotPendingNow(s, t, a);
    SameOnTime(s, r, t, a);
    MoveOnTime(r, x, t, a);
    NotPendingNow(AddToReady(RemoveState(r, x), x), t, a);
    SameOnTime(AddToReady(RemoveState(r, x), x), UnorderedWake(s, x), t, a);
  }

  lemma AbortOnTime(s: State, x: nat, t: nat, a: nat)
    requires OnTime(s, t, a) && x != t
    ensures OnTime(AbortDelay(s, x), t, a)
  {
    hide OnTime, RemoveState, Without, InsertEnd;
    MoveOnTime(s, x, t, a);
    NotPendingStill(RemoveState(s, x), x, t, a);
    var r := RemoveEvent(RemoveState(s, x), x);
    SameOnTime(RemoveState(s, x), r, t, a);
    AddedOnTime(r, x, t, a);
    NotPendingNow(AddToReady(r, x), t, a);
    SameOnTime(AddToReady(r, x), AbortDelay(s, x), t, a);
  }

  lemma AddedOnTime(s: State, x: nat, t: nat, a: nat)
    requires OnTime(s, t, a)
    ensures OnTime(AddToReady(s, x), t, a)
  {
    hide InsertEnd;
    ReadyAfterAdd(s, x, t);
  }

  lemma ReprioritisedStaysReady(s: State, x: nat, p: Priority, t: nat)
    requires IsReady(s, t)
    ensures IsReady(ChangePriority(s, x, p), t)
  {
    if IsReady(s, x) {
      var r := Unready(s, x);
      if t != x {
        ReadyAfterRemove(s, x, t);
        assert RemoveState(s, x).ready == r.ready;
      }
      ReadyAfterAdd(r.(prio := s.prio[x := p]), x, t);
    }
  }

  lemma ResumeOnTime(s: State, x: nat, t: nat, a: nat)
    requires OnTime(s, t, a) && x != t
    ensures OnTime(Resume(s, x), t, a) && OnTime(ResumeFromISR(s, x), t, a)
  {
    hide OnTime, RemoveState, AddToReady;
    MoveOnTime(s, x, t, a);
    NotPendingNow(s, t, a);
    NotPendingNow(AddToReady(RemoveState(s, x), x), t, a);
    SameOnTime(s, s.(pendingReady := s.pendingReady + [x]), t, a);
    if IsSuspended(s, x) && s.depth == 0 { SameOnTime(AddToReady(RemoveState(s, x), x), ResumeFromISR(s, x), t, a); }
  }

  lemma NotifyOnTime(s: State, x: nat, t: nat, a: nat)
    requires OnTime(s, t, a) && x != t
    ensures OnTime(Notify(s, x), t, a) && OnTime(NotifyFromISR(s, x), t, a)
  {
    hide OnTime, RemoveState, AddToReady;
    MoveOnTime(s, x, t, a);
    NotPendingNow(s, t, a);
    NotPendingNow(AddToReady(RemoveState(s, x), x), t, a);
    SameOnTime(AddToReady(RemoveState(s, x), x), Notify(s, x), t, a);
    SameOnTime(if s.depth == 0 then AddToReady(RemoveState(s, x), x) else s, NotifyFromISR(s, x), t, a);
  }

  lemma CreateOnTime(s: State, x: nat, p: Priority, t: nat, a: nat)
    requires OnTime(s, t, a) && x != t
    ensures OnTime(Create(s, x, p), t, a)
  {
    hide InsertEnd;
    ReadyAfterAdd(s.(prio := s.prio[x := p]), x, t);
  }

  lemma ChangePriorityOnTime(s: State, x: nat, p: Priority, t: nat, a: nat)
    requires OnTime(s, t, a)
    ensures OnTime(ChangePriority(s, x, p), t, a)
  {
    hide InsertEnd, RemoveReady, IsReady;
    if IsReady(s, t) { ReprioritisedStaysReady(s, x, p, t); }
  }

  lemma QuietOnTime(s: State, e: Event, t: nat, a: nat)
    requires Enabled(s, e) && !Touches(s, e, t) && OnTime(s, t, a)
    requires e.SchedulerSuspended? || e.ContextSwitch? || e.IdleCleanup?
    ensures OnTime(Step(s, e), t, a)
  {
    hide TopNonEmpty;
    if e.ContextSwitch? && s.depth == 0 { TopNonEmptyFinds(s.ready, s.topReady); }
  }

  lemma TickOnTime(s: State, t: nat, a: nat)
    requires DelayInv(s.clock) && OnTime(s, t, a)
    ensures OnTime(IncrementTick(s), t, a)
  {
    hide DoTick, DelayInv;
    TickIsExact(s, t, a);
  }

  /** No step that is not about t wakes it early or late. */
  lemma StepOnTime(s: State, e: Event, t: nat, a: nat)
    requires DelayInv(s.clock) && Enabled(s, e) && !Touches(s, e, t) && OnTime(s, t, a)
    ensures OnTime(Step(s, e), t, a)
  {
    hide OnTime, DelayInv, IncrementTick, TaskModel.Block, EventWake, UnorderedWake, ResumeAll, SwitchContext, Create;
    hide Delete, Suspend, Resume, ResumeFromISR, Notify, NotifyFromISR, AbortDelay, ChangePriority;
    match e
    case TickInterrupt => TickOnTime(s, t, a);
    case BlockCurrent(wait, indefinite, onEvent) => BlockOnTime(s, wait, indefinite, onEvent, t, a);
    case Woken(x) => WakeOnTime(s, x, t, a);
    case WokenUnordered(x) => UnorderedWakeOnTime(s, x, t, a);
    case SchedulerSuspended => QuietOnTime(s, e, t, a);
    case SchedulerResumed => ResumeAllOnTime(s, t, a);
    case ContextSwitch => QuietOnTime(s, e, t, a);
    case Created(x, p) => CreateOnTime(s, x, p, t, a);
    case Deleted(x) => DeleteOnTime(s, x, t, a);
    case IdleCleanup => QuietOnTime(s, e, t, a);
    case TaskSuspended(x) => SuspendOnTime(s, x, t, a);
    case TaskResumed(x) => ResumeOnTime(s, x, t, a);
    case ResumedFromISR(x) => ResumeOnTime(s, x, t, a);
    case Notified(x) => NotifyOnTime(s, x, t, a);
    case NotifiedFromISR(x) => NotifyOnTime(s, x, t, a);
    case DelayAborted(x) => AbortOnTime(s, x, t, a);
    case PriorityChanged(x, p) => ChangePriorityOnTime(s, x, p, t, a);
  }

  /** No step of the run is about t. */
  ghost predicate Untouched(tr: seq<State>, es: seq<Event>, t: nat)
    requires |tr| == |es| + 1
  {
    forall i {:trigger es[i]} :: 0 <= i < |es| ==> !Touches(tr[i], es[i], t)
  }

  lemma {:induction false} RunOnTime(tr: seq<State>, es: seq<Event>, t: nat, a: nat, i: nat)
    requires Run(tr, es) && Untouched(tr, es, t) && i < |tr|
    requires DelayInv(tr[0].clock) && OnTime(tr[0], t, a)
    ensures DelayInv(tr[i].clock) && OnTime(tr[i], t, a)
    decreases i
  {
    hide Step, Enabled, Touches, DelayInv, OnTime;
    if i > 0 {
      RunOnTime(tr, es, t, a, i - 1);
      StepKeepsInv(tr[i - 1], es[i - 1]);
      StepOnTime(tr[i - 1], es[i - 1], t, a);
    }
  }

  /**
    Exact delays.  The running task blocks at true time T for `wait` ticks,
    not indefinitely.  In every run from there, whatever the other tasks and the
    interrupts do and however often the 32-bit count wraps, as long as nothing
    wakes the task otherwise it is on the delayed lists exactly while the true
    time is below T + wait, and ready from then on.
   */
  lemma ExactDelay(s: State, wait: Tick, indefinite: bool, onEvent: bool, tr: seq<State>, es: seq<Event>, i: nat)
    requires DelayInv(s.clock) && s.current !in s.pendingReady
    requires wait > 0 && !(wait == MAX_DELAY && indefinite)
    requires Run(tr, es) && tr[0] == Block(s, wait, indefinite, onEvent) && i < |tr|
    requires Untouched(tr, es, s.current)
    ensures Asleep(tr[i].clock, s.current, Now(s.clock) + wait) <==> Now(tr[i].clock) < Now(s.clock) + wait
    ensures Now(tr[i].clock) >= Now(s.clock) + wait ==> IsReady(tr[i], s.current)
  {
    hide Step, Enabled, Run, Untouched, DelayInv, Asleep, TaskModel.Block;
    BlockStartsOnTime(s, wait, indefinite, onEvent);
    RunOnTime(tr, es, s.current, Now(s.clock) + wait, i);
  }

  lemma BlockStartsOnTime(s: State, wait: Tick, indefinite: bool, onEvent: bool)
    requires DelayInv(s.clock) && s.current !in s.pendingReady
    requires wait > 0 && !(wait == MAX_DELAY && indefinite)
    ensures DelayInv(Block(s, wait, indefinite, onEvent).clock)
    ensures OnTime(Block(s, wait, indefinite, onEvent), s.current, Now(s.clock) + wait)
  {
    hide WakeTime, Inserted, Ordered, RemoveReady, DelayInv, Asleep;
    SetAlarmKeepsInv(s.clock, s.current, wait);
    SetAlarmIsExact(s.clock, s.current, wait);
  }

  /** The invariant holds from start-up on. */
  lemma {:induction false} RunKeepsInv(tr: seq<State>, es: seq<Event>, i: nat)
    requires Run(tr, es) && DelayInv(tr[0].clock) && i < |tr|
    ensures DelayInv(tr[i].clock)
    decreases i
  {
    hide Step, Enabled, DelayInv;
    if i > 0 {
      RunKeepsInv(tr, es, i - 1);
      StepKeepsInv(tr[i - 1], es[i - 1]);
    }
  }

  lemma InitialInv(t: nat, p: Priority, tickless: bool)
    ensures DelayInv(Initial(t, p, tickless).clock)
  {
  }

  /**
    The same from start-up: whenever in any run the running task blocks for a
    finite time, it wakes at that time unless a later step wakes it otherwise.
   */
  lemma EveryDelayIsExact(tr: seq<State>, es: seq<Event>, k: nat, j: nat, t: nat, p: Priority, tickless: bool)
    requires Run(tr, es) && tr[0] == Initial(t, p, tickless) && k < j < |tr|
    requires es[k].BlockCurrent? && es[k].wait > 0 && !(es[k].wait == MAX_DELAY && es[k].indefinite)
    requires forall i {:trigger es[i]} :: k < i < j ==> !Touches(tr[i], es[i], tr[k].current)
    ensures var a := Now(tr[k].clock) + es[k].wait;
      && (Asleep(tr[j].clock, tr[k].current, a) <==> Now(tr[j].clock) < a)
      && (Now(tr[j].clock) >= a ==> IsReady(tr[j], tr[k].current))
  {
    hide Step, Enabled, DelayInv, Asleep, IsReady, Touches, TaskModel.Block, TaskPartition.Partition, Initial;
    InitialInv(t, p, tickless);
    TaskPartition.InitialPartition(t, p, tickless);
    RunKeepsInv(tr, es, k);
    TaskPartition.RunKeepsPartition(tr, es, k);
    NotPending(tr[k], es[k]);
    StepBlocks(tr[k], es[k]);
    LaterRun(tr, es, k + 1, j);
    ExactDelay(tr[k], es[k].wait, es[k].indefinite, es[k].onEvent, tr[k + 1..j + 1], es[k + 1..j], j - k - 1);
  }

  lemma StepBlocks(s: State, e: Event)
    requires Enabled(s, e) && e.BlockCurrent?
    ensures Step(s, e) == Block(s, e.wait, e.indefinite, e.onEvent)
  {
  }

  lemma NotPending(s: State, e: Event)
    requires TaskPartition.Partition(s) && Enabled(s, e) && e.BlockCurrent?
    ensures s.current !in s.pendingReady
  {
  }

  lemma LaterRun(tr: seq<State>, es: seq<Event>, k: nat, j: nat)
    requires Run(tr, es) && k <= j < |tr|
    ensures Run(tr[k..j + 1], es[k..j])
  {
    hide Step, Enabled;
  }

  /**
    Why Enabled excludes a zero wait at the last tick before the wrap: the item
    lands on the list about to be swapped out and sleeps on for two whole wraps.
   */
  lemma ZeroWaitAtLastTick(t: nat)
    ensures var c := Clock(MAX_DELAY, 0, MAX_DELAY, [], []);
      var c' := Advance(SetAlarm(c, t, 0));
      && DelayInv(c)
      && Now(c') == Now(c) + 1
      && Asleep(c', t, Now(c) + 2 * TICKS) && c'.delayed == []
  {
    var c := Clock(MAX_DELAY, 0, MAX_DELAY, [], []);
    assert SetAlarm(c, t, 0).delayed == [Item(t, MAX_DELAY)];
    assert Advance(SetAlarm(c, t, 0)).overflow == [Item(t, MAX_DELAY)];
  }
}
