/**
  When a switch of tasks is asked for (tasks.c): by a tick, by resuming the
  scheduler, and by every wake; and that this is often enough: the running task is
  never less urgent than a ready one without a switch having been asked for.
 */
module Preemption {
  import opened Lists
  import opened TaskModel
  import opened TaskPartition
  import opened DelayedTasks
  import opened TaskStates

  // ----- the tick ---------------------------------------------------------------------------------

  /** A task at least as urgent as the running one is to be woken by true time `until`. */
  ghost predicate PeerDue(s: State, until: nat) {
    exists t: nat, a: nat :: Asleep(s.clock, t, a) && a <= until && Peer(s.prio, s.current, t)
  }

  /** More than one task of the running task's priority is ready. */
  ghost predicate Shared(s: State) {
    exists x: nat, y: nat :: x != y && IsReady(s, x) && IsReady(s, y) && Prio(s, x) == Prio(s, s.current) == Prio(s, y)
  }

  lemma SharedIsLong(s: State)
    requires OnOneList(s) && Indexed(s)
    ensures |s.ready[Prio(s, s.current)].items| > 1 <==> Shared(s)
  {
    hide OnOneList;
    var p := Prio(s, s.current);
    var l := s.ready[p].items;
    if |l| > 1 {
      var x, y := l[0], l[1];
      assert x in s.ready[p].items && y in s.ready[p].items;
      if x == y { SameTwice(s, x); }
      assert IsReady(s, x) && IsReady(s, y);
    }
    if Shared(s) {
      var x: nat, y: nat :| x != y && IsReady(s, x) && IsReady(s, y) && Prio(s, x) == Prio(s, s.current) == Prio(s, y);
      assert x in l && y in l;
    }
  }

  lemma SameTwice(s: State, x: nat)
    requires OnOneList(s) && Indexed(s) && |s.ready[Prio(s, x)].items| > 1 && s.ready[Prio(s, x)].items[0] == x
    ensures s.ready[Prio(s, x)].items[1] != x
  {
    hide OnOneList, Indexed;
    var l := s.ready[Prio(s, x)].items;
    PlacesOfTask(s, x);
    assert l == [l[0]] + [l[1]] + l[2..];
  }

  lemma SharedWithRunning(s: State)
    requires IsReady(s, s.current)
    ensures Shared(s) <==> exists x: nat :: x != s.current && IsReady(s, x) && Prio(s, x) == Prio(s, s.current)
  {
    hide IsReady;
  }

  ghost predicate PeerOnList(c: Clock, prio: map<nat, Priority>, current: nat) {
    exists e :: e in c.delayed && e.value <= c.tick && Peer(prio, current, e.owner)
  }

  lemma DuePeerIsListed(s: State)
    requires DelayInv(s.clock) && PeerDue(s, Now(s.clock) + 1)
    ensures PeerOnList(Advance(s.clock), s.prio, s.current)
  {
    hide DelayInv, Peer, Advance, Asleep;
    var t: nat, a: nat :| Asleep(s.clock, t, a) && a <= Now(s.clock) + 1 && Peer(s.prio, s.current, t);
    AdvanceKeepsAlarms(s.clock, t, a);
    DueIsOnList(Advance(s.clock), t, a);
  }

  lemma ListedPeerIsDue(s: State)
    requires DelayInv(s.clock) && PeerOnList(Advance(s.clock), s.prio, s.current)
    ensures PeerDue(s, Now(s.clock) + 1)
  {
    hide DelayInv, Peer, Advance, Asleep;
    var c := Advance(s.clock);
    var e :| e in c.delayed && e.value <= c.tick && Peer(s.prio, s.current, e.owner);
    var a := c.overflows * 0x1_0000_0000 + e.value;
    assert e == Item(e.owner, e.value);
    ListShowsSleeper(c, e.owner, e.value);
    AdvanceKeepsAlarms(s.clock, e.owner, a);
    assert Asleep(s.clock, e.owner, a);
  }

  lemma CachedTimeIsEarly(c: Clock, prio: map<nat, Priority>, current: nat)
    requires AllAtLeast(c.delayed, c.nextUnblock) && c.tick < c.nextUnblock
    ensures !PeerOnList(c, prio, current)
  {
  }

  /**
    A tick asks for a switch if and only if one was pending, or it wakes a task at least
    as urgent as the running one, or tasks of the running task's priority are to take turns.
   */
  lemma TickAsksIff(s: State)
    requires Consistent(s) && DelayInv(s.clock)
    ensures TickWantsSwitch(s) <==> s.yieldPending || PeerDue(s, Now(s.clock) + 1) || Shared(DoTick(s))
  {
    hide Consistent, DelayInv, Asleep, PeerDue, Peer, DoTick, Shared;
    var a := s.(clock := Advance(s.clock));
    if PeerDue(s, Now(s.clock) + 1) { DuePeerIsListed(s); }
    if PeerOnList(a.clock, s.prio, s.current) { ListedPeerIsDue(s); }
    AdvanceKeepsAlarms(s.clock, 0, 0);
    if a.clock.tick >= a.clock.nextUnblock { SwitchAskedFor(a); } else { CachedTimeIsEarly(a.clock, s.prio, s.current); }
    TickKeeps(s);
    ConsistentParts(DoTick(s));
    SharedIsLong(DoTick(s));
  }

  /** With the running task ready: another task of its priority is. */
  lemma TickAsksForTurns(s: State)
    requires Good(s) && s.depth == 0 && IsReady(s, s.current)
    ensures TickWantsSwitch(s) <==>
      || s.yieldPending
      || (exists t: nat, a: nat :: Asleep(s.clock, t, a) && a <= Now(s.clock) + 1 && Prio(s, t) >= Prio(s, s.current))
      || (exists x: nat :: x != s.current && IsReady(IncrementTick(s), x) && Prio(s, x) == Prio(s, s.current))
  {
    hide DelayInv, OnOneList, Indexed, Blocked, Asleep, DoTick, IsReady, TickWantsSwitch, Shared;
    PartitionIsConsistent(s);
    TickAsksIff(s);
    TickIsExact(s, s.current, 0);
    TickKeeps(s);
    SharedWithRunning(DoTick(s));
    PeerDueMeans(s, Now(s.clock) + 1);
    assert forall x: nat :: Prio(DoTick(s), x) == Prio(s, x);
  }

  lemma PeerDueMeans(s: State, until: nat)
    ensures PeerDue(s, until) <==> exists t: nat, a: nat :: Asleep(s.clock, t, a) && a <= until && Prio(s, t) >= Prio(s, s.current)
  {
    hide Asleep;
    assert forall t: nat :: Peer(s.prio, s.current, t) <==> Prio(s, t) >= Prio(s, s.current);
  }

  // ----- resuming the scheduler -------------------------------------------------------------------

  lemma ReadinessShared(s: State, r: State)
    requires Shared(s) && r.prio == s.prio && r.current == s.current && forall x: nat :: IsReady(s, x) ==> IsReady(r, x)
    ensures Shared(r)
  {
    hide IsReady;
  }

  /** Who is due within the first tick, or after it. */
  lemma DueAfterTick(s: State, until: nat)
    requires Consistent(s) && DelayInv(s.clock) && until > Now(s.clock)
    ensures PeerDue(s, until) <==> PeerDue(s, Now(s.clock) + 1) || PeerDue(DoTick(s), until)
  {
    hide Consistent, DelayInv, Asleep, Peer, DoTick;
    TickKeeps(s);
    forall t: nat, a: nat ensures Asleep(DoTick(s).clock, t, a) <==> Asleep(s.clock, t, a) && a > Now(s.clock) + 1 {
      TickIsExact(s, t, a);
    }
  }

  /** n ticks in a row ask for a switch if one of them does. */
  lemma {:induction false} CatchUpAsksIff(s: State, n: nat)
    requires Consistent(s) && DelayInv(s.clock) && s.pendingReady == []
    ensures CatchUp(s, n).yieldPending <==>
      s.yieldPending || (n > 0 && (PeerDue(s, Now(s.clock) + n) || Shared(CatchUp(s, n))))
    decreases n
  {
    hide Consistent, DelayInv, PeerDue, Shared, DoTick, TickWantsSwitch, IsReady;
    if n > 0 {
      var d, u := DoTick(s), CatchUpTick(s);
      TickKeeps(s);
      TickIsExact(s, 0, 0);
      SameLists(d, u);
      CatchUpAsksIff(u, n - 1);
      TickAsksIff(s);
      DueAfterTick(s, Now(s.clock) + n);
      SameDue(d, u, Now(s.clock) + n);
      CatchUpKeeps(u, n - 1);
      forall x: nat ensures IsReady(u, x) ==> IsReady(CatchUp(u, n - 1), x) { CatchUpIsExact(u, n - 1, x, 0); }
      if Shared(d) {
        ReadinessShared(d, u) by { assert forall x: nat :: IsReady(d, x) ==> IsReady(u, x) by { SameReady(d, u); } }
        ReadinessShared(u, CatchUp(u, n - 1));
      }
      if n == 1 && Shared(u) { ReadinessShared(u, d) by { SameReady(u, d); } }
    }
  }

  lemma SameReady(s: State, r: State)
    requires r.ready == s.ready && r.prio == s.prio
    ensures forall x: nat :: IsReady(s, x) <==> IsReady(r, x)
  {
  }

  lemma SameDue(s: State, r: State, until: nat)
    requires r.clock == s.clock && r.prio == s.prio && r.current == s.current
    ensures PeerDue(s, until) <==> PeerDue(r, until)
  {
  }

  ghost predicate PeerPending(s: State) {
    exists t :: t in s.pendingReady && Peer(s.prio, s.current, t)
  }

  /** Draining the pending list wakes nobody early: who sleeps afterwards slept before and was not pending. */
  lemma DrainedSleepers(s: State, t: nat, a: nat)
    requires Consistent(s) && DelayInv(s.clock)
    ensures Asleep(DrainPending(s).clock, t, a) <==> Asleep(s.clock, t, a) && t !in s.pendingReady
  {
    hide Consistent, DelayInv, Asleep, DrainPending, Placed;
    var d := DrainPending(s);
    DrainPendingParts(s);
    ConsistentParts(s);
    ConsistentParts(d);
    if t in s.prio {
      var p := SomePlace(s, t);
      DrainedPlace(s, t, p);
      var q := if t in s.pendingReady then Ready else p;
      PlacedAsleep(d, t, a);
      PlacedAsleep(s, t, a);
      if Asleep(d.clock, t, a) { OnePlace(d, t, q, Sleeping(a)); }
      if Asleep(s.clock, t, a) { OnePlace(s, t, p, Sleeping(a)); }
    } else {
      NobodySleeps(s, t, a);
      NobodySleeps(d, t, a);
    }
  }

  lemma DrainedPlace(s: State, t: nat, p: Place)
    requires Placed(s, t, p)
    ensures Placed(DrainPending(s), t, if t in s.pendingReady then Ready else p)
  {
    hide Placed;
    DrainPlaces(s, t, p);
    SamePlace(Drain(s), ResetNextUnblock(Drain(s)), t, if t in s.pendingReady then Ready else p);
  }

  lemma NobodySleeps(s: State, t: nat, a: nat)
    requires OnOneList(s) && Indexed(s) && t !in s.prio
    ensures !Asleep(s.clock, t, a)
  {
    hide OnOneList, Indexed, Asleep;
    PlacesOfTask(s, t);
    if Asleep(s.clock, t, a) { SleepsOnList(s.clock, t, a); }
  }

  lemma DrainedDue(s: State, until: nat)
    requires Consistent(s) && DelayInv(s.clock)
    ensures PeerDue(DrainPending(s), until) || PeerPending(s) <==> PeerDue(s, until) || PeerPending(s)
  {
    hide Consistent, DelayInv, Asleep, Peer, DrainPending;
    DrainPendingParts(s);
    forall t: nat, a: nat ensures Asleep(DrainPending(s).clock, t, a) <==> Asleep(s.clock, t, a) && t !in s.pendingReady {
      DrainedSleepers(s, t, a);
    }
  }

  lemma DrainAsksIff(s: State)
    ensures DrainPending(s).yieldPending <==> s.yieldPending || PeerPending(s)
  {
    hide Peer;
    SwitchRecorded(s);
  }

  /**
    Resuming the scheduler records a switch if and only if one was pending, or a task
    made ready while it was suspended is at least as urgent as the running one, or one of
    the ticks held back asks for it.
   */
  lemma ResumeAsksIff(s: State)
    requires Good(s) && s.depth == 1
    ensures ResumeAll(s).yieldPending <==>
      || s.yieldPending || PeerPending(s)
      || (s.pended > 0 && (PeerDue(s, Now(s.clock) + s.pended) || Shared(ResumeAll(s))))
  {
    hide DelayInv, Consistent, OnOneList, Indexed, Blocked, PeerDue, PeerPending, Shared, DrainPending, CatchUp;
    assert |s.prio| > 0 by { assert s.current in s.prio; }
    PartitionIsConsistent(s);
    var r := s.(depth := 0);
    SameLists(s, r);
    DrainPendingParts(r);
    DrainAsksIff(r);
    DrainedDue(r, Now(s.clock) + s.pended);
    CatchUpAsksIff(DrainPending(r), s.pended);
    SameDue(s, r, Now(s.clock) + s.pended);
    SamePending(s, r);
    SameShared(CatchUp(DrainPending(r), s.pended), ResumeAll(s));
  }

  lemma SamePending(s: State, r: State)
    requires r.pendingReady == s.pendingReady && r.prio == s.prio && r.current == s.current
    ensures PeerPending(s) <==> PeerPending(r)
  {
  }

  lemma SameShared(s: State, r: State)
    requires r.ready == s.ready && r.prio == s.prio && r.current == s.current
    ensures Shared(s) <==> Shared(r)
  {
    hide IsReady;
    SameReady(s, r);
    if Shared(s) { ReadinessShared(s, r); }
    if Shared(r) { ReadinessShared(r, s); }
  }

  // ----- what each operation records ------------------------------------------------------------------

  ghost predicate MoreUrgent(s: State, t: nat) {
    Prio(s, t) > Prio(s, s.current)
  }

  /** e sets xYieldPending. */
  ghost predicate Records(s: State, e: Event) {
    match e
    case Woken(t) => MoreUrgent(s, t)
    case WokenUnordered(t) => MoreUrgent(s, t)
    case NotifiedFromISR(t) => MoreUrgent(s, t)
    case DelayAborted(t) => MoreUrgent(s, t)
    case ResumedFromISR(t) => s.depth == 0 && IsSuspended(s, t) && Prio(s, t) >= Prio(s, s.current)
    case SchedulerResumed =>
      s.depth == 1
      && (PeerPending(s) || (s.pended > 0 && (PeerDue(s, Now(s.clock) + s.pended) || Shared(ResumeAll(s)))))
    case ContextSwitch => s.depth > 0
    case _ => false
  }

  /** A switch is pending if one was, or the operation records one; only a switch that is carried out clears it. */
  lemma StepRecords(s: State, e: Event)
    requires Good(s) && Enabled(s, e)
    ensures Step(s, e).yieldPending <==> (s.yieldPending && !(e.ContextSwitch? && s.depth == 0)) || Records(s, e)
  {
    if e.SchedulerResumed? {
      if s.depth == 1 {
        hide Good, PeerPending, PeerDue, Shared, ResumeAll;
        ResumeAsksIff(s);
      }
    } else if e.TickInterrupt? {
      TickRecordsNothing(s);
    } else {
      hide Good;
      OthersRecord(s, e);
    }
  }

  lemma TickRecordsNothing(s: State)
    requires Good(s)
    ensures IncrementTick(s).yieldPending == s.yieldPending
  {
    if s.depth == 0 {
      PartitionIsConsistent(s);
      AdvanceKeepsAlarms(s.clock, 0, 0);
      UnblockEvents(s.(clock := Advance(s.clock)), 0);
    }
  }

  lemma OthersRecord(s: State, e: Event)
    requires Enabled(s, e) && !e.SchedulerResumed? && !e.TickInterrupt?
    ensures Step(s, e).yieldPending <==> (s.yieldPending && !(e.ContextSwitch? && s.depth == 0)) || Records(s, e)
  {
    hide InsertEnd, RemoveReady, Without, WithoutOwner, Inserted, WakeTime;
  }

  // ----- and that this is often enough ---------------------------------------------------------------------

  /** e leads its caller to switch tasks: by its result, or because the running task can go on no longer. */
  ghost predicate Asks(s: State, e: Event) {
    match e
    case TickInterrupt => s.depth == 0 && TickWantsSwitch(s)
    case BlockCurrent(_, _, _) => true
    case Created(_, p) => p > Prio(s, s.current)
    case Deleted(t) => t == s.current
    case TaskSuspended(t) => t == s.current
    case TaskResumed(t) => t != s.current && IsSuspended(s, t) && Prio(s, t) >= Prio(s, s.current)
    case Notified(t) => MoreUrgent(s, t)
    case PriorityChanged(t, p) => if t == s.current then p < Prio(s, t) else p > Prio(s, s.current)
    case _ => false
  }

  /** No ready task is more urgent than the running one. */
  ghost predicate RunsTop(s: State) {
    forall t: nat :: IsReady(s, t) ==> Prio(s, t) <= Prio(s, s.current)
  }

  lemma PeerOf(s: State, t: nat)
    ensures Peer(s.prio, s.current, t) <==> Prio(s, t) >= Prio(s, s.current)
  {
  }

  /** A task that is ready after e, as Next says, is no more urgent than the running task. */
  lemma ReadyIsNoSurprise(s: State, e: Event, t: nat, v: Task)
    requires Good(s) && Enabled(s, e) && Shows(s, t, v) && t in s.prio && !e.ContextSwitch?
    requires Next(SceneOf(s), e, t, v).place.Ready? && !Asks(s, e) && !Records(s, e) && !s.yieldPending && RunsTop(s)
    ensures (e.PriorityChanged? && e.task == t) || Prio(s, t) <= Prio(s, s.current)
  {
    hide Good, Shared, Peer, IsReady, Asleep;
    if !v.place.Ready? && MoreUrgent(s, t) {
      PeerOf(s, t);
      assert v.pending ==> PeerPending(s);
      match e
      case TickInterrupt =>
        WakesDue(s, t, v, Now(s.clock) + 1);
        GoodTickAsks(s);
      case SchedulerResumed => if !v.pending { WakesDue(s, t, v, Now(s.clock) + s.pended); }
      case TaskResumed(_) => SuspendedShows(s, t, v);
      case ResumedFromISR(_) => SuspendedShows(s, t, v);
      case _ =>
    }
  }

  lemma GoodTickAsks(s: State)
    requires Good(s)
    ensures PeerDue(s, Now(s.clock) + 1) ==> TickWantsSwitch(s)
  {
    hide DelayInv, PeerDue, TickWantsSwitch, OnOneList, Indexed, Blocked;
    PartitionIsConsistent(s);
    TickAsksIff(s);
  }

  lemma WakesDue(s: State, t: nat, v: Task, until: nat)
    requires Shows(s, t, v) && Due(v, until).place.Ready? && !v.place.Ready? && Peer(s.prio, s.current, t)
    ensures PeerDue(s, until)
  {
    assert Asleep(s.clock, t, v.place.until);
  }

  lemma ReadyExists(s: State, t: nat)
    requires Good(s) && IsReady(s, t)
    ensures t in s.prio
  {
    hide DelayInv, OnOneList, Indexed, Blocked;
    PlacesOfTask(s, t);
    assert t in multiset(s.ready[Prio(s, t)].items);
  }

  lemma AfterOthers(s: State, e: Event, t: nat)
    requires Good(s) && Enabled(s, e) && !e.ContextSwitch? && !Asks(s, e) && !Records(s, e) && !s.yieldPending && RunsTop(s)
    requires IsReady(Step(s, e), t)
    ensures Prio(Step(s, e), t) <= Prio(Step(s, e), s.current)
  {
    hide Good, Step, Enabled, Shows, IsReady, Records, RunsTop, Next, Prio;
    StepKeepsGood(s, e);
    var r := Step(s, e);
    ReadyExists(r, t);
    StepTasks(s, e);
    if t in s.prio {
      var v := ShownBy(s, t);
      StepRefines(s, e, t, v);
      ReadyPlace(r, t, Next(SceneOf(s), e, t, v));
      ReadyIsNoSurprise(s, e, t, v);
    }
    UrgencyAfter(s, e, t);
  }

  lemma ReadyPlace(s: State, t: nat, v: Task)
    requires Good(s) && Shows(s, t, v) && IsReady(s, t)
    ensures v.place.Ready?
  {
    hide DelayInv, OnOneList, Indexed, Blocked, Asleep;
    OnePlace(s, t, v.place, Ready);
  }

  lemma UrgencyAfter(s: State, e: Event, t: nat)
    requires Good(s) && Enabled(s, e) && !e.ContextSwitch? && !Asks(s, e)
    requires t in Step(s, e).prio && (t in s.prio ==> (e.PriorityChanged? && e.task == t) || Prio(s, t) <= Prio(s, s.current))
    ensures Prio(Step(s, e), t) <= Prio(Step(s, e), s.current)
  {
    hide Good, Step, TickWantsSwitch, IsReady;
    StepTasks(s, e);
    CurrentExists(s);
    CurrentExists(Step(s, e)) by { StepKeepsGood(s, e); StepScene(s, e); }
  }

  lemma CurrentExists(s: State)
    requires Good(s)
    ensures s.current in s.prio
  {
  }

  lemma SwitchRunsTop(s: State)
    requires Good(s) && s.depth == 0 && Enabled(s, ContextSwitch)
    ensures RunsTop(SwitchContext(s))
  {
    hide DelayInv, OnOneList, Blocked;
    var r := SwitchContext(s);
    forall t: nat | IsReady(r, t) ensures Prio(r, t) <= Prio(r, r.current) {
      TopNonEmptyFinds(s.ready, s.topReady);
      assert IsReady(s, t);
      SwitchPicksTop(s, t);
    }
  }

  /**
    No operation leaves a ready task more urgent than the running one unless a switch is
    pending or the operation itself asks for one.
   */
  lemma StepRunsTop(s: State, e: Event)
    requires Good(s) && Enabled(s, e) && !Asks(s, e) && (s.yieldPending || RunsTop(s))
    ensures Step(s, e).yieldPending || RunsTop(Step(s, e))
  {
    hide Good, Step, Enabled, RunsTop, Records, Asks;
    StepRecords(s, e);
    if e.ContextSwitch? {
      SwitchEventRunsTop(s, e);
    } else if !Step(s, e).yieldPending {
      StepScene(s, e);
      OthersRunTop(s, e);
    }
  }

  lemma SwitchEventRunsTop(s: State, e: Event)
    requires Good(s) && Enabled(s, e) && e.ContextSwitch?
    ensures Step(s, e).yieldPending || RunsTop(Step(s, e))
  {
    hide Good, RunsTop;
    if s.depth == 0 { SwitchRunsTop(s); }
  }

  lemma OthersRunTop(s: State, e: Event)
    requires Good(s) && Enabled(s, e) && !e.ContextSwitch? && !Asks(s, e) && !Records(s, e) && !s.yieldPending && RunsTop(s)
    requires Step(s, e).current == s.current
    ensures RunsTop(Step(s, e))
  {
    hide Good, Step, Enabled, Records, Asks, IsReady;
    forall t: nat | IsReady(Step(s, e), t) ensures Prio(Step(s, e), t) <= Prio(Step(s, e), s.current) {
      AfterOthers(s, e, t);
    }
  }

  /**
    Fixed-priority preemption.  In every run, from a context switch on until an operation
    asks for another: unless a switch is pending, the running task is at least as urgent
    as every ready task.
   */
  lemma {:induction false} RunningIsTop(tr: seq<State>, es: seq<Event>, k: nat, j: nat)
    requires Run(tr, es) && Good(tr[0]) && k < j < |tr|
    requires es[k].ContextSwitch? && tr[k].depth == 0
    requires forall i {:trigger es[i]} :: k < i < j ==> !Asks(tr[i], es[i])
    ensures tr[j].yieldPending || RunsTop(tr[j])
    decreases j
  {
    hide Step, Enabled, Good, RunsTop, Asks;
    RunKeepsGood(tr, es, j - 1);
    if j == k + 1 {
      SwitchEventRunsTop(tr[k], es[k]);
    } else {
      RunningIsTop(tr, es, k, j - 1);
      StepRunsTop(tr[j - 1], es[j - 1]);
    }
  }
}
