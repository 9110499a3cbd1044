/**
  The scheduler's lists and counters (tasks.c) as one value, and each kernel
  operation on them as a function.  Scheduler.dfy proves the step-by-step code
  against these functions; DelayedTasks.dfy, TaskPartition.dfy and
  DeferredTicks.dfy prove what they mean.

  Configuration: preemption, time slicing, generic task selection,
  INCLUDE_vTaskSuspend and 32-bit ticks.  configUSE_TICKLESS_IDLE is a field.
 */
module TaskModel {
  import opened Lists

  const TICKS: nat := 0x1_0000_0000
  const MAX_PRIORITIES: nat := 7

  type Priority = p: nat | p < MAX_PRIORITIES

  /** A ready list with pxIndex: 0 is the end marker, k > 0 is items[k - 1]. */
  datatype RawReadyList = ReadyList(items: seq<nat>, index: nat)
  type ReadyList = l: RawReadyList | l.index <= |l.items| witness ReadyList([], 0)
  type ReadyLists = r: seq<ReadyList> | |r| == MAX_PRIORITIES witness seq(MAX_PRIORITIES, _ => ReadyList([], 0))

  /** The tick count and the delayed lists it governs. */
  datatype Clock = Clock(
    tick: Tick,                  // xTickCount
    overflows: nat,              // xNumOfOverflows
    nextUnblock: Tick,           // xNextTaskUnblockTime
    delayed: seq<Item>,          // *pxDelayedTaskList
    overflow: seq<Item>          // *pxOverflowDelayedTaskList
  )

  datatype State = State(
    clock: Clock,
    pended: nat,                 // xPendedTicks
    depth: nat,                  // uxSchedulerSuspended
    ready: ReadyLists,           // pxReadyTasksLists
    topReady: Priority,          // uxTopReadyPriority
    suspended: seq<nat>,         // xSuspendedTaskList
    terminating: seq<nat>,       // xTasksWaitingTermination
    pendingReady: seq<nat>,      // xPendingReadyList
    waiting: set<nat>,           // tasks whose event item is on a kernel object's event list
    prio: map<nat, Priority>,    // uxPriority of every task whose TCB exists
    current: nat,                // pxCurrentTCB
    yieldPending: bool,          // xYieldPending
    tickless: bool               // configUSE_TICKLESS_IDLE
  )

  /** The time since start-up that the 32-bit tick count and the overflow count stand for. */
  function Now(c: Clock): nat {
    c.overflows * 0x1_0000_0000 + c.tick
  }

  function Prio(s: State, t: nat): Priority {
    if t in s.prio then s.prio[t] else 0
  }

  predicate IsReady(s: State, t: nat) {
    t in s.ready[Prio(s, t)].items
  }

  // ----- list primitives ----------------------------------------------------------

  function Owners(s: seq<Item>): (r: seq<nat>)
    ensures |r| == |s| && forall i :: 0 <= i < |s| ==> r[i] == s[i].owner
  {
    seq(|s|, i requires 0 <= i < |s| => s[i].owner)
  }

  function Find(s: seq<nat>, t: nat): (i: nat)
    ensures i <= |s| && t !in s[..i] && (i < |s| ==> s[i] == t)
  {
    if |s| == 0 || s[0] == t then 0 else 1 + Find(s[1..], t)
  }

  function Without(s: seq<nat>, t: nat): seq<nat> {
    var i := Find(s, t);
    if i < |s| then RemoveAt(s, i) else s
  }

  function WithoutOwner(s: seq<Item>, t: nat): seq<Item> {
    var i := Find(Owners(s), t);
    if i < |s| then RemoveAt(s, i) else s
  }

  /** vListInsertEnd on a ready list: just before the item the walk stands on. */
  function InsertEnd(l: ReadyList, t: nat): ReadyList {
    if l.index == 0 then ReadyList(l.items + [t], 0)
    else ReadyList(InsertAt(l.items, l.index - 1, t), l.index + 1)
  }

  /** uxListRemove on a ready list. */
  function RemoveReady(l: ReadyList, t: nat): ReadyList {
    var i := Find(l.items, t);
    if i < |l.items| then ReadyList(RemoveAt(l.items, i), if i + 1 <= l.index then l.index - 1 else l.index) else l
  }

  /** uxListRemove( &( pxTCB->xStateListItem ) ): the item is on one list, whichever that is. */
  function RemoveState(s: State, t: nat): State {
    s.(ready := s.ready[Prio(s, t) := RemoveReady(s.ready[Prio(s, t)], t)],
       clock := s.clock.(delayed := WithoutOwner(s.clock.delayed, t), overflow := WithoutOwner(s.clock.overflow, t)),
       suspended := Without(s.suspended, t),
       terminating := Without(s.terminating, t))
  }

  /** uxListRemove( &( pxTCB->xEventListItem ) ), if it is on a list. */
  function RemoveEvent(s: State, t: nat): State {
    s.(waiting := s.waiting - {t}, pendingReady := Without(s.pendingReady, t))
  }

  /** prvAddTaskToReadyList */
  function AddToReady(s: State, t: nat): State {
    var p := Prio(s, t);
    s.(topReady := if p > s.topReady then p else s.topReady, ready := s.ready[p := InsertEnd(s.ready[p], t)])
  }

  /** prvResetNextTaskUnblockTime */
  function Reset(c: Clock): Clock {
    c.(nextUnblock := if |c.delayed| == 0 then MAX_DELAY else c.delayed[0].value)
  }

  function ResetNextUnblock(s: State): State {
    s.(clock := Reset(s.clock))
  }

  // ----- the tick -------------------------------------------------------------------

  /** taskSWITCH_DELAYED_LISTS, reached with the tick count just wrapped to zero. */
  function SwitchLists(c: Clock): Clock {
    Reset(c.(delayed := c.overflow, overflow := c.delayed, overflows := c.overflows + 1))
  }

  /** xTickCount incremented, and the lists switched if it wrapped. */
  function Advance(c: Clock): Clock {
    if c.tick == MAX_DELAY then SwitchLists(c.(tick := 0)) else c.(tick := c.tick + 1)
  }

  /** One pass of the unblocking loop: the head of the delayed list becomes ready. */
  function UnblockHead(s: State): State
    requires |s.clock.delayed| > 0
  {
    var t := s.clock.delayed[0].owner;
    AddToReady(RemoveEvent(s.(clock := s.clock.(delayed := s.clock.delayed[1..])), t), t)
  }

  /** The unblocking loop of xTaskIncrementTick. */
  function Unblock(s: State): State
    decreases |s.clock.delayed|
  {
    var c := s.clock;
    if |c.delayed| == 0 || c.tick < c.delayed[0].value then ResetNextUnblock(s)
    else Unblock(UnblockHead(s))
  }

  /** Some task the loop unblocks is at least as urgent as the running one. */
  function UnblocksPeer(s: State): bool
    decreases |s.clock.delayed|
  {
    var c := s.clock;
    |c.delayed| > 0 && c.tick >= c.delayed[0].value &&
    (Prio(s, c.delayed[0].owner) >= Prio(s, s.current) || UnblocksPeer(UnblockHead(s)))
  }

  /** xTaskIncrementTick with the scheduler running. */
  function DoTick(s: State): State {
    var a := s.(clock := Advance(s.clock));
    if a.clock.tick >= a.clock.nextUnblock then Unblock(a) else a
  }

  /** ... and the switch request it returns. */
  function TickWantsSwitch(s: State): bool {
    var a := s.(clock := Advance(s.clock));
    || (a.clock.tick >= a.clock.nextUnblock && UnblocksPeer(a))
    || |DoTick(s).ready[Prio(s, s.current)].items| > 1
    || s.yieldPending
  }

  /** xTaskIncrementTick */
  function IncrementTick(s: State): State {
    if s.depth == 0 then DoTick(s) else s.(pended := s.pended + 1)
  }

  // ----- suspending and resuming the scheduler -----------------------------------------

  function SuspendAll(s: State): State {
    s.(depth := s.depth + 1)
  }

  /** One task of xPendingReadyList moved to its ready list. */
  function DrainHead(s: State): State
    requires |s.pendingReady| > 0
  {
    var t := s.pendingReady[0];
    var r := AddToReady(RemoveState(s.(pendingReady := s.pendingReady[1..]), t), t);
    r.(yieldPending := s.yieldPending || Prio(s, t) >= Prio(s, s.current))
  }

  function Drain(s: State): State
    decreases |s.pendingReady|
  {
    if |s.pendingReady| == 0 then s else Drain(DrainHead(s))
  }

  /** ... and the unblock time recomputed if any task was moved. */
  function DrainPending(s: State): State {
    if |s.pendingReady| > 0 then ResetNextUnblock(Drain(s)) else s
  }

  /** One pass of the catch-up loop: a tick that records the switch it asks for. */
  function CatchUpTick(s: State): State {
    DoTick(s).(yieldPending := s.yieldPending || TickWantsSwitch(s))
  }

  /** The catch-up loop: n ticks. */
  function CatchUp(s: State, n: nat): State
    decreases n
  {
    if n == 0 then s else CatchUp(CatchUpTick(s), n - 1)
  }

  /** xTaskResumeAll */
  function ResumeAll(s: State): State
    requires s.depth > 0
  {
    if s.depth > 1 || |s.prio| == 0 then s.(depth := s.depth - 1)
    else CatchUp(DrainPending(s.(depth := 0)), s.pended).(pended := 0)
  }

  // ----- blocking and waking ------------------------------------------------------------

  /** The running task leaves its ready list, its event item going on an event list if onEvent. */
  function LeaveReady(s: State, onEvent: bool): State {
    s.(ready := s.ready[Prio(s, s.current) := RemoveReady(s.ready[Prio(s, s.current)], s.current)],
       waiting := if onEvent then s.waiting + {s.current} else s.waiting)
  }

  /** The 32-bit wake time. */
  function WakeTime(c: Clock, wait: Tick): Tick {
    if c.tick + wait > MAX_DELAY then c.tick + wait - 0x1_0000_0000 else c.tick + wait
  }

  /** The item put on the delayed list its wake time belongs to. */
  function SetAlarm(c: Clock, t: nat, wait: Tick): Clock {
    var wake := WakeTime(c, wait);
    if wake < c.tick then c.(overflow := Inserted(c.overflow, Item(t, wake)))
    else c.(delayed := Inserted(c.delayed, Item(t, wake)), nextUnblock := if wake < c.nextUnblock then wake else c.nextUnblock)
  }

  /**
    prvAddCurrentTaskToDelayedList, after vTaskPlaceOnEventList and its
    variants put the task on an event list if onEvent.
   */
  function Block(s: State, wait: Tick, indefinite: bool, onEvent: bool): State {
    var l := LeaveReady(s, onEvent);
    if wait == MAX_DELAY && indefinite then l.(suspended := s.suspended + [s.current])
    else l.(clock := SetAlarm(s.clock, s.current, wait))
  }

  /** xTaskRemoveFromEventList, t being the head of the event list. */
  function EventWake(s: State, t: nat): State {
    var e := s.(waiting := s.waiting - {t});
    var w :=
      if s.depth == 0 then
        var r := AddToReady(RemoveState(e, t), t);
        if s.tickless then ResetNextUnblock(r) else r
      else e.(pendingReady := s.pendingReady + [t]);
    w.(yieldPending := s.yieldPending || Prio(s, t) > Prio(s, s.current))
  }

  /** vTaskRemoveFromUnorderedEventList */
  function UnorderedWake(s: State, t: nat): State {
    var e := s.(waiting := s.waiting - {t});
    var r := if s.tickless then ResetNextUnblock(e) else e;
    AddToReady(RemoveState(r, t), t).(yieldPending := s.yieldPending || Prio(s, t) > Prio(s, s.current))
  }

  // ----- creation, deletion, suspension ---------------------------------------------------

  /** prvAddNewTaskToReadyList */
  function Create(s: State, t: nat, p: Priority): State {
    AddToReady(s.(prio := s.prio[t := p]), t)
  }

  /** vTaskDelete */
  function Delete(s: State, t: nat): State {
    var r := RemoveEvent(RemoveState(s, t), t);
    if t == s.current then r.(terminating := r.terminating + [t])
    else ResetNextUnblock(r.(prio := r.prio - {t}))
  }

  /** One pass of prvCheckTasksWaitingTermination. */
  function Cleanup(s: State): State
    requires |s.terminating| > 0
  {
    s.(terminating := s.terminating[1..], prio := s.prio - {s.terminating[0]})
  }

  /** vTaskSuspend */
  function Suspend(s: State, t: nat): State {
    var r := RemoveEvent(RemoveState(s, t), t);
    ResetNextUnblock(r.(suspended := r.suspended + [t]))
  }

  /** prvTaskIsTaskSuspended */
  predicate IsSuspended(s: State, t: nat) {
    t in s.suspended && t !in s.pendingReady && t !in s.waiting
  }

  /** vTaskResume */
  function Resume(s: State, t: nat): State {
    if t != s.current && IsSuspended(s, t) then AddToReady(RemoveState(s, t), t) else s
  }

  // ----- more ways out of the blocked and suspended states -----------------------------------

  /** xTaskResumeFromISR */
  function ResumeFromISR(s: State, t: nat): State {
    if !IsSuspended(s, t) then s
    else if s.depth > 0 then s.(pendingReady := s.pendingReady + [t])
    else AddToReady(RemoveState(s, t), t).(yieldPending := s.yieldPending || Prio(s, t) >= Prio(s, s.current))
  }

  /** xTaskGenericNotify, t waiting for a notification */
  function Notify(s: State, t: nat): State {
    var r := AddToReady(RemoveState(s, t), t);
    if s.tickless then ResetNextUnblock(r) else r
  }

  /** xTaskGenericNotifyFromISR and vTaskGenericNotifyGiveFromISR, t waiting for a notification */
  function NotifyFromISR(s: State, t: nat): State {
    var r := if s.depth == 0 then AddToReady(RemoveState(s, t), t) else s.(pendingReady := s.pendingReady + [t]);
    r.(yieldPending := s.yieldPending || Prio(s, t) > Prio(s, s.current))
  }

  /** xTaskAbortDelay with the scheduler suspended, t being blocked */
  function AbortDelay(s: State, t: nat): State {
    AddToReady(RemoveEvent(RemoveState(s, t), t), t).(yieldPending := s.yieldPending || Prio(s, t) > Prio(s, s.current))
  }

  /**
    uxPriority changed, by priority inheritance, its undoing or vTaskPrioritySet: a
    ready task moves to the ready list of its new priority.
   */
  function ChangePriority(s: State, t: nat, p: Priority): State {
    if IsReady(s, t) then AddToReady(Unready(s, t).(prio := s.prio[t := p]), t)
    else s.(prio := s.prio[t := p])
  }

  function Unready(s: State, t: nat): State {
    s.(ready := s.ready[Prio(s, t) := RemoveReady(s.ready[Prio(s, t)], t)])
  }

  // ----- choosing the running task -----------------------------------------------------------

  /** The search of taskSELECT_HIGHEST_PRIORITY_TASK: the first non-empty list from p downwards. */
  function TopNonEmpty(ready: ReadyLists, p: Priority): Priority {
    if |ready[p].items| > 0 || p == 0 then p else TopNonEmpty(ready, p - 1)
  }

  /** vTaskSwitchContext */
  function SwitchContext(s: State): State
    requires s.depth == 0 ==> exists p: Priority :: p <= s.topReady && |s.ready[p].items| > 0
  {
    if s.depth > 0 then s.(yieldPending := true)
    else
      var p := TopNonEmpty(s.ready, s.topReady);
      TopNonEmptyFinds(s.ready, s.topReady);
      var l := s.ready[p];
      var k := NextIndex(|l.items| + 1, l.index);
      s.(yieldPending := false, topReady := p, current := l.items[k - 1], ready := s.ready[p := ReadyList(l.items, k)])
  }

  lemma TopNonEmptyFinds(ready: ReadyLists, p: Priority)
    ensures var r := TopNonEmpty(ready, p);
      && r <= p
      && (forall q: Priority :: r < q <= p ==> |ready[q].items| == 0)
      && ((exists q: Priority :: q <= p && |ready[q].items| > 0) ==> |ready[r].items| > 0)
  {
  }

  // ----- membership after the list primitives -------------------------------------------------

  lemma InsertAtMembers<T>(s: seq<T>, i: nat, x: T)
    requires i <= |s|
    ensures forall y :: y in InsertAt(s, i, x) <==> y == x || y in s
  {
    assert s == s[..i] + s[i..];
  }

  lemma RemoveAtMembers<T>(s: seq<T>, i: nat)
    requires i < |s|
    ensures forall y :: y in s <==> y == s[i] || y in RemoveAt(s, i)
  {
    assert s == s[..i] + [s[i]] + s[i + 1..];
  }

  lemma WithoutMembers(s: seq<nat>, t: nat)
    ensures forall y :: y != t ==> (y in Without(s, t) <==> y in s)
    ensures forall y :: y in Without(s, t) ==> y in s
    ensures t !in s ==> Without(s, t) == s
  {
    var i := Find(s, t);
    if i < |s| { RemoveAtMembers(s, i); }
  }

  lemma WithoutOwnerMembers(s: seq<Item>, t: nat)
    ensures forall e :: e in WithoutOwner(s, t) ==> e in s
    ensures forall e :: e in s && e.owner != t ==> e in WithoutOwner(s, t)
  {
    var i := Find(Owners(s), t);
    if i < |s| { RemoveAtMembers(s, i); }
  }

  lemma WithoutOwnerOrdered(s: seq<Item>, t: nat)
    requires Ordered(s)
    ensures Ordered(WithoutOwner(s, t))
  {
    OrderedIsSorted(s);
    OrderedIsSorted(WithoutOwner(s, t));
  }

  lemma ReadyAfterAdd(s: State, t: nat, x: nat)
    ensures IsReady(AddToReady(s, t), x) <==> x == t || IsReady(s, x)
  {
    var l := s.ready[Prio(s, t)];
    if l.index > 0 { InsertAtMembers(l.items, l.index - 1, t); }
  }

  lemma ReadyAfterRemove(s: State, t: nat, x: nat)
    requires x != t
    ensures IsReady(RemoveState(s, t), x) <==> IsReady(s, x)
  {
    var l := s.ready[Prio(s, t)];
    var i := Find(l.items, t);
    if i < |l.items| { RemoveAtMembers(l.items, i); }
  }

  // ----- events and runs ----------------------------------------------------------------------

  datatype Event =
    | TickInterrupt
    | BlockCurrent(wait: Tick, indefinite: bool, onEvent: bool)
    | Woken(task: nat)
    | WokenUnordered(task: nat)
    | SchedulerSuspended
    | SchedulerResumed
    | ContextSwitch
    | Created(task: nat, priority: Priority)
    | Deleted(task: nat)
    | IdleCleanup
    | TaskSuspended(task: nat)
    | TaskResumed(task: nat)
    | ResumedFromISR(task: nat)
    | Notified(task: nat)
    | NotifiedFromISR(task: nat)
    | DelayAborted(task: nat)
    | PriorityChanged(task: nat, priority: Priority)

  /** On a delayed list or the suspended list.  Which of these tasks wait for a notification is not modelled. */
  predicate Waits(s: State, t: nat) {
    t in s.prio && !IsReady(s, t) && t !in s.terminating
  }

  /**
    What the code asserts or its callers guarantee.  A zero wait at the last
    tick before the wrap is excluded: see DelayedTasks.ZeroWaitAtLastTick.
   */
  ghost predicate Enabled(s: State, e: Event) {
    match e
    case TickInterrupt => true
    case BlockCurrent(wait, _, _) =>
      s.current in s.prio && IsReady(s, s.current) && s.current !in s.waiting && (wait > 0 || s.clock.tick < MAX_DELAY)
    case Woken(t) => t in s.waiting
    case WokenUnordered(t) => s.depth > 0 && t in s.waiting
    case SchedulerSuspended => true
    case SchedulerResumed => s.depth > 0
    case ContextSwitch => s.depth == 0 ==> exists p: Priority :: p <= s.topReady && |s.ready[p].items| > 0
    case Created(t, _) => t !in s.prio
    case Deleted(t) => t in s.prio && t !in s.terminating && (t == s.current ==> s.depth == 0)
    case IdleCleanup => |s.terminating| > 0 && s.terminating[0] != s.current
    case TaskSuspended(t) => t in s.prio && t !in s.terminating && (t == s.current ==> s.depth == 0)
    case TaskResumed(t) => t in s.prio
    case ResumedFromISR(t) => t in s.prio
    case Notified(t) => Waits(s, t) && t !in s.waiting && t !in s.pendingReady
    case NotifiedFromISR(t) => Waits(s, t) && t !in s.waiting && t !in s.pendingReady
    case DelayAborted(t) => s.depth > 0 && t != s.current && Waits(s, t)
    case PriorityChanged(t, _) => t in s.prio
  }

  function Step(s: State, e: Event): State
    requires Enabled(s, e)
  {
    match e
    case TickInterrupt => IncrementTick(s)
    case BlockCurrent(wait, indefinite, onEvent) => Block(s, wait, indefinite, onEvent)
    case Woken(t) => EventWake(s, t)
    case WokenUnordered(t) => UnorderedWake(s, t)
    case SchedulerSuspended => SuspendAll(s)
    case SchedulerResumed => ResumeAll(s)
    case ContextSwitch => SwitchContext(s)
    case Created(t, p) => Create(s, t, p)
    case Deleted(t) => Delete(s, t)
    case IdleCleanup => Cleanup(s)
    case TaskSuspended(t) => Suspend(s, t)
    case TaskResumed(t) => Resume(s, t)
    case ResumedFromISR(t) => ResumeFromISR(s, t)
    case Notified(t) => Notify(s, t)
    case NotifiedFromISR(t) => NotifyFromISR(s, t)
    case DelayAborted(t) => AbortDelay(s, t)
    case PriorityChanged(t, p) => ChangePriority(s, t, p)
  }

  /** A run: the states tr, each reached from the one before by an enabled event. */
  ghost predicate Run(tr: seq<State>, es: seq<Event>) {
    && |tr| == |es| + 1
    && forall i {:trigger es[i]} :: 0 <= i < |es| ==> Enabled(tr[i], es[i]) && tr[i + 1] == Step(tr[i], es[i])
  }

  /** Nothing created but one running task of priority p, as prvInitialiseTaskLists leaves it. */
  function Initial(t: nat, p: Priority, tickless: bool): State {
    var none := ReadyList([], 0);
    State(Clock(0, 0, MAX_DELAY, [], []), 0, 0, seq(MAX_PRIORITIES, i => if i == p then ReadyList([t], 0) else none),
          p, [], [], [], {}, map[t := p], t, false, tickless)
  }
}
