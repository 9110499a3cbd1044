/**
  The queue (queue.c) as a value: a bounded deque of messages, two lists of
  blocked tasks and the two lock counts that let interrupts post and take while
  those lists are frozen.  Proved here: nobody sleeps through a message or a free
  slot.  Queues.dfy proves the code against these functions.

  One atomic step per critical section or interrupt, for a queue outside any
  queue set, without resets.
 */
module QueueModel {
  type Message = seq<bv8>

  datatype Position = Back | Front | Overwrite

  // The signed 8-bit lock counts.
  const UNLOCKED: int := -1
  const INT8_MAX: int := 127

  type Int8 = x: int | -128 <= x <= 127

  datatype Queue = Queue(
    length: nat,                 // uxLength
    contents: seq<Message>,      // oldest first; uxMessagesWaiting is its length
    txLock: Int8,                // cTxLock
    rxLock: Int8,                // cRxLock
    receivers: seq<nat>,         // xTasksWaitingToReceive, most urgent first
    senders: seq<nat>,           // xTasksWaitingToSend
    wokenReceivers: set<nat>,    // taken off receivers and not yet run again
    wokenSenders: set<nat>       // taken off senders and not yet run again
  )

  function Increment(x: Int8): Int8 {
    if x == INT8_MAX then -128 else x + 1
  }

  // ----- the effect of each critical section ---------------------------------------------

  /** prvCopyDataToQueue */
  function Put(s: seq<Message>, m: Message, p: Position): seq<Message> {
    match p
    case Back => s + [m]
    case Front => [m] + s
    case Overwrite => if |s| > 0 then [m] + s[1..] else [m]
  }

  predicate Accepts(q: Queue, p: Position) {
    |q.contents| < q.length || p == Overwrite
  }

  /** xTaskRemoveFromEventList on the head of xTasksWaitingToReceive, if there is one. */
  function WakeReceiver(q: Queue): Queue {
    if |q.receivers| == 0 then q
    else q.(receivers := q.receivers[1..], wokenReceivers := q.wokenReceivers + {q.receivers[0]})
  }

  function WakeSender(q: Queue): Queue {
    if |q.senders| == 0 then q
    else q.(senders := q.senders[1..], wokenSenders := q.wokenSenders + {q.senders[0]})
  }

  function Ran(q: Queue, t: nat): Queue {
    q.(wokenReceivers := q.wokenReceivers - {t}, wokenSenders := q.wokenSenders - {t})
  }

  /** The critical section of xQueueGenericSend run by t. */
  function Send(q: Queue, t: nat, m: Message, p: Position): Queue {
    var r := Ran(q, t);
    if Accepts(q, p) then WakeReceiver(r.(contents := Put(q.contents, m, p))) else r
  }

  /** xQueueGenericSendFromISR */
  function SendFromISR(q: Queue, m: Message, p: Position): Queue {
    if !Accepts(q, p) then q
    else
      var r := q.(contents := Put(q.contents, m, p));
      if q.txLock == UNLOCKED then WakeReceiver(r) else r.(txLock := Increment(q.txLock))
  }

  /** The critical section of xQueueReceive run by t. */
  function Receive(q: Queue, t: nat): Queue {
    var r := Ran(q, t);
    if |q.contents| > 0 then WakeSender(r.(contents := q.contents[1..])) else r
  }

  /** xQueueReceiveFromISR */
  function ReceiveFromISR(q: Queue): Queue {
    if |q.contents| == 0 then q
    else
      var r := q.(contents := q.contents[1..]);
      if q.rxLock == UNLOCKED then WakeSender(r) else r.(rxLock := Increment(q.rxLock))
  }

  /** The critical section of xQueuePeek run by t. */
  function Peek(q: Queue, t: nat): Queue {
    if |q.contents| > 0 then WakeReceiver(Ran(q, t)) else Ran(q, t)
  }

  /** prvLockQueue */
  function Lock(q: Queue): Queue {
    q.(txLock := if q.txLock == UNLOCKED then 0 else q.txLock, rxLock := if q.rxLock == UNLOCKED then 0 else q.rxLock)
  }

  function WakeReceivers(q: Queue, n: nat): Queue
    decreases n
  {
    if n == 0 || |q.receivers| == 0 then q else WakeReceivers(WakeReceiver(q), n - 1)
  }

  function WakeSenders(q: Queue, n: nat): Queue
    decreases n
  {
    if n == 0 || |q.senders| == 0 then q else WakeSenders(WakeSender(q), n - 1)
  }

  function Posted(lock: Int8): nat {
    if lock > 0 then lock else 0
  }

  /** The first half of prvUnlockQueue: one receiver woken for each message posted while locked. */
  function UnlockTx(q: Queue): Queue {
    WakeReceivers(q, Posted(q.txLock)).(txLock := UNLOCKED)
  }

  /** The second half: one sender woken for each message taken while locked. */
  function UnlockRx(q: Queue): Queue {
    WakeSenders(q, Posted(q.rxLock)).(rxLock := UNLOCKED)
  }

  // ----- the system: one queue and the task that has it locked ---------------------------------

  /** The task between prvLockQueue and the end of prvUnlockQueue, if any, and how far it is. */
  datatype Phase =
    | NotLocked
    | Locked(task: nat)
    | FoundEmpty(task: nat)        // xQueueReceive and xQueuePeek: prvIsQueueEmpty said yes
    | FoundFull(task: nat)         // xQueueGenericSend: prvIsQueueFull said yes
    | Placed                       // on its event list
    | TxUnlocked                   // between the two halves of prvUnlockQueue

  datatype System = System(q: Queue, phase: Phase)

  datatype Event =
    | TaskSends(task: nat, m: Message, p: Position)
    | TaskReceives(task: nat)
    | TaskPeeks(task: nat)
    | IsrSends(m: Message, p: Position)
    | IsrReceives
    | TaskLocks(task: nat)
    | ChecksEmpty
    | ChecksFull
    | Places(at: nat)              // position in the event list, by priority
    | UnlocksTx
    | UnlocksRx
    | TimesOut(task: nat)          // the tick takes a task off its event list

  predicate Blocked(q: Queue, t: nat) {
    t in q.receivers || t in q.senders
  }

  /**
    The scheduler is suspended while a task has the queue locked, so only
    interrupts run besides it.  A woken task first tries again what it was woken for.
   */
  predicate Enabled(s: System, e: Event) {
    match e
    case TaskSends(t, _, p) =>
      s.phase == NotLocked && !Blocked(s.q, t) && t !in s.q.wokenReceivers && (p == Overwrite ==> s.q.length == 1)
    case TaskReceives(t) => s.phase == NotLocked && !Blocked(s.q, t) && t !in s.q.wokenSenders
    case TaskPeeks(t) => s.phase == NotLocked && !Blocked(s.q, t) && t !in s.q.wokenSenders
    case IsrSends(_, p) => (p == Overwrite ==> s.q.length == 1) && s.q.txLock != INT8_MAX
    case IsrReceives => s.q.rxLock != INT8_MAX
    case TaskLocks(t) =>
      s.phase == NotLocked && !Blocked(s.q, t) && t !in s.q.wokenReceivers && t !in s.q.wokenSenders
    case ChecksEmpty => s.phase.Locked?
    case ChecksFull => s.phase.Locked?
    case Places(i) =>
      (s.phase.FoundEmpty? && i <= |s.q.receivers|) || (s.phase.FoundFull? && i <= |s.q.senders|)
    case UnlocksTx => s.phase.Locked? || s.phase.Placed?
    case UnlocksRx => s.phase.TxUnlocked?
    case TimesOut(t) => s.phase == NotLocked
  }

  function Removed(l: seq<nat>, t: nat): seq<nat> {
    if |l| == 0 then [] else if l[0] == t then Removed(l[1..], t) else [l[0]] + Removed(l[1..], t)
  }

  function Step(s: System, e: Event): System
    requires Enabled(s, e)
  {
    match e
    case TaskSends(t, m, p) => s.(q := Send(s.q, t, m, p))
    case TaskReceives(t) => s.(q := Receive(s.q, t))
    case TaskPeeks(t) => s.(q := Peek(s.q, t))
    case IsrSends(m, p) => s.(q := SendFromISR(s.q, m, p))
    case IsrReceives => s.(q := ReceiveFromISR(s.q))
    case TaskLocks(t) => System(Lock(s.q), Locked(t))
    case ChecksEmpty => if |s.q.contents| == 0 then s.(phase := FoundEmpty(s.phase.task)) else s
    case ChecksFull => if |s.q.contents| == s.q.length then s.(phase := FoundFull(s.phase.task)) else s
    case Places(i) =>
      if s.phase.FoundEmpty? then
        System(s.q.(receivers := s.q.receivers[..i] + [s.phase.task] + s.q.receivers[i..]), Placed)
      else
        System(s.q.(senders := s.q.senders[..i] + [s.phase.task] + s.q.senders[i..]), Placed)
    case UnlocksTx => System(UnlockTx(s.q), TxUnlocked)
    case UnlocksRx => System(UnlockRx(s.q), NotLocked)
    case TimesOut(t) => s.(q := s.q.(receivers := Removed(s.q.receivers, t), senders := Removed(s.q.senders, t)))
  }

  // ----- the invariant ------------------------------------------------------------------------------

  /** No task is in two places among the two event lists and the two sets of woken tasks. */
  ghost predicate OnePlace(q: Queue) {
    forall t: nat :: multiset(q.receivers)[t] + multiset(q.senders)[t]
      + (if t in q.wokenReceivers then 1 else 0) + (if t in q.wokenSenders then 1 else 0) <= 1
  }

  /** Every message is promised to a task that has been woken for it or will be on unlocking. */
  ghost predicate MessagesPromised(q: Queue) {
    |q.contents| <= |q.wokenReceivers| + Posted(q.txLock)
  }

  /** Every free slot is promised likewise. */
  ghost predicate SlotsPromised(q: Queue) {
    q.length - |q.contents| <= |q.wokenSenders| + Posted(q.rxLock)
  }

  ghost predicate LocksMatch(s: System) {
    && (if s.phase.NotLocked? || s.phase.TxUnlocked? then s.q.txLock == UNLOCKED else s.q.txLock >= 0)
    && (if s.phase.NotLocked? then s.q.rxLock == UNLOCKED else s.q.rxLock >= 0)
  }

  ghost predicate LockerRuns(s: System) {
    (s.phase.Locked? || s.phase.FoundEmpty? || s.phase.FoundFull?) ==>
      !Blocked(s.q, s.phase.task) && s.phase.task !in s.q.wokenReceivers && s.phase.task !in s.q.wokenSenders
  }

  ghost predicate Inv(s: System) {
    && s.q.length > 0 && |s.q.contents| <= s.q.length
    && OnePlace(s.q) && LocksMatch(s) && LockerRuns(s)
    && (|s.q.receivers| > 0 || s.phase.FoundEmpty? ==> MessagesPromised(s.q))
    && (|s.q.senders| > 0 || s.phase.FoundFull? ==> SlotsPromised(s.q))
  }

  // ----- each step keeps it ---------------------------------------------------------------------------

  lemma HeadOfReceivers(q: Queue)
    requires OnePlace(q) && |q.receivers| > 0
    ensures var r := WakeReceiver(q);
      OnePlace(r) && |r.wokenReceivers| == |q.wokenReceivers| + 1
      && (forall t :: Blocked(r, t) ==> Blocked(q, t))
  {
    var h := q.receivers[0];
    assert q.receivers == [h] + q.receivers[1..];
    assert multiset(q.receivers)[h] >= 1;
  }

  lemma HeadOfSenders(q: Queue)
    requires OnePlace(q) && |q.senders| > 0
    ensures var r := WakeSender(q);
      OnePlace(r) && |r.wokenSenders| == |q.wokenSenders| + 1
      && (forall t :: Blocked(r, t) ==> Blocked(q, t))
  {
    var h := q.senders[0];
    assert q.senders == [h] + q.senders[1..];
    assert multiset(q.senders)[h] >= 1;
  }

  lemma TakenOut(w: set<nat>, t: nat)
    ensures |w| <= |w - {t}| + 1 && (t !in w ==> w - {t} == w)
  {
    if t in w { assert w == (w - {t}) + {t}; }
  }

  /** A task that runs gives up at most one of the promises made to it. */
  lemma RanKeeps(q: Queue, t: nat)
    requires OnePlace(q)
    ensures var r := Ran(q, t);
      && OnePlace(r)
      && |q.wokenReceivers| <= |r.wokenReceivers| + 1 && |q.wokenSenders| <= |r.wokenSenders| + 1
      && (t !in q.wokenReceivers ==> r.wokenReceivers == q.wokenReceivers)
      && (t !in q.wokenSenders ==> r.wokenSenders == q.wokenSenders)
  {
    RanHasOnePlace(q, t);
    hide OnePlace;
    TakenOut(q.wokenReceivers, t);
    TakenOut(q.wokenSenders, t);
  }

  lemma RanHasOnePlace(q: Queue, t: nat)
    requires OnePlace(q)
    ensures OnePlace(Ran(q, t))
  {
  }

  lemma PutCounts(s: seq<Message>, m: Message, p: Position)
    ensures |Put(s, m, p)| == if p == Overwrite && |s| > 0 then |s| else |s| + 1
  {
  }

  lemma SendKeeps(s: System, t: nat, m: Message, p: Position)
    requires Inv(s) && Enabled(s, TaskSends(t, m, p))
    ensures Inv(Step(s, TaskSends(t, m, p)))
  {
    RanKeeps(s.q, t);
    var r := Ran(s.q, t);
    if Accepts(s.q, p) {
      PutCounts(s.q.contents, m, p);
      var u := r.(contents := Put(s.q.contents, m, p));
      if |u.receivers| > 0 { HeadOfReceivers(u); }
    }
  }

  lemma ReceiveKeeps(s: System, t: nat)
    requires Inv(s) && Enabled(s, TaskReceives(t))
    ensures Inv(Step(s, TaskReceives(t)))
  {
    RanKeeps(s.q, t);
    if |s.q.contents| > 0 {
      var u := Ran(s.q, t).(contents := s.q.contents[1..]);
      if |u.senders| > 0 { HeadOfSenders(u); }
    }
  }

  lemma PeekKeeps(s: System, t: nat)
    requires Inv(s) && Enabled(s, TaskPeeks(t))
    ensures Inv(Step(s, TaskPeeks(t)))
  {
    RanKeeps(s.q, t);
    if |s.q.contents| > 0 && |s.q.receivers| > 0 { HeadOfReceivers(Ran(s.q, t)); }
  }

  lemma IsrSendKeeps(s: System, m: Message, p: Position)
    requires Inv(s) && Enabled(s, IsrSends(m, p))
    ensures Inv(Step(s, IsrSends(m, p)))
  {
    if Accepts(s.q, p) {
      PutCounts(s.q.contents, m, p);
      var u := s.q.(contents := Put(s.q.contents, m, p));
      if s.q.txLock == UNLOCKED && |u.receivers| > 0 { HeadOfReceivers(u); }
    }
  }

  lemma IsrReceiveKeeps(s: System)
    requires Inv(s) && Enabled(s, IsrReceives)
    ensures Inv(Step(s, IsrReceives))
  {
    if |s.q.contents| > 0 {
      var u := s.q.(contents := s.q.contents[1..]);
      if s.q.rxLock == UNLOCKED && |u.senders| > 0 { HeadOfSenders(u); }
    }
  }

  /** Waking n receivers keeps n promises, or leaves nobody waiting. */
  lemma {:induction false} WakeReceiversKeeps(q: Queue, n: nat)
    requires OnePlace(q)
    ensures var r := WakeReceivers(q, n);
      && OnePlace(r) && r == q.(receivers := r.receivers, wokenReceivers := r.wokenReceivers)
      && (|r.receivers| > 0 ==> |q.receivers| > 0 && |r.wokenReceivers| == |q.wokenReceivers| + n)
    decreases n
  {
    hide OnePlace, Blocked;
    if n > 0 && |q.receivers| > 0 {
      HeadOfReceivers(q);
      WakeReceiversKeeps(WakeReceiver(q), n - 1);
    }
  }

  lemma {:induction false} WakeSendersKeeps(q: Queue, n: nat)
    requires OnePlace(q)
    ensures var r := WakeSenders(q, n);
      && OnePlace(r) && r == q.(senders := r.senders, wokenSenders := r.wokenSenders)
      && (|r.senders| > 0 ==> |q.senders| > 0 && |r.wokenSenders| == |q.wokenSenders| + n)
    decreases n
  {
    hide OnePlace, Blocked;
    if n > 0 && |q.senders| > 0 {
      HeadOfSenders(q);
      WakeSendersKeeps(WakeSender(q), n - 1);
    }
  }

  lemma PlacedOnce(l: seq<nat>, i: nat, t: nat)
    requires i <= |l|
    ensures multiset(l[..i] + [t] + l[i..]) == multiset(l) + multiset{t}
  {
    assert l == l[..i] + l[i..];
  }

  lemma PlacedReceiver(q: Queue, i: nat, t: nat)
    requires OnePlace(q) && i <= |q.receivers| && !Blocked(q, t) && t !in q.wokenReceivers && t !in q.wokenSenders
    ensures OnePlace(q.(receivers := q.receivers[..i] + [t] + q.receivers[i..]))
  {
    assert t !in multiset(q.receivers) && t !in multiset(q.senders);
    PlacedOnce(q.receivers, i, t);
  }

  lemma PlacedSender(q: Queue, i: nat, t: nat)
    requires OnePlace(q) && i <= |q.senders| && !Blocked(q, t) && t !in q.wokenReceivers && t !in q.wokenSenders
    ensures OnePlace(q.(senders := q.senders[..i] + [t] + q.senders[i..]))
  {
    assert t !in multiset(q.receivers) && t !in multiset(q.senders);
    PlacedOnce(q.senders, i, t);
  }

  lemma ReceiverWaits(s: System, l: seq<nat>)
    requires Inv(s) && s.phase.FoundEmpty? && OnePlace(s.q.(receivers := l))
    ensures Inv(System(s.q.(receivers := l), Placed))
  {
    hide OnePlace, Blocked;
  }

  lemma SenderWaits(s: System, l: seq<nat>)
    requires Inv(s) && s.phase.FoundFull? && OnePlace(s.q.(senders := l))
    ensures Inv(System(s.q.(senders := l), Placed))
  {
    hide OnePlace, Blocked;
  }

  lemma PlaceKeeps(s: System, i: nat)
    requires Inv(s) && Enabled(s, Places(i))
    ensures Inv(Step(s, Places(i)))
  {
    hide OnePlace, Blocked, MessagesPromised, SlotsPromised, LocksMatch;
    var t := s.phase.task;
    if s.phase.FoundEmpty? {
      PlacedReceiver(s.q, i, t);
      ReceiverWaits(s, s.q.receivers[..i] + [t] + s.q.receivers[i..]);
    } else {
      PlacedSender(s.q, i, t);
      SenderWaits(s, s.q.senders[..i] + [t] + s.q.senders[i..]);
    }
  }

  lemma {:induction false} RemovedCounts(l: seq<nat>, t: nat)
    ensures multiset(Removed(l, t)) <= multiset(l) && |Removed(l, t)| <= |l|
  {
    if |l| > 0 {
      RemovedCounts(l[1..], t);
      assert l == [l[0]] + l[1..];
    }
  }

  lemma TimeOutKeeps(s: System, t: nat)
    requires Inv(s) && Enabled(s, TimesOut(t))
    ensures Inv(Step(s, TimesOut(t)))
  {
    RemovedCounts(s.q.receivers, t);
    RemovedCounts(s.q.senders, t);
  }

  lemma LockKeeps(s: System, e: Event)
    requires Inv(s) && Enabled(s, e) && (e.TaskLocks? || e.ChecksEmpty? || e.ChecksFull?)
    ensures Inv(Step(s, e))
  {
  }

  lemma LocksOnly(q: Queue, tx: Int8, rx: Int8)
    requires OnePlace(q)
    ensures OnePlace(q.(txLock := tx, rxLock := rx))
  {
  }

  lemma UnlockKeeps(s: System, e: Event)
    requires Inv(s) && Enabled(s, e) && (e.UnlocksTx? || e.UnlocksRx?)
    ensures Inv(Step(s, e))
  {
    hide OnePlace, Blocked, WakeReceivers, WakeSenders;
    if e.UnlocksTx? {
      WakeReceiversKeeps(s.q, Posted(s.q.txLock));
      LocksOnly(WakeReceivers(s.q, Posted(s.q.txLock)), UNLOCKED, s.q.rxLock);
    } else {
      WakeSendersKeeps(s.q, Posted(s.q.rxLock));
      LocksOnly(WakeSenders(s.q, Posted(s.q.rxLock)), s.q.txLock, UNLOCKED);
    }
  }

  lemma StepKeepsInv(s: System, e: Event)
    requires Inv(s) && Enabled(s, e)
    ensures Inv(Step(s, e))
  {
    hide Inv, Step, Enabled;
    match e
    case TaskSends(t, m, p) => SendKeeps(s, t, m, p);
    case TaskReceives(t) => ReceiveKeeps(s, t);
    case TaskPeeks(t) => PeekKeeps(s, t);
    case IsrSends(m, p) => IsrSendKeeps(s, m, p);
    case IsrReceives => IsrReceiveKeeps(s);
    case TaskLocks(_) => LockKeeps(s, e);
    case ChecksEmpty => LockKeeps(s, e);
    case ChecksFull => LockKeeps(s, e);
    case Places(i) => PlaceKeeps(s, i);
    case UnlocksTx => UnlockKeeps(s, e);
    case UnlocksRx => UnlockKeeps(s, e);
    case TimesOut(t) => TimeOutKeeps(s, t);
  }

  ghost predicate Run(tr: seq<System>, es: seq<Event>) {
    && |tr| == |es| + 1
    && forall i {:trigger es[i]} :: 0 <= i < |es| ==> Enabled(tr[i], es[i]) && tr[i + 1] == Step(tr[i], es[i])
  }

  /** xQueueGenericReset on a new queue */
  function New(length: nat): System {
    System(Queue(length, [], UNLOCKED, UNLOCKED, [], [], {}, {}), NotLocked)
  }

  lemma {:induction false} RunKeepsInv(tr: seq<System>, es: seq<Event>, i: nat)
    requires Run(tr, es) && Inv(tr[0]) && i < |tr|
    ensures Inv(tr[i])
    decreases i
  {
    hide Step, Enabled, Inv;
    if i > 0 {
      RunKeepsInv(tr, es, i - 1);
      StepKeepsInv(tr[i - 1], es[i - 1]);
    }
  }

  /**
    No lost wake-up, over every interleaving of tasks, interrupts, locking and
    timeouts: while a task is blocked waiting to receive there are no more
    messages than tasks already woken for them or, once the queue is unlocked,
    to be woken; and symmetrically for senders and free slots.
   */
  lemma NoLostWakeUp(tr: seq<System>, es: seq<Event>, length: nat, i: nat)
    requires Run(tr, es) && length > 0 && tr[0] == New(length) && i < |tr|
    ensures var q := tr[i].q;
      && (|q.receivers| > 0 ==> |q.contents| <= |q.wokenReceivers| + Posted(q.txLock))
      && (|q.senders| > 0 ==> length - |q.contents| <= |q.wokenSenders| + Posted(q.rxLock))
  {
    hide Step, Enabled;
    RunKeepsInv(tr, es, i);
    LengthFixed(tr, es, i);
  }

  lemma StepKeepsLength(s: System, e: Event)
    requires Enabled(s, e) && OnePlace(s.q)
    ensures Step(s, e).q.length == s.q.length
  {
    match e
    case UnlocksTx => WakeReceiversKeeps(s.q, Posted(s.q.txLock));
    case UnlocksRx => WakeSendersKeeps(s.q, Posted(s.q.rxLock));
    case _ =>
  }

  lemma {:induction false} LengthFixed(tr: seq<System>, es: seq<Event>, i: nat)
    requires Run(tr, es) && Inv(tr[0]) && i < |tr|
    ensures tr[i].q.length == tr[0].q.length
    decreases i
  {
    hide Step, Enabled;
    if i > 0 {
      LengthFixed(tr, es, i - 1);
      RunKeepsInv(tr, es, i - 1);
      StepKeepsLength(tr[i - 1], es[i - 1]);
    }
  }

  /** Once every woken task has run and the queue is unlocked, a task waits to receive only from an empty queue. */
  lemma WaitsOnlyWhenItMust(tr: seq<System>, es: seq<Event>, length: nat, i: nat)
    requires Run(tr, es) && length > 0 && tr[0] == New(length) && i < |tr| && tr[i].phase == NotLocked
    requires tr[i].q.wokenReceivers == {} && tr[i].q.wokenSenders == {}
    ensures |tr[i].q.receivers| > 0 ==> tr[i].q.contents == []
    ensures |tr[i].q.senders| > 0 ==> |tr[i].q.contents| == length
    ensures |tr[i].q.receivers| == 0 || |tr[i].q.senders| == 0
  {
    hide Step, Enabled;
    RunKeepsInv(tr, es, i);
    LengthFixed(tr, es, i);
  }

  /**
    Why Enabled bounds the lock counts: an interrupt's post while a receiver is
    waiting and the queue is locked is honoured on unlocking if and only if the
    count has not reached its maximum.  One more wraps it to a negative number,
    unlocking then wakes nobody, and the receiver stays blocked on its message.
   */
  lemma PostHonouredIffCountFits(s: System, m: Message)
    requires Inv(s) && s.phase.Placed? && |s.q.contents| < s.q.length && |s.q.receivers| > 0 && s.q.wokenReceivers == {}
    ensures var q := UnlockTx(SendFromISR(s.q, m, Back));
      (|q.receivers| > 0 ==> |q.contents| <= |q.wokenReceivers|) <==> s.q.txLock != INT8_MAX
  {
    if s.q.txLock != INT8_MAX {
      IsrSendKeeps(s, m, Back);
      StepKeepsInv(Step(s, IsrSends(m, Back)), UnlocksTx);
    }
  }

  /** The same for a message taken by an interrupt while a sender waits. */
  lemma TakeHonouredIffCountFits(s: System)
    requires Inv(s) && s.phase.Placed? && |s.q.contents| > 0 && |s.q.senders| > 0 && s.q.wokenSenders == {}
    ensures var q := UnlockRx(UnlockTx(ReceiveFromISR(s.q)));
      (|q.senders| > 0 ==> q.length - |q.contents| <= |q.wokenSenders|) <==> s.q.rxLock != INT8_MAX
  {
    hide WakeReceivers;
    var r := ReceiveFromISR(s.q);
    WakeReceiversKeeps(r, Posted(r.txLock));
    if s.q.rxLock != INT8_MAX {
      IsrReceiveKeeps(s);
      StepKeepsInv(Step(s, IsrReceives), UnlocksTx);
      StepKeepsInv(Step(Step(s, IsrReceives), UnlocksTx), UnlocksRx);
    }
  }

  // ----- first in, first out -------------------------------------------------------------------------

  function PostedBy(s: System, e: Event): seq<Message> {
    match e
    case TaskSends(_, m, p) => if Accepts(s.q, p) then [m] else []
    case IsrSends(m, p) => if Accepts(s.q, p) then [m] else []
    case _ => []
  }

  function TakenBy(s: System, e: Event): seq<Message> {
    if (e.TaskReceives? || e.IsrReceives?) && |s.q.contents| > 0 then [s.q.contents[0]] else []
  }

  function AllPosted(tr: seq<System>, es: seq<Event>, i: nat): seq<Message>
    requires i <= |es| && i < |tr|
  {
    if i == 0 then [] else AllPosted(tr, es, i - 1) + PostedBy(tr[i - 1], es[i - 1])
  }

  function AllTaken(tr: seq<System>, es: seq<Event>, i: nat): seq<Message>
    requires i <= |es| && i < |tr|
  {
    if i == 0 then [] else AllTaken(tr, es, i - 1) + TakenBy(tr[i - 1], es[i - 1])
  }

  predicate SendsToBack(e: Event) {
    (e.TaskSends? ==> e.p == Back) && (e.IsrSends? ==> e.p == Back)
  }

  lemma StepIsFifo(s: System, e: Event)
    requires Enabled(s, e) && OnePlace(s.q) && SendsToBack(e)
    ensures TakenBy(s, e) + Step(s, e).q.contents == s.q.contents + PostedBy(s, e)
  {
    hide OnePlace, Blocked, WakeReceivers, WakeSenders, Removed;
    match e
    case UnlocksTx => WakeReceiversKeeps(s.q, Posted(s.q.txLock));
    case UnlocksRx => WakeSendersKeeps(s.q, Posted(s.q.rxLock));
    case TaskReceives(_) => if |s.q.contents| > 0 { assert [s.q.contents[0]] + s.q.contents[1..] == s.q.contents; }
    case IsrReceives => if |s.q.contents| > 0 { assert [s.q.contents[0]] + s.q.contents[1..] == s.q.contents; }
    case _ =>
  }

  /** In every run that posts at the back, messages are taken in the order posted, none lost or repeated. */
  lemma {:induction false} RunIsFifo(tr: seq<System>, es: seq<Event>, i: nat)
    requires Run(tr, es) && Inv(tr[0]) && i < |tr| && forall j {:trigger es[j]} :: 0 <= j < |es| ==> SendsToBack(es[j])
    ensures AllTaken(tr, es, i) + tr[i].q.contents == tr[0].q.contents + AllPosted(tr, es, i)
    decreases i
  {
    hide Step, Enabled, Inv, PostedBy, TakenBy, SendsToBack;
    if i > 0 {
      RunIsFifo(tr, es, i - 1);
      RunKeepsInv(tr, es, i - 1);
      InvHasOnePlace(tr[i - 1]);
      StepIsFifo(tr[i - 1], es[i - 1]);
      Regroup(AllTaken(tr, es, i - 1), TakenBy(tr[i - 1], es[i - 1]), tr[i].q.contents,
              tr[i - 1].q.contents, PostedBy(tr[i - 1], es[i - 1]));
      Regroup(tr[0].q.contents, AllPosted(tr, es, i - 1), PostedBy(tr[i - 1], es[i - 1]),
              AllPosted(tr, es, i - 1), PostedBy(tr[i - 1], es[i - 1]));
    }
  }

  lemma InvHasOnePlace(s: System)
    requires Inv(s)
    ensures OnePlace(s.q)
  {
  }

  lemma Regroup(a: seq<Message>, b: seq<Message>, c: seq<Message>, d: seq<Message>, e: seq<Message>)
    requires b + c == d + e
    ensures a + b + c == a + d + e
    ensures a + b + c == a + (b + c)
  {
    assert a + b + c == a + (b + c);
    assert a + d + e == a + (d + e);
  }

  // ----- posts at the front and overwrites ---------------------------------------------------------------

  /** A message posted at the front is taken next, by a task or an interrupt, and leaves the others as they were. */
  lemma FrontIsTakenNext(q: Queue, t: nat, m: Message, u: nat)
    requires |q.contents| < q.length
    ensures var r := Send(q, t, m, Front);
      |r.contents| > 0 && r.contents[0] == m && Receive(r, u).contents == q.contents == ReceiveFromISR(r).contents
    ensures var r := SendFromISR(q, m, Front);
      |r.contents| > 0 && r.contents[0] == m && Receive(r, u).contents == q.contents == ReceiveFromISR(r).contents
  {
  }

  /** On a queue of one place an overwrite is always accepted and leaves that message alone, full or not. */
  lemma OverwriteReplaces(q: Queue, t: nat, m: Message)
    requires q.length == 1 && |q.contents| <= 1
    ensures Send(q, t, m, Overwrite).contents == [m] == SendFromISR(q, m, Overwrite).contents
  {
  }

  /** A post at either end is refused if and only if the queue is full, and a refused one changes nothing. */
  lemma RefusedIffFull(q: Queue, t: nat, m: Message, p: Position)
    requires p != Overwrite && |q.contents| <= q.length
    ensures |Send(q, t, m, p).contents| == |q.contents| + 1 <==> |q.contents| < q.length
    ensures |SendFromISR(q, m, p).contents| == |q.contents| + 1 <==> |q.contents| < q.length
    ensures |q.contents| == q.length ==> Send(q, t, m, p) == Ran(q, t) && SendFromISR(q, m, p) == q
  {
    PutCounts(q.contents, m, p);
    hide Put;
  }

  /** Locking a queue, locked before or not, loses no count of posts and takes. */
  lemma LockLosesNoCount(q: Queue)
    requires q.txLock >= UNLOCKED && q.rxLock >= UNLOCKED
    ensures var r := Lock(q);
      && r.txLock >= 0 && r.rxLock >= 0 && Posted(r.txLock) == Posted(q.txLock) && Posted(r.rxLock) == Posted(q.rxLock)
      && r.contents == q.contents && r.receivers == q.receivers && r.senders == q.senders
  {
  }
}
