/**
  Mutexes with priority inheritance (tasks.c and xQueueSemaphoreTake,
  xQueueGenericSend of queue.c) as a value, one step per critical section.
  Each task holds at most one mutex, holds none while it waits for one, and base
  priorities are fixed.
 */
module InheritanceModel {
  import opened Lists
  import opened TaskModel

  datatype Holder = Nobody | By(task: nat)

  /** waiters is xTasksWaitingToReceive: item values are MAX_PRIORITIES - priority. */
  datatype Mutex = Mutex(holder: Holder, waiters: seq<Item>)

  /** A task off the event list that is to try again; untried until it has looked at the mutex. */
  datatype Retry = Retry(mutex: nat, untried: bool)

  datatype System = System(
    base: map<nat, Priority>,       // uxBasePriority
    prio: map<nat, Priority>,       // uxPriority
    ready: set<nat>,
    running: nat,                   // pxCurrentTCB
    mustSwitch: bool,               // a yield has been requested
    mutexes: map<nat, Mutex>,
    inherited: set<nat>,            // tasks whose local xInheritanceOccurred is set
    retry: map<nat, Retry>
  )

  function Of(p: map<nat, Priority>, t: nat): Priority {
    if t in p then p[t] else 0
  }

  function At(ms: map<nat, Mutex>, m: nat): Mutex {
    if m in ms then ms[m] else Mutex(Nobody, [])
  }

  function SetPrio(s: System, t: nat, p: Priority): System {
    s.(prio := s.prio[t := p])
  }

  // ----- tasks.c -----------------------------------------------------------------------------

  /** xTaskPriorityInherit */
  function Inherit(s: System, h: nat): System {
    if Of(s.prio, h) < Of(s.prio, s.running) then SetPrio(s, h, Of(s.prio, s.running)) else s
  }

  /** ... and the value it returns. */
  predicate Inherits(s: System, h: nat) {
    Of(s.prio, h) < Of(s.prio, s.running) || Of(s.base, h) < Of(s.prio, s.running)
  }

  /** xTaskPriorityDisinherit: the running task gives its only mutex. */
  function Disinherit(s: System): System {
    if Of(s.prio, s.running) != Of(s.base, s.running) then SetPrio(s, s.running, Of(s.base, s.running)) else s
  }

  /** prvGetDisinheritPriorityAfterTimeout */
  function HighestWaiting(x: Mutex): Priority {
    if |x.waiters| > 0 && 1 <= x.waiters[0].value <= MAX_PRIORITIES then MAX_PRIORITIES - x.waiters[0].value else 0
  }

  /** vTaskPriorityDisinheritAfterTimeout */
  function DisinheritAfterTimeout(s: System, h: nat, highest: Priority): System {
    var use := if Of(s.base, h) < highest then highest else Of(s.base, h);
    if Of(s.prio, h) != use then SetPrio(s, h, use) else s
  }

  // ----- queue.c ------------------------------------------------------------------------------

  function EventItem(s: System, t: nat): Item {
    Item(t, MAX_PRIORITIES - Of(s.prio, t))
  }

  /** The running task finds the mutex free. */
  function Take(s: System, m: nat): System {
    s.(mutexes := s.mutexes[m := At(s.mutexes, m).(holder := By(s.running))], retry := s.retry - {s.running})
  }

  /** The running task finds it held: the holder inherits and the task blocks. */
  function Block(s: System, m: nat): System
    requires At(s.mutexes, m).holder.By?
  {
    var h := At(s.mutexes, m).holder.task;
    Inherit(s, h).(
      inherited := if Inherits(s, h) then s.inherited + {s.running} else s.inherited - {s.running},
      mutexes := s.mutexes[m := At(s.mutexes, m).(waiters := Inserted(At(s.mutexes, m).waiters, EventItem(s, s.running)))],
      ready := s.ready - {s.running}, retry := s.retry - {s.running}, mustSwitch := true)
  }

  /** The running task gives: the most urgent waiter is made ready to try again. */
  function Give(s: System, m: nat): System {
    var d := Disinherit(s);
    var ws := At(s.mutexes, m).waiters;
    if |ws| == 0 then
      d.(mutexes := s.mutexes[m := Mutex(Nobody, [])], mustSwitch := Of(s.prio, s.running) != Of(s.base, s.running))
    else
      var t := ws[0].owner;
      d.(mutexes := s.mutexes[m := Mutex(Nobody, ws[1..])], ready := s.ready + {t},
         retry := s.retry[t := Retry(m, true)], mustSwitch := Of(d.prio, t) > Of(d.prio, s.running))
  }

  /**
    Making t ready asks for a switch if t is more urgent than the running task; a tick
    and a task resumed also if it is as urgent (`orEqual`), an event and an aborted
    delay not.
   */
  predicate AsksForSwitch(s: System, t: nat, orEqual: bool) {
    Of(s.prio, t) > Of(s.prio, s.running) || (orEqual && Of(s.prio, t) == Of(s.prio, s.running))
  }

  /** The tick, or xTaskAbortDelay, takes waiter i of m off its list. */
  function TimeOut(s: System, m: nat, i: nat, orEqual: bool): System
    requires i < |At(s.mutexes, m).waiters|
  {
    var t := At(s.mutexes, m).waiters[i].owner;
    s.(mutexes := s.mutexes[m := At(s.mutexes, m).(waiters := RemoveAt(At(s.mutexes, m).waiters, i))], ready := s.ready + {t},
       retry := s.retry[t := Retry(m, false)], mustSwitch := s.mustSwitch || AsksForSwitch(s, t, orEqual))
  }

  /** The running task, timed out and still without the mutex, undoes the inheritance it caused. */
  function GiveUp(s: System): System
    requires s.running in s.retry
  {
    var x := At(s.mutexes, s.retry[s.running].mutex);
    var d := if x.holder.By? && s.running in s.inherited then DisinheritAfterTimeout(s, x.holder.task, HighestWaiting(x)) else s;
    d.(retry := s.retry - {s.running}, inherited := s.inherited - {s.running})
  }

  // ----- steps ------------------------------------------------------------------------------------

  datatype Event =
    | Switches(to: nat)
    | Takes(mutex: nat)
    | Blocks(mutex: nat)
    | Gives(mutex: nat)
    | TimesOut(mutex: nat, i: nat, orEqual: bool)
    | LooksAgain                    // a woken task finds the mutex taken once more
    | SawFree                       // a timed-out task finds the mutex free and will not disinherit
    | GivesUp
    | Sleeps                        // the running task blocks on something else
    | Wakes(task: nat, orEqual: bool)

  ghost predicate HoldsNone(ms: map<nat, Mutex>, t: nat) {
    forall m: nat :: At(ms, m).holder != By(t)
  }

  ghost predicate WaitsNowhere(ms: map<nat, Mutex>, t: nat) {
    forall m: nat, e: Item :: e in At(ms, m).waiters ==> e.owner != t
  }

  ghost predicate IsTop(s: System, t: nat) {
    t in s.ready && forall x: nat :: x in s.ready ==> Of(s.prio, x) <= Of(s.prio, t)
  }

  ghost predicate Enabled(s: System, e: Event) {
    match e
    case Switches(t) => IsTop(s, t)
    case TimesOut(m, i, _) => i < |At(s.mutexes, m).waiters|
    case Wakes(t, _) => t !in s.ready && WaitsNowhere(s.mutexes, t)
    case Takes(m) =>
      !s.mustSwitch && At(s.mutexes, m).holder.Nobody? && HoldsNone(s.mutexes, s.running)
      && (s.running in s.retry ==> s.retry[s.running].mutex == m)
    case Blocks(m) =>
      !s.mustSwitch && At(s.mutexes, m).holder.By? && HoldsNone(s.mutexes, s.running)
      && (s.running in s.retry ==> s.retry[s.running].mutex == m)
    case Gives(m) => !s.mustSwitch && At(s.mutexes, m).holder == By(s.running)
    case LooksAgain => !s.mustSwitch && s.running in s.retry && At(s.mutexes, s.retry[s.running].mutex).holder.By?
    case SawFree =>
      !s.mustSwitch && s.running in s.retry && !s.retry[s.running].untried && At(s.mutexes, s.retry[s.running].mutex).holder.Nobody?
    case GivesUp => !s.mustSwitch && s.running in s.retry && !s.retry[s.running].untried
    case Sleeps => !s.mustSwitch && s.running !in s.retry
  }

  function Step(s: System, e: Event): System
    requires Enabled(s, e)
  {
    match e
    case Switches(t) => s.(running := t, mustSwitch := false)
    case TimesOut(m, i, orEqual) => TimeOut(s, m, i, orEqual)
    case Wakes(t, orEqual) => s.(ready := s.ready + {t}, mustSwitch := s.mustSwitch || AsksForSwitch(s, t, orEqual))
    case Takes(m) => Take(s, m)
    case Blocks(m) => Block(s, m)
    case Gives(m) => Give(s, m)
    case LooksAgain => s.(retry := s.retry[s.running := s.retry[s.running].(untried := false)])
    case SawFree => s.(inherited := s.inherited - {s.running})
    case GivesUp => GiveUp(s)
    case Sleeps => s.(ready := s.ready - {s.running}, mustSwitch := true)
  }

  // ----- the invariant ---------------------------------------------------------------------------------

  /** Unless a switch is on its way, the running task is at least as urgent as every task waiting for a free mutex. */
  ghost predicate RunsAhead(s: System) {
    !s.mustSwitch ==> s.running in s.ready && forall m: nat :: AheadOf(s, m)
  }

  ghost predicate AheadOf(s: System, m: nat) {
    At(s.mutexes, m).holder.Nobody? ==>
      forall e :: e in At(s.mutexes, m).waiters ==> Of(s.base, e.owner) <= Of(s.prio, s.running)
  }

  /** Only a mutex holder runs above its base priority. */
  ghost predicate OnlyHoldersRaised(s: System) {
    forall t: nat :: Of(s.base, t) <= Of(s.prio, t) && (Of(s.base, t) < Of(s.prio, t) ==> !HoldsNone(s.mutexes, t))
  }

  ghost predicate OneMutexEach(s: System) {
    forall m: nat, n: nat :: At(s.mutexes, m).holder.By? && At(s.mutexes, m).holder == At(s.mutexes, n).holder ==> m == n
  }

  /** A task on an event list is blocked there, once, at its base priority, and holds nothing. */
  ghost predicate WaiterOk(s: System, m: nat, e: Item) {
    && e.value == MAX_PRIORITIES - Of(s.base, e.owner)
    && e.owner !in s.ready && e.owner !in s.retry && HoldsNone(s.mutexes, e.owner)
    && (forall n: nat, f: Item :: f in At(s.mutexes, n).waiters && f.owner == e.owner ==> m == n)
  }

  ghost predicate NoTwice(l: seq<Item>) {
    |l| > 0 ==> (forall e :: e in l[1..] ==> e.owner != l[0].owner) && NoTwice(l[1..])
  }

  ghost predicate WaitersOk(s: System) {
    forall m: nat :: Ordered(At(s.mutexes, m).waiters) && NoTwice(At(s.mutexes, m).waiters)
      && forall e :: e in At(s.mutexes, m).waiters ==> WaiterOk(s, m, e)
  }

  /** A task that is to try again is ready and holds nothing. */
  ghost predicate RetriesOk(s: System) {
    forall t: nat :: t in s.retry ==> t in s.ready && HoldsNone(s.mutexes, t)
  }

  /** t is the reason why h has priority p: it waits for m, or did and will undo the inheritance. */
  ghost predicate Accounts(s: System, m: nat, t: nat, p: nat) {
    && Of(s.base, t) == p
    && (Item(t, MAX_PRIORITIES - p) in At(s.mutexes, m).waiters || (t in s.retry && s.retry[t].mutex == m && t in s.inherited))
  }

  ghost predicate Covers(s: System, m: nat, h: nat) {
    forall e :: e in At(s.mutexes, m).waiters ==> Of(s.base, e.owner) <= Of(s.prio, h)
  }

  /** A waiter that raised the holder remembers that it did. */
  ghost predicate Remembered(s: System, m: nat, h: nat) {
    forall e :: e in At(s.mutexes, m).waiters && Of(s.base, e.owner) > Of(s.base, h) ==> e.owner in s.inherited
  }

  ghost predicate Accounted(s: System, m: nat, h: nat) {
    Of(s.prio, h) == Of(s.base, h) || exists t: nat :: Accounts(s, m, t, Of(s.prio, h))
  }

  ghost predicate HeldOk(s: System, m: nat) {
    At(s.mutexes, m).holder.By? ==>
      var h := At(s.mutexes, m).holder.task;
      Covers(s, m, h) && Remembered(s, m, h) && Accounted(s, m, h)
  }

  /** While the mutex is free but tasks wait, one at least as urgent has been woken and will look first. */
  ghost predicate FreeOk(s: System, m: nat) {
    At(s.mutexes, m).holder.Nobody? && |At(s.mutexes, m).waiters| > 0 ==>
      exists t: nat :: t in s.retry && s.retry[t] == Retry(m, true) && Of(s.base, t) >= Of(s.base, At(s.mutexes, m).waiters[0].owner)
  }

  ghost predicate Inv(s: System) {
    && RunsAhead(s) && OnlyHoldersRaised(s) && OneMutexEach(s) && WaitersOk(s) && RetriesOk(s)
    && forall m: nat :: HeldOk(s, m) && FreeOk(s, m)
  }

  // ----- each step keeps it --------------------------------------------------------------------------------

  lemma HeadMostUrgent(s: System, m: nat)
    requires WaitersOk(s) && |At(s.mutexes, m).waiters| > 0
    ensures forall e :: e in At(s.mutexes, m).waiters ==> Of(s.base, e.owner) <= Of(s.base, At(s.mutexes, m).waiters[0].owner)
  {
    var w := At(s.mutexes, m).waiters;
    assert w == [w[0]] + w[1..];
    assert WaiterOk(s, m, w[0]);
  }

  /** A free mutex that a step leaves alone, together with the tasks woken for it. */
  lemma FreeUntouched(s: System, r: System, m: nat)
    requires FreeOk(s, m) && At(r.mutexes, m) == At(s.mutexes, m) && r.base == s.base
    requires forall t: nat :: t in s.retry && s.retry[t] == Retry(m, true) ==> t in r.retry && r.retry[t] == Retry(m, true)
    ensures FreeOk(r, m)
  {
    if At(s.mutexes, m).holder.Nobody? && |At(s.mutexes, m).waiters| > 0 {
      var t: nat :| t in s.retry && s.retry[t] == Retry(m, true)
        && Of(s.base, t) >= Of(s.base, At(s.mutexes, m).waiters[0].owner);
      assert t in r.retry;
    }
  }

  /** A held mutex that a step leaves alone, together with its holder and the tasks that account for it. */
  lemma HeldUntouched(s: System, r: System, m: nat)
    requires HeldOk(s, m) && At(r.mutexes, m) == At(s.mutexes, m) && r.base == s.base
    requires At(s.mutexes, m).holder.By? ==> Of(r.prio, At(s.mutexes, m).holder.task) == Of(s.prio, At(s.mutexes, m).holder.task)
    requires forall t: nat :: t in s.retry && s.retry[t].mutex == m && t in s.inherited ==>
      t in r.retry && r.retry[t].mutex == m && t in r.inherited
    requires forall e :: e in At(s.mutexes, m).waiters && e.owner in s.inherited ==> e.owner in r.inherited
    ensures HeldOk(r, m)
  {
    if At(s.mutexes, m).holder.By? {
      var h := At(s.mutexes, m).holder.task;
      if Of(s.prio, h) != Of(s.base, h) {
        var t: nat :| Accounts(s, m, t, Of(s.prio, h));
        assert Accounts(r, m, t, Of(r.prio, h));
      }
    }
  }

  /** No task changes place: the waiters stay as they are. */
  lemma WaitersUntouched(s: System, r: System)
    requires WaitersOk(s) && r.base == s.base
    requires forall m: nat :: At(r.mutexes, m).waiters == At(s.mutexes, m).waiters
    requires forall t: nat :: t in r.ready || t in r.retry ==> t in s.ready || t in s.retry || WaitsNowhere(s.mutexes, t)
    requires forall m: nat :: At(r.mutexes, m).holder.By? && At(r.mutexes, m) != At(s.mutexes, m) ==>
      At(r.mutexes, m).holder.task in s.ready
    ensures WaitersOk(r)
  {
    forall m: nat, e | e in At(r.mutexes, m).waiters ensures WaiterOk(r, m, e) {
      assert e in At(s.mutexes, m).waiters;
      assert WaiterOk(s, m, e);
      forall n: nat ensures At(r.mutexes, n).holder != By(e.owner) {
        assert At(s.mutexes, n).holder != By(e.owner);
      }
      assert !WaitsNowhere(s.mutexes, e.owner);
    }
  }

  lemma SwitchKeeps(s: System, t: nat)
    requires Inv(s) && Enabled(s, Switches(t))
    ensures Inv(Step(s, Switches(t)))
  {
    var r := Step(s, Switches(t));
    WaitersUntouched(s, r);
    forall n: nat ensures HeldOk(r, n) && FreeOk(r, n) && AheadOf(r, n) {
      FreeUntouched(s, r, n);
      HeldUntouched(s, r, n);
      if |At(s.mutexes, n).waiters| > 0 { HeadMostUrgent(s, n); }
    }
  }

  lemma TakeKeeps(s: System, m: nat)
    requires Inv(s) && Enabled(s, Takes(m))
    ensures Inv(Take(s, m))
  {
    hide Ordered, NoTwice;
    var r := Take(s, m);
    WaitersUntouched(s, r);
    assert AheadOf(s, m);
    assert Of(s.prio, s.running) == Of(s.base, s.running);
    assert HeldOk(r, m);
    forall n: nat ensures HeldOk(r, n) && FreeOk(r, n) && AheadOf(r, n) {
      if n != m {
        FreeUntouched(s, r, n);
        HeldUntouched(s, r, n);
        assert AheadOf(s, n);
      }
    }
  }

  lemma LookKeeps(s: System)
    requires Inv(s) && Enabled(s, LooksAgain)
    ensures Inv(Step(s, LooksAgain))
  {
    var r := Step(s, LooksAgain);
    WaitersUntouched(s, r);
    forall n: nat ensures HeldOk(r, n) && FreeOk(r, n) && AheadOf(r, n) {
      HeldUntouched(s, r, n);
      if n != s.retry[s.running].mutex { FreeUntouched(s, r, n); }
      assert AheadOf(s, n);
    }
  }

  lemma SawFreeKeeps(s: System)
    requires Inv(s) && Enabled(s, SawFree)
    ensures Inv(Step(s, SawFree))
  {
    var r := Step(s, SawFree);
    WaitersUntouched(s, r);
    forall n: nat ensures HeldOk(r, n) && FreeOk(r, n) && AheadOf(r, n) {
      FreeUntouched(s, r, n);
      if n != s.retry[s.running].mutex { RunningWaitsNowhere(s, n); HeldUntouched(s, r, n); }
      assert AheadOf(s, n);
    }
  }

  lemma RunningWaitsNowhere(s: System, n: nat)
    requires WaitersOk(s) && s.running in s.ready
    ensures forall e :: e in At(s.mutexes, n).waiters ==> e.owner != s.running
  {
    forall e | e in At(s.mutexes, n).waiters ensures e.owner != s.running {
      assert WaiterOk(s, n, e);
    }
  }

  lemma SleepKeeps(s: System)
    requires Inv(s) && Enabled(s, Sleeps)
    ensures Inv(Step(s, Sleeps))
  {
    var r := Step(s, Sleeps);
    WaitersUntouched(s, r);
    forall n: nat ensures HeldOk(r, n) && FreeOk(r, n) {
      FreeUntouched(s, r, n);
      HeldUntouched(s, r, n);
    }
  }

  lemma WakeKeeps(s: System, t: nat, orEqual: bool)
    requires Inv(s) && Enabled(s, Wakes(t, orEqual))
    ensures Inv(Step(s, Wakes(t, orEqual)))
  {
    var r := Step(s, Wakes(t, orEqual));
    WaitersUntouched(s, r);
    forall n: nat ensures HeldOk(r, n) && FreeOk(r, n) && (!s.mustSwitch ==> AheadOf(r, n)) {
      FreeUntouched(s, r, n);
      HeldUntouched(s, r, n);
      assert !s.mustSwitch ==> AheadOf(s, n);
    }
  }

  // ----- the event lists ---------------------------------------------------------------------------------------

  lemma {:induction false} NoTwiceInserted(l: seq<Item>, x: Item)
    requires NoTwice(l) && forall e :: e in l ==> e.owner != x.owner
    ensures NoTwice(Inserted(l, x))
    ensures forall e :: e in Inserted(l, x) <==> e in l || e == x
  {
    InsertAtMembers(l, InsertPos(l, x.value), x);
    if |l| > 0 && l[0].value <= x.value {
      NoTwiceInserted(l[1..], x);
      assert Inserted(l, x)[1..] == Inserted(l[1..], x);
    } else {
      assert Inserted(l, x)[1..] == l;
    }
  }

  lemma {:induction false} NoTwiceRemoved(l: seq<Item>, i: nat)
    requires NoTwice(l) && i < |l|
    ensures NoTwice(RemoveAt(l, i))
    ensures forall e :: e in RemoveAt(l, i) <==> e in l && e.owner != l[i].owner
  {
    assert l == [l[0]] + l[1..];
    if i > 0 {
      NoTwiceRemoved(l[1..], i - 1);
      assert RemoveAt(l, i) == [l[0]] + RemoveAt(l[1..], i - 1);
    } else {
      assert RemoveAt(l, 0) == l[1..];
    }
  }

  lemma OrderedRemoved(l: seq<Item>, i: nat)
    requires Ordered(l) && i < |l|
    ensures Ordered(RemoveAt(l, i))
  {
    OrderedIsSorted(l);
    OrderedIsSorted(RemoveAt(l, i));
  }

  // ----- blocking ---------------------------------------------------------------------------------------------

  lemma BlockWaiters(s: System, m: nat)
    requires Inv(s) && Enabled(s, Blocks(m))
    ensures WaitersOk(Block(s, m))
  {
    var r, x := Block(s, m), EventItem(s, s.running);
    var l := At(s.mutexes, m).waiters;
    RunningWaitsNowhere(s, m);
    NoTwiceInserted(l, x);
    OrderedInserted(l, x);
    assert Of(s.prio, s.running) == Of(s.base, s.running);
    assert forall n: nat :: At(r.mutexes, n).waiters == if n == m then Inserted(l, x) else At(s.mutexes, n).waiters;
    forall n: nat, e | e in At(r.mutexes, n).waiters ensures WaiterOk(r, n, e) {
      BlockWaiter(s, m, n, e);
    }
  }

  lemma BlockWaiter(s: System, m: nat, n: nat, e: Item)
    requires Inv(s) && Enabled(s, Blocks(m)) && e in At(Block(s, m).mutexes, n).waiters
    ensures WaiterOk(Block(s, m), n, e)
  {
    hide Inserted, Ordered, NoTwice, HeldOk, FreeOk, AheadOf, RetriesOk, OneMutexEach;
    var r, x := Block(s, m), EventItem(s, s.running);
    BlockMembers(At(s.mutexes, m).waiters, x);
    assert Of(s.prio, s.running) == Of(s.base, s.running);
    assert e in At(s.mutexes, n).waiters || (n == m && e == x);
    if e in At(s.mutexes, n).waiters { assert WaiterOk(s, n, e); }
    forall k: nat ensures At(r.mutexes, k).holder != By(e.owner) { assert At(s.mutexes, k).holder != By(e.owner); }
    forall k: nat, f | f in At(r.mutexes, k).waiters && f.owner == e.owner ensures n == k {
      assert f in At(s.mutexes, k).waiters || (k == m && f == x);
      RunningWaitsNowhere(s, k);
      RunningWaitsNowhere(s, n);
    }
  }

  lemma BlockCovers(s: System, m: nat)
    requires Inv(s) && Enabled(s, Blocks(m))
    ensures Covers(Block(s, m), m, At(s.mutexes, m).holder.task)
    ensures Remembered(Block(s, m), m, At(s.mutexes, m).holder.task)
  {
    hide Inserted, Ordered, NoTwice, FreeOk, RetriesOk, OneMutexEach;
    var r, x := Block(s, m), EventItem(s, s.running);
    var h, l := At(s.mutexes, m).holder.task, At(s.mutexes, m).waiters;
    RunningWaitsNowhere(s, m);
    BlockMembers(l, x);
    assert Of(s.prio, s.running) == Of(s.base, s.running) && HeldOk(s, m);
    assert At(r.mutexes, m).waiters == Inserted(l, x);
  }

  lemma BlockMembers(l: seq<Item>, x: Item)
    ensures forall e :: e in Inserted(l, x) <==> e in l || e == x
  {
    InsertAtMembers(l, InsertPos(l, x.value), x);
  }

  lemma BlockAccounted(s: System, m: nat)
    requires Inv(s) && Enabled(s, Blocks(m))
    ensures Accounted(Block(s, m), m, At(s.mutexes, m).holder.task)
  {
    hide Inserted, Ordered, NoTwice, FreeOk, RetriesOk, OneMutexEach, WaitersOk;
    var r, x := Block(s, m), EventItem(s, s.running);
    var h, l := At(s.mutexes, m).holder.task, At(s.mutexes, m).waiters;
    BlockMembers(l, x);
    assert Of(s.prio, s.running) == Of(s.base, s.running) && HeldOk(s, m);
    assert At(r.mutexes, m).waiters == Inserted(l, x);
    if Of(s.prio, h) < Of(s.prio, s.running) {
      assert Accounts(r, m, s.running, Of(r.prio, h));
    } else if Of(s.prio, h) != Of(s.base, h) {
      var t: nat :| Accounts(s, m, t, Of(s.prio, h));
      assert Accounts(r, m, t, Of(r.prio, h));
    }
  }

  lemma BlockOthers(s: System, m: nat, n: nat)
    requires Inv(s) && Enabled(s, Blocks(m)) && n != m
    ensures HeldOk(Block(s, m), n) && FreeOk(Block(s, m), n)
  {
    hide Inserted, Ordered, NoTwice;
    FreeUntouched(s, Block(s, m), n);
    RunningWaitsNowhere(s, n);
    HeldUntouched(s, Block(s, m), n);
  }

  lemma BlockKeeps(s: System, m: nat)
    requires Inv(s) && Enabled(s, Blocks(m))
    ensures Inv(Block(s, m))
  {
    BlockRest(s, m);
    hide RunsAhead, OnlyHoldersRaised, OneMutexEach, RetriesOk, WaitersOk, FreeOk, Covers, Remembered, Accounted;
    var r := Block(s, m);
    BlockWaiters(s, m);
    BlockCovers(s, m);
    BlockAccounted(s, m);
    forall n: nat ensures HeldOk(r, n) && FreeOk(r, n) {
      if n == m { HeldIsNotFree(r, m); } else { BlockOthers(s, m, n); }
    }
  }

  lemma HeldIsNotFree(s: System, m: nat)
    requires At(s.mutexes, m).holder.By?
    ensures FreeOk(s, m)
  {
  }

  lemma BlockRest(s: System, m: nat)
    requires Inv(s) && Enabled(s, Blocks(m))
    ensures var r := Block(s, m); RunsAhead(r) && OnlyHoldersRaised(r) && OneMutexEach(r) && RetriesOk(r)
  {
    hide WaitersOk, HeldOk, FreeOk, Inserted;
    var r := Block(s, m);
    assert forall n: nat :: At(r.mutexes, n).holder == At(s.mutexes, n).holder;
  }

  // ----- giving ---------------------------------------------------------------------------------------------

  /**
    The give leaves the giver running, with its inherited priority gone, although
    a more urgent task waits for some other mutex that is free.
   */
  ghost predicate Slips(s: System, m: nat) {
    && |At(s.mutexes, m).waiters| > 0
    && Of(s.base, At(s.mutexes, m).waiters[0].owner) <= Of(s.base, s.running)
    && exists n: nat :: n != m && At(s.mutexes, n).holder.Nobody? && !AheadOf(SetPrio(s, s.running, Of(s.base, s.running)), n)
  }

  lemma GiveLists(s: System, m: nat, n: nat)
    requires WaitersOk(s)
    ensures Ordered(At(Give(s, m).mutexes, n).waiters) && NoTwice(At(Give(s, m).mutexes, n).waiters)
  {
    if n != m { assert At(Give(s, m).mutexes, n) == At(s.mutexes, n); }
  }

  lemma GiveWaiters(s: System, m: nat)
    requires Inv(s) && Enabled(s, Gives(m))
    ensures WaitersOk(Give(s, m))
  {
    hide Give;
    forall n: nat ensures Ordered(At(Give(s, m).mutexes, n).waiters) && NoTwice(At(Give(s, m).mutexes, n).waiters) {
      GiveLists(s, m, n);
    }
    forall n: nat, e | e in At(Give(s, m).mutexes, n).waiters ensures WaiterOk(Give(s, m), n, e) {
      GiveWaiter(s, m, n, e);
    }
  }

  lemma GiveWaiter(s: System, m: nat, n: nat, e: Item)
    requires Inv(s) && Enabled(s, Gives(m)) && e in At(Give(s, m).mutexes, n).waiters
    ensures WaiterOk(Give(s, m), n, e)
  {
    hide Ordered, RetriesOk, OnlyHoldersRaised, HeldOk, FreeOk;
    var r, l := Give(s, m), At(s.mutexes, m).waiters;
    assert e in At(s.mutexes, n).waiters;
    assert WaiterOk(s, n, e);
    if |l| > 0 {
      assert RemoveAt(l, 0) == l[1..];
      NoTwiceRemoved(l, 0);
      assert l[0] in At(s.mutexes, m).waiters;
      assert e.owner != l[0].owner;
    }
    forall k: nat ensures At(r.mutexes, k).holder != By(e.owner) { assert At(s.mutexes, k).holder != By(e.owner); }
    forall k: nat, f | f in At(r.mutexes, k).waiters && f.owner == e.owner ensures n == k {
      assert f in At(s.mutexes, k).waiters;
    }
  }

  lemma GiveOthers(s: System, m: nat, n: nat)
    requires Inv(s) && Enabled(s, Gives(m)) && n != m
    ensures HeldOk(Give(s, m), n) && FreeOk(Give(s, m), n)
  {
    hide Ordered, NoTwice, HeldOk, FreeOk;
    var r, l := Give(s, m), At(s.mutexes, m).waiters;
    if |l| > 0 { assert WaiterOk(s, m, l[0]); }
    FreeUntouched(s, r, n);
    HeldUntouched(s, r, n);
  }

  lemma GiveFree(s: System, m: nat)
    requires Inv(s) && Enabled(s, Gives(m))
    ensures FreeOk(Give(s, m), m)
  {
    var r, l := Give(s, m), At(s.mutexes, m).waiters;
    if |l| > 1 {
      HeadMostUrgent(s, m);
      assert r.retry[l[0].owner] == Retry(m, true);
      assert l[1] in l;
    }
  }

  /** A give keeps the invariant if and only if it does not slip. */
  lemma GiveKeepsUnlessItSlips(s: System, m: nat)
    requires Inv(s) && Enabled(s, Gives(m))
    ensures Inv(Give(s, m)) <==> !Slips(s, m)
  {
    var r := Give(s, m);
    GiveWaiters(s, m);
    GiveFree(s, m);
    forall n: nat ensures HeldOk(r, n) && FreeOk(r, n) {
      if n != m { GiveOthers(s, m, n); }
    }
    GiveRest(s, m);
    GiveRunsAhead(s, m);
  }

  lemma GiveRest(s: System, m: nat)
    requires Inv(s) && Enabled(s, Gives(m))
    ensures var r := Give(s, m); OnlyHoldersRaised(r) && OneMutexEach(r) && RetriesOk(r)
  {
    GiveRaised(s, m);
    GiveRetries(s, m);
    hide RunsAhead, OnlyHoldersRaised, WaitersOk, RetriesOk, HeldOk, FreeOk;
    var r := Give(s, m);
    forall a: nat, b: nat | At(r.mutexes, a).holder.By? && At(r.mutexes, a).holder == At(r.mutexes, b).holder ensures a == b {
      assert At(s.mutexes, a).holder == At(s.mutexes, b).holder;
    }
  }

  lemma GiveRaised(s: System, m: nat)
    requires Inv(s) && Enabled(s, Gives(m))
    ensures OnlyHoldersRaised(Give(s, m))
  {
    hide RunsAhead, WaitersOk, RetriesOk, HeldOk, FreeOk, OneMutexEach;
    var r := Give(s, m);
    forall t: nat | Of(r.base, t) < Of(r.prio, t) ensures !HoldsNone(r.mutexes, t) {
      var n: nat :| At(s.mutexes, n).holder == By(t);
      assert At(r.mutexes, n).holder == By(t);
    }
  }

  lemma GiveRetries(s: System, m: nat)
    requires Inv(s) && Enabled(s, Gives(m))
    ensures RetriesOk(Give(s, m))
  {
    hide RunsAhead, OnlyHoldersRaised, OneMutexEach, HeldOk, FreeOk, Ordered, NoTwice;
    var r, l := Give(s, m), At(s.mutexes, m).waiters;
    if |l| > 0 { assert WaiterOk(s, m, l[0]); }
    forall t: nat | t in r.retry ensures t in r.ready && HoldsNone(r.mutexes, t) {
      assert t in s.retry || (|l| > 0 && t == l[0].owner);
      assert HoldsNone(s.mutexes, t);
      forall n: nat ensures At(r.mutexes, n).holder != By(t) { assert At(s.mutexes, n).holder != By(t); }
    }
  }

  lemma GiveRunsAhead(s: System, m: nat)
    requires Inv(s) && Enabled(s, Gives(m))
    ensures RunsAhead(Give(s, m)) <==> !Slips(s, m)
  {
    if |At(s.mutexes, m).waiters| == 0 { GiveWakesNobody(s, m); } else { GiveWakesFirst(s, m); }
  }

  lemma GiveWakesNobody(s: System, m: nat)
    requires Inv(s) && Enabled(s, Gives(m)) && |At(s.mutexes, m).waiters| == 0
    ensures RunsAhead(Give(s, m)) && !Slips(s, m)
  {
    hide Ordered, NoTwice, HeldOk, FreeOk, OneMutexEach, RetriesOk, WaiterOk;
    var r := Give(s, m);
    forall n: nat | !r.mustSwitch ensures AheadOf(r, n) { assert AheadOf(s, n); }
  }

  lemma GiveWakesFirst(s: System, m: nat)
    requires Inv(s) && Enabled(s, Gives(m)) && |At(s.mutexes, m).waiters| > 0
    ensures RunsAhead(Give(s, m)) <==> !Slips(s, m)
  {
    hide Ordered, NoTwice, HeldOk, FreeOk, OneMutexEach, RetriesOk;
    var r, l := Give(s, m), At(s.mutexes, m).waiters;
    var d := SetPrio(s, s.running, Of(s.base, s.running));
    assert Of(r.prio, s.running) == Of(s.base, s.running);
    forall n: nat | n != m ensures AheadOf(r, n) <==> AheadOf(d, n) {
      assert At(r.mutexes, n) == At(s.mutexes, n);
    }
    HeadMostUrgent(s, m);
    assert WaiterOk(s, m, l[0]);
    assert Of(r.prio, l[0].owner) == Of(s.base, l[0].owner);
    if !r.mustSwitch {
      assert AheadOf(r, m) by { assert forall e :: e in l[1..] ==> e in l; }
    }
  }

  // ----- timing out -------------------------------------------------------------------------------------------

  lemma TimeOutLists(s: System, m: nat, i: nat, orEqual: bool, n: nat)
    requires WaitersOk(s) && i < |At(s.mutexes, m).waiters|
    ensures var r := TimeOut(s, m, i, orEqual);
      && Ordered(At(r.mutexes, n).waiters) && NoTwice(At(r.mutexes, n).waiters)
      && (forall e :: e in At(r.mutexes, n).waiters ==> e in At(s.mutexes, n).waiters)
      && (n == m ==> forall e :: e in At(r.mutexes, m).waiters <==>
            e in At(s.mutexes, m).waiters && e.owner != At(s.mutexes, m).waiters[i].owner)
  {
    var l := At(s.mutexes, m).waiters;
    OrderedRemoved(l, i);
    NoTwiceRemoved(l, i);
    if n != m { assert At(TimeOut(s, m, i, orEqual).mutexes, n) == At(s.mutexes, n); }
  }

  lemma TimeOutWaiters(s: System, m: nat, i: nat, orEqual: bool)
    requires WaitersOk(s) && i < |At(s.mutexes, m).waiters|
    ensures WaitersOk(TimeOut(s, m, i, orEqual))
  {
    hide Ordered, NoTwice;
    var r, w := TimeOut(s, m, i, orEqual), At(s.mutexes, m).waiters[i];
    assert forall k: nat :: At(r.mutexes, k).holder == At(s.mutexes, k).holder;
    forall n: nat ensures Ordered(At(r.mutexes, n).waiters) && NoTwice(At(r.mutexes, n).waiters) { TimeOutLists(s, m, i, orEqual, n); }
    forall n: nat, e | e in At(r.mutexes, n).waiters ensures WaiterOk(r, n, e) {
      TimeOutWaiter(s, m, i, orEqual, n, e);
    }
  }

  lemma TimeOutWaiter(s: System, m: nat, i: nat, orEqual: bool, n: nat, e: Item)
    requires WaitersOk(s) && i < |At(s.mutexes, m).waiters| && e in At(TimeOut(s, m, i, orEqual).mutexes, n).waiters
    ensures WaiterOk(TimeOut(s, m, i, orEqual), n, e)
  {
    hide Ordered, NoTwice;
    var r, w := TimeOut(s, m, i, orEqual), At(s.mutexes, m).waiters[i];
    TimeOutLists(s, m, i, orEqual, n);
    assert w in At(s.mutexes, m).waiters;
    assert WaiterOk(s, n, e);
    assert e.owner != w.owner;
    forall k: nat ensures At(r.mutexes, k).holder != By(e.owner) { assert At(s.mutexes, k).holder != By(e.owner); }
    forall k: nat, f | f in At(r.mutexes, k).waiters && f.owner == e.owner ensures n == k {
      TimeOutLists(s, m, i, orEqual, k);
    }
  }

  lemma TimeOutHeld(s: System, m: nat, i: nat, orEqual: bool)
    requires WaitersOk(s) && i < |At(s.mutexes, m).waiters| && HeldOk(s, m) && OnlyHoldersRaised(s)
    ensures HeldOk(TimeOut(s, m, i, orEqual), m)
  {
    hide Ordered, NoTwice;
    var r, w := TimeOut(s, m, i, orEqual), At(s.mutexes, m).waiters[i];
    TimeOutLists(s, m, i, orEqual, m);
    assert w in At(s.mutexes, m).waiters;
    assert WaiterOk(s, m, w);
    if At(s.mutexes, m).holder.By? {
      var h := At(s.mutexes, m).holder.task;
      if Of(s.prio, h) != Of(s.base, h) {
        var t: nat :| Accounts(s, m, t, Of(s.prio, h));
        assert Of(s.base, h) <= Of(s.prio, h);
        assert Accounts(r, m, t, Of(r.prio, h));
      }
    }
  }

  lemma TimeOutFree(s: System, m: nat, i: nat, orEqual: bool)
    requires WaitersOk(s) && i < |At(s.mutexes, m).waiters| && FreeOk(s, m)
    ensures FreeOk(TimeOut(s, m, i, orEqual), m)
  {
    var r, l := TimeOut(s, m, i, orEqual), At(s.mutexes, m).waiters;
    TimeOutLists(s, m, i, orEqual, m);
    HeadMostUrgent(s, m);
    assert WaiterOk(s, m, l[i]);
    if At(s.mutexes, m).holder.Nobody? && |At(r.mutexes, m).waiters| > 0 {
      var t: nat :| t in s.retry && s.retry[t] == Retry(m, true) && Of(s.base, t) >= Of(s.base, l[0].owner);
      assert r.retry[t] == Retry(m, true);
      assert At(r.mutexes, m).waiters[0] in l;
    }
  }

  lemma TimeOutKeeps(s: System, m: nat, i: nat, orEqual: bool)
    requires Inv(s) && Enabled(s, TimesOut(m, i, orEqual))
    ensures Inv(TimeOut(s, m, i, orEqual))
  {
    hide Ordered, NoTwice, HeldOk, FreeOk;
    var r, w := TimeOut(s, m, i, orEqual), At(s.mutexes, m).waiters[i];
    assert w in At(s.mutexes, m).waiters;
    assert WaiterOk(s, m, w);
    assert forall k: nat :: At(r.mutexes, k).holder == At(s.mutexes, k).holder;
    TimeOutWaiters(s, m, i, orEqual);
    TimeOutHeld(s, m, i, orEqual);
    TimeOutFree(s, m, i, orEqual);
    forall n: nat ensures HeldOk(r, n) && FreeOk(r, n) && (!s.mustSwitch ==> AheadOf(r, n)) {
      TimeOutLists(s, m, i, orEqual, n);
      if n != m { FreeUntouched(s, r, n); HeldUntouched(s, r, n); }
      assert !s.mustSwitch ==> AheadOf(s, n);
    }
  }

  // ----- giving up -----------------------------------------------------------------------------------------------

  lemma DisinheritedHeld(s: System, m: nat, h: nat)
    requires WaitersOk(s) && HeldOk(s, m) && At(s.mutexes, m).holder == By(h)
    ensures HeldOk(DisinheritAfterTimeout(s, h, HighestWaiting(At(s.mutexes, m))), m)
  {
    hide Ordered, NoTwice;
    var l := At(s.mutexes, m).waiters;
    var r := DisinheritAfterTimeout(s, h, HighestWaiting(At(s.mutexes, m)));
    if |l| > 0 {
      HeadMostUrgent(s, m);
      assert WaiterOk(s, m, l[0]);
      assert l[0] == Item(l[0].owner, MAX_PRIORITIES - Of(s.base, l[0].owner));
      if Of(r.prio, h) != Of(r.base, h) { assert Accounts(r, m, l[0].owner, Of(r.prio, h)); }
    }
  }

  lemma GiveUpHeld(s: System)
    requires Inv(s) && Enabled(s, GivesUp)
    ensures HeldOk(GiveUp(s), s.retry[s.running].mutex)
  {
    hide Ordered, NoTwice, FreeOk, AheadOf, OnlyHoldersRaised, OneMutexEach;
    var m := s.retry[s.running].mutex;
    assert HeldOk(s, m);
    RunningWaitsNowhere(s, m);
    if At(s.mutexes, m).holder.By? {
      var h := At(s.mutexes, m).holder.task;
      if s.running in s.inherited {
        DisinheritedHeld(s, m, h);
        DisinheritedAccounts(s, m, h);
      } else {
        NotInheritedAccounts(s, m, h);
      }
    }
  }

  lemma NotInheritedAccounts(s: System, m: nat, h: nat)
    requires HeldOk(s, m) && At(s.mutexes, m).holder == By(h)
    requires s.running in s.retry && s.retry[s.running].mutex == m && s.running !in s.inherited
    ensures Accounted(GiveUp(s), m, h)
  {
    var r := GiveUp(s);
    if Of(s.prio, h) != Of(s.base, h) {
      var t: nat :| Accounts(s, m, t, Of(s.prio, h));
      assert Accounts(r, m, t, Of(r.prio, h));
    }
  }

  /** ... and it is a waiter that accounts for what priority remains. */
  lemma DisinheritedAccounts(s: System, m: nat, h: nat)
    requires Inv(s) && Enabled(s, GivesUp) && m == s.retry[s.running].mutex && At(s.mutexes, m).holder == By(h)
    requires s.running in s.inherited
    ensures Accounted(GiveUp(s), m, h)
  {
    hide Ordered, NoTwice, FreeOk, AheadOf, HeldOk;
    var l, r := At(s.mutexes, m).waiters, GiveUp(s);
    if |l| > 0 {
      assert WaiterOk(s, m, l[0]);
      assert l[0] == Item(l[0].owner, MAX_PRIORITIES - Of(s.base, l[0].owner));
      if Of(r.prio, h) != Of(r.base, h) { assert Accounts(r, m, l[0].owner, Of(r.prio, h)); }
    }
  }

  lemma GiveUpOthers(s: System, n: nat)
    requires Inv(s) && Enabled(s, GivesUp)
    ensures FreeOk(GiveUp(s), n) && (n != s.retry[s.running].mutex ==> HeldOk(GiveUp(s), n)) && AheadOf(GiveUp(s), n)
  {
    hide Ordered, NoTwice, HeldOk, FreeOk;
    var r := GiveUp(s);
    RunningWaitsNowhere(s, n);
    FreeUntouched(s, r, n);
    if n != s.retry[s.running].mutex { HeldUntouched(s, r, n); }
    assert AheadOf(s, n);
  }

  lemma GiveUpKeeps(s: System)
    requires Inv(s) && Enabled(s, GivesUp)
    ensures Inv(GiveUp(s))
  {
    hide Ordered, NoTwice, FreeOk, HeldOk, AheadOf;
    var r := GiveUp(s);
    WaitersUntouched(s, r);
    GiveUpHeld(s);
    forall n: nat ensures HeldOk(r, n) && FreeOk(r, n) && AheadOf(r, n) { GiveUpOthers(s, n); }
  }

  // ----- main results ----------------------------------------------------------------------------------------------

  lemma StepKeepsInv(s: System, e: Event)
    requires Inv(s) && Enabled(s, e)
    requires e.Gives? ==> !Slips(s, e.mutex)
    ensures Inv(Step(s, e))
  {
    hide Inv;
    match e
    case Switches(t) => SwitchKeeps(s, t);
    case Takes(m) => TakeKeeps(s, m);
    case Blocks(m) => BlockKeeps(s, m);
    case Gives(m) => GiveKeepsUnlessItSlips(s, m);
    case TimesOut(m, i, orEqual) => TimeOutKeeps(s, m, i, orEqual);
    case LooksAgain => LookKeeps(s);
    case SawFree => SawFreeKeeps(s);
    case GivesUp => GiveUpKeeps(s);
    case Sleeps => SleepKeeps(s);
    case Wakes(t, orEqual) => WakeKeeps(s, t, orEqual);
  }

  ghost predicate Run(tr: seq<System>, es: seq<Event>) {
    && |tr| == |es| + 1
    && forall i {:trigger es[i]} :: 0 <= i < |es| ==> Enabled(tr[i], es[i]) && tr[i + 1] == Step(tr[i], es[i])
  }

  ghost predicate NoSlip(tr: seq<System>, es: seq<Event>)
    requires |tr| == |es| + 1
  {
    forall i {:trigger es[i]} :: 0 <= i < |es| && es[i].Gives? ==> !Slips(tr[i], es[i].mutex)
  }

  lemma {:induction false} RunKeepsInv(tr: seq<System>, es: seq<Event>, i: nat)
    requires Run(tr, es) && NoSlip(tr, es) && Inv(tr[0]) && i < |tr|
    ensures Inv(tr[i])
    decreases i
  {
    hide Step, Enabled, Inv, Slips;
    if i > 0 {
      RunKeepsInv(tr, es, i - 1);
      StepKeepsInv(tr[i - 1], es[i - 1]);
    }
  }

  /** Tasks at their base priorities, one of the most urgent running, no mutex in use. */
  ghost predicate Start(s: System) {
    && s.prio == s.base && s.retry == map[] && (!s.mustSwitch ==> s.running in s.ready)
    && forall m: nat :: At(s.mutexes, m) == Mutex(Nobody, [])
  }

  /** Some timed-out or woken task that raised the holder of m has not yet undone it. */
  ghost predicate Outstanding(s: System, m: nat) {
    exists t: nat :: t in s.retry && s.retry[t].mutex == m && t in s.inherited
  }

  /**
    Priority inheritance, over every run in which no give slips: a holder is
    never less urgent than a task waiting for its mutex; and once every
    timed-out waiter has run its timeout code the holder's priority is exactly
    the maximum of its base priority and those of the waiters.
   */
  lemma HolderCoversWaiters(tr: seq<System>, es: seq<Event>, i: nat, m: nat)
    requires Run(tr, es) && NoSlip(tr, es) && Start(tr[0]) && i < |tr|
    requires At(tr[i].mutexes, m).holder.By?
    ensures var s := tr[i];
      var h := At(s.mutexes, m).holder.task;
      && Of(s.base, h) <= Of(s.prio, h)
      && (forall e :: e in At(s.mutexes, m).waiters ==> Of(s.prio, e.owner) <= Of(s.prio, h))
      && (!Outstanding(s, m) ==>
            Of(s.prio, h) == Of(s.base, h) || exists e :: e in At(s.mutexes, m).waiters && Of(s.prio, e.owner) == Of(s.prio, h))
  {
    hide Step, Enabled, Slips, FreeOk, AheadOf, Ordered, NoTwice;
    StartInv(tr[0]);
    RunKeepsInv(tr, es, i);
    HeldPriority(tr[i], m);
  }

  lemma HeldPriority(s: System, m: nat)
    requires Inv(s) && At(s.mutexes, m).holder.By?
    ensures var h := At(s.mutexes, m).holder.task;
      && Of(s.base, h) <= Of(s.prio, h)
      && (forall e :: e in At(s.mutexes, m).waiters ==> Of(s.prio, e.owner) <= Of(s.prio, h))
      && (!Outstanding(s, m) ==>
            Of(s.prio, h) == Of(s.base, h) || exists e :: e in At(s.mutexes, m).waiters && Of(s.prio, e.owner) == Of(s.prio, h))
  {
    hide RunsAhead, FreeOk, OneMutexEach, RetriesOk, Ordered, NoTwice;
    var h := At(s.mutexes, m).holder.task;
    assert HeldOk(s, m);
    forall e | e in At(s.mutexes, m).waiters ensures Of(s.prio, e.owner) == Of(s.base, e.owner) {
      assert WaiterOk(s, m, e);
    }
    if !Outstanding(s, m) && Of(s.prio, h) != Of(s.base, h) {
      var t: nat :| Accounts(s, m, t, Of(s.prio, h));
      assert Item(t, MAX_PRIORITIES - Of(s.prio, h)) in At(s.mutexes, m).waiters;
    }
  }

  lemma StartInv(s: System)
    requires Start(s)
    ensures Inv(s)
  {
  }

  /** With a single mutex no give can slip, so there the result needs no condition. */
  lemma OneMutexNeverSlips(s: System, m: nat)
    requires Inv(s) && Enabled(s, Gives(m)) && s.mutexes.Keys == {m}
    ensures !Slips(s, m)
  {
  }

  lemma GiverHoldsNone(s: System, m: nat)
    requires Inv(s) && Enabled(s, Gives(m))
    ensures HoldsNone(Give(s, m).mutexes, s.running)
  {
    hide RunsAhead, OnlyHoldersRaised, WaitersOk, RetriesOk, HeldOk, FreeOk;
    forall k: nat ensures At(Give(s, m).mutexes, k).holder != By(s.running) {
      assert At(s.mutexes, k).holder != By(s.running) || k == m;
    }
  }

  /**
    When a give does slip the giver can next take a mutex for which a more
    urgent task is waiting, and inherits nothing from it.
   */
  lemma SlipBreaksInheritance(s: System, m: nat) returns (n: nat)
    requires Inv(s) && Enabled(s, Gives(m)) && Slips(s, m)
    ensures var g := Give(s, m);
      && Enabled(g, Takes(n))
      && (exists e :: e in At(Take(g, n).mutexes, n).waiters && Of(s.base, e.owner) > Of(Take(g, n).prio, s.running))
      && At(Take(g, n).mutexes, n).holder == By(s.running)
  {
    hide Ordered, NoTwice, HeldOk, FreeOk, OneMutexEach;
    assert !HoldsNone(s.mutexes, s.running);
    var g := Give(s, m);
    var d := SetPrio(s, s.running, Of(s.base, s.running));
    n :| n != m && At(s.mutexes, n).holder.Nobody? && !AheadOf(d, n);
    var e :| e in At(d.mutexes, n).waiters && Of(d.base, e.owner) > Of(d.prio, d.running);
    var w := At(s.mutexes, m).waiters[0];
    assert WaiterOk(s, m, w);
    assert At(g.mutexes, n) == At(s.mutexes, n);
    GiverHoldsNone(s, m);
    assert e in At(Take(g, n).mutexes, n).waiters;
  }

  // ----- when a switch is asked for --------------------------------------------------------------------

  /** A give asks for a switch if the task it wakes is more urgent than the giver now is; waking nobody, if the giver lost priority. */
  lemma GiveAsksIff(s: System, m: nat)
    requires Inv(s) && Enabled(s, Gives(m))
    ensures var r := Give(s, m);
      r.mustSwitch <==>
        if |At(s.mutexes, m).waiters| > 0 then exists t: nat :: t in r.ready && t !in s.ready && Of(r.prio, t) > Of(r.prio, s.running)
        else Of(r.prio, s.running) < Of(s.prio, s.running)
  {
    hide Ordered, NoTwice, HeldOk, FreeOk, OneMutexEach, RetriesOk, RunsAhead;
    var r, l := Give(s, m), At(s.mutexes, m).waiters;
    if |l| > 0 {
      assert WaiterOk(s, m, l[0]);
      assert l[0].owner in r.ready && l[0].owner !in s.ready;
    }
  }

  predicate AsAsked(s: System, e: Event, t: nat)
    requires e.TimesOut? || e.Wakes?
  {
    if e.orEqual then Of(s.prio, t) >= Of(s.prio, s.running) else Of(s.prio, t) > Of(s.prio, s.running)
  }

  /** A task made ready otherwise asks for one if it is more urgent than the running task, or, by a tick or resumed, as urgent. */
  lemma WakeAsksIff(s: System, e: Event)
    requires Inv(s) && Enabled(s, e) && (e.TimesOut? || e.Wakes?)
    ensures var r := Step(s, e);
      r.mustSwitch <==> s.mustSwitch || exists t: nat :: t in r.ready && t !in s.ready && AsAsked(s, e, t)
  {
    hide Ordered, NoTwice, HeldOk, FreeOk, OneMutexEach, RetriesOk, RunsAhead, WaitsNowhere;
    var r := Step(s, e);
    var t := if e.TimesOut? then At(s.mutexes, e.mutex).waiters[e.i].owner else e.task;
    if e.TimesOut? { assert WaiterOk(s, e.mutex, At(s.mutexes, e.mutex).waiters[e.i]); }
    assert t in r.ready && t !in s.ready;
    assert forall x: nat :: x in r.ready && x !in s.ready ==> x == t;
  }
}
