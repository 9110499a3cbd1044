/**
  The state of a task as the kernel's users know it: ready, asleep until a true
  time, suspended or blocked without limit, or deleted; with its priority, and
  whether it waits on an event or is about to be made ready.  No lists, no wrapping
  tick count, no cached times.  Each kernel operation (tasks.c) does to every task
  exactly what this says.
 */
module TaskStates {
  import opened Lists
  import opened TaskModel
  import opened TaskPartition
  import opened DelayedTasks

  datatype Place =
    | Ready
    | Sleeping(until: nat)   // on a delayed list, to be ready at that true time
    | Parked                 // on xSuspendedTaskList: suspended, or blocked without limit
    | Ended                  // deleted itself, not yet cleaned up

  /** What can be said of one task. */
  datatype Task = Task(place: Place, onEvent: bool, pending: bool, priority: Priority)

  /** What can be said of the scheduler. */
  datatype Scene = Scene(now: nat, depth: nat, pended: nat, current: nat)

  function SceneOf(s: State): Scene {
    Scene(Now(s.clock), s.depth, s.pended, s.current)
  }

  ghost predicate Placed(s: State, t: nat, p: Place) {
    match p
    case Ready => IsReady(s, t)
    case Sleeping(a) => Asleep(s.clock, t, a)
    case Parked => t in s.suspended
    case Ended => t in s.terminating
  }

  ghost predicate Shows(s: State, t: nat, v: Task) {
    Placed(s, t, v.place) && v.onEvent == (t in s.waiting) && v.pending == (t in s.pendingReady) && v.priority == Prio(s, t)
  }

  /** The invariants proved of every reachable state. */
  ghost predicate Good(s: State) {
    Partition(s) && DelayInv(s.clock)
  }

  // ----- what each operation is to do ----------------------------------------------------------------

  /** A task whose time has come is ready, and waits for no event any more. */
  function Due(v: Task, now: nat): Task {
    if v.place.Sleeping? && v.place.until <= now then v.(place := Ready, onEvent := false) else v
  }

  function MadeReady(v: Task): Task {
    v.(place := Ready, onEvent := false, pending := false)
  }

  /** Woken: ready at once, or as soon as the scheduler is no longer suspended. */
  function WokenUp(g: Scene, v: Task): Task {
    if g.depth == 0 then MadeReady(v) else v.(onEvent := false, pending := true)
  }

  function IsJustSuspended(v: Task): bool {
    v.place.Parked? && !v.onEvent && !v.pending
  }

  /** What e does to task t, which is as v says. */
  function Next(g: Scene, e: Event, t: nat, v: Task): Task {
    match e
    case TickInterrupt => if g.depth == 0 then Due(v, g.now + 1) else v
    case BlockCurrent(wait, indefinite, onEvent) =>
      if t != g.current then v
      else v.(place := if wait == MAX_DELAY && indefinite then Parked else Sleeping(g.now + wait), onEvent := v.onEvent || onEvent)
    case Woken(x) => if t == x then WokenUp(g, v) else v
    case WokenUnordered(x) => if t == x then MadeReady(v) else v
    case SchedulerSuspended => v
    case SchedulerResumed =>
      if g.depth > 1 then v
      else if v.pending then MadeReady(v)
      else if g.pended > 0 then Due(v, g.now + g.pended) else v
    case ContextSwitch => v
    case Created(x, p) => v
    case Deleted(x) => if t == x then v.(place := Ended, onEvent := false, pending := false) else v
    case IdleCleanup => v
    case TaskSuspended(x) => if t == x then v.(place := Parked, onEvent := false, pending := false) else v
    case TaskResumed(x) => if t == x && t != g.current && IsJustSuspended(v) then MadeReady(v) else v
    case ResumedFromISR(x) => if t == x && IsJustSuspended(v) then WokenUp(g, v) else v
    case Notified(x) => if t == x then MadeReady(v) else v
    case NotifiedFromISR(x) => if t == x then WokenUp(g, v) else v
    case DelayAborted(x) => if t == x then MadeReady(v) else v
    case PriorityChanged(x, p) => if t == x then v.(priority := p) else v
  }

  // ----- a task has one place ----------------------------------------------------------------------------

  lemma OwnerTwice(l: seq<Item>, x: Item, y: Item)
    requires x in l && y in l && x != y && x.owner == y.owner
    ensures multiset(Owners(l))[x.owner] >= 2
  {
    var i :| 0 <= i < |l| && l[i] == x;
    var j :| 0 <= j < |l| && l[j] == y;
    OwnerAtBoth(l, if i < j then i else j, if i < j then j else i);
  }

  lemma OwnerAtBoth(l: seq<Item>, i: nat, j: nat)
    requires i < j < |l| && l[i].owner == l[j].owner
    ensures multiset(Owners(l))[l[i].owner] >= 2
  {
    var o := Owners(l);
    assert o == o[..i] + [o[i]] + o[i + 1..j] + [o[j]] + o[j + 1..];
  }

  lemma OwnerOnce(l: seq<Item>, x: Item)
    requires x in l
    ensures multiset(Owners(l))[x.owner] >= 1
  {
    var i :| 0 <= i < |l| && l[i] == x;
    assert Owners(l)[i] == x.owner;
    assert x.owner in multiset(Owners(l));
  }

  lemma SleepsOnList(c: Clock, t: nat, a: nat)
    requires Asleep(c, t, a)
    ensures multiset(Owners(c.delayed))[t] + multiset(Owners(c.overflow))[t] >= 1
  {
    var r := a - c.overflows * 0x1_0000_0000;
    if r < TICKS { OwnerOnce(c.delayed, Item(t, r)); } else { OwnerOnce(c.overflow, Item(t, r - TICKS)); }
  }

  lemma SleepsOnce(c: Clock, t: nat, a: nat, b: nat)
    requires Asleep(c, t, a) && Asleep(c, t, b) && a != b
    ensures multiset(Owners(c.delayed))[t] + multiset(Owners(c.overflow))[t] >= 2
  {
    var w := c.overflows * 0x1_0000_0000;
    var q, r := a - w, b - w;
    if q < TICKS && r < TICKS {
      OwnerTwice(c.delayed, Item(t, q), Item(t, r));
    } else if q >= TICKS && r >= TICKS {
      OwnerTwice(c.overflow, Item(t, q - TICKS), Item(t, r - TICKS));
    } else if q < TICKS {
      OwnerOnce(c.delayed, Item(t, q));
      OwnerOnce(c.overflow, Item(t, r - TICKS));
    } else {
      OwnerOnce(c.delayed, Item(t, r));
      OwnerOnce(c.overflow, Item(t, q - TICKS));
    }
  }

  lemma PlaceCounts(s: State, t: nat, p: Place)
    requires Placed(s, t, p)
    ensures match p
      case Ready => multiset(s.ready[Prio(s, t)].items)[t] >= 1
      case Sleeping(_) => multiset(Owners(s.clock.delayed))[t] + multiset(Owners(s.clock.overflow))[t] >= 1
      case Parked => multiset(s.suspended)[t] >= 1
      case Ended => multiset(s.terminating)[t] >= 1
  {
    match p
    case Ready => assert t in multiset(s.ready[Prio(s, t)].items);
    case Sleeping(a) => SleepsOnList(s.clock, t, a);
    case Parked => assert t in multiset(s.suspended);
    case Ended => assert t in multiset(s.terminating);
  }

  /** The place of a task is one, and with it everything that is shown of it. */
  lemma OnePlace(s: State, t: nat, p: Place, q: Place)
    requires OnOneList(s) && Indexed(s) && Placed(s, t, p) && Placed(s, t, q)
    ensures p == q
  {
    hide Placed, OnOneList, Indexed, Asleep;
    PlacesOfTask(s, t);
    PlaceCounts(s, t, p);
    PlaceCounts(s, t, q);
    if p != q && p.Sleeping? && q.Sleeping? {
      PlacedAsleep(s, t, p.until);
      PlacedAsleep(s, t, q.until);
      SleepsOnce(s.clock, t, p.until, q.until);
    }
  }

  lemma PlacedAsleep(s: State, t: nat, a: nat)
    ensures Placed(s, t, Sleeping(a)) <==> Asleep(s.clock, t, a)
  {
  }

  lemma ListShowsSleeper(c: Clock, t: nat, v: Tick)
    ensures Item(t, v) in c.delayed ==> Asleep(c, t, c.overflows * 0x1_0000_0000 + v)
    ensures Item(t, v) in c.overflow ==> Asleep(c, t, c.overflows * 0x1_0000_0000 + TICKS + v)
  {
  }

  /** And there is one. */
  lemma SomePlace(s: State, t: nat) returns (p: Place)
    requires OnOneList(s) && Indexed(s) && t in s.prio
    ensures Placed(s, t, p)
  {
    hide OnOneList, Indexed, Asleep;
    PlacesOfTask(s, t);
    if IsReady(s, t) {
      p := Ready;
    } else if t in s.suspended {
      p := Parked;
    } else if t in s.terminating {
      p := Ended;
    } else if t in Owners(s.clock.delayed) {
      var i :| 0 <= i < |s.clock.delayed| && Owners(s.clock.delayed)[i] == t;
      ListShowsSleeper(s.clock, t, s.clock.delayed[i].value);
      assert Item(t, s.clock.delayed[i].value) in s.clock.delayed;
      p := Sleeping(s.clock.overflows * 0x1_0000_0000 + s.clock.delayed[i].value);
    } else {
      assert t in multiset(Owners(s.clock.overflow));
      var i :| 0 <= i < |s.clock.overflow| && Owners(s.clock.overflow)[i] == t;
      ListShowsSleeper(s.clock, t, s.clock.overflow[i].value);
      assert Item(t, s.clock.overflow[i].value) in s.clock.overflow;
      p := Sleeping(s.clock.overflows * 0x1_0000_0000 + TICKS + s.clock.overflow[i].value);
    }
  }

  // ----- the list primitives --------------------------------------------------------------------------------

  lemma SamePlace(s: State, r: State, t: nat, p: Place)
    requires Placed(s, t, p) && r.ready == s.ready && Prio(r, t) == Prio(s, t)
    requires r.clock == s.clock.(nextUnblock := r.clock.nextUnblock)
    requires (t in s.suspended ==> t in r.suspended) && (t in s.terminating ==> t in r.terminating)
    ensures Placed(r, t, p)
  {
  }

  lemma OtherRemoved(s: State, x: nat, t: nat, p: Place)
    requires Placed(s, t, p) && x != t
    ensures Placed(RemoveState(s, x), t, p)
  {
    hide RemoveReady, Without, WithoutOwner, Asleep, IsReady;
    match p
    case Ready => ReadyAfterRemove(s, x, t);
    case Sleeping(a) => RemovingAnother(s.clock, x, t, a);
    case Parked => WithoutMembers(s.suspended, x);
    case Ended => WithoutMembers(s.terminating, x);
  }

  lemma OtherAdded(s: State, x: nat, t: nat, p: Place)
    requires Placed(s, t, p)
    ensures Placed(AddToReady(s, x), t, p)
  {
    hide InsertEnd;
    ReadyAfterAdd(s, x, t);
  }

  lemma SelfAdded(s: State, t: nat)
    ensures Placed(AddToReady(s, t), t, Ready)
  {
    hide IsReady, AddToReady;
    ReadyAfterAdd(s, t, t);
  }

  /** x made ready: its place is Ready, everybody else's stays. */
  lemma Moved(s: State, x: nat, t: nat, p: Place)
    requires x != t ==> Placed(s, t, p)
    ensures Placed(AddToReady(RemoveState(s, x), x), t, if t == x then Ready else p)
  {
    hide Placed, RemoveState, AddToReady;
    if t == x {
      SelfAdded(RemoveState(s, x), x);
    } else {
      OtherRemoved(s, x, t, p);
      OtherAdded(RemoveState(s, x), x, t, p);
    }
  }

  lemma MovingTouchesNoEvents(s: State, x: nat)
    ensures var r := AddToReady(RemoveState(s, x), x);
      && r.waiting == s.waiting && r.pendingReady == s.pendingReady && r.prio == s.prio && r.current == s.current
      && r.depth == s.depth && r.pended == s.pended && Now(r.clock) == Now(s.clock) && r.yieldPending == s.yieldPending
      && r.tickless == s.tickless
  {
    hide RemoveReady, InsertEnd, Without, WithoutOwner;
  }

  // ----- the tick ------------------------------------------------------------------------------------------------

  ghost predicate DueOwner(c: Clock, t: nat) {
    exists e :: e in c.delayed && e.owner == t && e.value <= c.tick
  }

  /** What the unblocking loop does besides moving tasks between the delayed and the ready lists. */
  lemma {:induction false} UnblockEvents(s: State, t: nat)
    requires Ordered(s.clock.delayed)
    ensures var u := Unblock(s);
      && (t in u.waiting <==> t in s.waiting && !DueOwner(s.clock, t))
      && u.suspended == s.suspended && u.terminating == s.terminating && u.current == s.current
      && u.yieldPending == s.yieldPending && (s.pendingReady == [] ==> u.pendingReady == [])
    decreases |s.clock.delayed|
  {
    hide InsertEnd;
    var d := s.clock.delayed;
    HeadIsMember(d);
    if |d| > 0 && d[0].value <= s.clock.tick {
      var h := UnblockHead(s);
      UnblockEvents(h, t);
      assert DueOwner(s.clock, t) <==> t == d[0].owner || DueOwner(h.clock, t);
    }
  }

  lemma DueOwnerIsDue(s: State, t: nat, p: Place)
    requires Consistent(s) && DelayInv(s.clock) && Placed(s, t, p)
    ensures DueOwner(Advance(s.clock), t) <==> p.Sleeping? && p.until <= Now(s.clock) + 1
  {
    hide Consistent, DelayInv, Placed;
    var c := Advance(s.clock);
    if DueOwner(c, t) {
      var e :| e in c.delayed && e.owner == t && e.value <= c.tick;
      var a := c.overflows * 0x1_0000_0000 + e.value;
      assert e == Item(t, e.value);
      ListShowsSleeper(c, t, e.value);
      AdvanceKeepsAlarms(s.clock, t, a);
      PlacedAsleep(s, t, a);
      ConsistentParts(s);
      OnePlace(s, t, p, Sleeping(a));
    }
    if p.Sleeping? && p.until <= Now(s.clock) + 1 {
      PlacedAsleep(s, t, p.until);
      AdvanceKeepsAlarms(s.clock, t, p.until);
      DueIsOnList(c, t, p.until);
    }
  }

  lemma ConsistentParts(s: State)
    requires Consistent(s)
    ensures OnOneList(s) && Indexed(s)
  {
  }

  lemma DueIsOnList(c: Clock, t: nat, a: nat)
    requires Asleep(c, t, a) && a <= Now(c)
    ensures DueOwner(c, t)
  {
    assert Item(t, a - c.overflows * 0x1_0000_0000) in c.delayed;
  }

  /** One tick. */
  lemma TickShows(s: State, t: nat, v: Task)
    requires Consistent(s) && DelayInv(s.clock) && s.pendingReady == [] && Shows(s, t, v)
    ensures Shows(DoTick(s), t, Due(v, Now(s.clock) + 1))
    ensures Now(DoTick(s).clock) == Now(s.clock) + 1 && DelayInv(DoTick(s).clock) && DoTick(s).current == s.current
    ensures DoTick(s).prio == s.prio && DoTick(s).pendingReady == [] && DoTick(s).yieldPending == s.yieldPending
  {
    hide Consistent, DelayInv, Asleep, Unblock, AddToReady;
    var a, w := s.(clock := Advance(s.clock)), if v.place.Sleeping? then v.place.until else 0;
    TickIsExact(s, t, w);
    AdvanceKeepsAlarms(s.clock, t, w);
    DueOwnerIsDue(s, t, v.place);
    if a.clock.tick >= a.clock.nextUnblock {
      UnblockEvents(a, t);
    } else {
      NobodyDueYet(a.clock, t);
    }
  }

  lemma NobodyDueYet(c: Clock, t: nat)
    requires AllAtLeast(c.delayed, c.nextUnblock) && c.tick < c.nextUnblock
    ensures !DueOwner(c, t)
  {
  }

  lemma DueAgain(v: Task, now: nat, later: nat)
    requires now <= later
    ensures Due(Due(v, now), later) == Due(v, later)
  {
  }

  /** n ticks in a row. */
  lemma {:induction false} CatchUpShows(s: State, n: nat, t: nat, v: Task)
    requires Consistent(s) && DelayInv(s.clock) && s.pendingReady == [] && Shows(s, t, v)
    ensures Shows(CatchUp(s, n), t, if n > 0 then Due(v, Now(s.clock) + n) else v)
    ensures Now(CatchUp(s, n).clock) == Now(s.clock) + n
    decreases n
  {
    hide Consistent, DelayInv, Shows, DoTick, TickWantsSwitch, Due;
    if n > 0 {
      var u, now := CatchUpTick(s), Now(s.clock);
      TickShows(s, t, v);
      TickKeeps(s);
      SameLists(DoTick(s), u);
      StillShows(DoTick(s), u, t, Due(v, now + 1));
      CatchUpShows(u, n - 1, t, Due(v, now + 1));
      DueAgain(v, now + 1, now + n);
    }
  }

  /** What is shown of a task does not depend on counters and cached values. */
  lemma StillShows(s: State, r: State, t: nat, v: Task)
    requires Shows(s, t, v) && r.ready == s.ready && r.prio == s.prio && r.clock == s.clock.(nextUnblock := r.clock.nextUnblock)
    requires r.suspended == s.suspended && r.terminating == s.terminating
    requires r.waiting == s.waiting && r.pendingReady == s.pendingReady
    ensures Shows(r, t, v)
  {
    SamePlace(s, r, t, v.place);
  }

  // ----- the scheduler resumed -----------------------------------------------------------------------------------

  lemma {:induction false} DrainPlaces(s: State, t: nat, p: Place)
    requires Placed(s, t, p)
    ensures var d := Drain(s);
      && Placed(d, t, if t in s.pendingReady then Ready else p)
      && d.pendingReady == [] && d.waiting == s.waiting && d.prio == s.prio && d.current == s.current
      && d.depth == s.depth && d.pended == s.pended && Now(d.clock) == Now(s.clock)
    decreases |s.pendingReady|
  {
    hide Placed, RemoveState, AddToReady;
    if |s.pendingReady| > 0 {
      var x, u := s.pendingReady[0], s.(pendingReady := s.pendingReady[1..]);
      assert s.pendingReady == [x] + u.pendingReady;
      MovingTouchesNoEvents(u, x);
      SamePlace(s, u, t, p);
      Moved(u, x, t, p);
      SamePlace(AddToReady(RemoveState(u, x), x), DrainHead(s), t, if t == x then Ready else p);
      DrainPlaces(DrainHead(s), t, if t == x then Ready else p);
    }
  }

  lemma PendingWaitsForNothing(s: State, t: nat)
    requires Blocked(s) && t in s.pendingReady
    ensures t !in s.waiting
  {
    assert t in multiset(s.pendingReady);
  }

  lemma DrainedShows(s: State, t: nat, v: Task)
    requires Consistent(s) && DelayInv(s.clock) && Shows(s, t, v)
    ensures var d := DrainPending(s);
      && Shows(d, t, if v.pending then MadeReady(v) else v) && Consistent(d) && DelayInv(d.clock) && d.pendingReady == []
      && d.pended == s.pended && Now(d.clock) == Now(s.clock)
  {
    hide Consistent, DelayInv, Placed, DrainHead, Bag;
    var d := Drain(s);
    if v.pending {
      ConsistentBlocks(s);
      PendingWaitsForNothing(s, t);
    }
    DrainKeeps(s);
    DrainPlaces(s, t, v.place);
    DrainPendingKeepsInv(s);
    SameLists(d, ResetNextUnblock(d));
    SamePlace(d, DrainPending(s), t, if v.pending then Ready else v.place);
  }

  lemma ConsistentBlocks(s: State)
    requires Consistent(s)
    ensures Blocked(s)
  {
  }

  lemma ResumeShows(s: State, t: nat, v: Task)
    requires Good(s) && s.depth > 0 && Shows(s, t, v)
    ensures Shows(ResumeAll(s), t, Next(SceneOf(s), SchedulerResumed, t, v))
  {
    hide Shows, Consistent, DelayInv, DrainPending, CatchUp, Due, Bag, OnOneList, Indexed, Blocked;
    var r, now := s.(depth := s.depth - 1), Now(s.clock) + s.pended;
    StillShows(s, r, t, v);
    if s.depth == 1 {
      assert |s.prio| > 0 by { assert s.current in s.prio; }
      PartitionIsConsistent(s);
      SameLists(s, r);
      DrainedShows(r, t, v);
      var d, u := DrainPending(r), if v.pending then MadeReady(v) else v;
      CatchUpShows(d, s.pended, t, u);
      StillShows(CatchUp(d, s.pended), ResumeAll(s), t, if s.pended > 0 then Due(u, now) else u);
      ReadyStays(u, now);
      PendingShown(s, t, v);
    }
  }

  lemma PendingShown(s: State, t: nat, v: Task)
    requires Shows(s, t, v)
    ensures v.pending <==> t in s.pendingReady
  {
  }

  lemma ReadyStays(v: Task, now: nat)
    ensures v.place.Ready? ==> Due(v, now) == v
  {
  }

  lemma PartitionIsConsistent(s: State)
    requires Partition(s)
    ensures Consistent(s)
  {
  }

  // ----- the operations that are about one task --------------------------------------------------------------------

  lemma Detached(s: State, x: nat, t: nat, p: Place)
    requires Consistent(s) && (x != t ==> Placed(s, t, p))
    ensures var r := RemoveEvent(RemoveState(s, x), x);
      && (x != t ==> Placed(r, t, p)) && x !in r.waiting && x !in r.pendingReady
      && (x != t ==> (t in r.waiting <==> t in s.waiting) && (t in r.pendingReady <==> t in s.pendingReady))
      && r.prio == s.prio && r.current == s.current && r.clock == RemoveState(s, x).clock
  {
    hide RemoveReady, Without, WithoutOwner, Asleep, IsReady, Placed;
    var u := RemoveState(s, x);
    EventGone(s, x);
    WithoutMembers(s.pendingReady, x);
    if x != t {
      OtherRemoved(s, x, t, p);
      SamePlace(u, RemoveEvent(u, x), t, p);
    }
  }

  lemma BlockShows(s: State, wait: Tick, indefinite: bool, onEvent: bool, t: nat, v: Task)
    requires Good(s) && Enabled(s, BlockCurrent(wait, indefinite, onEvent)) && Shows(s, t, v)
    ensures Shows(Block(s, wait, indefinite, onEvent), t, Next(SceneOf(s), BlockCurrent(wait, indefinite, onEvent), t, v))
  {
    hide Partition, DelayInv, Asleep, SetAlarm, RemoveReady, IsReady, Placed;
    if t == s.current {
      SelfBlocked(s, wait, indefinite, onEvent);
    } else {
      OtherBlocked(s, wait, indefinite, onEvent, t, v.place);
    }
  }

  lemma SelfBlocked(s: State, wait: Tick, indefinite: bool, onEvent: bool)
    requires DelayInv(s.clock)
    ensures Placed(Block(s, wait, indefinite, onEvent), s.current, if wait == MAX_DELAY && indefinite then Parked else Sleeping(Now(s.clock) + wait))
  {
    hide DelayInv, Asleep, SetAlarm, RemoveReady;
    SetAlarmIsExact(s.clock, s.current, wait);
  }

  lemma OtherBlocked(s: State, wait: Tick, indefinite: bool, onEvent: bool, t: nat, p: Place)
    requires DelayInv(s.clock) && t != s.current && Placed(s, t, p)
    ensures Placed(Block(s, wait, indefinite, onEvent), t, p)
  {
    hide DelayInv, Asleep, SetAlarm, RemoveReady;
    match p
    case Ready =>
      ReadyAfterRemove(s, s.current, t);
      assert LeaveReady(s, onEvent).ready == RemoveState(s, s.current).ready;
    case Sleeping(a) => SetAlarmOfAnother(s.clock, s.current, wait, t, a);
    case Parked =>
    case Ended =>
  }

  /** x made ready at once: u is s with x off its event list and the cached time renewed, perhaps. */
  lemma MadeReadyShows(s: State, u: State, r: State, x: nat, t: nat, v: Task)
    requires Shows(s, t, v) && (t == x ==> t !in s.pendingReady)
    requires u == s.(waiting := u.waiting, clock := s.clock.(nextUnblock := u.clock.nextUnblock))
    requires var m := AddToReady(RemoveState(u, x), x);
      r.ready == m.ready && r.clock == m.clock.(nextUnblock := r.clock.nextUnblock) && r.prio == m.prio
      && r.suspended == m.suspended && r.terminating == m.terminating && r.pendingReady == m.pendingReady
      && r.waiting == s.waiting - {x}
    ensures Shows(r, t, if t == x then MadeReady(v) else v)
  {
    hide Placed, RemoveState, AddToReady;
    SamePlace(s, u, t, v.place);
    MovingTouchesNoEvents(u, x);
    Moved(u, x, t, v.place);
    SamePlace(AddToReady(RemoveState(u, x), x), r, t, if t == x then Ready else v.place);
  }

  lemma PendedShows(s: State, r: State, x: nat, t: nat, v: Task)
    requires Shows(s, t, v) && r.ready == s.ready && r.clock == s.clock && r.prio == s.prio
    requires r.suspended == s.suspended && r.terminating == s.terminating
    requires r.waiting == s.waiting - {x} && r.pendingReady == s.pendingReady + [x]
    ensures Shows(r, t, if t == x then v.(onEvent := false, pending := true) else v)
  {
    hide Placed;
    SamePlace(s, r, t, v.place);
  }

  lemma EventParts(s: State, x: nat)
    requires Consistent(s) && x in s.waiting
    ensures x !in s.pendingReady
  {
    if x in s.pendingReady { PendingWaitsForNothing(s, x); }
  }

  lemma EventWakeShows(s: State, x: nat, t: nat, v: Task)
    requires Good(s) && x in s.waiting && Shows(s, t, v)
    ensures Shows(EventWake(s, x), t, if t == x then WokenUp(SceneOf(s), v) else v)
  {
    hide Shows, RemoveState, AddToReady, DelayInv, OnOneList, Indexed, Blocked;
    EventParts(s, x);
    if s.depth == 0 {
      var u := s.(waiting := s.waiting - {x});
      MovingTouchesNoEvents(u, x);
      MadeReadyShows(s, u, EventWake(s, x), x, t, v);
    } else {
      PendedShows(s, EventWake(s, x), x, t, v);
    }
  }

  lemma UnorderedWakeShows(s: State, x: nat, t: nat, v: Task)
    requires Good(s) && x in s.waiting && Shows(s, t, v)
    ensures Shows(UnorderedWake(s, x), t, if t == x then MadeReady(v) else v)
  {
    hide Shows, RemoveState, AddToReady, DelayInv, OnOneList, Indexed, Blocked;
    EventParts(s, x);
    var e := s.(waiting := s.waiting - {x});
    var u := if s.tickless then ResetNextUnblock(e) else e;
    MovingTouchesNoEvents(u, x);
    MadeReadyShows(s, u, UnorderedWake(s, x), x, t, v);
  }

  lemma NotifyShows(s: State, x: nat, t: nat, v: Task)
    requires x !in s.waiting && x !in s.pendingReady && Shows(s, t, v)
    ensures Shows(Notify(s, x), t, if t == x then MadeReady(v) else v)
    ensures Shows(NotifyFromISR(s, x), t, if t == x then WokenUp(SceneOf(s), v) else v)
  {
    hide Shows, RemoveState, AddToReady;
    MovingTouchesNoEvents(s, x);
    MadeReadyShows(s, s, Notify(s, x), x, t, v);
    if s.depth == 0 { MadeReadyShows(s, s, NotifyFromISR(s, x), x, t, v); } else { PendedShows(s, NotifyFromISR(s, x), x, t, v); }
  }

  lemma JustSuspended(s: State, t: nat, v: Task)
    requires Consistent(s) && Shows(s, t, v)
    ensures IsSuspended(s, t) <==> IsJustSuspended(v)
  {
    hide Consistent;
    ConsistentParts(s);
    if t in s.suspended { OnePlace(s, t, v.place, Parked); }
  }

  lemma ResumedShows(s: State, x: nat, t: nat, v: Task)
    requires Good(s) && Shows(s, t, v)
    ensures Shows(Resume(s, x), t, if t == x && t != s.current && IsJustSuspended(v) then MadeReady(v) else v)
    ensures Shows(ResumeFromISR(s, x), t, if t == x && IsJustSuspended(v) then WokenUp(SceneOf(s), v) else v)
  {
    hide Shows, RemoveState, AddToReady, DelayInv, OnOneList, Indexed, Blocked;
    if t == x { JustSuspended(s, t, v); }
    if IsSuspended(s, x) {
      MovingTouchesNoEvents(s, x);
      if x != s.current { MadeReadyShows(s, s, Resume(s, x), x, t, v); }
      if s.depth == 0 { MadeReadyShows(s, s, ResumeFromISR(s, x), x, t, v); } else { PendedShows(s, ResumeFromISR(s, x), x, t, v); }
    }
  }

  lemma AbortShows(s: State, x: nat, t: nat, v: Task)
    requires Good(s) && Shows(s, t, v)
    ensures Shows(AbortDelay(s, x), t, if t == x then MadeReady(v) else v)
  {
    hide Placed, RemoveState, RemoveEvent, AddToReady, DelayInv, Consistent, OnOneList, Indexed, Blocked;
    PartitionIsConsistent(s);
    Detached(s, x, t, v.place);
    var r := RemoveEvent(RemoveState(s, x), x);
    AddedTouchesNoEvents(r, x);
    if t == x { SelfAdded(r, x); } else { OtherAdded(r, x, t, v.place); }
    SamePlace(AddToReady(r, x), AbortDelay(s, x), t, if t == x then Ready else v.place);
  }

  lemma AddedTouchesNoEvents(s: State, x: nat)
    ensures var r := AddToReady(s, x); r.waiting == s.waiting && r.pendingReady == s.pendingReady && r.prio == s.prio
  {
    hide InsertEnd;
  }

  lemma SuspendShows(s: State, x: nat, t: nat, v: Task)
    requires Good(s) && Shows(s, t, v)
    ensures Shows(Suspend(s, x), t, if t == x then v.(place := Parked, onEvent := false, pending := false) else v)
  {
    hide Placed, RemoveState, RemoveEvent, DelayInv, Consistent, OnOneList, Indexed, Blocked;
    PartitionIsConsistent(s);
    Detached(s, x, t, v.place);
    var r := RemoveEvent(RemoveState(s, x), x);
    if t == x { assert Placed(Suspend(s, x), t, Parked) by { ParkedLast(r, x); } } else { SamePlace(r, Suspend(s, x), t, v.place); }
  }

  lemma ParkedLast(r: State, x: nat)
    ensures Placed(ResetNextUnblock(r.(suspended := r.suspended + [x])), x, Parked)
  {
  }

  lemma DeleteShows(s: State, x: nat, t: nat, v: Task)
    requires Good(s) && Shows(s, t, v) && t in Delete(s, x).prio && x in s.prio
    ensures Shows(Delete(s, x), t, if t == x then v.(place := Ended, onEvent := false, pending := false) else v)
  {
    hide Placed, RemoveState, RemoveEvent, DelayInv, Consistent, OnOneList, Indexed, Blocked;
    PartitionIsConsistent(s);
    Detached(s, x, t, v.place);
    var r := RemoveEvent(RemoveState(s, x), x);
    if t == x { EndedLast(r, x); } else { SamePlace(r, Delete(s, x), t, v.place); }
  }

  lemma EndedLast(r: State, x: nat)
    ensures Placed(r.(terminating := r.terminating + [x]), x, Ended)
  {
  }

  lemma CreateShows(s: State, x: nat, p: Priority, t: nat, v: Task)
    requires Shows(s, t, v) && x != t
    ensures Shows(Create(s, x, p), t, v)
  {
    hide Placed, AddToReady;
    var u := s.(prio := s.prio[x := p]);
    SamePlace(s, u, t, v.place);
    AddedTouchesNoEvents(u, x);
    OtherAdded(u, x, t, v.place);
  }

  lemma CleanupShows(s: State, t: nat, v: Task)
    requires Shows(s, t, v) && |s.terminating| > 0 && s.terminating[0] != t
    ensures Shows(Cleanup(s), t, v)
  {
    assert s.terminating == [s.terminating[0]] + s.terminating[1..];
    SamePlace(s, Cleanup(s), t, v.place);
  }

  lemma PriorityShows(s: State, x: nat, p: Priority, t: nat, v: Task)
    requires Shows(s, t, v)
    ensures Shows(ChangePriority(s, x, p), t, if t == x then v.(priority := p) else v)
  {
    hide InsertEnd, RemoveReady, IsReady;
    if v.place.Ready? { ReprioritisedStaysReady(s, x, p, t); }
  }

  lemma SwitchShows(s: State, t: nat, v: Task)
    requires Enabled(s, ContextSwitch) && Shows(s, t, v)
    ensures Shows(SwitchContext(s), t, v)
  {
    hide TopNonEmpty;
    if s.depth == 0 { TopNonEmptyFinds(s.ready, s.topReady); }
  }

  lemma TickEventShows(s: State, t: nat, v: Task)
    requires Good(s) && Shows(s, t, v)
    ensures Shows(IncrementTick(s), t, Next(SceneOf(s), TickInterrupt, t, v))
  {
    hide Shows, Due, DoTick, DelayInv, OnOneList, Indexed, Blocked;
    PartitionIsConsistent(s);
    if s.depth == 0 { TickShows(s, t, v); } else { StillShows(s, IncrementTick(s), t, v); }
  }

  // ----- main results ------------------------------------------------------------------------------------------------

  /** Each operation does to each task what Next says, and nothing else. */
  lemma StepRefines(s: State, e: Event, t: nat, v: Task)
    requires Good(s) && Enabled(s, e) && Shows(s, t, v) && t in s.prio && t in Step(s, e).prio
    ensures Shows(Step(s, e), t, Next(SceneOf(s), e, t, v))
  {
    hide Shows, IncrementTick, TaskModel.Block, EventWake, UnorderedWake, ResumeAll, SwitchContext, Create, Delete, Suspend, Resume;
    hide ResumeFromISR, Notify, NotifyFromISR, AbortDelay, ChangePriority, Partition, DelayInv, IsReady, MadeReady, WokenUp;
    match e
    case TickInterrupt => TickEventShows(s, t, v);
    case BlockCurrent(wait, indefinite, onEvent) => BlockShows(s, wait, indefinite, onEvent, t, v);
    case Woken(x) => EventWakeShows(s, x, t, v);
    case WokenUnordered(x) => UnorderedWakeShows(s, x, t, v);
    case SchedulerSuspended => StillShows(s, Step(s, e), t, v);
    case SchedulerResumed => ResumeShows(s, t, v);
    case ContextSwitch => SwitchShows(s, t, v);
    case Created(x, p) => CreateShows(s, x, p, t, v);
    case Deleted(x) => DeleteShows(s, x, t, v);
    case IdleCleanup => CleanupShows(s, t, v);
    case TaskSuspended(x) => SuspendShows(s, x, t, v);
    case TaskResumed(x) => ResumedShows(s, x, t, v);
    case ResumedFromISR(x) => ResumedShows(s, x, t, v);
    case Notified(x) => NotifyShows(s, x, t, v);
    case NotifiedFromISR(x) => NotifyShows(s, x, t, v);
    case DelayAborted(x) => AbortShows(s, x, t, v);
    case PriorityChanged(x, p) => PriorityShows(s, x, p, t, v);
  }

  // ----- time, suspension, and which tasks there are ---------------------------------------------------------------

  function NextScene(g: Scene, e: Event): Scene {
    match e
    case TickInterrupt => if g.depth == 0 then g.(now := g.now + 1) else g.(pended := g.pended + 1)
    case SchedulerSuspended => g.(depth := g.depth + 1)
    case SchedulerResumed =>
      if g.depth == 1 then g.(depth := 0, now := g.now + g.pended, pended := 0)
      else if g.depth > 1 then g.(depth := g.depth - 1) else g
    case _ => g
  }

  /** The list primitives change neither time nor the tasks there are. */
  lemma PrimitivesAreQuiet(s: State, x: nat)
    ensures SceneOf(RemoveState(s, x)) == SceneOf(s) && RemoveState(s, x).prio == s.prio
    ensures SceneOf(AddToReady(s, x)) == SceneOf(s) && AddToReady(s, x).prio == s.prio
    ensures SceneOf(RemoveEvent(s, x)) == SceneOf(s) && RemoveEvent(s, x).prio == s.prio
    ensures RemoveState(s, x).pendingReady == s.pendingReady && AddToReady(s, x).pendingReady == s.pendingReady
  {
    hide InsertEnd, RemoveReady, Without, WithoutOwner;
  }

  lemma MovedIsQuiet(s: State, x: nat)
    ensures var r := AddToReady(RemoveState(s, x), x); SceneOf(r) == SceneOf(s) && r.prio == s.prio
    ensures var r := RemoveEvent(RemoveState(s, x), x); SceneOf(r) == SceneOf(s) && r.prio == s.prio
    ensures var r := AddToReady(RemoveEvent(RemoveState(s, x), x), x); SceneOf(r) == SceneOf(s) && r.prio == s.prio
  {
    hide AddToReady, RemoveState, RemoveEvent;
    PrimitivesAreQuiet(s, x);
    PrimitivesAreQuiet(RemoveState(s, x), x);
    PrimitivesAreQuiet(RemoveEvent(RemoveState(s, x), x), x);
  }

  lemma WakingScene(s: State, x: nat)
    ensures SceneOf(EventWake(s, x)) == SceneOf(s) && EventWake(s, x).prio == s.prio
    ensures SceneOf(UnorderedWake(s, x)) == SceneOf(s) && UnorderedWake(s, x).prio == s.prio
    ensures SceneOf(Notify(s, x)) == SceneOf(s) && Notify(s, x).prio == s.prio
    ensures SceneOf(NotifyFromISR(s, x)) == SceneOf(s) && NotifyFromISR(s, x).prio == s.prio
  {
    hide AddToReady, RemoveState;
    var e := s.(waiting := s.waiting - {x});
    MovedIsQuiet(s, x);
    MovedIsQuiet(e, x);
    MovedIsQuiet(ResetNextUnblock(e), x);
  }

  lemma MovingScene(s: State, x: nat)
    ensures SceneOf(AbortDelay(s, x)) == SceneOf(s) && AbortDelay(s, x).prio == s.prio
    ensures SceneOf(Suspend(s, x)) == SceneOf(s) && Suspend(s, x).prio == s.prio
    ensures SceneOf(Resume(s, x)) == SceneOf(s) && Resume(s, x).prio == s.prio
    ensures SceneOf(ResumeFromISR(s, x)) == SceneOf(s) && ResumeFromISR(s, x).prio == s.prio
    ensures SceneOf(Delete(s, x)) == SceneOf(s) && Delete(s, x).prio == if x == s.current then s.prio else s.prio - {x}
  {
    hide AddToReady, RemoveState, RemoveEvent;
    MovedIsQuiet(s, x);
  }

  lemma BlockScene(s: State, wait: Tick, indefinite: bool, onEvent: bool)
    ensures var r := Block(s, wait, indefinite, onEvent); SceneOf(r) == SceneOf(s) && r.prio == s.prio
  {
    hide RemoveReady, Inserted, WakeTime;
  }

  lemma PriorityScene(s: State, x: nat, p: Priority)
    ensures SceneOf(Create(s, x, p)) == SceneOf(s) && Create(s, x, p).prio == s.prio[x := p]
    ensures SceneOf(ChangePriority(s, x, p)) == SceneOf(s) && ChangePriority(s, x, p).prio == s.prio[x := p]
  {
    hide InsertEnd, RemoveReady, IsReady;
  }

  lemma QuietScene(s: State, e: Event)
    requires Enabled(s, e) && !e.TickInterrupt? && !e.SchedulerResumed? && !e.ContextSwitch?
    ensures SceneOf(Step(s, e)) == NextScene(SceneOf(s), e)
    ensures !e.Created? && !e.Deleted? && !e.IdleCleanup? && !e.PriorityChanged? ==> Step(s, e).prio == s.prio
    ensures e.Deleted? ==> Step(s, e).prio == if e.task == s.current then s.prio else s.prio - {e.task}
    ensures e.IdleCleanup? ==> Step(s, e).prio == s.prio - {s.terminating[0]}
    ensures e.Created? || e.PriorityChanged? ==> Step(s, e).prio == s.prio[e.task := e.priority]
  {
    hide TaskModel.Block, Create, ChangePriority, EventWake, UnorderedWake, Notify, NotifyFromISR;
    hide AbortDelay, Suspend, Resume, ResumeFromISR, Delete, IsReady;
    match e
    case BlockCurrent(wait, indefinite, onEvent) => BlockScene(s, wait, indefinite, onEvent);
    case Created(x, p) => PriorityScene(s, x, p);
    case PriorityChanged(x, p) => PriorityScene(s, x, p);
    case Woken(x) => WakingScene(s, x);
    case WokenUnordered(x) => WakingScene(s, x);
    case Notified(x) => WakingScene(s, x);
    case NotifiedFromISR(x) => WakingScene(s, x);
    case DelayAborted(x) => MovingScene(s, x);
    case TaskSuspended(x) => MovingScene(s, x);
    case TaskResumed(x) => MovingScene(s, x);
    case ResumedFromISR(x) => MovingScene(s, x);
    case Deleted(x) => MovingScene(s, x);
    case _ =>
  }

  lemma {:induction false} CatchUpScene(s: State, n: nat)
    requires Consistent(s) && DelayInv(s.clock) && s.pendingReady == []
    ensures var u := CatchUp(s, n);
      u.depth == s.depth && u.prio == s.prio && u.current == s.current && Now(u.clock) == Now(s.clock) + n
  {
    hide Consistent, DelayInv;
    CatchUpIsExact(s, n, 0, 0);
    CatchUpKeeps(s, n);
  }

  lemma TimedScene(s: State, e: Event)
    requires Good(s) && Enabled(s, e) && (e.TickInterrupt? || e.SchedulerResumed?)
    ensures SceneOf(Step(s, e)) == NextScene(SceneOf(s), e) && Step(s, e).prio == s.prio
  {
    hide DelayInv, OnOneList, Indexed, Blocked, DoTick, Drain, CatchUp;
    PartitionIsConsistent(s);
    if e.TickInterrupt? {
      TickIsExact(s, 0, 0);
      TickKeeps(s);
    } else if s.depth == 1 {
      assert |s.prio| > 0 by { assert s.current in s.prio; }
      var r := s.(depth := 0);
      SameLists(s, r);
      DrainPendingParts(r);
      CatchUpScene(DrainPending(r), s.pended);
    }
  }

  lemma DrainPendingParts(s: State)
    requires Consistent(s) && DelayInv(s.clock)
    ensures var d := DrainPending(s);
      && Consistent(d) && DelayInv(d.clock) && d.pendingReady == [] && d.prio == s.prio && d.current == s.current
      && d.depth == s.depth && d.pended == s.pended && Now(d.clock) == Now(s.clock)
  {
    hide Consistent, DelayInv, DrainHead;
    DrainKeeps(s);
    DrainPendingKeepsInv(s);
    SameLists(Drain(s), ResetNextUnblock(Drain(s)));
  }

  /** Time, nesting and pended ticks; only a context switch changes the running task (TaskPartition.SwitchPicksTop). */
  lemma StepScene(s: State, e: Event)
    requires Good(s) && Enabled(s, e)
    ensures var r := SceneOf(Step(s, e));
      r == NextScene(SceneOf(s), e).(current := r.current) && (!(e.ContextSwitch? && s.depth == 0) ==> r.current == s.current)
  {
    if e.TickInterrupt? || e.SchedulerResumed? {
      hide Step, Enabled, Good;
      TimedScene(s, e);
    } else if !e.ContextSwitch? {
      hide Step, Enabled, Good;
      QuietScene(s, e);
    }
  }

  /** The tasks there are, with their priorities. */
  lemma StepTasks(s: State, e: Event)
    requires Good(s) && Enabled(s, e)
    ensures Step(s, e).prio == match e
      case Created(x, p) => s.prio[x := p]
      case PriorityChanged(x, p) => s.prio[x := p]
      case Deleted(x) => if x == s.current then s.prio else s.prio - {x}
      case IdleCleanup => s.prio - {s.terminating[0]}
      case _ => s.prio
  {
    if e.TickInterrupt? || e.SchedulerResumed? {
      hide Step, Enabled, Good;
      TimedScene(s, e);
    } else if e.ContextSwitch? {
      SwitchTasks(s);
    } else {
      hide Step, Good, IsReady;
      QuietScene(s, e);
    }
  }

  lemma SwitchTasks(s: State)
    requires Enabled(s, ContextSwitch)
    ensures SwitchContext(s).prio == s.prio
  {
  }

  /** A new task is ready and waits for nothing. */
  lemma NewTaskShows(s: State, t: nat, p: Priority)
    requires Good(s) && t !in s.prio
    ensures Shows(Create(s, t, p), t, Task(Ready, false, false, p))
  {
    hide Placed, AddToReady, OnOneList, Indexed, DelayInv;
    var u := s.(prio := s.prio[t := p]);
    AddedTouchesNoEvents(u, t);
    SelfAdded(u, t);
  }

  lemma StepKeepsGood(s: State, e: Event)
    requires Good(s) && Enabled(s, e)
    ensures Good(Step(s, e))
  {
    hide Partition, DelayInv, Step, Enabled;
    StepKeepsPartition(s, e);
    StepKeepsInv(s, e);
  }

  lemma {:induction false} RunKeepsGood(tr: seq<State>, es: seq<Event>, i: nat)
    requires Run(tr, es) && Good(tr[0]) && i < |tr|
    ensures Good(tr[i])
  {
    hide Step, Enabled, Good;
    if i > 0 {
      RunKeepsGood(tr, es, i - 1);
      StepKeepsGood(tr[i - 1], es[i - 1]);
    }
  }

  lemma InitialGood(t: nat, p: Priority, tickless: bool)
    ensures Good(Initial(t, p, tickless))
  {
    hide Partition, Initial;
    InitialPartition(t, p, tickless);
    InitialInv(t, p, tickless);
  }

  // ----- over runs -----------------------------------------------------------------------------------------------------

  /** t exists throughout the run. */
  ghost predicate Lives(tr: seq<State>, t: nat) {
    forall i {:trigger tr[i]} :: 0 <= i < |tr| ==> t in tr[i].prio
  }

  /** What is to be shown of a task after i steps. */
  ghost function Life(tr: seq<State>, es: seq<Event>, t: nat, v: Task, i: nat): Task
    requires |tr| == |es| + 1 && i < |tr|
  {
    if i == 0 then v else Next(SceneOf(tr[i - 1]), es[i - 1], t, Life(tr, es, t, v, i - 1))
  }

  /** In every run a task goes from state to state as Next says. */
  lemma {:induction false} RunRefines(tr: seq<State>, es: seq<Event>, t: nat, v: Task, i: nat)
    requires Run(tr, es) && Good(tr[0]) && Shows(tr[0], t, v) && Lives(tr, t) && i < |tr|
    ensures Shows(tr[i], t, Life(tr, es, t, v, i))
  {
    hide Step, Enabled, Good, Shows, Next;
    if i > 0 {
      RunRefines(tr, es, t, v, i - 1);
      RunKeepsGood(tr, es, i - 1);
      StepRefines(tr[i - 1], es[i - 1], t, Life(tr, es, t, v, i - 1));
    }
  }

  // ----- a task once woken runs -------------------------------------------------------------------------------------------

  /** e wakes, notifies, resumes or creates t. */
  ghost predicate Wakes(s: State, e: Event, t: nat) {
    match e
    case Woken(x) => x == t
    case WokenUnordered(x) => x == t
    case Notified(x) => x == t
    case NotifiedFromISR(x) => x == t
    case DelayAborted(x) => x == t
    case Created(x, _) => x == t
    case TaskResumed(x) => x == t && t != s.current && IsSuspended(s, t)
    case ResumedFromISR(x) => x == t && IsSuspended(s, t)
    case _ => false
  }

  /** Ready, or to be made ready when the scheduler is resumed. */
  ghost predicate Coming(s: State, t: nat) {
    t in s.prio && (IsReady(s, t) || t in s.pendingReady)
  }

  lemma ComingShows(s: State, t: nat, v: Task)
    requires Good(s) && Shows(s, t, v) && t in s.prio
    ensures Coming(s, t) <==> v.place.Ready? || v.pending
  {
    hide DelayInv, Asleep, OnOneList, Indexed, Blocked;
    if IsReady(s, t) { OnePlace(s, t, v.place, Ready); }
  }

  lemma ShownBy(s: State, t: nat) returns (v: Task)
    requires Good(s) && t in s.prio
    ensures Shows(s, t, v)
  {
    hide DelayInv, OnOneList, Indexed, Blocked, Placed;
    var p := SomePlace(s, t);
    v := Task(p, t in s.waiting, t in s.pendingReady, Prio(s, t));
  }

  lemma TargetLives(s: State, e: Event, t: nat)
    requires Good(s) && Enabled(s, e) && Wakes(s, e, t)
    ensures e.Created? || t in s.prio
    ensures t in Step(s, e).prio
  {
    hide Step, DelayInv, OnOneList, Indexed, IsReady;
    StepTasks(s, e);
  }

  lemma WakeComes(s: State, e: Event, t: nat)
    requires Good(s) && Enabled(s, e) && Wakes(s, e, t)
    ensures Coming(Step(s, e), t)
  {
    hide Good, Step, Enabled, Shows, Coming;
    TargetLives(s, e, t);
    StepKeepsGood(s, e);
    if e.Created? {
      CreatedComes(s, e, t);
    } else {
      var v := ShownBy(s, t);
      StepRefines(s, e, t, v);
      if e.TaskResumed? || e.ResumedFromISR? { SuspendedShows(s, t, v); }
      ComingShows(Step(s, e), t, Next(SceneOf(s), e, t, v));
    }
  }

  lemma SuspendedShows(s: State, t: nat, v: Task)
    requires Good(s) && Shows(s, t, v)
    ensures IsSuspended(s, t) <==> IsJustSuspended(v)
  {
    hide Shows, OnOneList, Indexed, Blocked, DelayInv;
    PartitionIsConsistent(s);
    JustSuspended(s, t, v);
  }

  lemma CreatedComes(s: State, e: Event, t: nat)
    requires Good(s) && Enabled(s, e) && e.Created? && e.task == t && t in Step(s, e).prio
    ensures Coming(Step(s, e), t)
  {
    hide Good, Create;
    NewTaskShows(s, t, e.priority);
  }

  lemma UntouchedLives(s: State, e: Event, t: nat)
    requires Good(s) && Enabled(s, e) && t in s.prio && !Touches(s, e, t)
    ensures t in Step(s, e).prio
  {
    hide Step, Good;
    StepTasks(s, e);
  }

  lemma ComingStays(s: State, e: Event, t: nat)
    requires Good(s) && Enabled(s, e) && !Touches(s, e, t) && Coming(s, t)
    ensures Coming(Step(s, e), t)
  {
    hide Good, Step, Enabled, Shows, Coming;
    ComingLives(s, t);
    UntouchedLives(s, e, t);
    StepKeepsGood(s, e);
    var v := ShownBy(s, t);
    ComingShows(s, t, v);
    StepRefines(s, e, t, v);
    ComingShows(Step(s, e), t, Next(SceneOf(s), e, t, v));
  }

  lemma ComingLives(s: State, t: nat)
    requires Coming(s, t)
    ensures t in s.prio
  {
  }

  lemma ComingHasCome(s: State, t: nat)
    requires Good(s) && Coming(s, t) && s.depth == 0
    ensures IsReady(s, t)
  {
  }

  /** Over the steps from k to j nothing is about t. */
  ghost predicate LeftAlone(tr: seq<State>, es: seq<Event>, t: nat, k: nat, j: nat)
    requires |tr| == |es| + 1
  {
    forall i {:trigger es[i]} :: k <= i < j && i < |es| ==> !Touches(tr[i], es[i], t)
  }

  lemma {:induction false} StaysComing(tr: seq<State>, es: seq<Event>, t: nat, k: nat, j: nat)
    requires Run(tr, es) && Good(tr[0]) && k <= j < |tr| && Coming(tr[k], t) && LeftAlone(tr, es, t, k, j)
    ensures Coming(tr[j], t)
    decreases j
  {
    hide Step, Enabled, Good, Coming, Touches;
    if k < j {
      StaysComing(tr, es, t, k, j - 1);
      RunKeepsGood(tr, es, j - 1);
      ComingStays(tr[j - 1], es[j - 1], t);
    }
  }

  /**
    No wake is lost.  In every run, whatever wakes a task, in a task or an interrupt,
    the scheduler suspended to any depth or not: until another step is about that task,
    it is ready whenever the scheduler is not suspended.
   */
  lemma WokenIsReady(tr: seq<State>, es: seq<Event>, t: nat, k: nat, j: nat)
    requires Run(tr, es) && Good(tr[0]) && k < j < |tr|
    requires Wakes(tr[k], es[k], t) && LeftAlone(tr, es, t, k + 1, j)
    requires tr[j].depth == 0
    ensures IsReady(tr[j], t)
  {
    hide Step, Enabled, Good, Coming, Touches, Wakes, IsReady;
    RunKeepsGood(tr, es, k);
    WakeComes(tr[k], es[k], t);
    StaysComing(tr, es, t, k + 1, j);
    RunKeepsGood(tr, es, j);
    ComingHasCome(tr[j], t);
  }

  // ----- a task that waits without limit ------------------------------------------------------------------------------------

  ghost predicate HeldBack(s: State, t: nat) {
    t in s.prio && t in s.suspended && t !in s.pendingReady
  }

  lemma HeldBackShows(s: State, t: nat, v: Task)
    requires Good(s) && Shows(s, t, v) && t in s.prio
    ensures HeldBack(s, t) <==> v.place.Parked? && !v.pending
  {
    hide DelayInv, Asleep, OnOneList, Indexed, Blocked;
    if t in s.suspended { OnePlace(s, t, v.place, Parked); }
  }

  lemma HeldBackMeans(s: State, t: nat)
    requires Good(s) && HeldBack(s, t)
    ensures !IsReady(s, t) && forall a: nat :: !Asleep(s.clock, t, a)
  {
    hide DelayInv, Asleep, OnOneList, Indexed, Blocked;
    if IsReady(s, t) { OnePlace(s, t, Parked, Ready); }
    forall a: nat | Asleep(s.clock, t, a) ensures false { OnePlace(s, t, Parked, Sleeping(a)); }
  }

  /** e blocks t without limit, or suspends it. */
  ghost predicate Parks(s: State, e: Event, t: nat) {
    (e.BlockCurrent? && s.current == t && e.wait == MAX_DELAY && e.indefinite) || e == TaskSuspended(t)
  }

  lemma ParkHolds(s: State, e: Event, t: nat)
    requires Good(s) && Enabled(s, e) && Parks(s, e, t)
    ensures HeldBack(Step(s, e), t)
  {
    ParkerLives(s, e, t);
    hide Good, Step, Enabled, Shows, HeldBack;
    StepKeepsGood(s, e);
    var v := ShownBy(s, t);
    if e.BlockCurrent? { BlockerNotPending(s, e, t, v); }
    StepRefines(s, e, t, v);
    HeldBackShows(Step(s, e), t, Next(SceneOf(s), e, t, v));
  }

  lemma ParkerLives(s: State, e: Event, t: nat)
    requires Good(s) && Enabled(s, e) && Parks(s, e, t)
    ensures t in s.prio && t in Step(s, e).prio
  {
    hide Step, DelayInv, OnOneList, Indexed, Blocked, IsReady;
    StepTasks(s, e);
  }

  lemma BlockerNotPending(s: State, e: Event, t: nat, v: Task)
    requires Good(s) && Enabled(s, e) && e.BlockCurrent? && s.current == t && Shows(s, t, v)
    ensures !v.pending
  {
    hide DelayInv, Placed;
    NotPending(s, e);
  }

  lemma NextHeldBack(s: State, e: Event, t: nat, v: Task)
    requires !Touches(s, e, t) && v.place.Parked? && !v.pending
    ensures var n := Next(SceneOf(s), e, t, v); n.place.Parked? && !n.pending
  {
  }

  lemma HeldBackStays(s: State, e: Event, t: nat)
    requires Good(s) && Enabled(s, e) && !Touches(s, e, t) && HeldBack(s, t)
    ensures HeldBack(Step(s, e), t)
  {
    HeldBackLives(s, t);
    hide Good, Step, Enabled, Shows, HeldBack;
    UntouchedLives(s, e, t);
    StepKeepsGood(s, e);
    var v := ShownBy(s, t);
    HeldBackShows(s, t, v);
    NextHeldBack(s, e, t, v);
    hide Next;
    StepRefines(s, e, t, v);
    HeldBackShows(Step(s, e), t, Next(SceneOf(s), e, t, v));
  }

  lemma HeldBackLives(s: State, t: nat)
    requires HeldBack(s, t)
    ensures t in s.prio
  {
  }

  /**
    No limit means no limit.  In every run a task that has blocked without limit, or has
    been suspended, is neither ready nor on a delayed list, however many ticks pass,
    until a step is about it.
   */
  lemma {:induction false} ParkedStaysParked(tr: seq<State>, es: seq<Event>, t: nat, k: nat, j: nat)
    requires Run(tr, es) && Good(tr[0]) && k < j < |tr|
    requires Parks(tr[k], es[k], t) && LeftAlone(tr, es, t, k + 1, j)
    ensures t in tr[j].suspended && !IsReady(tr[j], t) && forall a: nat :: !Asleep(tr[j].clock, t, a)
  {
    hide Step, Enabled, Good, Touches, Parks, IsReady, Asleep;
    RunKeepsGood(tr, es, j);
    StaysHeldBack(tr, es, t, k, j);
    HeldBackMeans(tr[j], t);
  }

  lemma {:induction false} StaysHeldBack(tr: seq<State>, es: seq<Event>, t: nat, k: nat, j: nat)
    requires Run(tr, es) && Good(tr[0]) && k < j < |tr| && Parks(tr[k], es[k], t) && LeftAlone(tr, es, t, k + 1, j)
    ensures HeldBack(tr[j], t)
    decreases j
  {
    hide Step, Enabled, Good, HeldBack, Touches, Parks;
    RunKeepsGood(tr, es, j - 1);
    if j == k + 1 {
      ParkHolds(tr[k], es[k], t);
    } else {
      StaysHeldBack(tr, es, t, k, j - 1);
      HeldBackStays(tr[j - 1], es[j - 1], t);
    }
  }
}
