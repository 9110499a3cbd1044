/**
  The mutex paths of xQueueSemaphoreTake and xQueueGenericSend (queue.c),
  statement by statement over the scheduler's own lists, proved to compute the
  functions of InheritanceModel.dfy.  The priority inheritance code itself
  (tasks.c), which moves tasks between ready lists, is in Scheduler.dfy.
 */
module Inheritance {
  import opened Lists
  import opened TaskModel
  import opened TaskPartition
  import opened Scheduler
  import M = InheritanceModel

  // ----- the scheduler's lists seen as a set of ready tasks --------------------------------------

  ghost function ReadyTasks(s: State): set<nat> {
    set t | t in s.prio && IsReady(s, t)
  }

  /** A task moved between ready lists is ready as before, and so is every other. */
  lemma PriorityChangeKeepsReady(s: State, t: nat, p: Priority)
    requires Partition(s) && t in s.prio
    ensures Partition(ChangePriority(s, t, p)) && ReadyTasks(ChangePriority(s, t, p)) == ReadyTasks(s)
  {
    hide Partition, ChangePriority, IsReady;
    StepKeepsPartition(s, PriorityChanged(t, p));
    Changed(s, t, p);
    forall x: nat ensures IsReady(ChangePriority(s, t, p), x) <==> IsReady(s, x) {
      StaysReady(s, t, p, x);
    }
  }

  lemma Changed(s: State, t: nat, p: Priority)
    ensures ChangePriority(s, t, p).prio == s.prio[t := p]
    ensures ChangePriority(s, t, p).current == s.current && ChangePriority(s, t, p).waiting == s.waiting
  {
  }

  lemma StaysReady(s: State, t: nat, p: Priority, x: nat)
    requires Partition(s)
    ensures IsReady(ChangePriority(s, t, p), x) <==> IsReady(s, x)
  {
    hide RemoveReady, InsertEnd, Bag, Blocked;
    if IsReady(s, t) {
      var r := Unready(s, t).(prio := s.prio[t := p]);
      ReadyAfterAdd(r, t, x);
      if x != t {
        ReadyAfterRemove(s, t, x);
        assert r.ready == RemoveState(s, t).ready;
      }
    } else {
      assert ByPriority(s.ready, s.prio);
      assert t !in s.ready[p].items;
    }
  }

  lemma BlockLeavesReady(s: State, wait: Tick)
    requires Partition(s) && IsReady(s, s.current) && (wait > 0 || s.clock.tick < MAX_DELAY)
    ensures Partition(Block(s, wait, true, true))
    ensures ReadyTasks(Block(s, wait, true, true)) == ReadyTasks(s) - {s.current}
  {
    assert s.current !in s.waiting;
    hide Partition, IsReady, TaskModel.Block;
    PartitionHasCurrent(s);
    StepKeepsPartition(s, BlockCurrent(wait, true, true));
    var r := Block(s, wait, true, true);
    forall x: nat ensures IsReady(r, x) <==> IsReady(s, x) && x != s.current {
      LeavesReady(s, wait, x);
    }
    BlockKeepsTasks(s, wait);
  }

  lemma PartitionHasCurrent(s: State)
    requires Partition(s)
    ensures s.current in s.prio
  {
  }

  lemma BlockKeepsTasks(s: State, wait: Tick)
    ensures Block(s, wait, true, true).prio == s.prio && Block(s, wait, true, true).current == s.current
    ensures Block(s, wait, true, true).waiting == s.waiting + {s.current}
  {
  }

  lemma LeavesReady(s: State, wait: Tick, x: nat)
    requires Partition(s) && IsReady(s, s.current)
    ensures IsReady(Block(s, wait, true, true), x) <==> IsReady(s, x) && x != s.current
  {
    hide RemoveReady, SetAlarm, Bag, Blocked;
    ReadyOnce(s, s.current);
    if x != s.current { ReadyAfterRemove(s, s.current, x); }
    assert Block(s, wait, true, true).ready == RemoveState(s, s.current).ready;
  }

  lemma WakeJoinsReady(s: State, t: nat)
    requires Partition(s) && s.depth == 0 && t in s.waiting
    ensures Partition(EventWake(s, t)) && ReadyTasks(EventWake(s, t)) == ReadyTasks(s) + {t}
    ensures EventWake(s, t).prio == s.prio && EventWake(s, t).current == s.current
    ensures EventWake(s, t).waiting == s.waiting - {t} && t in s.prio
  {
    hide Partition, EventWake, ReadyTasks;
    WaiterExists(s, t);
    WakeKeepsPartition(s, t);
    WakeKeepsTasks(s, t);
    ReadyTasksAfterWake(s, t);
  }

  lemma ReadyTasksAfterWake(s: State, t: nat)
    requires s.depth == 0 && t in s.prio && EventWake(s, t).prio == s.prio
    ensures ReadyTasks(EventWake(s, t)) == ReadyTasks(s) + {t}
  {
    hide IsReady, EventWake;
    forall x: nat ensures IsReady(EventWake(s, t), x) <==> IsReady(s, x) || x == t {
      JoinsReady(s, t, x);
    }
  }

  lemma WakeKeepsPartition(s: State, t: nat)
    requires Partition(s) && t in s.waiting
    ensures Partition(EventWake(s, t))
  {
    hide Partition, EventWake;
    StepKeepsPartition(s, Woken(t));
  }

  lemma WaiterExists(s: State, t: nat)
    requires Partition(s) && t in s.waiting
    ensures t in s.prio
  {
    hide OnOneList, Indexed;
  }

  lemma WakeKeepsTasks(s: State, t: nat)
    ensures EventWake(s, t).prio == s.prio && EventWake(s, t).current == s.current
    ensures EventWake(s, t).waiting == s.waiting - {t}
  {
    hide RemoveReady, InsertEnd, Without, WithoutOwner;
  }

  lemma JoinsReady(s: State, t: nat, x: nat)
    requires s.depth == 0
    ensures IsReady(EventWake(s, t), x) <==> IsReady(s, x) || x == t
  {
    hide RemoveReady, InsertEnd, Without, WithoutOwner;
    var e := s.(waiting := s.waiting - {t});
    ReadyAfterAdd(RemoveState(e, t), t, x);
    if x != t { ReadyAfterRemove(e, t, x); }
  }

  // ----- task control blocks and mutexes agree --------------------------------------------------------

  ghost predicate HoldersExist(ms: map<nat, M.Mutex>, prio: map<nat, Priority>) {
    forall m: nat :: M.At(ms, m).holder.By? ==> M.At(ms, m).holder.task in prio
  }

  /** uxMutexesHeld is one for a holder and zero for every other task. */
  ghost predicate Counted(ms: map<nat, M.Mutex>, held: map<nat, nat>) {
    forall t: nat :: (if t in held then held[t] else 0) == if M.HoldsNone(ms, t) then 0 else 1
  }

  /** A task on a mutex's event list counts as waiting. */
  ghost predicate WaitersWait(ms: map<nat, M.Mutex>, waiting: set<nat>) {
    forall m: nat, e: Item :: e in M.At(ms, m).waiters ==> e.owner in waiting
  }

  /** An event item value that is not in use is the task's priority, reversed. */
  ghost predicate ValuesMatch(values: map<nat, Tick>, prio: map<nat, Priority>) {
    forall t: nat :: t in prio ==> t in values && (values[t] < IN_USE ==> values[t] == MAX_PRIORITIES - prio[t])
  }

  lemma Updated(ms: map<nat, M.Mutex>, m: nat, x: M.Mutex, n: nat)
    ensures M.At(ms[m := x], n) == if n == m then x else M.At(ms, n)
  {
  }

  lemma SameHolders(ms: map<nat, M.Mutex>, m: nat, ws: seq<Item>, prio: map<nat, Priority>, held: map<nat, nat>)
    requires HoldersExist(ms, prio) && Counted(ms, held)
    ensures HoldersExist(ms[m := M.At(ms, m).(waiters := ws)], prio) && Counted(ms[m := M.At(ms, m).(waiters := ws)], held)
  {
    var ns := ms[m := M.At(ms, m).(waiters := ws)];
    forall n: nat ensures M.At(ns, n).holder == M.At(ms, n).holder { Updated(ms, m, M.At(ms, m).(waiters := ws), n); }
    forall t: nat ensures M.HoldsNone(ns, t) <==> M.HoldsNone(ms, t) {}
  }

  lemma Taken(ms: map<nat, M.Mutex>, m: nat, t: nat, prio: map<nat, Priority>, held: map<nat, nat>)
    requires HoldersExist(ms, prio) && Counted(ms, held) && t in prio
    requires M.At(ms, m).holder.Nobody? && M.HoldsNone(ms, t)
    ensures var ns := ms[m := M.At(ms, m).(holder := M.By(t))];
      HoldersExist(ns, prio) && Counted(ns, held[t := (if t in held then held[t] else 0) + 1])
  {
    var ns := ms[m := M.At(ms, m).(holder := M.By(t))];
    forall n: nat ensures M.At(ns, n).holder == if n == m then M.By(t) else M.At(ms, n).holder {
      Updated(ms, m, M.At(ms, m).(holder := M.By(t)), n);
    }
    forall u: nat ensures M.HoldsNone(ns, u) <==> u != t && M.HoldsNone(ms, u) {
      assert M.At(ns, m).holder == M.By(t);
    }
  }

  lemma Given(s: M.System, m: nat, ws: seq<Item>, held: map<nat, nat>)
    requires HoldersExist(s.mutexes, s.prio) && Counted(s.mutexes, held) && M.OneMutexEach(s)
    requires M.At(s.mutexes, m).holder.By?
    ensures var t := M.At(s.mutexes, m).holder.task;
      var ns := s.mutexes[m := M.Mutex(M.Nobody, ws)];
      && (t in held && held[t] == 1)
      && HoldersExist(ns, s.prio) && Counted(ns, held[t := held[t] - 1])
  {
    var t := M.At(s.mutexes, m).holder.task;
    var ns := s.mutexes[m := M.Mutex(M.Nobody, ws)];
    assert !M.HoldsNone(s.mutexes, t);
    forall n: nat ensures M.At(ns, n).holder == if n == m then M.Nobody else M.At(s.mutexes, n).holder {
      Updated(s.mutexes, m, M.Mutex(M.Nobody, ws), n);
    }
    forall u: nat ensures M.HoldsNone(ns, u) <==> u == t || M.HoldsNone(s.mutexes, u) {
      assert u != t ==> M.At(s.mutexes, m).holder != M.By(u);
    }
  }

  lemma ValuesFollow(values: map<nat, Tick>, prio: map<nat, Priority>, t: nat, p: Priority)
    requires ValuesMatch(values, prio)
    ensures ValuesMatch(Revalued(values, t, p), prio[t := p]) && ValuesMatch(values[t := MAX_PRIORITIES - p], prio[t := p])
  {
  }

  lemma Joined(ms: map<nat, M.Mutex>, m: nat, x: Item, waiting: set<nat>)
    requires WaitersWait(ms, waiting)
    ensures WaitersWait(ms[m := M.At(ms, m).(waiters := Inserted(M.At(ms, m).waiters, x))], waiting + {x.owner})
  {
    var ws := M.At(ms, m).waiters;
    InsertAtMembers(ws, InsertPos(ws, x.value), x);
    var y := M.At(ms, m).(waiters := Inserted(ws, x));
    var ns := ms[m := y];
    forall n: nat, e | e in M.At(ns, n).waiters ensures e.owner in waiting + {x.owner} {
      Updated(ms, m, y, n);
    }
  }

  lemma Left(s: M.System, m: nat, waiting: set<nat>)
    requires WaitersWait(s.mutexes, waiting) && M.WaitersOk(s) && |M.At(s.mutexes, m).waiters| > 0
    ensures var ws := M.At(s.mutexes, m).waiters;
      WaitersWait(s.mutexes[m := M.Mutex(M.Nobody, ws[1..])], waiting - {ws[0].owner}) && ws[0].owner in waiting
  {
    var ws := M.At(s.mutexes, m).waiters;
    var ns := s.mutexes[m := M.Mutex(M.Nobody, ws[1..])];
    assert ws == [ws[0]] + ws[1..];
    forall n: nat, e: Item | e in M.At(ns, n).waiters ensures e.owner in waiting && e.owner != ws[0].owner {
      Updated(s.mutexes, m, M.Mutex(M.Nobody, ws[1..]), n);
      assert e in M.At(s.mutexes, n).waiters;
      assert M.WaiterOk(s, m, ws[0]);
    }
  }

  lemma NothingHeld(t: nat)
    ensures M.HoldsNone(map[], t)
  {
  }

  lemma SameWaiters(ms: map<nat, M.Mutex>, m: nat, holder: Holder, waiting: set<nat>)
    requires WaitersWait(ms, waiting)
    ensures WaitersWait(ms[m := M.At(ms, m).(holder := holder)], waiting)
  {
    var ns := ms[m := M.At(ms, m).(holder := holder)];
    forall n: nat, e | e in M.At(ns, n).waiters ensures e.owner in waiting {
      Updated(ms, m, M.At(ms, m).(holder := holder), n);
      assert e in M.At(ms, n).waiters;
    }
  }

  ghost predicate TiedOf(k: State, held: map<nat, nat>, values: map<nat, Tick>, ms: map<nat, M.Mutex>) {
    && Partition(k) && HoldersExist(ms, k.prio) && Counted(ms, held)
    && WaitersWait(ms, k.waiting) && ValuesMatch(values, k.prio)
  }

  lemma TiedAfter(k: State, held: map<nat, nat>, values: map<nat, Tick>, ms: map<nat, M.Mutex>, t: nat, p: Priority)
    requires TiedOf(k, held, values, ms) && t in k.prio
    ensures TiedOf(ChangePriority(k, t, p), held, Revalued(values, t, p), ms)
    ensures TiedOf(ChangePriority(k, t, p), held, values[t := MAX_PRIORITIES - p], ms)
  {
    hide ChangePriority, Partition, Counted, WaitersWait, ValuesMatch;
    PriorityChangeKeepsReady(k, t, p);
    Changed(k, t, p);
    ValuesFollow(values, k.prio, t, p);
  }

  // ----- tasks.c and the model, on values ----------------------------------------------------------------

  /** What queue.c adds to the scheduler's state. */
  datatype Locals = Locals(
    base: map<nat, Priority>, mustSwitch: bool, mutexes: map<nat, M.Mutex>, inherited: set<nat>, retry: map<nat, M.Retry>)

  ghost function SystemOf(k: State, l: Locals): M.System {
    M.System(l.base, k.prio, ReadyTasks(k), k.current, l.mustSwitch, l.mutexes, l.inherited, l.retry)
  }

  /** ChangePriority is the model's SetPrio. */
  lemma ChangeIsSetPrio(k: State, l: Locals, t: nat, p: Priority)
    requires Partition(k) && t in k.prio
    ensures SystemOf(ChangePriority(k, t, p), l) == M.SetPrio(SystemOf(k, l), t, p)
    ensures Partition(ChangePriority(k, t, p)) && ChangePriority(k, t, p).waiting == k.waiting
    ensures ChangePriority(k, t, p).prio == k.prio[t := p] && ChangePriority(k, t, p).current == k.current
    ensures ReadyTasks(ChangePriority(k, t, p)) == ReadyTasks(k)
  {
    hide ChangePriority, ReadyTasks, Partition;
    PriorityChangeKeepsReady(k, t, p);
    Changed(k, t, p);
  }

  /** What xTaskPriorityInherit does to the lists is the model's Inherit. */
  function Inherited(k: State, h: nat): State {
    if Prio(k, h) < Prio(k, k.current) then ChangePriority(k, h, Prio(k, k.current)) else k
  }

  lemma InheritSeen(k: State, l: Locals, h: nat)
    requires Partition(k) && h in k.prio
    ensures SystemOf(Inherited(k, h), l) == M.Inherit(SystemOf(k, l), h)
    ensures M.Inherits(SystemOf(k, l), h) <==> Causes(k, l.base, h)
    ensures Partition(Inherited(k, h)) && ReadyTasks(Inherited(k, h)) == ReadyTasks(k)
    ensures Inherited(k, h).current == k.current && Inherited(k, h).waiting == k.waiting
  {
    hide ChangePriority, ReadyTasks, Partition;
    ChangeIsSetPrio(k, l, h, Prio(k, k.current));
  }

  lemma InheritTied(k: State, held: map<nat, nat>, values: map<nat, Tick>, ms: map<nat, M.Mutex>, h: nat)
    requires TiedOf(k, held, values, ms) && h in k.prio
    ensures TiedOf(Inherited(k, h), held, RevaluedFor(values, k, h), ms)
  {
    hide TiedOf, ChangePriority, Revalued;
    TiedAfter(k, held, values, ms, h, Prio(k, k.current));
  }

  function RevaluedFor(values: map<nat, Tick>, k: State, h: nat): map<nat, Tick> {
    if Prio(k, h) < Prio(k, k.current) then Revalued(values, h, Prio(k, k.current)) else values
  }

  /** The running task, ready and without a mutex, may wait for m, which another task holds. */
  ghost predicate CanBlock(k: State, values: map<nat, Tick>, ms: map<nat, M.Mutex>, m: nat, wait: Tick) {
    && M.At(ms, m).holder.By? && M.HoldsNone(ms, k.current) && IsReady(k, k.current)
    && k.current in values && values[k.current] < IN_USE && (wait > 0 || k.clock.tick < MAX_DELAY)
  }

  /** The value xTaskPriorityInherit returns. */
  predicate Causes(k: State, base: map<nat, Priority>, h: nat) {
    Prio(k, h) < Prio(k, k.current) || (if h in base then base[h] else 0) < Prio(k, k.current)
  }

  lemma OthersValue(k: State, values: map<nat, Tick>, ms: map<nat, M.Mutex>, m: nat)
    requires M.At(ms, m).holder.By? && M.HoldsNone(ms, k.current) && k.current in values
    ensures var r := RevaluedFor(values, k, M.At(ms, m).holder.task);
      k.current in r && r[k.current] == values[k.current]
  {
  }

  /** What xQueueSemaphoreTake leaves in queue.c when the running task blocks on m. */
  function Queued(k: State, l: Locals, values: map<nat, Tick>, m: nat): Locals
    requires k.current in values
  {
    var x := M.At(l.mutexes, m);
    var inherits := x.holder.By? && Causes(k, l.base, x.holder.task);
    Locals(l.base, true, l.mutexes[m := x.(waiters := Inserted(x.waiters, Item(k.current, values[k.current])))],
           if inherits then l.inherited + {k.current} else l.inherited - {k.current}, l.retry - {k.current})
  }

  function HolderOf(ms: map<nat, M.Mutex>, m: nat): nat {
    if M.At(ms, m).holder.By? then M.At(ms, m).holder.task else 0
  }

  lemma BlockSeen(k: State, l: Locals, held: map<nat, nat>, values: map<nat, Tick>, m: nat, wait: Tick)
    requires TiedOf(k, held, values, l.mutexes) && CanBlock(k, values, l.mutexes, m, wait)
    ensures var h := HolderOf(l.mutexes, m);
      var u, r := Inherited(k, h), RevaluedFor(values, k, h);
      var b := Block(u, wait, true, true);
      && M.At(l.mutexes, m).holder == M.By(h) && u.current == k.current
      && k.current in values && k.current in r && r[k.current] == values[k.current]
      && SystemOf(b, Queued(k, l, values, m)) == M.Block(SystemOf(k, l), m)
      && TiedOf(b, held, r, Queued(k, l, values, m).mutexes)
  {
    var h := M.At(l.mutexes, m).holder.task;
    assert h in k.prio && h != k.current;
    OthersValue(k, values, l.mutexes, m);
    var u := Inherited(k, h);
    OwnValue(k, held, values, l.mutexes);
    PartitionOfTied(k, held, values, l.mutexes);
    InheritSeen(k, l, h);
    InheritTied(k, held, values, l.mutexes, h);
    StillReady(k, u);
    InheritedClock(k, h);
    hide Partition, Inherited, TaskModel.Block, ReadyTasks, TiedOf, M.Inherit, M.Inherits, M.Block, SystemOf, M.HoldsNone, IsReady;
    hide RevaluedFor;
    PartitionOfTied(u, held, RevaluedFor(values, k, h), l.mutexes);
    BlockLeavesReady(u, wait);
    BlockKeepsTasks(u, wait);
    BlockOnSystem(k, l, u, Block(u, wait, true, true), values, m);
    BlockTied(u, held, RevaluedFor(values, k, h), l.mutexes, m, Item(k.current, values[k.current]), wait);
  }

  lemma PartitionOfTied(k: State, held: map<nat, nat>, values: map<nat, Tick>, ms: map<nat, M.Mutex>)
    requires TiedOf(k, held, values, ms)
    ensures Partition(k)
  {
  }

  lemma OwnValue(k: State, held: map<nat, nat>, values: map<nat, Tick>, ms: map<nat, M.Mutex>)
    requires TiedOf(k, held, values, ms) && k.current in values && values[k.current] < IN_USE
    ensures values[k.current] == MAX_PRIORITIES - Prio(k, k.current)
  {
    hide HoldersExist, Counted, WaitersWait;
    PartitionHasCurrent(k);
  }

  lemma BlockOnSystem(k: State, l: Locals, u: State, b: State, values: map<nat, Tick>, m: nat)
    requires M.At(l.mutexes, m).holder.By?
    requires k.current in values && values[k.current] == MAX_PRIORITIES - Prio(k, k.current)
    requires SystemOf(u, l) == M.Inherit(SystemOf(k, l), M.At(l.mutexes, m).holder.task) && ReadyTasks(u) == ReadyTasks(k)
    requires u.current == k.current == b.current && b.prio == u.prio && ReadyTasks(b) == ReadyTasks(u) - {u.current}
    ensures SystemOf(b, Queued(k, l, values, m)) == M.Block(SystemOf(k, l), m)
  {
    hide ReadyTasks, M.Inherit, Inserted;
  }

  lemma BlockTied(u: State, held: map<nat, nat>, values: map<nat, Tick>, ms: map<nat, M.Mutex>, m: nat, x: Item, wait: Tick)
    requires TiedOf(u, held, values, ms) && x.owner == u.current && Partition(Block(u, wait, true, true))
    ensures TiedOf(Block(u, wait, true, true), held, values,
                   ms[m := M.At(ms, m).(waiters := Inserted(M.At(ms, m).waiters, x))])
  {
    hide Partition, TaskModel.Block, HoldersExist, Counted, WaitersWait, ValuesMatch, Inserted;
    BlockKeepsTasks(u, wait);
    Joined(ms, m, x, u.waiting);
    SameHolders(ms, m, Inserted(M.At(ms, m).waiters, x), u.prio, held);
  }

  lemma StillReady(k: State, u: State)
    requires Partition(k) && IsReady(k, k.current) && ReadyTasks(u) == ReadyTasks(k) && u.current == k.current
    ensures IsReady(u, u.current)
  {
    PartitionHasCurrent(k);
    assert k.current in ReadyTasks(k);
  }

  lemma InheritedClock(k: State, h: nat)
    ensures Inherited(k, h).clock == k.clock
  {
  }

  // ----- an inheritance undone ---------------------------------------------------------------------

  function BaseOf(base: map<nat, Priority>, t: nat): Priority {
    if t in base then base[t] else 0
  }

  /** A task's priority set to p, if it is another, with the value of its event item. */
  function Restored(k: State, t: nat, p: Priority): State {
    if Prio(k, t) != p then ChangePriority(k, t, p) else k
  }

  lemma RestoredSeen(k: State, l: Locals, held: map<nat, nat>, values: map<nat, Tick>, t: nat, p: Priority)
    requires TiedOf(k, held, values, l.mutexes) && t in k.prio
    ensures SystemOf(Restored(k, t, p), l) ==
      if M.Of(SystemOf(k, l).prio, t) != p then M.SetPrio(SystemOf(k, l), t, p) else SystemOf(k, l)
    ensures Restored(k, t, p).current == k.current && Restored(k, t, p).waiting == k.waiting
    ensures ReadyTasks(Restored(k, t, p)) == ReadyTasks(k) && Partition(Restored(k, t, p))
    ensures TiedOf(Restored(k, t, p), held, if Prio(k, t) != p then Revalued(values, t, p) else values, l.mutexes)
    ensures TiedOf(Restored(k, t, p), held, if Prio(k, t) != p then values[t := MAX_PRIORITIES - p] else values, l.mutexes)
  {
    PartitionOfTied(k, held, values, l.mutexes);
    hide ChangePriority, ReadyTasks, Partition, TiedOf, Revalued;
    ChangeIsSetPrio(k, l, t, p);
    TiedAfter(k, held, values, l.mutexes, t, p);
  }

  lemma HolderHolds(k: State, held: map<nat, nat>, values: map<nat, Tick>, ms: map<nat, M.Mutex>, m: nat)
    requires TiedOf(k, held, values, ms) && M.At(ms, m).holder.By?
    ensures HolderOf(ms, m) in k.prio && HolderOf(ms, m) in held && held[HolderOf(ms, m)] == 1
  {
    hide Partition, WaitersWait, ValuesMatch;
    var h := M.At(ms, m).holder.task;
    assert M.At(ms, m).holder == M.By(h);
    assert !M.HoldsNone(ms, h);
  }

  /** The priority prvGetDisinheritPriorityAfterTimeout and the base priority leave for the holder of m. */
  function Leaves(base: map<nat, Priority>, ms: map<nat, M.Mutex>, m: nat): Priority {
    var highest := M.HighestWaiting(M.At(ms, m));
    if BaseOf(base, HolderOf(ms, m)) < highest then highest else BaseOf(base, HolderOf(ms, m))
  }

  lemma GiveUpSeen(k: State, l: Locals, held: map<nat, nat>, values: map<nat, Tick>, m: nat)
    requires TiedOf(k, held, values, l.mutexes) && k.current in l.retry && l.retry[k.current].mutex == m
    ensures var q := l.(inherited := l.inherited - {k.current}, retry := l.retry - {k.current});
      var h, p := HolderOf(l.mutexes, m), Leaves(l.base, l.mutexes, m);
      if M.At(l.mutexes, m).holder.By? && k.current in l.inherited then
        && h in held && held[h] == 1
        && SystemOf(Restored(k, h, p), q) == M.GiveUp(SystemOf(k, l)) && Restored(k, h, p).current == k.current
        && TiedOf(Restored(k, h, p), held, if Prio(k, h) != p then Revalued(values, h, p) else values, l.mutexes)
      else SystemOf(k, q) == M.GiveUp(SystemOf(k, l))
  {
    hide ReadyTasks, TiedOf, Revalued, Restored, Partition, M.HighestWaiting;
    if M.At(l.mutexes, m).holder.By? && k.current in l.inherited {
      HolderHolds(k, held, values, l.mutexes, m);
      RestoredSeen(k, l, held, values, HolderOf(l.mutexes, m), Leaves(l.base, l.mutexes, m));
    }
  }

  // ----- a mutex given back --------------------------------------------------------------------------

  /** The lists after the running task has given m: its own priority restored, the first waiter made ready. */
  function AfterGive(k: State, base: map<nat, Priority>, ws: seq<Item>): State {
    var d := Restored(k, k.current, BaseOf(base, k.current));
    if |ws| > 0 then EventWake(d, ws[0].owner) else d
  }

  function Released(k: State, l: Locals, m: nat): Locals {
    var ws := M.At(l.mutexes, m).waiters;
    var d := Restored(k, k.current, BaseOf(l.base, k.current));
    if |ws| > 0 then
      l.(mutexes := l.mutexes[m := M.Mutex(M.Nobody, ws[1..])], retry := l.retry[ws[0].owner := M.Retry(m, true)],
         mustSwitch := Prio(d, ws[0].owner) > Prio(d, k.current))
    else
      l.(mutexes := l.mutexes[m := M.Mutex(M.Nobody, [])], mustSwitch := Prio(k, k.current) != BaseOf(l.base, k.current))
  }

  /** The running task holds m, and the model's invariants about holders and waiters hold. */
  ghost predicate CanGive(k: State, l: Locals, m: nat) {
    && M.At(l.mutexes, m).holder == M.By(k.current) && k.depth == 0 && !l.mustSwitch && IsReady(k, k.current)
    && M.OneMutexEach(SystemOf(k, l)) && M.WaitersOk(SystemOf(k, l))
  }

  lemma GiveSeen(k: State, l: Locals, held: map<nat, nat>, values: map<nat, Tick>, m: nat)
    requires TiedOf(k, held, values, l.mutexes) && CanGive(k, l, m)
    ensures var p := BaseOf(l.base, k.current);
      var d := Restored(k, k.current, p);
      var a, q := AfterGive(k, l.base, M.At(l.mutexes, m).waiters), Released(k, l, m);
      && M.At(l.mutexes, m).holder == M.By(k.current) && IsReady(k, k.current) && d.depth == 0 && !l.mustSwitch
      && (k.current in held && held[k.current] == 1)
      && (|M.At(l.mutexes, m).waiters| > 0 ==> M.At(l.mutexes, m).waiters[0].owner in d.waiting)
      && SystemOf(a, q) == M.Give(SystemOf(k, l), m)
      && TiedOf(a, held[k.current := 0], if Prio(k, k.current) != p then values[k.current := MAX_PRIORITIES - p] else values,
                q.mutexes)
  {
    var p, ws := BaseOf(l.base, k.current), M.At(l.mutexes, m).waiters;
    var d := Restored(k, k.current, p);
    HolderHolds(k, held, values, l.mutexes, m);
    RestoredSeen(k, l, held, values, k.current, p);
    RestoredDepth(k, k.current, p);
    GivenTied(k, l, held, values, m);
    if |ws| > 0 {
      FirstWaits(k, l, held, values, m);
      WakeJoinsReady(d, ws[0].owner);
    }
    GiveOnSystem(k, l, d, AfterGive(k, l.base, ws), m);
  }

  lemma RestoredDepth(k: State, t: nat, p: Priority)
    ensures Restored(k, t, p).depth == k.depth && Restored(k, t, p).current == k.current && Restored(k, t, p).waiting == k.waiting
    ensures Restored(k, t, p).prio == if Prio(k, t) != p then k.prio[t := p] else k.prio
  {
  }

  lemma FirstWaits(k: State, l: Locals, held: map<nat, nat>, values: map<nat, Tick>, m: nat)
    requires TiedOf(k, held, values, l.mutexes) && |M.At(l.mutexes, m).waiters| > 0
    ensures M.At(l.mutexes, m).waiters[0].owner in k.waiting
  {
    hide Partition, HoldersExist, Counted, ValuesMatch;
    assert M.At(l.mutexes, m).waiters[0] in M.At(l.mutexes, m).waiters;
  }

  lemma GivenTied(k: State, l: Locals, held: map<nat, nat>, values: map<nat, Tick>, m: nat)
    requires TiedOf(k, held, values, l.mutexes) && CanGive(k, l, m)
    ensures var p := BaseOf(l.base, k.current);
      TiedOf(AfterGive(k, l.base, M.At(l.mutexes, m).waiters), held[k.current := 0],
             if Prio(k, k.current) != p then values[k.current := MAX_PRIORITIES - p] else values, Released(k, l, m).mutexes)
  {
    hide Restored, HoldersExist, Counted, WaitersWait, ValuesMatch, Partition, EventWake, ReadyTasks, SystemOf, CanGive;
    var p, ws := BaseOf(l.base, k.current), M.At(l.mutexes, m).waiters;
    var v := if Prio(k, k.current) != p then values[k.current := MAX_PRIORITIES - p] else values;
    var d := Restored(k, k.current, p);
    PartitionHasCurrent(k);
    RestoredSeen(k, l, held, values, k.current, p);
    RestoredDepth(k, k.current, p);
    MutexesGiven(k, l, held, values, m);
    if |ws| > 0 {
      FirstWaits(k, l, held, values, m);
      WakeKeepsPartition(d, ws[0].owner);
      WakeKeepsTasks(d, ws[0].owner);
    }
  }

  lemma MutexesGiven(k: State, l: Locals, held: map<nat, nat>, values: map<nat, Tick>, m: nat)
    requires TiedOf(k, held, values, l.mutexes) && CanGive(k, l, m)
    ensures var d, ns, ws := Restored(k, k.current, BaseOf(l.base, k.current)), Released(k, l, m).mutexes, M.At(l.mutexes, m).waiters;
      HoldersExist(ns, d.prio) && Counted(ns, held[k.current := 0])
      && WaitersWait(ns, if |ws| > 0 then k.waiting - {ws[0].owner} else k.waiting)
  {
    var p, ws := BaseOf(l.base, k.current), M.At(l.mutexes, m).waiters;
    RestoredDepth(k, k.current, p);
    hide Restored, Partition, ValuesMatch, HoldersExist, Counted, WaitersWait, M.OneMutexEach, M.WaitersOk, ReadyTasks;
    Given(SystemOf(k, l), m, if |ws| > 0 then ws[1..] else [], held);
    StillExist(Released(k, l, m).mutexes, k.prio, k.current, p);
    if |ws| > 0 {
      Left(SystemOf(k, l), m, k.waiting);
    } else {
      SameWaiters(l.mutexes, m, M.Nobody, k.waiting);
      assert M.At(l.mutexes, m).(holder := M.Nobody) == M.Mutex(M.Nobody, []);
    }
  }

  lemma StillExist(ms: map<nat, M.Mutex>, prio: map<nat, Priority>, t: nat, p: Priority)
    requires HoldersExist(ms, prio)
    ensures HoldersExist(ms, prio[t := p])
  {
  }

  lemma GiveOnSystem(k: State, l: Locals, d: State, a: State, m: nat)
    requires M.At(l.mutexes, m).holder == M.By(k.current) && d == Restored(k, k.current, BaseOf(l.base, k.current))
    requires SystemOf(d, l) == M.Disinherit(SystemOf(k, l)) && d.current == k.current && ReadyTasks(d) == ReadyTasks(k)
    requires !l.mustSwitch
    requires var ws := M.At(l.mutexes, m).waiters;
      if |ws| > 0 then a.prio == d.prio && a.current == d.current && ReadyTasks(a) == ReadyTasks(d) + {ws[0].owner} else a == d
    ensures SystemOf(a, Released(k, l, m)) == M.Give(SystemOf(k, l), m)
  {
    hide ReadyTasks, M.Disinherit, Restored;
  }

  // ----- the mutex code ----------------------------------------------------------------------------

  class MutexKernel {
    const kernel: Kernel
    var mutexes: map<nat, M.Mutex>
    var yieldRequired: bool
    var inheritanceOccurred: set<nat>      // the local of each task in xQueueSemaphoreTake
    ghost var retry: map<nat, M.Retry>

    ghost function MyLocals(): Locals
      reads this, kernel
    {
      Locals(kernel.basePriorities, yieldRequired, mutexes, inheritanceOccurred, retry)
    }

    ghost function View(): M.System
      reads this, kernel
    {
      SystemOf(kernel.View(), MyLocals())
    }

    /** The task control blocks agree with the mutexes. */
    ghost predicate Tied()
      reads this, kernel
    {
      TiedOf(kernel.View(), kernel.mutexesHeld, kernel.eventItemValues, mutexes)
    }

    constructor (kernel: Kernel)
      requires Partition(kernel.View()) && IsReady(kernel.View(), kernel.currentTCB)
      requires kernel.basePriorities == kernel.priorities && (forall t: nat :: kernel.Held(t) == 0)
      requires ValuesMatch(kernel.eventItemValues, kernel.priorities)
      ensures this.kernel == kernel && Tied() && M.Start(View())
    {
      this.kernel := kernel;
      yieldRequired, mutexes, inheritanceOccurred, retry := false, map[], {}, map[];
      new;
      PartitionHasCurrent(kernel.View());
      forall t: nat ensures (if t in kernel.mutexesHeld then kernel.mutexesHeld[t] else 0) == 0 && M.HoldsNone(mutexes, t) {
        NothingHeld(t);
        assert kernel.Held(t) == 0;
      }
    }

    /** The critical section of xQueueSemaphoreTake on a mutex */
    method TryTake(m: nat) returns (taken: bool)
      requires Tied() && M.HoldsNone(mutexes, kernel.currentTCB)
      modifies this`mutexes, this`retry, kernel`mutexesHeld
      ensures Tied()
      ensures taken == M.At(old(mutexes), m).holder.Nobody?
      ensures View() ==
        if taken then M.Take(old(View()), m)
        else if kernel.currentTCB in old(retry) then
          old(View()).(retry := old(retry)[kernel.currentTCB := old(retry)[kernel.currentTCB].(untried := false)])
        else old(View())
    {
      PartitionHasCurrent(kernel.View());
      hide Partition, HoldersExist, Counted, WaitersWait, ValuesMatch, M.HoldsNone, ReadyTasks;
      var x := M.At(mutexes, m);
      if x.holder == M.Nobody {
        Taken(mutexes, m, kernel.currentTCB, kernel.priorities, kernel.mutexesHeld);
        SameWaiters(mutexes, m, M.By(kernel.currentTCB), kernel.waiting);
        var holder := kernel.IncrementMutexHeldCount();
        mutexes := mutexes[m := x.(holder := holder)];
        retry := retry - {kernel.currentTCB};
        return true;
      }
      if kernel.currentTCB in retry {
        retry := retry[kernel.currentTCB := retry[kernel.currentTCB].(untried := false)];
      }
      return false;
    }

    /** xQueueSemaphoreTake: the holder inherits, and xInheritanceOccurred is noted */
    method InheritFrom(holder: Holder)
      requires holder.By?
      modifies this`inheritanceOccurred
      modifies kernel`priorities, kernel`readyTasksLists, kernel`topReadyPriority, kernel`eventItemValues
      ensures var k := old(kernel.View());
        && kernel.View() == Inherited(k, holder.task)
        && kernel.eventItemValues == RevaluedFor(old(kernel.eventItemValues), k, holder.task)
        && inheritanceOccurred ==
             if Causes(k, kernel.basePriorities, holder.task) then old(inheritanceOccurred) + {k.current}
             else old(inheritanceOccurred) - {k.current}
    {
      hide ChangePriority, Revalued;
      var inherited := kernel.PriorityInherit(holder);
      inheritanceOccurred :=
        if inherited then inheritanceOccurred + {kernel.currentTCB} else inheritanceOccurred - {kernel.currentTCB};
    }

    /** ... and the caller goes on the mutex's event list */
    method WaitFor(m: nat, wait: Tick)
      requires kernel.currentTCB in kernel.eventItemValues
      modifies this`mutexes, this`retry, this`yieldRequired
      modifies kernel`waiting, kernel`readyTasksLists, kernel`suspendedTaskList, kernel`delayedTaskList
      modifies kernel`overflowDelayedTaskList, kernel`nextTaskUnblockTime
      ensures kernel.View() == Block(old(kernel.View()), wait, true, true)
      ensures var x, t := M.At(old(mutexes), m), kernel.currentTCB;
        && mutexes == old(mutexes)[m := x.(waiters := Inserted(x.waiters, Item(t, kernel.eventItemValues[t])))]
        && retry == old(retry) - {t} && yieldRequired
    {
      hide TaskModel.Block, Inserted;
      var x := M.At(mutexes, m);
      var waiters := kernel.PlaceOnEventList(x.waiters, wait);
      mutexes := mutexes[m := x.(waiters := waiters)];
      retry := retry - {kernel.currentTCB};
      yieldRequired := true;
    }

    /** xQueueSemaphoreTake with the scheduler suspended and the mutex held by another task: inherit and block */
    method InheritAndBlock(m: nat, wait: Tick)
      requires Tied() && CanBlock(kernel.View(), kernel.eventItemValues, mutexes, m, wait)
      modifies this, kernel
      ensures Tied() && View() == M.Block(old(View()), m)
    {
      hide Partition, Inherited, TaskModel.Block, TiedOf, ReadyTasks, M.Block, CanBlock, Inserted, RevaluedFor;
      ghost var k, l, values := kernel.View(), MyLocals(), kernel.eventItemValues;
      BlockSeen(k, l, kernel.mutexesHeld, values, m, wait);
      InheritFrom(M.At(mutexes, m).holder);
      WaitFor(m, wait);
      assert MyLocals() == Queued(k, l, values, m);
    }

    /** xQueueSemaphoreTake after its time ran out with the mutex still not available */
    method UndoInheritance(m: nat)
      requires Tied() && kernel.currentTCB in retry && retry[kernel.currentTCB].mutex == m
      modifies this, kernel
      ensures Tied() && View() == M.GiveUp(old(View()))
    {
      hide Partition, ChangePriority, TiedOf, ReadyTasks, M.GiveUp, M.HighestWaiting, Revalued;
      ghost var k, l, values := kernel.View(), MyLocals(), kernel.eventItemValues;
      GiveUpSeen(k, l, kernel.mutexesHeld, values, m);
      if kernel.currentTCB in inheritanceOccurred {
        var x := M.At(mutexes, m);
        kernel.PriorityDisinheritAfterTimeout(x.holder, M.HighestWaiting(x));
      }
      retry := retry - {kernel.currentTCB};
      inheritanceOccurred := inheritanceOccurred - {kernel.currentTCB};
    }

    /** xTaskRemoveFromEventList on the first task that waits for m */
    method WakeFirstWaiter(m: nat)
      requires |M.At(mutexes, m).waiters| > 0 && M.At(mutexes, m).waiters[0].owner in kernel.waiting
      modifies this`mutexes, this`retry, this`yieldRequired
      modifies kernel`readyTasksLists, kernel`delayedTaskList, kernel`overflowDelayedTaskList, kernel`pendingReadyList
      modifies kernel`waiting, kernel`suspendedTaskList, kernel`tasksWaitingTermination, kernel`topReadyPriority
      modifies kernel`yieldPending, kernel`nextTaskUnblockTime
      ensures var k, x := old(kernel.View()), M.At(old(mutexes), m);
        var t := x.waiters[0].owner;
        && kernel.View() == EventWake(k, t)
        && mutexes == old(mutexes)[m := x.(waiters := x.waiters[1..])] && retry == old(retry)[t := M.Retry(m, true)]
        && yieldRequired == (old(yieldRequired) || Prio(k, t) > Prio(k, k.current))
    {
      hide EventWake;
      var x := M.At(mutexes, m);
      var t := x.waiters[0].owner;
      WakeKeepsTasks(kernel.View(), t);
      var higherPriorityWoken := kernel.RemoveFromEventList(t);
      mutexes := mutexes[m := x.(waiters := x.waiters[1..])];
      retry := retry[t := M.Retry(m, true)];
      if higherPriorityWoken {
        yieldRequired := true;
      }
    }

    /** prvCopyDataToQueue on a mutex: the giver disinherits and nobody holds it */
    method GiveUpHolding(m: nat) returns (switchRequired: bool)
      requires M.At(mutexes, m).holder == M.By(kernel.currentTCB) && kernel.Held(kernel.currentTCB) == 1
      requires IsReady(kernel.View(), kernel.currentTCB)
      modifies this`mutexes, kernel`priorities, kernel`readyTasksLists, kernel`topReadyPriority, kernel`eventItemValues
      modifies kernel`mutexesHeld
      ensures var k, t, p := old(kernel.View()), kernel.currentTCB, BaseOf(kernel.basePriorities, kernel.currentTCB);
        && kernel.View() == Restored(k, t, p) && switchRequired == (Prio(k, t) != p)
        && kernel.mutexesHeld == old(kernel.mutexesHeld)[t := 0]
        && kernel.eventItemValues ==
             (if Prio(k, t) != p then old(kernel.eventItemValues)[t := MAX_PRIORITIES - p] else old(kernel.eventItemValues))
        && mutexes == old(mutexes)[m := M.At(old(mutexes), m).(holder := M.Nobody)]
    {
      hide ChangePriority;
      var x := M.At(mutexes, m);
      switchRequired := kernel.PriorityDisinherit(x.holder);
      mutexes := mutexes[m := x.(holder := M.Nobody)];
    }

    /** The critical section of xQueueGenericSend on a mutex that the running task holds */
    method GiveMutex(m: nat)
      requires Tied() && CanGive(kernel.View(), MyLocals(), m)
      modifies this, kernel
      ensures Tied() && View() == M.Give(old(View()), m)
    {
      hide Partition, Restored, IsReady, TiedOf, SystemOf, EventWake, M.Give, CanGive;
      ghost var k, l, values := kernel.View(), MyLocals(), kernel.eventItemValues;
      GiveSeen(k, l, kernel.mutexesHeld, values, m);
      var x := M.At(mutexes, m);
      var switchRequired := GiveUpHolding(m);
      if |x.waiters| > 0 {
        WakeFirstWaiter(m);
      } else if switchRequired {
        yieldRequired := true;
      }
      assert MyLocals() == Released(k, l, m);
    }
  }
}
