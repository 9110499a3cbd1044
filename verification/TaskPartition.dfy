/**
  Every task is on exactly one state list, the ready lists are indexed by
  priority and bounded by uxTopReadyPriority, and so the scheduler always picks
  a ready task of maximal priority (tasks.c).
 */
module TaskPartition {
  import opened Lists
  import opened TaskModel

  // ----- the invariant --------------------------------------------------------------------

  ghost function ReadyBag(r: seq<ReadyList>): multiset<nat> {
    if |r| == 0 then multiset{} else multiset(r[0].items) + ReadyBag(r[1..])
  }

  /** Every state list item, with multiplicity. */
  ghost function Bag(s: State): multiset<nat> {
    ReadyBag(s.ready) + multiset(Owners(s.clock.delayed)) + multiset(Owners(s.clock.overflow))
    + multiset(s.suspended) + multiset(s.terminating)
  }

  /** Each task whose TCB exists is on exactly one state list, once. */
  ghost predicate OnOneList(s: State) {
    Bag(s) == multiset(s.prio.Keys)
  }

  /** A ready task is on the list of its priority, and no list above the recorded top is in use. */
  ghost predicate Indexed(s: State) {
    ByPriority(s.ready, s.prio) && NoneAbove(s.ready, s.topReady)
  }

  ghost predicate ByPriority(r: ReadyLists, prio: map<nat, Priority>) {
    forall p: Priority, t: nat {:trigger t in r[p].items} :: t in r[p].items ==> p == if t in prio then prio[t] else 0
  }

  ghost predicate NoneAbove(r: ReadyLists, top: Priority) {
    forall p: Priority {:trigger r[p]} :: p > top ==> |r[p].items| == 0
  }

  /** A task whose event item is on a list is blocked: neither ready nor deleted. */
  ghost predicate Blocked(s: State) {
    && (forall t: nat :: t in s.waiting || t in s.pendingReady ==> t in s.prio && !IsReady(s, t) && t !in s.terminating)
    && (forall t: nat :: multiset(s.pendingReady)[t] + (if t in s.waiting then 1 else 0) <= 1)
  }

  /** Nothing is left over for later while the scheduler runs. */
  ghost predicate Settled(s: State) {
    s.depth == 0 ==> s.pendingReady == [] && s.pended == 0
  }

  ghost predicate Partition(s: State) {
    OnOneList(s) && Indexed(s) && Blocked(s) && Settled(s) && s.current in s.prio
  }

  // ----- bag facts ----------------------------------------------------------------------------

  lemma Exchange(h: multiset<nat>, t: multiset<nat>, x: multiset<nat>, y: multiset<nat>)
    requires x <= t
    ensures h + (t - x + y) == h + t - x + y && x <= h + t
  {
  }

  lemma {:induction false} ReadyBagUpdate(r: seq<ReadyList>, p: nat, l: ReadyList)
    requires p < |r|
    ensures multiset(r[p].items) <= ReadyBag(r)
    ensures ReadyBag(r[p := l]) == ReadyBag(r) - multiset(r[p].items) + multiset(l.items)
  {
    if p == 0 {
      assert r[0 := l][1..] == r[1..];
    } else {
      ReadyBagUpdate(r[1..], p - 1, l);
      assert r[p := l][1..] == r[1..][p - 1 := l];
      Exchange(multiset(r[0].items), ReadyBag(r[1..]), multiset(r[p].items), multiset(l.items));
    }
  }

  lemma {:induction false} ReadyBagCount(r: seq<ReadyList>, t: nat, p: nat)
    requires forall i :: 0 <= i < |r| && i != p ==> t !in r[i].items
    ensures ReadyBag(r)[t] == if p < |r| then multiset(r[p].items)[t] else 0
  {
    if |r| > 0 {
      if p == 0 {
        ReadyBagCount(r[1..], t, |r|);
      } else {
        assert t !in multiset(r[0].items);
        forall i | 0 <= i < |r| - 1 && i != p - 1 ensures t !in r[1..][i].items { assert r[1..][i] == r[i + 1]; }
        ReadyBagCount(r[1..], t, p - 1);
      }
    }
  }

  lemma RemoveAtBag<T>(l: seq<T>, i: nat)
    requires i < |l|
    ensures multiset(RemoveAt(l, i)) == multiset(l) - multiset{l[i]}
  {
    assert l == l[..i] + [l[i]] + l[i + 1..];
  }

  lemma WithoutBag(l: seq<nat>, t: nat)
    ensures multiset(Without(l, t)) == multiset(l) - multiset{t}
  {
    var i := Find(l, t);
    if i < |l| { RemoveAtBag(l, i); } else { assert l[..i] == l; assert t !in multiset(l); }
  }

  lemma WithoutOwnerBag(l: seq<Item>, t: nat)
    ensures multiset(Owners(WithoutOwner(l, t))) == multiset(Owners(l)) - multiset{t}
  {
    assert Owners(WithoutOwner(l, t)) == Without(Owners(l), t);
    WithoutBag(Owners(l), t);
  }

  lemma InsertEndBag(l: ReadyList, t: nat)
    ensures multiset(InsertEnd(l, t).items) == multiset(l.items) + multiset{t}
  {
    if l.index > 0 {
      assert l.items == l.items[..l.index - 1] + l.items[l.index - 1..];
    }
  }

  lemma InsertedBag(l: seq<Item>, x: Item)
    ensures multiset(Owners(Inserted(l, x))) == multiset(Owners(l)) + multiset{x.owner}
  {
    var p := InsertPos(l, x.value);
    assert Owners(Inserted(l, x)) == Owners(l)[..p] + [x.owner] + Owners(l)[p..];
    assert Owners(l) == Owners(l)[..p] + Owners(l)[p..];
  }

  lemma TakeOneOut(a: multiset<nat>, b: multiset<nat>, c: multiset<nat>, d: multiset<nat>, e: multiset<nat>, t: nat)
    requires (a + b + c + d + e)[t] <= 1
    ensures (a - multiset{t}) + (b - multiset{t}) + (c - multiset{t}) + (d - multiset{t}) + (e - multiset{t})
      == a + b + c + d + e - multiset{t}
  {
  }

  lemma AddBag(s: State, t: nat)
    ensures Bag(AddToReady(s, t)) == Bag(s) + multiset{t}
  {
    var p := Prio(s, t);
    ReadyBagUpdate(s.ready, p, InsertEnd(s.ready[p], t));
    InsertEndBag(s.ready[p], t);
  }

  lemma UnreadyBag(s: State, t: nat)
    requires Indexed(s)
    ensures ReadyBag(s.ready[Prio(s, t) := RemoveReady(s.ready[Prio(s, t)], t)]) == ReadyBag(s.ready) - multiset{t}
    ensures ReadyBag(s.ready)[t] == multiset(s.ready[Prio(s, t)].items)[t]
  {
    var p := Prio(s, t);
    forall i | 0 <= i < |s.ready| && i != p ensures t !in s.ready[i].items { var q: Priority := i; }
    UnreadyListBag(s.ready, p, t);
  }

  lemma UnreadyListBag(r: ReadyLists, p: Priority, t: nat)
    requires forall i :: 0 <= i < |r| && i != p ==> t !in r[i].items
    ensures ReadyBag(r[p := RemoveReady(r[p], t)]) == ReadyBag(r) - multiset{t}
    ensures ReadyBag(r)[t] == multiset(r[p].items)[t]
  {
    ReadyBagUpdate(r, p, RemoveReady(r[p], t));
    assert RemoveReady(r[p], t).items == Without(r[p].items, t);
    WithoutBag(r[p].items, t);
    ReadyBagCount(r, t, p);
  }

  /** Wherever its state item is, uxListRemove takes the task off its one list. */
  lemma RemoveBag(s: State, t: nat)
    requires Indexed(s) && Bag(s)[t] <= 1
    ensures Bag(RemoveState(s, t)) == Bag(s) - multiset{t}
  {
    UnreadyBag(s, t);
    WithoutOwnerBag(s.clock.delayed, t);
    WithoutOwnerBag(s.clock.overflow, t);
    WithoutBag(s.suspended, t);
    WithoutBag(s.terminating, t);
    TakeOneOut(ReadyBag(s.ready), multiset(Owners(s.clock.delayed)), multiset(Owners(s.clock.overflow)),
               multiset(s.suspended), multiset(s.terminating), t);
  }

  // ----- the primitives keep the lists consistent ----------------------------------------------

  ghost predicate Consistent(s: State) {
    OnOneList(s) && Indexed(s) && Blocked(s)
  }

  lemma SameIndexed(s: State, r: State)
    requires Indexed(s) && r.ready == s.ready && r.topReady == s.topReady && r.prio == s.prio
    ensures Indexed(r)
  {
  }

  lemma SameBlocked(s: State, r: State)
    requires Blocked(s) && r.ready == s.ready && r.prio == s.prio
    requires r.waiting == s.waiting && r.pendingReady == s.pendingReady && r.terminating == s.terminating
    ensures Blocked(r)
  {
  }

  /** Counters and cached values do not matter. */
  lemma SameLists(s: State, r: State)
    requires Consistent(s) && r.ready == s.ready && r.topReady == s.topReady && r.prio == s.prio
    requires r.clock.delayed == s.clock.delayed && r.clock.overflow == s.clock.overflow
    requires r.suspended == s.suspended && r.terminating == s.terminating
    requires r.waiting == s.waiting && r.pendingReady == s.pendingReady
    ensures Consistent(r)
  {
    hide Indexed, Blocked;
    SameIndexed(s, r);
    SameBlocked(s, r);
    assert Bag(r) == Bag(s);
  }

  lemma AddIndexed(s: State, t: nat)
    requires Indexed(s)
    ensures Indexed(AddToReady(s, t))
  {
    var l := s.ready[Prio(s, t)];
    if l.index > 0 { InsertAtMembers(l.items, l.index - 1, t); }
  }

  lemma RemoveIndexed(s: State, t: nat)
    requires Indexed(s)
    ensures Indexed(RemoveState(s, t))
  {
    assert RemoveReady(s.ready[Prio(s, t)], t).items == Without(s.ready[Prio(s, t)].items, t);
    WithoutMembers(s.ready[Prio(s, t)].items, t);
  }

  lemma EventGone(s: State, t: nat)
    requires Blocked(s)
    ensures Blocked(RemoveEvent(s, t)) && t !in RemoveEvent(s, t).waiting && t !in RemoveEvent(s, t).pendingReady
  {
    WithoutMembers(s.pendingReady, t);
    WithoutBag(s.pendingReady, t);
    assert multiset(RemoveEvent(s, t).pendingReady)[t] == 0;
  }

  lemma AddBlocked(s: State, t: nat)
    requires Blocked(s) && t !in s.waiting && t !in s.pendingReady
    ensures Blocked(AddToReady(s, t))
  {
    forall x: nat | x in s.waiting || x in s.pendingReady ensures !IsReady(AddToReady(s, t), x) {
      ReadyAfterAdd(s, t, x);
    }
  }

  lemma RemoveBlocked(s: State, t: nat)
    requires Blocked(s) && t !in s.waiting && t !in s.pendingReady
    ensures Blocked(RemoveState(s, t))
  {
    WithoutMembers(s.terminating, t);
    forall x: nat | x in s.waiting || x in s.pendingReady ensures !IsReady(RemoveState(s, t), x) {
      ReadyAfterRemove(s, t, x);
    }
  }

  /** A task moved from wherever it was to its ready list. */
  lemma MoveKeeps(s: State, t: nat)
    requires Consistent(s) && t in s.prio && t !in s.waiting && t !in s.pendingReady
    ensures Consistent(AddToReady(RemoveState(s, t), t))
  {
    RemoveBag(s, t);
    AddBag(RemoveState(s, t), t);
    RemoveIndexed(s, t);
    AddIndexed(RemoveState(s, t), t);
    RemoveBlocked(s, t);
    AddBlocked(RemoveState(s, t), t);
  }

  lemma UnblockHeadKeeps(s: State)
    requires Consistent(s) && |s.clock.delayed| > 0
    ensures Consistent(UnblockHead(s))
  {
    var t := s.clock.delayed[0].owner;
    var r := s.(clock := s.clock.(delayed := s.clock.delayed[1..]));
    assert Owners(s.clock.delayed) == [t] + Owners(r.clock.delayed);
    assert Bag(s) == Bag(r) + multiset{t};
    EventGone(r, t);
    AddBag(RemoveEvent(r, t), t);
    AddIndexed(RemoveEvent(r, t), t);
    AddBlocked(RemoveEvent(r, t), t);
  }

  lemma {:induction false} UnblockKeeps(s: State)
    requires Consistent(s)
    ensures Consistent(Unblock(s))
    ensures s.pendingReady == [] ==> Unblock(s).pendingReady == []
    ensures Unblock(s).prio == s.prio && Unblock(s).current == s.current
    ensures Unblock(s).pended == s.pended && Unblock(s).depth == s.depth
    decreases |s.clock.delayed|
  {
    if |s.clock.delayed| == 0 || s.clock.tick < s.clock.delayed[0].value {
    } else {
      UnblockHeadKeeps(s);
      UnblockKeeps(UnblockHead(s));
    }
  }

  lemma AdvanceKeeps(s: State)
    requires Consistent(s)
    ensures Consistent(s.(clock := Advance(s.clock)))
  {
    assert Bag(s.(clock := Advance(s.clock))) == Bag(s);
  }

  lemma TickKeeps(s: State)
    requires Consistent(s)
    ensures Consistent(DoTick(s))
    ensures s.pendingReady == [] ==> DoTick(s).pendingReady == []
    ensures DoTick(s).prio == s.prio && DoTick(s).current == s.current
    ensures DoTick(s).pended == s.pended && DoTick(s).depth == s.depth
  {
    AdvanceKeeps(s);
    UnblockKeeps(s.(clock := Advance(s.clock)));
  }

  lemma {:induction false} CatchUpKeeps(s: State, n: nat)
    requires Consistent(s) && s.pendingReady == []
    ensures Consistent(CatchUp(s, n)) && CatchUp(s, n).pendingReady == []
    ensures CatchUp(s, n).prio == s.prio && CatchUp(s, n).current == s.current
    decreases n
  {
    hide Consistent, DoTick, TickWantsSwitch;
    if n > 0 {
      TickKeeps(s);
      SameLists(DoTick(s), CatchUpTick(s));
      CatchUpKeeps(CatchUpTick(s), n - 1);
    }
  }

  lemma {:induction false} DrainKeeps(s: State)
    requires Consistent(s)
    ensures Consistent(Drain(s)) && Drain(s).pendingReady == []
    ensures Drain(s).prio == s.prio && Drain(s).current == s.current
    decreases |s.pendingReady|
  {
    hide Consistent;
    if |s.pendingReady| > 0 {
      DrainHeadKeeps(s);
      DrainKeeps(DrainHead(s));
    }
  }

  lemma DrainHeadKeeps(s: State)
    requires Consistent(s) && |s.pendingReady| > 0
    ensures Consistent(DrainHead(s)) && DrainHead(s).prio == s.prio && DrainHead(s).current == s.current
  {
    hide RemoveReady, InsertEnd, Without, WithoutOwner;
    var t := s.pendingReady[0];
    var u := s.(pendingReady := s.pendingReady[1..]);
    NoLongerPending(s);
    MoveKeeps(u, t);
    hide Consistent;
    SameLists(AddToReady(RemoveState(u, t), t), DrainHead(s));
  }

  lemma NoLongerPending(s: State)
    requires Consistent(s) && |s.pendingReady| > 0
    ensures var t, u := s.pendingReady[0], s.(pendingReady := s.pendingReady[1..]);
      Consistent(u) && t in u.prio && t !in u.waiting && t !in u.pendingReady
  {
    var t := s.pendingReady[0];
    assert s.pendingReady == [t] + s.pendingReady[1..];
    assert Bag(s.(pendingReady := s.pendingReady[1..])) == Bag(s);
  }

  lemma SetAlarmBag(c: Clock, t: nat, wait: Tick)
    ensures var v := SetAlarm(c, t, wait);
      multiset(Owners(v.delayed)) + multiset(Owners(v.overflow))
      == multiset(Owners(c.delayed)) + multiset(Owners(c.overflow)) + multiset{t}
  {
    hide Inserted;
    InsertedBag(c.overflow, Item(t, WakeTime(c, wait)));
    InsertedBag(c.delayed, Item(t, WakeTime(c, wait)));
  }

  lemma Traded(r: multiset<nat>, d: multiset<nat>, o: multiset<nat>, d': multiset<nat>, o': multiset<nat>,
               u: multiset<nat>, e: multiset<nat>, t: nat)
    requires t in r && d' + o' == d + o + multiset{t}
    ensures (r - multiset{t}) + d' + o' + u + e == r + d + o + u + e
  {
    assert (r - multiset{t}) + d' + o' == (r - multiset{t}) + (d' + o');
  }

  lemma Parked(r: multiset<nat>, d: multiset<nat>, o: multiset<nat>, u: multiset<nat>, e: multiset<nat>, t: nat)
    requires t in r
    ensures (r - multiset{t}) + d + o + (u + multiset{t}) + e == r + d + o + u + e
  {
  }

  lemma ReadyInBag(s: State, t: nat)
    requires Indexed(s) && IsReady(s, t)
    ensures t in ReadyBag(s.ready)
  {
    UnreadyBag(s, t);
    assert t in multiset(s.ready[Prio(s, t)].items);
  }

  lemma BlockBag(s: State, wait: Tick, indefinite: bool, onEvent: bool)
    requires Indexed(s) && IsReady(s, s.current)
    ensures Bag(Block(s, wait, indefinite, onEvent)) == Bag(s)
  {
    hide RemoveReady, SetAlarm, Indexed, IsReady, ReadyBag;
    UnreadyBag(s, s.current);
    ReadyInBag(s, s.current);
    var r, d, o := ReadyBag(s.ready), multiset(Owners(s.clock.delayed)), multiset(Owners(s.clock.overflow));
    var u, e := multiset(s.suspended), multiset(s.terminating);
    if wait == MAX_DELAY && indefinite {
      assert multiset(s.suspended + [s.current]) == u + multiset{s.current};
      Parked(r, d, o, u, e, s.current);
    } else {
      var v := SetAlarm(s.clock, s.current, wait);
      SetAlarmBag(s.clock, s.current, wait);
      Traded(r, d, o, multiset(Owners(v.delayed)), multiset(Owners(v.overflow)), u, e, s.current);
    }
  }

  lemma BlockKeeps(s: State, wait: Tick, indefinite: bool, onEvent: bool)
    requires Partition(s) && Enabled(s, BlockCurrent(wait, indefinite, onEvent))
    ensures Consistent(Block(s, wait, indefinite, onEvent))
  {
    hide Bag, RemoveReady, SetAlarm, Indexed, Blocked;
    BlockBag(s, wait, indefinite, onEvent);
    RemoveIndexed(s, s.current);
    SameIndexed(RemoveState(s, s.current), Block(s, wait, indefinite, onEvent));
    BlockBlocked(s, onEvent);
    SameBlocked(LeaveReady(s, onEvent), Block(s, wait, indefinite, onEvent));
  }

  lemma BlockBlocked(s: State, onEvent: bool)
    requires Consistent(s) && s.current in s.prio && IsReady(s, s.current) && s.current !in s.waiting
    ensures Blocked(LeaveReady(s, onEvent))
  {
    RemoveBlocked(s, s.current);
    UnreadyBag(s, s.current);
    ReadyOnce(s, s.current);
  }

  /** A ready task is on no other list, and off its ready list once removed. */
  lemma ReadyOnce(s: State, t: nat)
    requires OnOneList(s) && Indexed(s) && IsReady(s, t)
    ensures t !in s.terminating && !IsReady(RemoveState(s, t), t)
  {
    UnreadyBag(s, t);
    assert t in multiset(s.ready[Prio(s, t)].items);
    assert Bag(s)[t] <= 1;
    assert t !in multiset(s.terminating);
    WithoutBag(s.ready[Prio(s, t)].items, t);
    assert RemoveReady(s.ready[Prio(s, t)], t).items == Without(s.ready[Prio(s, t)].items, t);
    assert t !in multiset(Without(s.ready[Prio(s, t)].items, t));
  }

  lemma NotListed(s: State, t: nat, p: Priority)
    requires t !in Bag(s)
    ensures t !in s.ready[p].items && t !in s.suspended && t !in s.terminating
  {
    ReadyBagUpdate(s.ready, p, s.ready[p]);
    assert t !in multiset(s.ready[p].items) && t !in multiset(s.suspended) && t !in multiset(s.terminating);
  }

  /** A task on no list can be forgotten, or given any priority. */
  lemma ForgetKeeps(s: State, t: nat, m: map<nat, Priority>)
    requires Indexed(s) && Blocked(s) && t !in Bag(s) && t !in s.waiting && t !in s.pendingReady
    requires forall x :: x != t ==> (x in m <==> x in s.prio) && (x in m ==> m[x] == s.prio[x])
    ensures Indexed(s.(prio := m)) && Blocked(s.(prio := m))
  {
    forall p: Priority ensures t !in s.ready[p].items { NotListed(s, t, p); }
    var r := s.(prio := m);
    assert ByPriority(r.ready, r.prio);
    forall x: nat | x in s.waiting || x in s.pendingReady ensures !IsReady(r, x) && x in m {}
  }

  lemma DropKeys(s: State, t: nat)
    requires t in s.prio
    ensures multiset((s.prio - {t}).Keys) == multiset(s.prio.Keys) - multiset{t}
  {
    assert (s.prio - {t}).Keys == s.prio.Keys - {t};
  }

  lemma AddKeys(s: State, t: nat, p: Priority)
    requires t !in s.prio
    ensures multiset(s.prio[t := p].Keys) == multiset(s.prio.Keys) + multiset{t}
  {
    assert s.prio[t := p].Keys == s.prio.Keys + {t};
  }

  /** A task taken off its state list and off its event list. */
  lemma DetachKeeps(s: State, t: nat)
    requires Consistent(s) && t in s.prio
    ensures var r := RemoveEvent(RemoveState(s, t), t);
      && Bag(r) == Bag(s) - multiset{t} && t !in Bag(r)
      && Indexed(r) && Blocked(r) && t !in r.waiting && t !in r.pendingReady
      && (s.pendingReady == [] ==> r.pendingReady == [])
  {
    EventGone(s, t);
    RemoveBag(s, t);
    RemoveIndexed(s, t);
    RemoveBlocked(RemoveEvent(s, t), t);
    assert RemoveEvent(RemoveState(s, t), t) == RemoveState(RemoveEvent(s, t), t);
  }

  lemma CreateKeeps(s: State, t: nat, p: Priority)
    requires Consistent(s) && t !in s.prio
    ensures Consistent(Create(s, t, p))
  {
    assert t !in Bag(s);
    ForgetKeeps(s, t, s.prio[t := p]);
    AddKeys(s, t, p);
    var r := s.(prio := s.prio[t := p]);
    assert Bag(r) == Bag(s);
    AddBag(r, t);
    AddIndexed(r, t);
    AddBlocked(r, t);
  }

  lemma DeleteSelfKeeps(s: State)
    requires Consistent(s) && s.current in s.prio
    ensures Consistent(Delete(s, s.current))
  {
    hide RemoveState, RemoveEvent, Indexed, Blocked;
    var r := RemoveEvent(RemoveState(s, s.current), s.current);
    var u := r.(terminating := r.terminating + [s.current]);
    DetachKeeps(s, s.current);
    DetachedTasks(s, s.current);
    assert Bag(u) == Bag(r) + multiset{s.current};
    SameIndexed(r, u);
    TerminatingBlocked(r, s.current);
  }

  lemma TerminatingBlocked(s: State, t: nat)
    requires Blocked(s) && t !in s.waiting && t !in s.pendingReady
    ensures Blocked(s.(terminating := s.terminating + [t]))
  {
  }

  lemma DetachedTasks(s: State, t: nat)
    ensures RemoveEvent(RemoveState(s, t), t).prio == s.prio && RemoveEvent(RemoveState(s, t), t).current == s.current
  {
    hide RemoveReady, Without, WithoutOwner;
  }

  lemma DeleteOtherKeeps(s: State, t: nat)
    requires Consistent(s) && t in s.prio && t != s.current
    ensures Consistent(Delete(s, t))
  {
    hide RemoveState, RemoveEvent, Indexed, Blocked;
    var r := RemoveEvent(RemoveState(s, t), t);
    DetachKeeps(s, t);
    DetachedTasks(s, t);
    ForgetKeeps(r, t, r.prio - {t});
    DropKeys(s, t);
    var u := r.(prio := r.prio - {t});
    assert Bag(u) == Bag(r);
    SameLists(u, Delete(s, t));
  }

  lemma CleanupKeeps(s: State)
    requires Consistent(s) && |s.terminating| > 0
    ensures Consistent(Cleanup(s))
  {
    var t := s.terminating[0];
    assert s.terminating == [t] + s.terminating[1..];
    var r := s.(terminating := s.terminating[1..]);
    assert Bag(s) == Bag(r) + multiset{t};
    assert t in Bag(s);
    DropKeys(s, t);
    assert t in multiset(s.terminating);
    ForgetKeeps(r, t, s.prio - {t});
    assert Bag(Cleanup(s)) == Bag(r);
  }

  lemma AppendBag(r: State, t: nat)
    ensures Bag(ResetNextUnblock(r.(suspended := r.suspended + [t]))) == Bag(r) + multiset{t}
  {
  }

  lemma SuspendKeeps(s: State, t: nat)
    requires Consistent(s) && t in s.prio
    ensures Consistent(Suspend(s, t))
  {
    hide RemoveState, RemoveEvent, Bag, Indexed, Blocked;
    DetachKeeps(s, t);
    DetachedTasks(s, t);
    var r := RemoveEvent(RemoveState(s, t), t);
    AppendBag(r, t);
    SameIndexed(r, Suspend(s, t));
    SameBlocked(r, Suspend(s, t));
  }

  lemma NoLongerWaits(s: State, t: nat)
    requires Consistent(s) && t in s.waiting
    ensures var e := s.(waiting := s.waiting - {t});
      Consistent(e) && Waits(e, t) && t !in e.waiting && t !in e.pendingReady
  {
    assert t !in multiset(s.pendingReady);
    assert Bag(s.(waiting := s.waiting - {t})) == Bag(s);
  }

  lemma EventWakeKeeps(s: State, t: nat)
    requires Consistent(s) && t in s.waiting
    ensures Consistent(EventWake(s, t))
  {
    hide AddToReady, RemoveState, Consistent;
    var e := s.(waiting := s.waiting - {t});
    NoLongerWaits(s, t);
    if s.depth == 0 {
      MoveKeeps(e, t);
      SameLists(AddToReady(RemoveState(e, t), t), EventWake(s, t));
    } else {
      PendingKeeps(e, t);
      SameLists(e.(pendingReady := e.pendingReady + [t]), EventWake(s, t));
    }
  }

  lemma UnorderedWakeKeeps(s: State, t: nat)
    requires Consistent(s) && t in s.waiting
    ensures Consistent(UnorderedWake(s, t))
  {
    hide AddToReady, RemoveState, Consistent;
    var e := s.(waiting := s.waiting - {t});
    var r := if s.tickless then ResetNextUnblock(e) else e;
    NoLongerWaits(s, t);
    SameLists(e, r);
    MoveKeeps(r, t);
    SameLists(AddToReady(RemoveState(r, t), t), UnorderedWake(s, t));
  }

  lemma SuspendedWaits(s: State, t: nat)
    requires Consistent(s) && IsSuspended(s, t)
    ensures Waits(s, t)
  {
    UnreadyBag(s, t);
    assert t in multiset(s.suspended) && t in Bag(s);
    assert Bag(s)[t] <= 1;
    assert t !in multiset(s.terminating) && t !in multiset(s.ready[Prio(s, t)].items);
  }

  lemma PendingKeeps(s: State, t: nat)
    requires Consistent(s) && Waits(s, t) && t !in s.waiting && t !in s.pendingReady
    ensures Consistent(s.(pendingReady := s.pendingReady + [t]))
  {
    assert t !in multiset(s.pendingReady);
    assert Bag(s.(pendingReady := s.pendingReady + [t])) == Bag(s);
  }

  lemma ResumeFromISRKeeps(s: State, t: nat)
    requires Consistent(s) && t in s.prio
    ensures Consistent(ResumeFromISR(s, t))
  {
    hide AddToReady, RemoveState, Consistent;
    if IsSuspended(s, t) {
      SuspendedWaits(s, t);
      if s.depth > 0 {
        PendingKeeps(s, t);
      } else {
        MoveKeeps(s, t);
        SameLists(AddToReady(RemoveState(s, t), t), ResumeFromISR(s, t));
      }
    }
  }

  lemma NotifyKeeps(s: State, t: nat)
    requires Consistent(s) && Waits(s, t) && t !in s.waiting && t !in s.pendingReady
    ensures Consistent(Notify(s, t)) && Consistent(NotifyFromISR(s, t))
  {
    hide AddToReady, RemoveState, Consistent;
    MoveKeeps(s, t);
    PendingKeeps(s, t);
    SameLists(AddToReady(RemoveState(s, t), t), Notify(s, t));
    var r := if s.depth == 0 then AddToReady(RemoveState(s, t), t) else s.(pendingReady := s.pendingReady + [t]);
    SameLists(r, NotifyFromISR(s, t));
  }

  lemma AbortDelayKeeps(s: State, t: nat)
    requires Consistent(s) && t in s.prio
    ensures Consistent(AbortDelay(s, t))
  {
    hide AddToReady, RemoveState, RemoveEvent, Indexed, Blocked;
    var r := RemoveEvent(RemoveState(s, t), t);
    DetachKeeps(s, t);
    AddBag(r, t);
    AddIndexed(r, t);
    AddBlocked(r, t);
    DetachedTasks(s, t);
    AddedTasks(r, t);
    SameLists(AddToReady(r, t), AbortDelay(s, t));
  }

  lemma AddedTasks(s: State, t: nat)
    ensures AddToReady(s, t).prio == s.prio
  {
  }

  lemma UnreadyKeeps(s: State, t: nat)
    requires Consistent(s) && IsReady(s, t)
    ensures var r := Unready(s, t);
      Bag(r) == Bag(s) - multiset{t} && t !in Bag(r) && Indexed(r) && Blocked(r) && t !in r.waiting && t !in r.pendingReady
  {
    UnreadyBag(s, t);
    assert t in multiset(s.ready[Prio(s, t)].items);
    RemoveIndexed(s, t);
    RemoveBlocked(s, t);
  }

  lemma MoveListKeeps(s: State, t: nat, p: Priority)
    requires Consistent(s) && t in s.prio && IsReady(s, t)
    ensures Consistent(ChangePriority(s, t, p))
  {
    hide InsertEnd, RemoveReady;
    var m := s.prio[t := p];
    var r := Unready(s, t);
    UnreadyKeeps(s, t);
    ForgetKeeps(r, t, m);
    assert m.Keys == s.prio.Keys;
    assert Bag(r.(prio := m)) == Bag(r);
    AddBag(r.(prio := m), t);
    AddIndexed(r.(prio := m), t);
    AddBlocked(r.(prio := m), t);
  }

  lemma ChangePriorityKeeps(s: State, t: nat, p: Priority)
    requires Consistent(s) && t in s.prio
    ensures Consistent(ChangePriority(s, t, p))
  {
    if IsReady(s, t) { MoveListKeeps(s, t, p); } else { RepriorityBlocked(s, t, p); }
  }

  lemma RepriorityBlocked(s: State, t: nat, p: Priority)
    requires Consistent(s) && t in s.prio && !IsReady(s, t)
    ensures Consistent(ChangePriority(s, t, p))
  {
    var r := ChangePriority(s, t, p);
    assert Bag(r) == Bag(s);
    assert r.prio.Keys == s.prio.Keys;
    forall q: Priority ensures t !in s.ready[q].items {}
    assert ByPriority(r.ready, r.prio);
  }

  lemma ResumeAllKeeps(s: State)
    requires Partition(s) && s.depth > 0
    ensures Partition(ResumeAll(s))
  {
    hide Drain, CatchUp, OnOneList, Indexed, Blocked;
    if s.depth == 1 {
      assert |s.prio| > 0 by { assert s.current in s.prio; }
      var r := s.(depth := 0);
      SameLists(s, r);
      DrainKeeps(r);
      SameLists(Drain(r), ResetNextUnblock(Drain(r)));
      CatchUpKeeps(DrainPending(r), s.pended);
      SameLists(CatchUp(DrainPending(r), s.pended), ResumeAll(s));
    } else {
      SameLists(s, ResumeAll(s));
    }
  }

  lemma {:induction false} SameItemsSameBag(r: seq<ReadyList>, q: seq<ReadyList>)
    requires |r| == |q| && forall i :: 0 <= i < |r| ==> r[i].items == q[i].items
    ensures ReadyBag(r) == ReadyBag(q)
  {
    if |r| > 0 { SameItemsSameBag(r[1..], q[1..]); }
  }

  /** Moving the walks of the ready lists changes no list. */
  lemma WalkKeeps(s: State, r: State)
    requires Consistent(s) && NoneAbove(s.ready, r.topReady)
    requires forall i :: 0 <= i < MAX_PRIORITIES ==> r.ready[i].items == s.ready[i].items
    requires r.clock == s.clock && r.suspended == s.suspended && r.terminating == s.terminating && r.prio == s.prio
    requires r.waiting == s.waiting && r.pendingReady == s.pendingReady
    ensures Consistent(r)
  {
    SameItemsSameBag(r.ready, s.ready);
  }

  lemma InBag(s: State, p: Priority, t: nat)
    requires OnOneList(s) && t in s.ready[p].items
    ensures t in s.prio
  {
    ReadyBagUpdate(s.ready, p, s.ready[p]);
    assert t in multiset(s.ready[p].items);
    assert t in Bag(s);
  }

  lemma SwitchKeeps(s: State)
    requires Partition(s) && Enabled(s, ContextSwitch)
    ensures Partition(SwitchContext(s))
  {
    var r := SwitchContext(s);
    if s.depth == 0 {
      TopNonEmptyFinds(s.ready, s.topReady);
      InBag(s, r.topReady, r.current);
    }
    WalkKeeps(s, r);
  }

  // ----- main results -----------------------------------------------------------------------------

  lemma StepKeepsLists(s: State, e: Event)
    requires Partition(s) && Enabled(s, e)
    ensures Consistent(Step(s, e))
  {
    hide OnOneList, Indexed, Blocked, DoTick, TaskModel.Block, EventWake, UnorderedWake, ResumeAll, SwitchContext;
    hide Create, Delete, Cleanup, Suspend, AddToReady, RemoveState, ResumeFromISR, Notify, NotifyFromISR, AbortDelay;
    hide ChangePriority;
    match e
    case TickInterrupt => if s.depth == 0 { TickKeeps(s); } else { SameLists(s, Step(s, e)); }
    case BlockCurrent(wait, indefinite, onEvent) => BlockKeeps(s, wait, indefinite, onEvent);
    case Woken(t) => EventWakeKeeps(s, t);
    case WokenUnordered(t) => UnorderedWakeKeeps(s, t);
    case SchedulerSuspended => SameLists(s, Step(s, e));
    case SchedulerResumed => ResumeAllKeeps(s);
    case ContextSwitch => SwitchKeeps(s);
    case Created(t, p) => CreateKeeps(s, t, p);
    case Deleted(t) => if t == s.current { DeleteSelfKeeps(s); } else { DeleteOtherKeeps(s, t); }
    case IdleCleanup => CleanupKeeps(s);
    case TaskSuspended(t) => SuspendKeeps(s, t);
    case TaskResumed(t) => if t != s.current && IsSuspended(s, t) { MoveKeeps(s, t); }
    case ResumedFromISR(t) => ResumeFromISRKeeps(s, t);
    case Notified(t) => NotifyKeeps(s, t);
    case NotifiedFromISR(t) => NotifyKeeps(s, t);
    case DelayAborted(t) => AbortDelayKeeps(s, t);
    case PriorityChanged(t, p) => ChangePriorityKeeps(s, t, p);
  }

  lemma WakingSettles(s: State, e: Event)
    requires Partition(s) && Enabled(s, e)
    requires e.BlockCurrent? || e.Woken? || e.WokenUnordered? || e.ResumedFromISR? || e.Notified? || e.NotifiedFromISR?
      || e.DelayAborted?
    ensures Settled(Step(s, e)) && Step(s, e).current in Step(s, e).prio
  {
    hide OnOneList, Indexed, Blocked, SetAlarm, InsertEnd, RemoveReady, Without, WithoutOwner;
  }

  lemma OthersSettle(s: State, e: Event)
    requires Partition(s) && Enabled(s, e)
    requires e.SchedulerSuspended? || e.Created? || e.Deleted? || e.IdleCleanup? || e.TaskSuspended? || e.TaskResumed?
      || e.PriorityChanged?
    ensures Settled(Step(s, e)) && Step(s, e).current in Step(s, e).prio
  {
    hide OnOneList, Indexed, Blocked, InsertEnd, RemoveReady, Without, WithoutOwner;
    if e.Deleted? || e.TaskSuspended? { WithoutMembers(s.pendingReady, e.task); }
  }

  lemma StepSettles(s: State, e: Event)
    requires Partition(s) && Enabled(s, e)
    ensures Settled(Step(s, e)) && Step(s, e).current in Step(s, e).prio
  {
    if e.TickInterrupt? {
      hide Bag, Indexed, Blocked, DoTick;
      TickKeeps(s);
    } else if e.SchedulerResumed? {
      ResumeAllKeeps(s);
    } else if e.ContextSwitch? {
      SwitchKeeps(s);
    } else {
      hide Partition, Settled, Step, Enabled;
      if e.SchedulerSuspended? || e.Created? || e.Deleted? || e.IdleCleanup? || e.TaskSuspended? || e.TaskResumed?
         || e.PriorityChanged? {
        OthersSettle(s, e);
      } else {
        WakingSettles(s, e);
      }
    }
  }

  /** Every kernel operation keeps each task on exactly one list. */
  lemma StepKeepsPartition(s: State, e: Event)
    requires Partition(s) && Enabled(s, e)
    ensures Partition(Step(s, e))
  {
    StepKeepsLists(s, e);
    StepSettles(s, e);
  }

  lemma {:induction false} RunKeepsPartition(tr: seq<State>, es: seq<Event>, i: nat)
    requires Run(tr, es) && Partition(tr[0]) && i < |tr|
    ensures Partition(tr[i])
    decreases i
  {
    hide Step, Enabled, Partition;
    if i > 0 {
      RunKeepsPartition(tr, es, i - 1);
      StepKeepsPartition(tr[i - 1], es[i - 1]);
    }
  }

  lemma InitialPartition(t: nat, p: Priority, tickless: bool)
    ensures Partition(Initial(t, p, tickless))
  {
    var s := Initial(t, p, tickless);
    var none := seq(MAX_PRIORITIES, i => ReadyList([], 0));
    EmptyBag(none);
    ReadyBagUpdate(none, p, ReadyList([t], 0));
    assert s.ready == none[p := ReadyList([t], 0)];
    assert s.prio.Keys == {t};
    assert Bag(s) == multiset{t};
  }

  lemma {:induction false} EmptyBag(r: seq<ReadyList>)
    requires forall i :: 0 <= i < |r| ==> r[i].items == []
    ensures ReadyBag(r) == multiset{}
  {
    if |r| > 0 { EmptyBag(r[1..]); }
  }

  /** However many lists a task's state item is on, they add up to one if the task exists, to none if not. */
  lemma PlacesOfTask(s: State, t: nat)
    requires OnOneList(s) && Indexed(s)
    ensures multiset(s.ready[Prio(s, t)].items)[t] + multiset(Owners(s.clock.delayed))[t] + multiset(Owners(s.clock.overflow))[t]
      + multiset(s.suspended)[t] + multiset(s.terminating)[t] == if t in s.prio then 1 else 0
  {
    UnreadyBag(s, t);
    assert t in multiset(s.prio.Keys) <==> t in s.prio;
    assert Bag(s)[t] == multiset(s.prio.Keys)[t];
  }

  /** A task's state, by the list its state item is on, is one of five, never two. */
  lemma ExactlyOneList(s: State, t: nat)
    requires Partition(s)
    ensures t in s.prio <==>
      IsReady(s, t) || t in Owners(s.clock.delayed) || t in Owners(s.clock.overflow) || t in s.suspended || t in s.terminating
    ensures t in s.prio ==>
      multiset(s.ready[Prio(s, t)].items)[t] + multiset(Owners(s.clock.delayed))[t] + multiset(Owners(s.clock.overflow))[t]
      + multiset(s.suspended)[t] + multiset(s.terminating)[t] == 1
  {
    PlacesOfTask(s, t);
  }

  ghost function ReadyCount(r: seq<ReadyList>): nat {
    if |r| == 0 then 0 else |r[0].items| + ReadyCount(r[1..])
  }

  lemma {:induction false} ReadyBagSize(r: seq<ReadyList>)
    ensures |ReadyBag(r)| == ReadyCount(r)
  {
    if |r| > 0 { ReadyBagSize(r[1..]); }
  }

  /** The list lengths sum to uxCurrentNumberOfTasks. */
  lemma LengthsSumToTasks(s: State)
    requires Partition(s)
    ensures ReadyCount(s.ready) + |s.clock.delayed| + |s.clock.overflow| + |s.suspended| + |s.terminating| == |s.prio|
  {
    ReadyBagSize(s.ready);
    assert |Bag(s)| == |multiset(s.prio.Keys)|;
    assert |s.prio.Keys| == |s.prio|;
  }

  /**
    While any task is ready the search finds a list, and the task it picks is
    ready and at least as urgent as every ready task.
   */
  lemma SwitchPicksTop(s: State, t: nat)
    requires Partition(s) && s.depth == 0 && IsReady(s, t)
    ensures Enabled(s, ContextSwitch)
    ensures var r := SwitchContext(s);
      IsReady(r, r.current) && IsReady(s, r.current) && Prio(r, r.current) == r.topReady && Prio(s, t) <= Prio(r, r.current)
  {
    assert Prio(s, t) <= s.topReady && |s.ready[Prio(s, t)].items| > 0;
    TopNonEmptyFinds(s.ready, s.topReady);
    var p := TopNonEmpty(s.ready, s.topReady);
    assert SwitchContext(s).current in s.ready[p].items;
  }

  /** Tasks of the top priority take turns: the walk moves on by one and visits each. */
  lemma SwitchTakesTurns(s: State)
    requires Partition(s) && s.depth == 0 && Enabled(s, ContextSwitch)
    ensures var r := SwitchContext(s);
      var l := s.ready[r.topReady];
      r.current == VisitOrder([0] + l.items, l.index)[0]
      && VisitOrder([0] + l.items, r.ready[r.topReady].index) == VisitOrder([0] + l.items, l.index)[1..] + [r.current]
  {
    TopNonEmptyFinds(s.ready, s.topReady);
    var l := s.ready[TopNonEmpty(s.ready, s.topReady)];
    StepDeliversHead([0] + l.items, l.index);
  }
}
