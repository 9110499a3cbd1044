/**
  Whose turn it is among tasks of one priority (tasks.c, list.h): a task made ready is
  picked after the others, tasks made ready together in the order in which they were
  woken or were due, and a task that leaves takes nobody's turn.
 */
module ReadyOrder {
  import opened Lists
  import opened TaskModel
  import opened TaskPartition

  // ----- joining and leaving a ready list -------------------------------------------------------------

  /** The tasks of a ready list in the order in which switches will pick them; the one picked last comes last. */
  function Turns(l: ReadyList): seq<nat> {
    VisitOrder([0] + l.items, l.index)
  }

  /** ts after all of turns, or, the walk standing on the task whose turn it is, before that one. */
  function Behind(turns: seq<nat>, atEnd: bool, ts: seq<nat>): seq<nat> {
    if atEnd || |turns| == 0 then turns + ts else turns[..|turns| - 1] + ts + [turns[|turns| - 1]]
  }

  lemma JoinedTurns(l: ReadyList, t: nat)
    ensures var r := InsertEnd(l, t);
      Turns(r) == Behind(Turns(l), l.index == 0, [t]) && (r.index == 0 <==> l.index == 0)
  {
    hide VisitOrder;
    InsertEndIsVisitedLast([0] + l.items, l.index, t);
    if l.index == 0 {
      assert InsertAt([0] + l.items, |l.items| + 1, t) == [0] + (l.items + [t]);
    } else {
      assert InsertAt([0] + l.items, l.index, t) == [0] + InsertAt(l.items, l.index - 1, t);
    }
  }

  lemma LeftTurns(l: ReadyList, t: nat) returns (j: nat)
    requires t in l.items
    ensures j < |l.items| && Turns(l)[j] == t && Turns(RemoveReady(l, t)) == RemoveAt(Turns(l), j)
  {
    hide VisitOrder, Find;
    var i := Find(l.items, t);
    assert l.items[..|l.items|] == l.items;
    j := RemovePreservesVisitOrder([0] + l.items, l.index, i + 1);
    assert RemoveAt([0] + l.items, i + 1) == [0] + RemoveAt(l.items, i);
  }

  /** A task made ready is picked after every task of its priority but the one whose turn it is. */
  lemma JoinsBehind(s: State, t: nat)
    ensures var p := Prio(s, t);
      var l, r := s.ready[p], AddToReady(s, t).ready[p];
      && (forall q: Priority :: q != p ==> AddToReady(s, t).ready[q] == s.ready[q])
      && Turns(r) == Behind(Turns(l), l.index == 0, [t])
  {
    hide Turns, InsertEnd;
    JoinedTurns(s.ready[Prio(s, t)], t);
  }

  /** A ready task taken off its list leaves the others their turns. */
  lemma LeavesTurns(s: State, t: nat) returns (j: nat)
    requires IsReady(s, t)
    ensures var p := Prio(s, t);
      var l, r := s.ready[p], RemoveState(s, t).ready[p];
      && (forall q: Priority :: q != p ==> RemoveState(s, t).ready[q] == s.ready[q])
      && j < |l.items| && Turns(l)[j] == t && Turns(r) == RemoveAt(Turns(l), j)
  {
    hide RemoveReady, Without, WithoutOwner;
    j := LeftTurns(s.ready[Prio(s, t)], t);
  }

  // ----- several tasks made ready together --------------------------------------------------------------

  function OfPriority(prio: map<nat, Priority>, ts: seq<nat>, p: Priority): seq<nat> {
    if |ts| == 0 then []
    else (if (if ts[0] in prio then prio[ts[0]] else 0) == p then [ts[0]] else []) + OfPriority(prio, ts[1..], p)
  }

  lemma BehindAgain(turns: seq<nat>, atEnd: bool, t: nat, ts: seq<nat>)
    requires atEnd || |turns| > 0
    ensures Behind(Behind(turns, atEnd, [t]), atEnd, ts) == Behind(turns, atEnd, [t] + ts)
  {
  }

  lemma NobodyBehind(turns: seq<nat>, atEnd: bool)
    ensures Behind(turns, atEnd, []) == turns
  {
  }

  lemma TurnsOnList(l: ReadyList)
    ensures |Turns(l)| == |l.items| && (l.index > 0 ==> |Turns(l)| > 0)
  {
  }

  /** One more task made ready, before those in ts. */
  lemma OneMoreBehind(s: State, t: nat, ts: seq<nat>, p: Priority, r: ReadyList)
    requires var l := AddToReady(s, t).ready[p]; Turns(r) == Behind(Turns(l), l.index == 0, OfPriority(s.prio, ts, p))
    ensures Turns(r) == Behind(Turns(s.ready[p]), s.ready[p].index == 0, OfPriority(s.prio, [t] + ts, p))
  {
    hide Turns, Behind, InsertEnd;
    var l := s.ready[p];
    assert ([t] + ts)[1..] == ts;
    TurnsOnList(l);
    if p == Prio(s, t) {
      JoinedTurns(l, t);
      BehindAgain(Turns(l), l.index == 0, t, OfPriority(s.prio, ts, p));
    } else {
      assert [] + OfPriority(s.prio, ts, p) == OfPriority(s.prio, ts, p);
    }
  }

  lemma NotReadyNotMoved(s: State, t: nat)
    requires !IsReady(s, t)
    ensures RemoveState(s, t).ready == s.ready && RemoveState(s, t).prio == s.prio
  {
    hide Without, WithoutOwner;
  }

  /** Tasks made ready when the scheduler is resumed take their turns in the order in which they were woken. */
  lemma {:induction false} PendingInOrder(s: State, p: Priority)
    requires Consistent(s)
    ensures var l := s.ready[p];
      Turns(Drain(s).ready[p]) == Behind(Turns(l), l.index == 0, OfPriority(s.prio, s.pendingReady, p))
    decreases |s.pendingReady|
  {
    hide Consistent, Turns, Behind, RemoveState, AddToReady, OfPriority;
    if |s.pendingReady| == 0 {
      NobodyBehind(Turns(s.ready[p]), s.ready[p].index == 0);
      NobodyOf(s.prio, p);
    } else {
      var t, u := s.pendingReady[0], s.(pendingReady := s.pendingReady[1..]);
      assert s.pendingReady == [t] + u.pendingReady;
      PendingNotReady(s, t);
      DrainHeadKeeps(s);
      HeadDrained(s);
      PendingInOrder(DrainHead(s), p);
      OneMoreBehind(s, t, u.pendingReady, p, Drain(s).ready[p]);
    }
  }

  lemma HeadDrained(s: State)
    requires |s.pendingReady| > 0 && !IsReady(s, s.pendingReady[0])
    ensures var t, h := s.pendingReady[0], DrainHead(s);
      h.ready == AddToReady(s, t).ready && h.pendingReady == s.pendingReady[1..] && h.prio == s.prio
  {
    hide InsertEnd, Without, WithoutOwner;
    var t, u := s.pendingReady[0], s.(pendingReady := s.pendingReady[1..]);
    NotReadyNotMoved(u, t);
  }

  lemma NobodyOf(prio: map<nat, Priority>, p: Priority)
    ensures OfPriority(prio, [], p) == []
  {
  }

  lemma PendingNotReady(s: State, t: nat)
    requires Consistent(s) && t in s.pendingReady
    ensures !IsReady(s, t) && !IsReady(s.(pendingReady := s.pendingReady[1..]), t)
  {
  }

  lemma SameJoin(s: State, r: State, t: nat)
    requires s.ready == r.ready && s.prio == r.prio
    ensures AddToReady(s, t).ready == AddToReady(r, t).ready && AddToReady(s, t).prio == s.prio
  {
  }

  function DueOwners(l: seq<Item>, now: Tick): seq<nat> {
    if |l| == 0 || now < l[0].value then [] else [l[0].owner] + DueOwners(l[1..], now)
  }

  /** Tasks that one tick wakes take their turns in the order of their wake times. */
  lemma {:induction false} DueInOrder(s: State, p: Priority)
    ensures var l := s.ready[p];
      Turns(Unblock(s).ready[p]) == Behind(Turns(l), l.index == 0, OfPriority(s.prio, DueOwners(s.clock.delayed, s.clock.tick), p))
    decreases |s.clock.delayed|
  {
    hide Turns, Behind, AddToReady, OfPriority, Without;
    var d := s.clock.delayed;
    if |d| == 0 || s.clock.tick < d[0].value {
      NobodyBehind(Turns(s.ready[p]), s.ready[p].index == 0);
      NobodyOf(s.prio, p);
    } else {
      var u := RemoveEvent(s.(clock := s.clock.(delayed := d[1..])), d[0].owner);
      AddKeepsClock(u, d[0].owner);
      DueInOrder(UnblockHead(s), p);
      SameJoin(u, s, d[0].owner);
      OneMoreBehind(s, d[0].owner, DueOwners(d[1..], s.clock.tick), p, Unblock(s).ready[p]);
    }
  }

  lemma AddKeepsClock(s: State, t: nat)
    ensures AddToReady(s, t).clock == s.clock
  {
  }
}
