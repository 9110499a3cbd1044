/**
  What each operation on an event group does (event_groups.c), bit by bit and task by
  task: which bits it leaves set, said of the calls that are waiting rather than of the
  masks the code computes, and which calls wait.
 */
module EventGroupLaws {
  import opened EventGroupModel

  function Part(b: Bits, x: Bits): Bits {
    b & x
  }

  predicate In(x: Bits, b: Bits) {
    Part(b, x) != 0
  }

  /** One bit. */
  predicate Single(x: Bits) {
    x != 0 && x & (x - 1) == 0
  }

  lemma PartOfUnion(x: Bits, a: Bits, b: Bits)
    ensures Part(With(a, b), x) == With(Part(a, x), Part(b, x))
  {
  }

  lemma NothingInNeither(p: Bits, q: Bits)
    ensures With(p, q) == 0 ==> p == 0 && q == 0
    ensures With(0, 0) == 0
  {
  }

  lemma InUnion(x: Bits, a: Bits, b: Bits)
    ensures In(x, With(a, b)) <==> In(x, a) || In(x, b)
  {
    hide Part, With;
    PartOfUnion(x, a, b);
    NothingInNeither(Part(a, x), Part(b, x));
  }

  lemma AllOrNone(x: Bits, b: Bits)
    requires Single(x)
    ensures x != 0 && (Part(b, x) == 0 || Part(b, x) == x)
  {
  }

  lemma Taken(x: Bits, a: Bits, b: Bits)
    ensures Part(b, x) == x ==> Part(Minus(a, b), x) == 0
  {
  }

  lemma Left(x: Bits, a: Bits, b: Bits)
    ensures Part(b, x) == 0 ==> Part(Minus(a, b), x) == Part(a, x)
  {
  }

  lemma InDifference(x: Bits, a: Bits, b: Bits)
    requires Single(x)
    ensures In(x, Minus(a, b)) <==> In(x, a) && !In(x, b)
  {
    hide Part, Minus, Single;
    AllOrNone(x, b);
    Taken(x, a, b);
    Left(x, a, b);
  }

  lemma InNone(x: Bits)
    ensures !In(x, 0)
  {
  }

  /** A waiting call whose condition bits b meet, and that asked to clear bits, x among them. */
  ghost predicate Consumes(w: Waiter, b: Bits, x: Bits) {
    Matches(b, w.value) && Clears(w.value) && In(x, Waited(w.value))
  }

  lemma {:induction false} MaskedIff(ws: seq<Waiter>, b: Bits, x: Bits)
    ensures In(x, ClearMask(ws, b)) <==> exists w :: w in ws && Consumes(w, b, x)
  {
    hide Matches, Clears, Waited, With, In;
    if |ws| == 0 {
      InNone(x);
    } else {
      MaskedIff(ws[1..], b, x);
      assert ws == [ws[0]] + ws[1..];
      InNone(x);
      InUnion(x, if Matches(b, ws[0].value) && Clears(ws[0].value) then Waited(ws[0].value) else 0, ClearMask(ws[1..], b));
      assert (exists w :: w in ws && Consumes(w, b, x)) <==> Consumes(ws[0], b, x) || exists w :: w in ws[1..] && Consumes(w, b, x);
    }
  }

  /**
    A set leaves a bit set if and only if it was set before or by it, and no waiting call
    that the bits satisfy asked to clear it.
   */
  lemma SetLeaves(g: Group, toSet: Bits, x: Bits)
    requires Single(x)
    ensures In(x, SetBits(g, toSet).bits) <==>
      (In(x, g.bits) || In(x, toSet)) && !(exists w :: w in g.waiters && Consumes(w, With(g.bits, toSet), x))
  {
    hide In, With, Minus, ClearMask, Unmatched, Store, Single, Consumes;
    var b := With(g.bits, toSet);
    MaskedIff(g.waiters, b, x);
    InUnion(x, g.bits, toSet);
    InDifference(x, b, ClearMask(g.waiters, b));
  }

  /** What e takes away: for the waiting calls a set satisfies, for the caller itself, or on request. */
  ghost predicate Removes(g: Group, e: Event, x: Bits) {
    match e
    case Sets(b) => exists w :: w in g.waiters && Consumes(w, With(g.bits, b), x)
    case Clear(b) => In(x, b)
    case Waits(_, w, clear, all, _) => TestWait(g.bits, w, all) && clear && In(x, w)
    case Syncs(_, b, w, _) =>
      || (exists y :: y in g.waiters && Consumes(y, With(g.bits, b), x))
      || (TestWait(With(g.bits, b), w, true) && In(x, w))
    case TimesOut(_) => false
    case Returns(t) =>
      t in g.stored && t in g.asked && !WasUnblocked(g.stored[t]) && Consumes(Waiter(t, g.asked[t]), g.bits, x)
  }

  function Adds(e: Event): Bits {
    match e
    case Sets(b) => b
    case Syncs(_, b, _, _) => b
    case _ => 0
  }

  lemma HasAll(b: Bits, w: Bits)
    ensures Has(b, w) <==> TestWait(b, w, true)
  {
  }

  lemma SyncLeaves(g: Group, t: nat, toSet: Bits, w: Bits, block: bool, x: Bits)
    requires Single(x)
    ensures In(x, Sync(g, t, toSet, w, block).bits) <==>
      (In(x, g.bits) || In(x, toSet)) && !Removes(g, Syncs(t, toSet, w, block), x)
  {
    hide In, With, Minus, Has, TestWait, Encode, SetBits, Single, Consumes;
    SetLeaves(g, toSet, x);
    HasAll(With(g.bits, toSet), w);
    InDifference(x, SetBits(g, toSet).bits, w);
  }

  lemma ReturnLeaves(g: Group, t: nat, x: Bits)
    requires Single(x) && t in g.stored && t in g.asked
    ensures In(x, Return(g, t).bits) <==> In(x, g.bits) && !Removes(g, Returns(t), x)
  {
    hide In, Minus, Matches, Clears, WasUnblocked, Waited, Single;
    InDifference(x, g.bits, Waited(g.asked[t]));
  }

  /** Every operation leaves exactly the bits that were there or that it adds, but for those it removes. */
  lemma StepLeaves(g: Group, e: Event, x: Bits)
    requires Enabled(g, e) && Single(x)
    ensures In(x, Step(g, e).bits) <==> (In(x, g.bits) || In(x, Adds(e))) && !Removes(g, e, x)
  {
    hide In, With, Minus, Has, TestWait, Encode, SetBits, Sync, Return, Single, Consumes, NoControl, WasUnblocked;
    InNone(x);
    match e
    case Sets(b) => SetLeaves(g, b, x);
    case Clear(b) => InDifference(x, g.bits, b);
    case Waits(_, w, _, _, _) => InDifference(x, g.bits, w);
    case Syncs(t, b, w, block) => SyncLeaves(g, t, b, w, block, x);
    case TimesOut(_) =>
    case Returns(t) => ReturnLeaves(g, t, x);
  }

  // ----- which calls wait ------------------------------------------------------------------------------

  ghost predicate OnList(g: Group, t: nat) {
    exists w :: w in g.waiters && w.task == t
  }

  /** A call that blocked waits on the list or is about to return. */
  ghost predicate Accounted(g: Group) {
    forall t: nat :: t in g.asked ==> t in g.stored || OnList(g, t)
  }

  /** e is a call by t that blocks, its condition not being met. */
  ghost predicate Blocks(g: Group, e: Event, t: nat) {
    match e
    case Waits(x, w, _, all, block) => x == t && block && !TestWait(g.bits, w, all)
    case Syncs(x, b, w, block) => x == t && block && !TestWait(With(g.bits, b), w, true)
    case _ => false
  }

  /** ... asking for this. */
  function Asked(e: Event): Bits {
    match e
    case Waits(_, w, clear, all, _) => Encode(w, clear, all)
    case Syncs(_, _, w, _) => Encode(w, true, true)
    case _ => 0
  }

  lemma SetAsksNothing(g: Group, b: Bits)
    ensures SetBits(g, b).asked == g.asked
  {
    hide Unmatched, Store, ClearMask, Minus, With;
  }

  /** A call blocks if and only if it may and its condition is not met, and a blocked one stays so till it returns. */
  lemma StepAsks(g: Group, e: Event, t: nat)
    requires Enabled(g, e)
    ensures t in Step(g, e).asked <==> Blocks(g, e, t) || (t in g.asked && e != Returns(t))
    ensures Blocks(g, e, t) ==> Step(g, e).asked[t] == Asked(e)
    ensures t in g.asked && t in Step(g, e).asked ==> Step(g, e).asked[t] == g.asked[t]
  {
    hide Unmatched, Store, ClearMask, Minus, With, Has, TestWait, Encode, Matches, NoControl, WasUnblocked, Clears, SetBits, Waited;
    match e
    case Sets(b) => SetAsksNothing(g, b);
    case Syncs(_, b, w, _) =>
      SetAsksNothing(g, b);
      HasAll(With(g.bits, b), w);
    case _ =>
  }

  lemma Listed(g: Group, t: nat) returns (w: Waiter)
    requires OnList(g, t)
    ensures w in g.waiters && w.task == t
  {
    w :| w in g.waiters && w.task == t;
  }

  lemma SetAccounts(g: Group, b: Bits, t: nat)
    requires Inv(g) && NoControl(b) && (t in g.stored || OnList(g, t))
    ensures t in SetBits(g, b).stored || OnList(SetBits(g, b), t)
  {
    hide Matches, With, Minus, ClearMask, Unmatched, Store, NoControl, Waited, WasUnblocked, OnList;
    var r := SetBits(g, b);
    if t in g.stored {
      StoreMembers(g.waiters, With(g.bits, b), g.stored, t);
    } else {
      var w := Listed(g, t);
      SetReleasesExactly(g, b, w);
      if w in r.waiters { OnListIf(r, w); }
    }
  }

  lemma OnListIf(g: Group, w: Waiter)
    requires w in g.waiters
    ensures OnList(g, w.task)
  {
  }

  lemma PlaceAccounts(g: Group, x: nat, v: Bits, t: nat)
    requires t == x || t in g.stored || OnList(g, t)
    ensures t in Place(g, x, v).stored || OnList(Place(g, x, v), t)
  {
    var r := Place(g, x, v);
    if t == x {
      assert Waiter(x, v) in r.waiters;
    } else if OnList(g, t) {
      var w := Listed(g, t);
      assert w in r.waiters;
    }
  }

  lemma TimeOutAccounts(g: Group, i: nat, t: nat)
    requires i < |g.waiters| && (t in g.stored || OnList(g, t))
    ensures t in TimeOut(g, i).stored || OnList(TimeOut(g, i), t)
  {
    if t !in g.stored && g.waiters[i].task != t {
      var w := Listed(g, t);
      var j :| 0 <= j < |g.waiters| && g.waiters[j] == w;
      assert TimeOut(g, i).waiters[if j < i then j else j - 1] == w;
    }
  }

  lemma SyncAccounts(g: Group, x: nat, b: Bits, w: Bits, block: bool, t: nat)
    requires Inv(g) && NoControl(b) && t in Sync(g, x, b, w, block).asked && (t in g.asked ==> t in g.stored || OnList(g, t))
    ensures t in Sync(g, x, b, w, block).stored || OnList(Sync(g, x, b, w, block), t)
  {
    hide Inv, SetBits, Minus, With, Has, Encode, NoControl, OnList;
    var s := SetBits(g, b);
    SetAsksNothing(g, b);
    if t in g.asked { SetAccounts(g, b, t); }
    if Has(With(g.bits, b), w) {
      if OnList(s, t) { SameList(s, s.(bits := Minus(s.bits, w)), t); }
    } else if block {
      PlaceAccounts(s, x, Encode(w, true, true), t);
    }
  }

  lemma SameList(g: Group, r: Group, t: nat)
    requires OnList(g, t) && r.waiters == g.waiters
    ensures OnList(r, t)
  {
  }

  lemma StepAccounts(g: Group, e: Event)
    requires Inv(g) && Accounted(g) && Enabled(g, e)
    ensures Accounted(Step(g, e))
  {
    hide Inv, SetBits, Sync, Minus, With, Has, TestWait, Encode, NoControl, OnList, Matches, Waited, WasUnblocked, Clears;
    var r := Step(g, e);
    forall t: nat | t in r.asked ensures t in r.stored || OnList(r, t) {
      match e
      case Sets(b) =>
        SetAsksNothing(g, b);
        SetAccounts(g, b, t);
      case Clear(b) => if OnList(g, t) { SameList(g, r, t); }
      case Waits(x, w, clear, all, block) =>
        if r == Place(g, x, Encode(w, clear, all)) { PlaceAccounts(g, x, Encode(w, clear, all), t); }
        else if OnList(g, t) { SameList(g, r, t); }
      case Syncs(x, b, w, block) => SyncAccounts(g, x, b, w, block, t);
      case TimesOut(i) => TimeOutAccounts(g, i, t);
      case Returns(x) => if OnList(g, t) { SameList(g, r, t); }
    }
  }

  /** Over every run, a call that blocked is on the list, or taken off it and about to return: nobody is forgotten. */
  lemma {:induction false} NobodyForgotten(tr: seq<Group>, es: seq<Event>, i: nat)
    requires Run(tr, es) && tr[0] == Group(0, [], map[], map[]) && i < |tr|
    ensures forall t: nat :: t in tr[i].asked ==> t in tr[i].stored || exists w :: w in tr[i].waiters && w.task == t
    decreases i
  {
    hide Step, Enabled, Inv;
    if i > 0 {
      NobodyForgotten(tr, es, i - 1);
      assert Accounted(tr[i - 1]);
      RunKeepsInv(tr, es, i - 1);
      StepAccounts(tr[i - 1], es[i - 1]);
    }
  }

  lemma NothingToMask(b: Bits)
    requires NoControl(b)
    ensures Minus(b, CONTROL) == b
  {
  }

  /** Over every run, a call that timed out returns the bits there are when it runs again, late arrivals included. */
  lemma TimedOutReturnsPresent(tr: seq<Group>, es: seq<Event>, i: nat, t: nat)
    requires Run(tr, es) && tr[0] == Group(0, [], map[], map[]) && i < |tr|
    requires t in tr[i].stored && !WasUnblocked(tr[i].stored[t])
    ensures Result(tr[i], t) == tr[i].bits
  {
    hide Step, Enabled, NoControl, WasUnblocked, Minus;
    RunKeepsInv(tr, es, i);
    NothingToMask(tr[i].bits);
  }
}
