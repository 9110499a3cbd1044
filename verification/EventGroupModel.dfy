/**
  Event groups (event_groups.c) as a value: 24 event bits and the tasks waiting
  for them, whose item values carry the bits waited for and, in the top byte,
  how.  One step per section run with the scheduler suspended.
 */
module EventGroupModel {
  type Bits = bv32

  const CLEAR_ON_EXIT: Bits := 0x0100_0000
  const UNBLOCKED_BY_SET: Bits := 0x0200_0000
  const WAIT_FOR_ALL: Bits := 0x0400_0000
  const CONTROL: Bits := 0xFF00_0000
  const IN_USE: Bits := 0x8000_0000        // taskEVENT_LIST_ITEM_VALUE_IN_USE

  datatype Waiter = Waiter(task: nat, value: Bits)

  datatype Group = Group(
    bits: Bits,                 // uxEventBits
    waiters: seq<Waiter>,       // xTasksWaitingForBits
    asked: map<nat, Bits>,      // what each task blocked in a call asked for, as its item value
    stored: map<nat, Bits>      // the item value of a task taken off the list that has not run again
  )

  /** prvTestWaitCondition */
  predicate TestWait(bits: Bits, waitFor: Bits, all: bool) {
    if all then bits & waitFor == waitFor else bits & waitFor != 0
  }

  function With(a: Bits, b: Bits): Bits {
    a | b
  }

  /** The item value of a blocking call. */
  function Encode(waitFor: Bits, clear: bool, all: bool): Bits {
    With(waitFor, Flags(clear, all))
  }

  function Flags(clear: bool, all: bool): Bits {
    (if clear then CLEAR_ON_EXIT else 0) | (if all then WAIT_FOR_ALL else 0) | IN_USE
  }

  function Waited(v: Bits): Bits {
    v & !CONTROL
  }

  function Minus(a: Bits, b: Bits): Bits {
    a & !b
  }

  /** The item value xEventGroupSetBits leaves a task it releases with. */
  function Told(b: Bits): Bits {
    b | UNBLOCKED_BY_SET | IN_USE
  }

  predicate Has(b: Bits, w: Bits) {
    b & w == w
  }

  predicate Clears(v: Bits) {
    v & CLEAR_ON_EXIT != 0
  }

  predicate WasUnblocked(v: Bits) {
    v & UNBLOCKED_BY_SET != 0
  }

  predicate ForAll(v: Bits) {
    v & WAIT_FOR_ALL != 0
  }

  predicate SomeOf(w: Bits, bits: Bits) {
    w & bits != 0
  }

  predicate AllOf(w: Bits, bits: Bits) {
    w & bits == w
  }

  /** The test xEventGroupSetBits applies to an item value. */
  predicate Matches(bits: Bits, v: Bits) {
    if !ForAll(v) then SomeOf(Waited(v), bits) else AllOf(Waited(v), bits)
  }

  predicate NoControl(b: Bits) {
    b & CONTROL == 0
  }

  predicate OnlyControl(b: Bits) {
    b & !CONTROL == 0
  }

  // ----- bit facts ---------------------------------------------------------------------------

  lemma WaitedIsKept(w: Bits, c: Bits)
    requires NoControl(w) && OnlyControl(c)
    ensures Waited(With(w, c)) == w
  {
  }

  /** Bits without control bits leave each flag of a control byte as it is. */
  lemma ClearsIsKept(w: Bits, c: Bits)
    requires NoControl(w)
    ensures Clears(With(w, c)) == Clears(c)
  {
  }

  lemma UnblockedIsKept(w: Bits, c: Bits)
    requires NoControl(w)
    ensures WasUnblocked(With(w, c)) == WasUnblocked(c)
  {
  }

  lemma ForAllIsKept(w: Bits, c: Bits)
    requires NoControl(w)
    ensures ForAll(With(w, c)) == ForAll(c)
  {
  }

  lemma FlagsMean(clear: bool, all: bool)
    ensures var c := Flags(clear, all);
      OnlyControl(c) && (Clears(c) <==> clear) && !WasUnblocked(c) && (ForAll(c) <==> all)
  {
  }

  /** The item value says what the caller asked for. */
  lemma EncodeMeans(w: Bits, clear: bool, all: bool)
    requires NoControl(w)
    ensures var v := Encode(w, clear, all);
      Waited(v) == w && (Clears(v) <==> clear) && !WasUnblocked(v) && (ForAll(v) <==> all)
  {
    hide Waited, Clears, WasUnblocked, ForAll, Flags, NoControl, OnlyControl, With;
    var c := Flags(clear, all);
    FlagsMean(clear, all);
    WaitedIsKept(w, c);
    ClearsIsKept(w, c);
    UnblockedIsKept(w, c);
    ForAllIsKept(w, c);
  }

  lemma TestsAlike(b: Bits, w: Bits)
    ensures SomeOf(w, b) == TestWait(b, w, false) && AllOf(w, b) == TestWait(b, w, true)
  {
  }

  lemma EncodeMatches(w: Bits, clear: bool, all: bool, b: Bits)
    requires NoControl(w)
    ensures Matches(b, Encode(w, clear, all)) <==> TestWait(b, w, all)
  {
    hide Waited, Clears, WasUnblocked, ForAll, Encode, NoControl, SomeOf, AllOf, TestWait;
    EncodeMeans(w, clear, all);
    TestsAlike(b, w);
  }

  lemma AllOfFewer(b: Bits, c: Bits, w: Bits)
    ensures AllOf(w, Minus(b, c)) ==> AllOf(w, b)
  {
  }

  lemma SomeOfFewer(b: Bits, c: Bits, w: Bits)
    ensures SomeOf(w, Minus(b, c)) ==> SomeOf(w, b)
  {
  }

  /** Clearing bits satisfies nobody. */
  lemma FewerBits(b: Bits, c: Bits, v: Bits)
    ensures Matches(Minus(b, c), v) ==> Matches(b, v)
  {
    hide Waited, ForAll, AllOf, SomeOf, Minus;
    AllOfFewer(b, c, Waited(v));
    SomeOfFewer(b, c, Waited(v));
  }

  lemma FewerNoControl(b: Bits, c: Bits)
    requires NoControl(b)
    ensures NoControl(Minus(b, c))
  {
  }

  /** What a released task is told is the bits that released it. */
  lemma StoredMeans(b: Bits)
    requires NoControl(b)
    ensures WasUnblocked(Told(b)) && Waited(Told(b)) == b
  {
  }

  lemma UnionNoControl(a: Bits, b: Bits)
    requires NoControl(a) && NoControl(b)
    ensures NoControl(With(a, b))
  {
  }

  // ----- the operations --------------------------------------------------------------------------

  /** The waiters that bits b leave waiting, in order. */
  function Unmatched(ws: seq<Waiter>, b: Bits): seq<Waiter> {
    if |ws| == 0 then [] else (if Matches(b, ws[0].value) then [] else [ws[0]]) + Unmatched(ws[1..], b)
  }

  /** The bits to clear for those it releases. */
  function ClearMask(ws: seq<Waiter>, b: Bits): Bits {
    if |ws| == 0 then 0
    else With(if Matches(b, ws[0].value) && Clears(ws[0].value) then Waited(ws[0].value) else 0, ClearMask(ws[1..], b))
  }

  /** The item values of those it releases. */
  function Store(ws: seq<Waiter>, b: Bits, stored: map<nat, Bits>): map<nat, Bits> {
    if |ws| == 0 then stored
    else Store(ws[1..], b, if Matches(b, ws[0].value) then stored[ws[0].task := Told(b)] else stored)
  }

  /** xEventGroupSetBits */
  function SetBits(g: Group, toSet: Bits): Group {
    var b := With(g.bits, toSet);
    g.(bits := Minus(b, ClearMask(g.waiters, b)), waiters := Unmatched(g.waiters, b), stored := Store(g.waiters, b, g.stored))
  }

  /** xEventGroupClearBits */
  function ClearBits(g: Group, clear: Bits): Group {
    g.(bits := Minus(g.bits, clear))
  }

  /** vTaskPlaceOnUnorderedEventList */
  function Place(g: Group, t: nat, v: Bits): Group {
    g.(waiters := g.waiters + [Waiter(t, v)], asked := g.asked[t := v])
  }

  /** xEventGroupWaitBits up to the point where the task may block. */
  function WaitBits(g: Group, t: nat, w: Bits, clear: bool, all: bool, block: bool): Group {
    if TestWait(g.bits, w, all) then (if clear then ClearBits(g, w) else g)
    else if block then Place(g, t, Encode(w, clear, all)) else g
  }

  /** xEventGroupSync up to the point where the task may block. */
  function Sync(g: Group, t: nat, toSet: Bits, w: Bits, block: bool): Group {
    var s := SetBits(g, toSet);
    if Has(With(g.bits, toSet), w) then s.(bits := Minus(s.bits, w))
    else if block then Place(s, t, Encode(w, true, true)) else s
  }

  /** The tick takes waiter i off the list. */
  function TimeOut(g: Group, i: nat): Group
    requires i < |g.waiters|
  {
    g.(waiters := g.waiters[..i] + g.waiters[i + 1..], stored := g.stored[g.waiters[i].task := g.waiters[i].value])
  }

  /** A task that blocked runs again and returns: a timed-out one clears bits that came in the meantime. */
  function Return(g: Group, t: nat): Group
    requires t in g.stored && t in g.asked
  {
    var r := g.(stored := g.stored - {t}, asked := g.asked - {t});
    if !WasUnblocked(g.stored[t]) && Matches(g.bits, g.asked[t]) && Clears(g.asked[t])
    then r.(bits := Minus(g.bits, Waited(g.asked[t]))) else r
  }

  /** ... with this value. */
  function Result(g: Group, t: nat): Bits
    requires t in g.stored
  {
    if WasUnblocked(g.stored[t]) then Waited(g.stored[t]) else Minus(g.bits, CONTROL)
  }

  datatype Event =
    | Sets(toSet: Bits)
    | Clear(bits: Bits)
    | Waits(task: nat, waitFor: Bits, clear: bool, all: bool, block: bool)
    | Syncs(task: nat, toSet: Bits, waitFor: Bits, block: bool)
    | TimesOut(i: nat)
    | Returns(task: nat)

  /** The arguments the code asserts; a task blocked in one call makes no other. */
  predicate Enabled(g: Group, e: Event) {
    match e
    case Sets(b) => NoControl(b)
    case Clear(b) => NoControl(b)
    case Waits(t, w, _, _, _) => NoControl(w) && w != 0 && t !in g.asked
    case Syncs(t, b, w, _) => NoControl(b) && NoControl(w) && w != 0 && t !in g.asked
    case TimesOut(i) => i < |g.waiters|
    case Returns(t) => t in g.stored && t in g.asked
  }

  function Step(g: Group, e: Event): Group
    requires Enabled(g, e)
  {
    match e
    case Sets(b) => SetBits(g, b)
    case Clear(b) => ClearBits(g, b)
    case Waits(t, w, clear, all, block) => WaitBits(g, t, w, clear, all, block)
    case Syncs(t, b, w, block) => Sync(g, t, b, w, block)
    case TimesOut(i) => TimeOut(g, i)
    case Returns(t) => Return(g, t)
  }

  // ----- what a set does --------------------------------------------------------------------------

  lemma {:induction false} UnmatchedMembers(ws: seq<Waiter>, b: Bits)
    ensures forall w :: w in Unmatched(ws, b) <==> w in ws && !Matches(b, w.value)
  {
    hide Matches;
    if |ws| > 0 {
      UnmatchedMembers(ws[1..], b);
      assert ws == [ws[0]] + ws[1..];
    }
  }

  predicate NoTwice(ws: seq<Waiter>) {
    forall i, j :: 0 <= i < j < |ws| ==> ws[i].task != ws[j].task
  }

  /** Each waiter is released, and told the bits, if and only if it matches; nobody else is affected. */
  lemma {:induction false} StoreMembers(ws: seq<Waiter>, b: Bits, stored: map<nat, Bits>, t: nat)
    requires NoTwice(ws)
    ensures t in Store(ws, b, stored) <==> t in stored || exists w :: w in ws && w.task == t && Matches(b, w.value)
    ensures (exists w :: w in ws && w.task == t && Matches(b, w.value)) ==>
      t in Store(ws, b, stored) && Store(ws, b, stored)[t] == Told(b)
    ensures t in stored && !(exists w :: w in ws && w.task == t && Matches(b, w.value)) ==>
      t in Store(ws, b, stored) && Store(ws, b, stored)[t] == stored[t]
  {
    hide Matches;
    if |ws| > 0 {
      assert ws == [ws[0]] + ws[1..];
      StoreMembers(ws[1..], b, if Matches(b, ws[0].value) then stored[ws[0].task := Told(b)] else stored, t);
    }
  }

  lemma {:induction false} UnmatchedNoTwice(ws: seq<Waiter>, b: Bits)
    requires NoTwice(ws)
    ensures NoTwice(Unmatched(ws, b))
  {
    hide Matches;
    if |ws| > 0 {
      UnmatchedNoTwice(ws[1..], b);
      UnmatchedMembers(ws[1..], b);
      forall w | w in ws[1..] ensures w.task != ws[0].task { var i :| 0 <= i < |ws| - 1 && ws[1..][i] == w; }
    }
  }

  /**
    A set releases exactly the tasks whose condition the new bits meet, all of
    them judged by the same bits, before any are cleared; each is told those
    bits, which meet its own condition.
   */
  lemma SetReleasesExactly(g: Group, toSet: Bits, w: Waiter)
    requires NoControl(g.bits) && NoControl(toSet) && NoTwice(g.waiters) && w in g.waiters && w.task !in g.stored
    ensures var r, b := SetBits(g, toSet), With(g.bits, toSet);
      && (w in r.waiters <==> !Matches(b, w.value))
      && (w.task in r.stored <==> Matches(b, w.value))
      && (Matches(b, w.value) ==> WasUnblocked(r.stored[w.task]) && Waited(r.stored[w.task]) == b)
  {
    hide Matches, With, Minus, Told, Waited, WasUnblocked, ClearMask, NoControl;
    var b := With(g.bits, toSet);
    UnmatchedMembers(g.waiters, b);
    StoreMembers(g.waiters, b, g.stored, w.task);
    UnionNoControl(g.bits, toSet);
    StoredMeans(b);
    if x: Waiter :| x in g.waiters && x.task == w.task && Matches(b, x.value) {
      var i :| 0 <= i < |g.waiters| && g.waiters[i] == x;
      var j :| 0 <= j < |g.waiters| && g.waiters[j] == w;
      assert i == j;
    }
  }

  lemma NoneOfCleared(b: Bits, w: Bits)
    ensures Minus(b, w) & w == 0
  {
  }

  /**
    The last to arrive at a rendezvous: every waiter whose bits are now all set
    is released and told them, and the rendezvous bits are left clear.
   */
  lemma LastArriverReleasesAll(g: Group, t: nat, toSet: Bits, w: Bits, block: bool, x: Waiter)
    requires Inv(g) && NoControl(toSet) && NoControl(w) && Has(With(g.bits, toSet), w)
    requires x in g.waiters && Matches(With(g.bits, toSet), x.value)
    ensures var r := Sync(g, t, toSet, w, block);
      && r.bits & w == 0
      && x !in r.waiters && x.task in r.stored && Waited(r.stored[x.task]) == With(g.bits, toSet)
  {
    hide Matches, Waited, Unmatched, ClearMask, Store, With, Minus, Has, WasUnblocked, NoControl;
    NoneOfCleared(SetBits(g, toSet).bits, w);
    SetReleasesExactly(g, toSet, x);
  }

  // ----- the invariant ---------------------------------------------------------------------------------

  ghost predicate WaiterOk(g: Group, w: Waiter) {
    && w.task in g.asked && g.asked[w.task] == w.value && !WasUnblocked(w.value) && w.task !in g.stored
    && !Matches(g.bits, w.value)
  }

  ghost predicate StoredOk(g: Group, t: nat) {
    && t in g.asked && t in g.stored
    && if WasUnblocked(g.stored[t]) then Matches(Waited(g.stored[t]), g.asked[t]) else g.stored[t] == g.asked[t]
  }

  /** No task waits for bits that are there, and every released task was told bits that it asked for. */
  ghost predicate Inv(g: Group) {
    && NoControl(g.bits) && NoTwice(g.waiters)
    && (forall w :: w in g.waiters ==> WaiterOk(g, w))
    && (forall t: nat :: t in g.stored ==> StoredOk(g, t))
  }

  lemma SetKeepsStored(g: Group, toSet: Bits, t: nat)
    requires Inv(g) && NoControl(toSet) && t in SetBits(g, toSet).stored
    ensures StoredOk(SetBits(g, toSet), t)
  {
    hide Matches, Waited, WasUnblocked, Unmatched, ClearMask, Store, With, Minus, Told, NoControl;
    var b := With(g.bits, toSet);
    StoreMembers(g.waiters, b, g.stored, t);
    if w: Waiter :| w in g.waiters && w.task == t && Matches(b, w.value) {
      assert WaiterOk(g, w);
      UnionNoControl(g.bits, toSet);
      StoredMeans(b);
    } else {
      assert StoredOk(g, t);
    }
  }

  lemma SetKeepsWaiter(g: Group, toSet: Bits, w: Waiter)
    requires Inv(g) && NoControl(toSet) && w in SetBits(g, toSet).waiters
    ensures WaiterOk(SetBits(g, toSet), w)
  {
    hide Matches, Waited, WasUnblocked, Unmatched, ClearMask, Store, With, Minus, Told, NoControl;
    var b := With(g.bits, toSet);
    UnmatchedMembers(g.waiters, b);
    SetReleasesExactly(g, toSet, w);
    FewerBits(b, ClearMask(g.waiters, b), w.value);
    assert WaiterOk(g, w);
  }

  lemma SetKeeps(g: Group, toSet: Bits)
    requires Inv(g) && NoControl(toSet)
    ensures Inv(SetBits(g, toSet))
  {
    hide WaiterOk, StoredOk, Unmatched, ClearMask, Store, NoControl, With, Minus;
    var b := With(g.bits, toSet);
    UnionNoControl(g.bits, toSet);
    FewerNoControl(b, ClearMask(g.waiters, b));
    UnmatchedNoTwice(g.waiters, b);
    forall w | w in SetBits(g, toSet).waiters ensures WaiterOk(SetBits(g, toSet), w) { SetKeepsWaiter(g, toSet, w); }
    forall t: nat | t in SetBits(g, toSet).stored ensures StoredOk(SetBits(g, toSet), t) { SetKeepsStored(g, toSet, t); }
  }

  lemma ClearKeeps(g: Group, c: Bits)
    requires Inv(g)
    ensures Inv(ClearBits(g, c))
  {
    hide Matches, Waited, WasUnblocked, NoControl, Minus;
    FewerNoControl(g.bits, c);
    forall w | w in g.waiters ensures WaiterOk(ClearBits(g, c), w) {
      assert WaiterOk(g, w);
      FewerBits(g.bits, c, w.value);
    }
    forall t: nat | t in g.stored ensures StoredOk(ClearBits(g, c), t) { assert StoredOk(g, t); }
  }

  lemma PlaceKeeps(g: Group, t: nat, w: Bits, clear: bool, all: bool)
    requires Inv(g) && NoControl(w) && t !in g.asked && !TestWait(g.bits, w, all)
    ensures Inv(Place(g, t, Encode(w, clear, all)))
  {
    hide Matches, Waited, WasUnblocked, NoControl, Encode, TestWait;
    var v := Encode(w, clear, all);
    var r := Place(g, t, v);
    EncodeMeans(w, clear, all);
    EncodeMatches(w, clear, all, g.bits);
    forall x | x in r.waiters ensures WaiterOk(r, x) {
      if x != Waiter(t, v) { assert WaiterOk(g, x); }
      assert t in g.stored ==> StoredOk(g, t);
    }
    forall x: nat | x in r.stored ensures StoredOk(r, x) { assert StoredOk(g, x); }
    assert NoTwice(r.waiters) by {
      forall i | 0 <= i < |g.waiters| ensures g.waiters[i].task != t { assert WaiterOk(g, g.waiters[i]); }
    }
  }

  lemma HasIsAllOf(b: Bits, w: Bits)
    ensures Has(b, w) == AllOf(w, b)
  {
  }

  lemma HasLess(b: Bits, c: Bits, w: Bits)
    requires !Has(b, w)
    ensures !TestWait(Minus(b, c), w, true)
  {
    hide Has, AllOf, TestWait, Minus;
    HasIsAllOf(b, w);
    AllOfFewer(b, c, w);
    TestsAlike(Minus(b, c), w);
  }

  lemma SyncKeeps(g: Group, t: nat, toSet: Bits, w: Bits, block: bool)
    requires Inv(g) && NoControl(toSet) && NoControl(w) && t !in g.asked
    ensures Inv(Sync(g, t, toSet, w, block))
  {
    hide Inv, NoControl, Unmatched, ClearMask, Store, Encode, With, Minus, Has, TestWait;
    var s, b := SetBits(g, toSet), With(g.bits, toSet);
    SetKeeps(g, toSet);
    if Has(b, w) {
      ClearKeeps(s, w);
    } else if block {
      HasLess(b, ClearMask(g.waiters, b), w);
      PlaceKeeps(s, t, w, true, true);
    }
  }

  lemma TimeOutKeeps(g: Group, i: nat)
    requires Inv(g) && i < |g.waiters|
    ensures Inv(TimeOut(g, i))
  {
    hide Matches, Waited, WasUnblocked, NoControl, Minus;
    var r, x := TimeOut(g, i), g.waiters[i];
    assert WaiterOk(g, x);
    forall j | 0 <= j < |r.waiters| ensures r.waiters[j] in g.waiters && r.waiters[j].task != x.task {
      assert r.waiters[j] == g.waiters[if j < i then j else j + 1];
    }
    forall w | w in r.waiters ensures WaiterOk(r, w) { assert WaiterOk(g, w); }
    forall t: nat | t in r.stored ensures StoredOk(r, t) { if t != x.task { assert StoredOk(g, t); } }
    assert NoTwice(r.waiters);
  }

  lemma ReturnKeeps(g: Group, t: nat)
    requires Inv(g) && Enabled(g, Returns(t))
    ensures Inv(Return(g, t))
  {
    hide Matches, Waited, WasUnblocked, NoControl, Clears;
    var r := g.(stored := g.stored - {t}, asked := g.asked - {t});
    forall w | w in g.waiters ensures WaiterOk(r, w) { assert WaiterOk(g, w); }
    forall x: nat | x in r.stored ensures StoredOk(r, x) { assert StoredOk(g, x); }
    ClearKeeps(r, Waited(g.asked[t]));
  }

  lemma StepKeepsInv(g: Group, e: Event)
    requires Inv(g) && Enabled(g, e)
    ensures Inv(Step(g, e))
  {
    hide Inv, NoControl, TestWait, Minus, With, Encode, Matches, Waited, Clears, WasUnblocked, Has, SetBits, Sync, Return;
    match e
    case Sets(b) => SetKeeps(g, b);
    case Clear(b) => ClearKeeps(g, b);
    case Waits(t, w, clear, all, block) =>
      ClearKeeps(g, w);
      if !TestWait(g.bits, w, all) { PlaceKeeps(g, t, w, clear, all); }
    case Syncs(t, b, w, block) => SyncKeeps(g, t, b, w, block);
    case TimesOut(i) => TimeOutKeeps(g, i);
    case Returns(t) => ReturnKeeps(g, t);
  }

  ghost predicate Run(tr: seq<Group>, es: seq<Event>) {
    && |tr| == |es| + 1
    && forall i {:trigger es[i]} :: 0 <= i < |es| ==> Enabled(tr[i], es[i]) && tr[i + 1] == Step(tr[i], es[i])
  }

  lemma {:induction false} RunKeepsInv(tr: seq<Group>, es: seq<Event>, i: nat)
    requires Run(tr, es) && tr[0] == Group(0, [], map[], map[]) && i < |tr|
    ensures Inv(tr[i])
    decreases i
  {
    hide Step, Enabled, Inv;
    if i > 0 {
      RunKeepsInv(tr, es, i - 1);
      StepKeepsInv(tr[i - 1], es[i - 1]);
    } else {
      EmptyInv();
    }
  }

  lemma EmptyInv()
    ensures Inv(Group(0, [], map[], map[]))
  {
  }

  /** Over every run, no task is left waiting for a condition that the event bits meet. */
  lemma NeverStrandsAWaiter(tr: seq<Group>, es: seq<Event>, i: nat, w: Waiter)
    requires Run(tr, es) && tr[0] == Group(0, [], map[], map[]) && i < |tr| && w in tr[i].waiters
    ensures !Matches(tr[i].bits, w.value)
  {
    hide Step, Enabled;
    RunKeepsInv(tr, es, i);
    assert WaiterOk(tr[i], w);
  }

  /** Over every run, a call that was not timed out returns bits that meet what it asked for. */
  lemma ReturnsWhatWasAsked(tr: seq<Group>, es: seq<Event>, i: nat, t: nat)
    requires Run(tr, es) && tr[0] == Group(0, [], map[], map[]) && i < |tr|
    requires t in tr[i].stored && WasUnblocked(tr[i].stored[t])
    ensures t in tr[i].asked && Matches(Result(tr[i], t), tr[i].asked[t])
  {
    hide Step, Enabled;
    RunKeepsInv(tr, es, i);
    assert StoredOk(tr[i], t);
  }
}
