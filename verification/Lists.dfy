/**
  The kernel's list (list.c and the access macros of list.h).

  The first half gives the meaning of a list as a sequence of items and proves
  what the kernel relies on.  The second half is the circular doubly linked
  structure itself, node by node, proved to implement that meaning.
 */
module Lists {
  // portMAX_DELAY: the largest 32-bit tick value, and the value of the end marker.
  const MAX_DELAY: nat := 0xFFFF_FFFF

  // TickType_t with configUSE_16_BIT_TICKS == 0.
  type Tick = n: nat | n <= MAX_DELAY

  datatype Item = Item(owner: nat, value: Tick)

  // ----- lists as sequences ----------------------------------------------------

  ghost predicate Sorted(s: seq<Item>) {
    forall i, j :: 0 <= i < j < |s| ==> s[i].value <= s[j].value
  }

  /** Sorted, unfolded from the head: each item is at most every later one. */
  ghost predicate Ordered(s: seq<Item>) {
    |s| > 0 ==> (forall e :: e in s[1..] ==> s[0].value <= e.value) && Ordered(s[1..])
  }

  lemma {:induction false} OrderedIsSorted(s: seq<Item>)
    ensures Ordered(s) <==> Sorted(s)
    decreases |s|
  {
    if |s| > 0 {
      var r := s[1..];
      OrderedIsSorted(r);
      assert forall i :: 0 <= i < |r| ==> r[i] == s[i + 1];
      if Sorted(s) {
        assert Sorted(r);
      }
      if Sorted(r) && (forall e :: e in r ==> s[0].value <= e.value) {
        forall i, j | 0 <= i < j < |s| ensures s[i].value <= s[j].value {
          assert s[j] == r[j - 1];
          if i > 0 { assert s[i] == r[i - 1]; }
        }
      }
    }
  }

  /** Where vListInsert stops: before the first item whose value exceeds v. */
  function InsertPos(s: seq<Item>, v: Tick): (p: nat)
    ensures p <= |s|
    ensures forall i :: 0 <= i < p ==> s[i].value <= v
    ensures p < |s| ==> s[p].value > v
  {
    if |s| == 0 || s[0].value > v then 0 else 1 + InsertPos(s[1..], v)
  }

  function Inserted(s: seq<Item>, x: Item): seq<Item> {
    InsertAt(s, InsertPos(s, x.value), x)
  }

  function InsertAt<T>(s: seq<T>, p: nat, x: T): (r: seq<T>)
    requires p <= |s|
    ensures |r| == |s| + 1
    ensures forall i {:trigger r[i]} :: 0 <= i < |r| ==> r[i] == if i < p then s[i] else if i == p then x else s[i - 1]
  {
    s[..p] + [x] + s[p..]
  }

  function RemoveAt<T>(s: seq<T>, i: nat): (r: seq<T>)
    requires i < |s|
    ensures |r| == |s| - 1
    ensures forall j {:trigger r[j]} :: 0 <= j < |r| ==> r[j] == if j < i then s[j] else s[j + 1]
  {
    s[..i] + s[i + 1..]
  }

  lemma InsertedAt(s: seq<Item>, x: Item, i: nat)
    requires i <= |s|
    ensures var p := InsertPos(s, x.value);
      |Inserted(s, x)| == |s| + 1 &&
      Inserted(s, x)[i] == if i < p then s[i] else if i == p then x else s[i - 1]
  {
  }

  /** A sorted list stays sorted, and the new item goes after every item of equal value. */
  lemma InsertKeepsSorted(s: seq<Item>, x: Item)
    requires Sorted(s)
    ensures Sorted(Inserted(s, x))
    ensures forall i :: 0 <= i < |s| ==>
      if s[i].value <= x.value then Inserted(s, x)[i] == s[i] else Inserted(s, x)[i + 1] == s[i]
  {
    hide InsertPos;
    var p, r := InsertPos(s, x.value), Inserted(s, x);
    forall i | 0 <= i < |s|
      ensures if s[i].value <= x.value then i < p && r[i] == s[i] else p <= i && r[i + 1] == s[i]
    {
      if p <= i { assert s[p].value <= s[i].value; }
    }
    forall i, j | 0 <= i < j < |r| ensures r[i].value <= r[j].value {
      InsertedAt(s, x, i);
      InsertedAt(s, x, j);
    }
  }

  lemma OrderedInserted(l: seq<Item>, x: Item)
    requires Ordered(l)
    ensures Ordered(Inserted(l, x))
  {
    OrderedIsSorted(l);
    OrderedIsSorted(Inserted(l, x));
    InsertKeepsSorted(l, x);
  }

  // ----- the order in which a list is walked --------------------------------------

  /**
    With `ring` the nodes from the end marker (ring[0]) onwards and the walk
    standing on ring[k], the nodes in the order listGET_OWNER_OF_NEXT_ENTRY
    will deliver them: the node the walk stands on comes last.
   */
  function VisitOrder<T>(ring: seq<T>, k: nat): (v: seq<T>)
    requires k < |ring|
    ensures |v| == |ring| - 1
  {
    ring[k + 1..] + ring[1..k + 1]
  }

  /** Where the walk stands after one step: the end marker is skipped. */
  function NextIndex(n: nat, k: nat): (r: nat)
    requires k < n && n > 1
    ensures 0 < r < n
  {
    if k + 1 == n then 1 else k + 1
  }

  lemma StepDeliversHead<T>(ring: seq<T>, k: nat)
    requires k < |ring| && |ring| > 1
    ensures VisitOrder(ring, k)[0] == ring[NextIndex(|ring|, k)]
    ensures VisitOrder(ring, NextIndex(|ring|, k)) == VisitOrder(ring, k)[1..] + [VisitOrder(ring, k)[0]]
  {
    if k + 1 == |ring| {
      assert VisitOrder(ring, k) == ring[1..];
    } else {
      assert ring[k + 1..] == [ring[k + 1]] + ring[k + 2..];
      assert ring[1..k + 2] == ring[1..k + 1] + [ring[k + 1]];
    }
  }

  /** What m successive next-entry calls on an unchanged list deliver. */
  function Delivered<T>(ring: seq<T>, k: nat, m: nat): (d: seq<T>)
    requires k < |ring| && |ring| > 1
    ensures |d| == m
    decreases m
  {
    if m == 0 then []
    else
      var k' := NextIndex(|ring|, k);
      [ring[k']] + Delivered(ring, k', m - 1)
  }

  lemma {:induction false} DeliveredIsVisitOrder<T>(ring: seq<T>, k: nat, m: nat)
    requires k < |ring| && |ring| > 1
    requires m < |ring|
    ensures Delivered(ring, k, m) == VisitOrder(ring, k)[..m]
    decreases m
  {
    hide VisitOrder, NextIndex;
    if m > 0 {
      StepDeliversHead(ring, k);
      DeliveredIsVisitOrder(ring, NextIndex(|ring|, k), m - 1);
      var v, w := VisitOrder(ring, k), VisitOrder(ring, NextIndex(|ring|, k));
      assert w[..m - 1] == v[1..m] && v[..m] == [v[0]] + v[1..m];
    }
  }

  /** n calls on an unchanged n-item list deliver every item exactly once. */
  lemma RoundVisitsEachOnce<T>(ring: seq<T>, k: nat)
    requires k < |ring| && |ring| > 1
    ensures multiset(Delivered(ring, k, |ring| - 1)) == multiset(ring[1..])
  {
    DeliveredIsVisitOrder(ring, k, |ring| - 1);
    var v := VisitOrder(ring, k);
    assert v[..|ring| - 1] == v;
    assert ring[1..] == ring[1..k + 1] + ring[k + 1..];
  }

  // ----- the linked structure -----------------------------------------------------

  ghost predicate Distinct(s: seq<ListItem>) {
    forall i, j :: 0 <= i < j < |s| ==> s[i] != s[j]
  }

  lemma DistinctAfter(s: seq<ListItem>, p: nat, x: ListItem)
    requires Distinct(s) && p <= |s|
    ensures x !in s ==> Distinct(InsertAt(s, p, x))
    ensures p < |s| ==> Distinct(RemoveAt(s, p)) && s[p] !in RemoveAt(s, p)
  {
  }

  // The node after (before) position i of a ring.
  function After<T>(s: seq<T>, i: nat): T
    requires i < |s|
  {
    s[if i + 1 < |s| then i + 1 else 0]
  }

  function Before<T>(s: seq<T>, i: nat): T
    requires i < |s|
  {
    s[if i == 0 then |s| - 1 else i - 1]
  }

  class ListItem {
    var value: Tick
    var owner: nat
    var next: ListItem?
    var prev: ListItem?
    var container: List?

    constructor (owner: nat, value: Tick)
      ensures this.owner == owner && this.value == value && container == null
    {
      this.owner, this.value := owner, value;
      next, prev, container := null, null, null;
    }
  }

  ghost predicate LinkedRing(s: seq<ListItem>)
    reads s
  {
    && (forall i {:trigger s[i].next} :: 0 <= i < |s| ==> s[i].next == After(s, i))
    && (forall i {:trigger s[i].prev} :: 0 <= i < |s| ==> s[i].prev == Before(s, i))
  }

  // The links of s with x spliced in at position p.
  ghost predicate SplicedIn(s: seq<ListItem>, p: nat, x: ListItem)
    reads s, x
    requires 1 <= p <= |s|
  {
    && x.next == After(s, p - 1) && x.prev == s[p - 1]
    && (forall i {:trigger s[i].next} :: 0 <= i < |s| ==> s[i].next == if i == p - 1 then x else After(s, i))
    && (forall i {:trigger s[i].prev} :: 0 <= i < |s| ==> s[i].prev == if i == (if p < |s| then p else 0) then x else Before(s, i))
  }

  // The links of s with s[p] bypassed.
  ghost predicate SplicedOut(s: seq<ListItem>, p: nat)
    reads s
    requires 1 <= p < |s|
  {
    && (forall i {:trigger s[i].next} :: 0 <= i < |s| && i != p ==> s[i].next == After(s, if i == p - 1 then p else i))
    && (forall i {:trigger s[i].prev} :: 0 <= i < |s| && i != p ==>
      s[i].prev == Before(s, if i == (if p + 1 < |s| then p + 1 else 0) then p else i))
  }

  lemma AfterInInserted<T>(s: seq<T>, p: nat, x: T, i: nat)
    requires 1 <= p <= |s| && i <= |s|
    ensures After(InsertAt(s, p, x), i) ==
      if i == p - 1 then x else if i == p then After(s, p - 1) else After(s, if i < p then i else i - 1)
  {
  }

  lemma BeforeInInserted<T>(s: seq<T>, p: nat, x: T, i: nat)
    requires 1 <= p <= |s| && i <= |s|
    ensures Before(InsertAt(s, p, x), i) ==
      if i == (if p < |s| then p + 1 else 0) then x else if i == p then s[p - 1] else Before(s, if i < p then i else i - 1)
  {
  }

  lemma SplicedInIsLinked(s: seq<ListItem>, p: nat, x: ListItem)
    requires 1 <= p <= |s| && SplicedIn(s, p, x)
    ensures LinkedRing(InsertAt(s, p, x))
  {
    hide After, Before;
    var r := InsertAt(s, p, x);
    forall i | 0 <= i < |r| ensures r[i].next == After(r, i) && r[i].prev == Before(r, i) {
      AfterInInserted(s, p, x, i);
      BeforeInInserted(s, p, x, i);
      assert r[i] == if i < p then s[i] else if i == p then x else s[i - 1];
    }
  }

  lemma BeforeInRemoved<T>(s: seq<T>, p: nat, i: nat)
    requires 1 <= p < |s| && i < |s| - 1
    ensures var j := if i < p then i else i + 1;
      Before(RemoveAt(s, p), i) == Before(s, if j == (if p + 1 < |s| then p + 1 else 0) then p else j)
  {
    if i == 0 {
      if p + 1 == |s| { assert RemoveAt(s, p)[|s| - 2] == s[p - 1]; } else { assert RemoveAt(s, p)[|s| - 2] == s[|s| - 1]; }
    } else if i < p {
    } else if i == p {
    } else {
    }
  }

  lemma SplicedOutIsLinked(s: seq<ListItem>, p: nat)
    requires 1 <= p < |s| && SplicedOut(s, p)
    ensures LinkedRing(RemoveAt(s, p))
  {
    var r := RemoveAt(s, p);
    forall i | 0 <= i < |r| ensures r[i].next == After(r, i) {
      assert r[i].next == s[if i < p then i else i + 1].next;
    }
    forall i | 0 <= i < |r| ensures r[i].prev == Before(r, i) {
      BeforeInRemoved(s, p, i);
      assert r[i].prev == s[if i < p then i else i + 1].prev;
    }
  }

  class List {
    const end: ListItem
    var index: ListItem
    var count: nat
    // The nodes in link order, the end marker first, and where index is among them.
    ghost var ring: seq<ListItem>
    ghost var at: nat

    ghost predicate Nodes()
      reads this, ring
    {
      && |ring| == count + 1
      && Distinct(ring)
      && ring[0] == end
      && end.value == MAX_DELAY
      && at < |ring| && ring[at] == index
      && (forall i {:trigger ring[i].container} :: 1 <= i < |ring| ==> ring[i].container == this)
    }

    ghost predicate Valid()
      reads this, ring
    {
      Nodes() && LinkedRing(ring)
    }

    ghost function Contents(): (s: seq<Item>)
      reads this, ring
      requires |ring| >= 1
      ensures |s| == |ring| - 1
      ensures forall i :: 0 <= i < |s| ==> s[i] == Item(ring[i + 1].owner, ring[i + 1].value)
    {
      seq(|ring| - 1, i requires 0 <= i < |ring| - 1 reads this, ring => Item(ring[i + 1].owner, ring[i + 1].value))
    }

    /** vListInitialise */
    constructor ()
      ensures Valid() && fresh(end) && ring == [end] && at == 0
    {
      var marker := new ListItem(0, MAX_DELAY);
      end := marker;
      index := marker;
      count := 0;
      ring, at := [marker], 0;
      new;
      end.next, end.prev := end, end;
    }

    /** The four pointer writes of both insertions: x goes between ring[p] and its successor. */
    method Splice(node: ListItem, x: ListItem, ghost p: nat)
      requires Valid() && p < |ring| && ring[p] == node && x !in ring
      modifies ring`next, ring`prev, x`next, x`prev
      ensures SplicedIn(ring, p + 1, x)
    {
      x.next := node.next;
      x.next.prev := x;
      x.prev := node;
      node.next := x;
    }

    method LinkAfter(node: ListItem, x: ListItem, ghost p: nat)
      requires Valid() && p < |ring| && ring[p] == node && x !in ring
      modifies this`count, this`ring, this`at, ring`next, ring`prev, x`next, x`prev, x`container
      ensures Valid()
      ensures ring == InsertAt(old(ring), p + 1, x)
      ensures at == if old(at) <= p then old(at) else old(at) + 1
      ensures Contents() == InsertAt(old(Contents()), p, Item(x.owner, x.value))
    {
      hide LinkedRing, SplicedIn, Distinct;
      Splice(node, x, p);
      x.container := this;
      count := count + 1;
      Record(x, p + 1);
    }

    ghost method Record(x: ListItem, p: nat)
      requires 1 <= p <= |ring| == count && x !in ring && x.container == this
      requires ring[0] == end && end.value == MAX_DELAY && at < |ring| && ring[at] == index
      requires Distinct(ring) && SplicedIn(ring, p, x)
      requires forall i {:trigger ring[i].container} :: 1 <= i < |ring| ==> ring[i].container == this
      modifies this`ring, this`at
      ensures Valid()
      ensures ring == InsertAt(old(ring), p, x)
      ensures at == if old(at) < p then old(at) else old(at) + 1
    {
      DistinctAfter(ring, p, x);
      SplicedInIsLinked(ring, p, x);
      ring := InsertAt(ring, p, x);
      at := if at < p then at else at + 1;
    }

    method Bypass(x: ListItem, ghost p: nat)
      requires Valid() && 1 <= p < |ring| && ring[p] == x
      modifies ring`next, ring`prev
      ensures x.next == old(x.next) && x.prev == old(x.prev)
      ensures x.prev == ring[p - 1] && SplicedOut(ring, p)
      ensures Contents() == old(Contents())
    {
      x.next.prev := x.prev;
      x.prev.next := x.next;
    }

    ghost method Forget(p: nat)
      requires 1 <= p < |ring| == count + 2
      requires ring[0] == end && end.value == MAX_DELAY && at < |ring| && index == ring[if at == p then p - 1 else at]
      requires Distinct(ring) && SplicedOut(ring, p)
      requires forall i {:trigger ring[i].container} :: 1 <= i < |ring| && i != p ==> ring[i].container == this
      modifies this`ring, this`at
      ensures Valid()
      ensures ring == RemoveAt(old(ring), p)
      ensures at == if p <= old(at) then old(at) - 1 else old(at)
      ensures Contents() == RemoveAt(old(Contents()), p - 1)
    {
      DistinctAfter(ring, p, ring[p]);
      SplicedOutIsLinked(ring, p);
      ring := RemoveAt(ring, p);
      at := if p <= at then at - 1 else at;
    }

    /** vListInsertEnd: x becomes the last item the walk will reach before the one it stands on. */
    method InsertEnd(x: ListItem)
      requires Valid() && x !in ring
      modifies this`count, this`ring, this`at, ring`next, ring`prev, x`next, x`prev, x`container
      ensures Valid()
      ensures ring == InsertAt(old(ring), if old(at) == 0 then |old(ring)| else old(at), x)
      ensures at == if old(at) == 0 then 0 else old(at) + 1
      ensures Contents() == InsertAt(old(Contents()), if old(at) == 0 then |old(Contents())| else old(at) - 1, Item(x.owner, x.value))
    {
      LinkAfter(index.prev, x, if at == 0 then |ring| - 1 else at - 1);
    }

    /** The search of vListInsert: it stops for every value, the end marker's own value included. */
    method Search(value: Tick) returns (it: ListItem, ghost i: nat)
      requires Valid()
      ensures i == InsertPos(Contents(), value) && i < |ring| && ring[i] == it
    {
      it := end;
      ghost var s := Contents();
      i := 0;
      if value == MAX_DELAY {
        it, i := end.prev, |s|;
      } else {
        while it.next.value <= value
          invariant 0 <= i <= InsertPos(s, value) && ring[i] == it
          decreases |s| - i
        {
          it, i := it.next, i + 1;
        }
      }
      assert i < |s| ==> s[i].value == ring[i + 1].value;
    }

    /** vListInsert */
    method Insert(x: ListItem)
      requires Valid() && x !in ring
      modifies this`count, this`ring, this`at, ring`next, ring`prev, x`next, x`prev, x`container
      ensures Valid()
      ensures ring == InsertAt(old(ring), InsertPos(old(Contents()), x.value) + 1, x)
      ensures Contents() == Inserted(old(Contents()), Item(x.owner, x.value))
    {
      hide LinkedRing, Nodes, Contents;
      var it, i := Search(x.value);
      LinkAfter(it, x, i);
    }

    /** The rest of uxListRemove: the walk steps back off x, and x is in no list */
    method Release(x: ListItem, ghost i: nat)
      requires Nodes() && 1 <= i < |ring| && ring[i] == x && x.prev == ring[i - 1]
      modifies this`index, this`count, x`container
      ensures index == ring[if at == i then i - 1 else at] && count == old(count) - 1 && x.container == null
      ensures forall j {:trigger ring[j].container} :: 1 <= j < |ring| && j != i ==> ring[j].container == this
    {
      if index == x {
        index := x.prev;
      }
      x.container := null;
      count := count - 1;
    }

    /** uxListRemove, for the list that x.container names. */
    method Unlink(x: ListItem, ghost i: nat)
      requires Valid() && 1 <= i < |ring| && ring[i] == x
      modifies this`count, this`ring, this`index, this`at, x`container, ring`next, ring`prev
      ensures Valid()
      ensures ring == RemoveAt(old(ring), i)
      ensures at == if i <= old(at) then old(at) - 1 else old(at)
      ensures Contents() == RemoveAt(old(Contents()), i - 1)
      ensures x.container == null
    {
      hide LinkedRing, SplicedOut;
      Bypass(x, i);
      Release(x, i);
      Forget(i);
    }

    /** listGET_OWNER_OF_NEXT_ENTRY */
    method NextEntry() returns (owner: nat)
      requires Valid() && count > 0
      modifies this`index, this`at
      ensures Valid()
      ensures at == NextIndex(|ring|, old(at)) && owner == ring[at].owner
    {
      index := index.next;
      if index == end {
        index := index.next;
      }
      owner := index.owner;
      at := NextIndex(|ring|, at);
    }
  }

  /** uxListRemove: the list is found through the item. */
  method Remove(x: ListItem, ghost i: nat) returns (n: nat)
    requires x.container != null && x.container.Valid()
    requires 1 <= i < |x.container.ring| && x.container.ring[i] == x
    modifies x.container`count, x.container`ring, x.container`index, x.container`at, x`container
    modifies x.container.ring`next, x.container.ring`prev
    ensures var l := old(x.container);
      && l.Valid()
      && l.ring == RemoveAt(old(l.ring), i)
      && l.at == (if i <= old(l.at) then old(l.at) - 1 else old(l.at))
      && n == l.count
      && l.Contents() == RemoveAt(old(l.Contents()), i - 1)
    ensures x.container == null
  {
    var l := x.container;
    l.Unlink(x, i);
    n := l.count;
  }

  // ----- what the insertions and the removal do to the walk -------------------------

  /** An item inserted at the end is delivered after every item except the one the walk stands on. */
  lemma InsertEndIsVisitedLast<T>(ring: seq<T>, k: nat, x: T)
    requires k < |ring|
    ensures k == 0 ==> VisitOrder(InsertAt(ring, |ring|, x), 0) == VisitOrder(ring, 0) + [x]
    ensures k > 0 ==>
      var v := VisitOrder(ring, k);
      VisitOrder(InsertAt(ring, k, x), k + 1) == v[..|v| - 1] + [x, v[|v| - 1]]
  {
    if k > 0 {
      var r' := InsertAt(ring, k, x);
      assert r'[k + 2..] == ring[k + 1..];
      assert r'[1..k + 2] == ring[1..k] + [x] + [ring[k]];
      assert ring[1..k + 1] == ring[1..k] + [ring[k]];
    }
  }

  lemma VisitOrderAt<T>(ring: seq<T>, k: nat, m: nat)
    requires k < |ring| && m < |ring| - 1
    ensures VisitOrder(ring, k)[m] == ring[if m < |ring| - k - 1 then k + 1 + m else m + k + 2 - |ring|]
  {
  }

  /**
    Removing ring[i] leaves the remaining items in the order they would have
    been delivered, also when the walk stands on the removed item.
   */
  lemma RemovePreservesVisitOrder<T>(ring: seq<T>, k: nat, i: nat) returns (j: nat)
    requires k < |ring| && 1 <= i < |ring|
    ensures var k' := if i <= k then k - 1 else k;
      && j < |ring| - 1 && VisitOrder(ring, k)[j] == ring[i]
      && VisitOrder(RemoveAt(ring, i), k') == RemoveAt(VisitOrder(ring, k), j)
  {
    j := if i <= k then |ring| - 2 - k + i else i - k - 1;
    var k', r, v := if i <= k then k - 1 else k, RemoveAt(ring, i), VisitOrder(ring, k);
    VisitOrderAt(ring, k, j);
    hide VisitOrder;
    forall m | 0 <= m < |ring| - 2 ensures VisitOrder(r, k')[m] == RemoveAt(v, j)[m] {
      VisitOrderAt(r, k', m);
      VisitOrderAt(ring, k, if m < j then m else m + 1);
    }
  }
}
