/**
  Queue sets (queue.c): the set is a queue of handles, one for each message in a
  member that has not been selected yet.  Proved here: the handles and the
  messages never get out of step, so a set as long as its members together
  always has room.
 */
module QueueSets {
  import opened QueueModel

  datatype Member = Member(
    length: nat,
    messages: nat,       // uxMessagesWaiting
    txLock: Int8,        // cTxLock
    inSet: bool          // pxQueueSetContainer != NULL
  )

  datatype Set = Set(
    members: seq<Member>,
    length: nat,                // uxLength of the set
    handles: seq<nat>,          // its contents: indices of members
    selected: multiset<nat>     // handed out by xQueueSelectFromSet and not yet received from
  )

  // ----- the operations ------------------------------------------------------------------------

  function SetMessages(s: Set, q: nat, n: nat): Set
    requires q < |s.members|
  {
    s.(members := s.members[q := s.members[q].(messages := n)])
  }

  /** prvNotifyQueueSetContainer */
  function Notify(s: Set, q: nat): Set {
    if |s.handles| < s.length then s.(handles := s.handles + [q]) else s
  }

  function NotifyIfMember(s: Set, q: nat): Set
    requires q < |s.members|
  {
    if s.members[q].inSet then Notify(s, q) else s
  }

  /** xQueueGenericSend to a queue that has room */
  function Send(s: Set, q: nat): Set
    requires q < |s.members|
  {
    NotifyIfMember(SetMessages(s, q, s.members[q].messages + 1), q)
  }

  /** xQueueGenericSendFromISR to a queue that has room */
  function SendFromISR(s: Set, q: nat): Set
    requires q < |s.members|
  {
    if s.members[q].txLock == UNLOCKED then Send(s, q)
    else s.(members := s.members[q := s.members[q].(messages := s.members[q].messages + 1, txLock := Increment(s.members[q].txLock))])
  }

  /** The loop of prvUnlockQueue for a member of a set: a handle for each message posted while locked. */
  function NotifyMany(s: Set, q: nat, n: nat): Set
    decreases n
  {
    if n == 0 then s else NotifyMany(Notify(s, q), q, n - 1)
  }

  function Unlock(s: Set, q: nat): Set
    requires q < |s.members|
  {
    var m := s.members[q];
    var r := s.(members := s.members[q := m.(txLock := UNLOCKED)]);
    if m.inSet then NotifyMany(r, q, Posted(m.txLock)) else r
  }

  /** xQueueSelectFromSet */
  function Select(s: Set): Set {
    if |s.handles| == 0 then s else s.(handles := s.handles[1..], selected := s.selected + multiset{s.handles[0]})
  }

  datatype Event =
    | Sends(q: nat)
    | IsrSends(q: nat)
    | Locks(q: nat)
    | Unlocks(q: nat)
    | Selects
    | Receives(q: nat)
    | Joins(q: nat)
    | Leaves(q: nat)

  /**
    A member is received from only after it was selected and nothing is
    overwritten; membership changes while nobody has the queue locked, the
    scheduler being suspended otherwise.
   */
  predicate Enabled(s: Set, e: Event) {
    match e
    case Selects => true
    case Sends(q) => q < |s.members| && s.members[q].messages < s.members[q].length
    case IsrSends(q) => q < |s.members| && s.members[q].messages < s.members[q].length && s.members[q].txLock != INT8_MAX
    case Locks(q) => q < |s.members|
    case Unlocks(q) => q < |s.members|
    case Receives(q) => q < |s.members| && s.members[q].messages > 0 && (s.members[q].inSet ==> q in s.selected)
    case Joins(q) => q < |s.members| && s.members[q].txLock == UNLOCKED
    case Leaves(q) => q < |s.members| && s.members[q].txLock == UNLOCKED
  }

  function Step(s: Set, e: Event): Set
    requires Enabled(s, e)
  {
    match e
    case Selects => Select(s)
    case Sends(q) => Send(s, q)
    case IsrSends(q) => SendFromISR(s, q)
    case Locks(q) =>
      if s.members[q].txLock == UNLOCKED then s.(members := s.members[q := s.members[q].(txLock := 0)]) else s
    case Unlocks(q) => Unlock(s, q)
    case Receives(q) =>
      var r := SetMessages(s, q, s.members[q].messages - 1);
      if s.members[q].inSet then r.(selected := s.selected - multiset{q}) else r
    case Joins(q) =>      // xQueueAddToSet
      if s.members[q].inSet || s.members[q].messages != 0 then s
      else s.(members := s.members[q := s.members[q].(inSet := true)])
    case Leaves(q) =>     // xQueueRemoveFromSet
      if !s.members[q].inSet || s.members[q].messages != 0 then s
      else s.(members := s.members[q := s.members[q].(inSet := false)])
  }

  // ----- conservation -----------------------------------------------------------------------------

  /** Handles in the set, selections outstanding and posts not yet announced make up a member's messages. */
  ghost predicate Conserved(s: Set, q: nat)
    requires q < |s.members|
  {
    var m := s.members[q];
    && m.messages <= m.length && m.txLock >= UNLOCKED
    && multiset(s.handles)[q] + s.selected[q] + (if m.inSet then Posted(m.txLock) else 0) == if m.inSet then m.messages else 0
  }

  function TotalLength(ms: seq<Member>): nat {
    if |ms| == 0 then 0 else TotalLength(ms[..|ms| - 1]) + ms[|ms| - 1].length
  }

  ghost predicate Inv(s: Set) {
    && TotalLength(s.members) <= s.length
    && (forall q :: q in s.handles ==> q < |s.members|)
    && (forall q: nat :: q < |s.members| ==> Conserved(s, q))
  }

  /** How many of the handles are of the first n members. */
  ghost function CountBelow(h: multiset<nat>, n: nat): nat {
    if n == 0 then 0 else CountBelow(h, n - 1) + h[n - 1]
  }

  lemma {:induction false} CountBelowAdds(h: multiset<nat>, q: nat, n: nat)
    ensures CountBelow(h + multiset{q}, n) == CountBelow(h, n) + if q < n then 1 else 0
  {
    if n > 0 { CountBelowAdds(h, q, n - 1); }
  }

  lemma {:induction false} CountBelowNone(n: nat)
    ensures CountBelow(multiset{}, n) == 0
  {
    if n > 0 { CountBelowNone(n - 1); }
  }

  lemma {:induction false} HandlesCounted(hs: seq<nat>, n: nat)
    requires forall q :: q in hs ==> q < n
    ensures CountBelow(multiset(hs), n) == |hs|
  {
    if |hs| == 0 {
      CountBelowNone(n);
    } else {
      assert hs == [hs[0]] + hs[1..];
      assert hs[0] in hs && forall q :: q in hs[1..] ==> q in hs;
      HandlesCounted(hs[1..], n);
      CountBelowAdds(multiset(hs[1..]), hs[0], n);
      assert multiset(hs) == multiset(hs[1..]) + multiset{hs[0]};
    }
  }

  /** Each member has at most as many handles as it holds messages, and q one fewer. */
  lemma {:induction false} Fewer(s: Set, n: nat, q: nat)
    requires n <= |s.members|
    requires forall k: nat :: k < n ==> multiset(s.handles)[k] + (if k == q then 1 else 0) <= s.members[k].length
    ensures CountBelow(multiset(s.handles), n) + (if q < n then 1 else 0) <= TotalLength(s.members[..n])
  {
    if n > 0 {
      Fewer(s, n - 1, q);
      assert s.members[..n][..n - 1] == s.members[..n - 1];
    }
  }

  /** The assertion of prvNotifyQueueSetContainer: there is room for one more handle of q. */
  lemma SetHasRoom(s: Set, q: nat)
    requires TotalLength(s.members) <= s.length && q < |s.members|
    requires forall h :: h in s.handles ==> h < |s.members|
    requires forall k: nat :: k < |s.members| ==> multiset(s.handles)[k] + (if k == q then 1 else 0) <= s.members[k].length
    ensures |s.handles| < s.length
  {
    HandlesCounted(s.handles, |s.members|);
    Fewer(s, |s.members|, q);
    assert s.members[..|s.members|] == s.members;
  }

  lemma {:induction false} SameLengths(ms: seq<Member>, q: nat, m: Member)
    requires q < |ms| && m.length == ms[q].length
    ensures TotalLength(ms[q := m]) == TotalLength(ms)
  {
    if q < |ms| - 1 {
      SameLengths(ms[..|ms| - 1], q, m);
      assert ms[q := m][..|ms| - 1] == ms[..|ms| - 1][q := m];
    } else {
      assert ms[q := m][..|ms| - 1] == ms[..|ms| - 1];
    }
  }

  /** With n posts of q still to announce, announcing them loses none. */
  lemma {:induction false} NotifyManyConserves(s: Set, q: nat, n: nat)
    requires TotalLength(s.members) <= s.length && q < |s.members|
    requires forall h :: h in s.handles ==> h < |s.members|
    requires forall k: nat :: k < |s.members| ==> multiset(s.handles)[k] + (if k == q then n else 0) <= s.members[k].length
    ensures var r := NotifyMany(s, q, n);
      && r == s.(handles := r.handles)
      && (forall h :: h in r.handles ==> h < |s.members|)
      && (forall k: nat :: multiset(r.handles)[k] == multiset(s.handles)[k] + if k == q then n else 0)
    decreases n
  {
    if n > 0 {
      SetHasRoom(s, q);
      assert multiset(s.handles + [q]) == multiset(s.handles) + multiset{q};
      NotifyManyConserves(Notify(s, q), q, n - 1);
    }
  }

  lemma SendFindsRoom(s: Set, q: nat)
    requires Inv(s) && Enabled(s, Sends(q)) && s.members[q].inSet
    ensures |s.handles| < s.length
  {
    forall k: nat | k < |s.members| ensures multiset(s.handles)[k] + (if k == q then 1 else 0) <= s.members[k].length {
      assert Conserved(s, k);
    }
    SetHasRoom(s, q);
  }

  lemma SendConserved(s: Set, q: nat, k: nat)
    requires Inv(s) && Enabled(s, Sends(q)) && k < |s.members| && (s.members[q].inSet ==> |s.handles| < s.length)
    ensures |Send(s, q).members| == |s.members| && Conserved(Send(s, q), k)
  {
    hide TotalLength;
    assert Conserved(s, k);
    assert multiset(s.handles + [q]) == multiset(s.handles) + multiset{q};
  }

  lemma SendConserves(s: Set, q: nat)
    requires Inv(s) && Enabled(s, Sends(q))
    ensures Inv(Send(s, q))
  {
    hide TotalLength, Conserved;
    SameLengths(s.members, q, SetMessages(s, q, s.members[q].messages + 1).members[q]);
    if s.members[q].inSet { SendFindsRoom(s, q); }
    forall k: nat | k < |s.members| ensures Conserved(Send(s, q), k) { SendConserved(s, q, k); }
  }

  lemma UnlockConserves(s: Set, q: nat)
    requires Inv(s) && Enabled(s, Unlocks(q))
    ensures Inv(Unlock(s, q))
  {
    var m := s.members[q];
    var r := s.(members := s.members[q := m.(txLock := UNLOCKED)]);
    SameLengths(s.members, q, r.members[q]);
    forall k: nat | k < |s.members|
      ensures multiset(r.handles)[k] + (if k == q && m.inSet then Posted(m.txLock) else 0) <= r.members[k].length
    {
      assert Conserved(s, k);
    }
    if m.inSet { NotifyManyConserves(r, q, Posted(m.txLock)); }
    forall k: nat | k < |s.members| ensures Conserved(Unlock(s, q), k) { assert Conserved(s, k); }
  }

  lemma SelectConserves(s: Set)
    requires Inv(s)
    ensures Inv(Select(s))
  {
    if |s.handles| > 0 {
      assert s.handles == [s.handles[0]] + s.handles[1..];
      assert forall h :: h in s.handles[1..] ==> h in s.handles;
      forall k: nat | k < |s.members| ensures Conserved(Select(s), k) { assert Conserved(s, k); }
    }
  }

  /** A step that only rewrites member q. */
  lemma RewriteConserves(s: Set, q: nat, r: Set)
    requires Inv(s) && q < |s.members| == |r.members| && r.members == s.members[q := r.members[q]]
    requires r.length == s.length && r.handles == s.handles && r.members[q].length == s.members[q].length
    requires forall k: nat :: k != q ==> r.selected[k] == s.selected[k]
    requires Conserved(r, q)
    ensures Inv(r)
  {
    SameLengths(s.members, q, r.members[q]);
    forall k: nat | k < |s.members| ensures Conserved(r, k) { assert Conserved(s, k); }
  }

  lemma MemberConserves(s: Set, e: Event, q: nat)
    requires Inv(s) && Enabled(s, e)
    requires e == Locks(q) || e == Receives(q) || e == Joins(q) || e == Leaves(q)
      || (e == Event.IsrSends(q) && s.members[q].txLock != UNLOCKED)
    ensures Inv(Step(s, e))
  {
    hide TotalLength;
    assert Conserved(s, q);
    RewriteConserves(s, q, Step(s, e));
  }

  lemma StepConserves(s: Set, e: Event)
    requires Inv(s) && Enabled(s, e)
    ensures Inv(Step(s, e))
  {
    hide Inv, Send, Select, Unlock, SetMessages;
    match e
    case Selects => SelectConserves(s);
    case Sends(q) => SendConserves(s, q);
    case IsrSends(q) => if s.members[q].txLock == UNLOCKED { SendConserves(s, q); } else { MemberConserves(s, e, q); }
    case Unlocks(q) => UnlockConserves(s, q);
    case Locks(q) => MemberConserves(s, e, q);
    case Receives(q) => MemberConserves(s, e, q);
    case Joins(q) => MemberConserves(s, e, q);
    case Leaves(q) => MemberConserves(s, e, q);
  }

  ghost predicate Run(tr: seq<Set>, es: seq<Event>) {
    && |tr| == |es| + 1
    && forall i {:trigger es[i]} :: 0 <= i < |es| ==> Enabled(tr[i], es[i]) && tr[i + 1] == Step(tr[i], es[i])
  }

  /** Queues created, none in the set yet, and a set as long as all of them together. */
  ghost predicate Start(s: Set) {
    && s.handles == [] && s.selected == multiset{} && TotalLength(s.members) <= s.length
    && forall q: nat :: q < |s.members| ==> !s.members[q].inSet && s.members[q].messages == 0 && s.members[q].txLock == UNLOCKED
  }

  lemma {:induction false} RunConserves(tr: seq<Set>, es: seq<Event>, i: nat)
    requires Run(tr, es) && Start(tr[0]) && i < |tr|
    ensures Inv(tr[i])
    decreases i
  {
    hide Step, Enabled;
    if i == 0 {
      assert forall q: nat :: q < |tr[0].members| ==> Conserved(tr[0], q);
    } else {
      RunConserves(tr, es, i - 1);
      StepConserves(tr[i - 1], es[i - 1]);
    }
  }

  /** Over every run: for each member of the set, handles + selections + unannounced posts = messages. */
  lemma HandlesMatchMessages(tr: seq<Set>, es: seq<Event>, i: nat, q: nat)
    requires Run(tr, es) && Start(tr[0]) && i < |tr| && q < |tr[i].members| && tr[i].members[q].inSet
    ensures var s, m := tr[i], tr[i].members[q];
      multiset(s.handles)[q] + s.selected[q] + Posted(m.txLock) == m.messages
  {
    hide Step, Enabled;
    RunConserves(tr, es, i);
    assert Conserved(tr[i], q);
  }

  /** ... and a post to a member always finds room in the set for its handle. */
  lemma PostFindsRoom(tr: seq<Set>, es: seq<Event>, i: nat, q: nat)
    requires Run(tr, es) && Start(tr[0]) && i < |tr| && q < |tr[i].members| && tr[i].members[q].inSet
    requires tr[i].members[q].messages < tr[i].members[q].length
    ensures |tr[i].handles| < tr[i].length
  {
    hide Step, Enabled;
    RunConserves(tr, es, i);
    forall k: nat | k < |tr[i].members| ensures multiset(tr[i].handles)[k] + (if k == q then 1 else 0) <= tr[i].members[k].length {
      assert Conserved(tr[i], k);
    }
    SetHasRoom(tr[i], q);
  }

  // ----- members are selected in the order of their posts ------------------------------------------------

  function Copies(q: nat, n: nat): seq<nat> {
    if n == 0 then [] else [q] + Copies(q, n - 1)
  }

  /** The handles that e announces: one for each post to a member, at once or on unlocking. */
  function AnnouncedBy(s: Set, e: Event): seq<nat> {
    match e
    case Sends(q) => if q < |s.members| && s.members[q].inSet then [q] else []
    case IsrSends(q) => if q < |s.members| && s.members[q].inSet && s.members[q].txLock == UNLOCKED then [q] else []
    case Unlocks(q) => if q < |s.members| && s.members[q].inSet then Copies(q, Posted(s.members[q].txLock)) else []
    case _ => []
  }

  function SelectedBy(s: Set, e: Event): seq<nat> {
    if e.Selects? && |s.handles| > 0 then [s.handles[0]] else []
  }

  function AllAnnounced(tr: seq<Set>, es: seq<Event>, i: nat): seq<nat>
    requires i <= |es| && i < |tr|
  {
    if i == 0 then [] else AllAnnounced(tr, es, i - 1) + AnnouncedBy(tr[i - 1], es[i - 1])
  }

  function AllSelected(tr: seq<Set>, es: seq<Event>, i: nat): seq<nat>
    requires i <= |es| && i < |tr|
  {
    if i == 0 then [] else AllSelected(tr, es, i - 1) + SelectedBy(tr[i - 1], es[i - 1])
  }

  lemma {:induction false} NotifyManyAppends(s: Set, q: nat, n: nat)
    requires TotalLength(s.members) <= s.length && q < |s.members|
    requires forall h :: h in s.handles ==> h < |s.members|
    requires forall k: nat :: k < |s.members| ==> multiset(s.handles)[k] + (if k == q then n else 0) <= s.members[k].length
    ensures NotifyMany(s, q, n).handles == s.handles + Copies(q, n)
    decreases n
  {
    if n > 0 {
      SetHasRoom(s, q);
      assert multiset(s.handles + [q]) == multiset(s.handles) + multiset{q};
      NotifyManyAppends(Notify(s, q), q, n - 1);
      assert s.handles + [q] + Copies(q, n - 1) == s.handles + ([q] + Copies(q, n - 1));
    }
  }

  lemma UnlockAppends(s: Set, q: nat)
    requires Inv(s) && q < |s.members|
    ensures Unlock(s, q).handles == s.handles + AnnouncedBy(s, Unlocks(q))
  {
    hide TotalLength;
    var m := s.members[q];
    var r := s.(members := s.members[q := m.(txLock := UNLOCKED)]);
    SameLengths(s.members, q, r.members[q]);
    if m.inSet {
      forall k: nat | k < |s.members|
        ensures multiset(r.handles)[k] + (if k == q then Posted(m.txLock) else 0) <= r.members[k].length
      {
        assert Conserved(s, k);
      }
      NotifyManyAppends(r, q, Posted(m.txLock));
    }
  }

  lemma StepAnnounces(s: Set, e: Event)
    requires Inv(s) && Enabled(s, e)
    ensures SelectedBy(s, e) + Step(s, e).handles == s.handles + AnnouncedBy(s, e)
  {
    hide Inv, NotifyMany, Unlock, TotalLength;
    match e
    case Unlocks(q) =>
      UnlockAppends(s, q);
    case Sends(q) => if s.members[q].inSet { SendFindsRoom(s, q); }
    case IsrSends(q) => if s.members[q].inSet { SendFindsRoom(s, q); }
    case Selects => if |s.handles| > 0 { assert [s.handles[0]] + s.handles[1..] == s.handles; }
    case _ =>
  }

  lemma Regroup(a: seq<nat>, b: seq<nat>, c: seq<nat>, d: seq<nat>, e: seq<nat>)
    requires b + c == d + e
    ensures a + b + c == a + d + e
  {
    assert a + b + c == a + (b + c);
    assert a + d + e == a + (d + e);
  }

  /** In every run members are selected in the order in which their messages were announced, each once for each. */
  lemma {:induction false} SelectsInOrder(tr: seq<Set>, es: seq<Event>, i: nat)
    requires Run(tr, es) && Start(tr[0]) && i < |tr|
    ensures AllSelected(tr, es, i) + tr[i].handles == AllAnnounced(tr, es, i)
    decreases i
  {
    hide Step, Enabled, Inv, AnnouncedBy, SelectedBy;
    if i > 0 {
      SelectsInOrder(tr, es, i - 1);
      RunConserves(tr, es, i - 1);
      StepAnnounces(tr[i - 1], es[i - 1]);
      Regroup(AllSelected(tr, es, i - 1), SelectedBy(tr[i - 1], es[i - 1]), tr[i].handles, tr[i - 1].handles,
              AnnouncedBy(tr[i - 1], es[i - 1]));
    }
  }

  /** A queue joins a set if it is in none and empty, and leaves it if it is empty; nothing else changes membership. */
  lemma MembershipIff(s: Set, e: Event, q: nat)
    requires Enabled(s, e) && q < |s.members|
    ensures |Step(s, e).members| == |s.members|
    ensures Step(s, e).members[q].inSet <==>
      (s.members[q].inSet && !(e == Leaves(q) && s.members[q].messages == 0))
      || (e == Joins(q) && s.members[q].messages == 0)
  {
    hide NotifyMany;
    if e.Unlocks? { NotifyManyMembers(s.(members := s.members[e.q := s.members[e.q].(txLock := UNLOCKED)]), e.q, Posted(s.members[e.q].txLock)); }
  }

  lemma {:induction false} NotifyManyMembers(s: Set, q: nat, n: nat)
    ensures NotifyMany(s, q, n).members == s.members
    decreases n
  {
    if n > 0 { NotifyManyMembers(Notify(s, q), q, n - 1); }
  }
}
