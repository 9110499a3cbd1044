/**
  Which waiting task is woken (queue.c, and the priority-ordered event lists of
  tasks.c): the most urgent, and among equals the one that has waited longest.  Over
  every run in which each task that blocks goes behind all waiters at least as urgent
  as itself, which is where vListInsert puts it.
 */
module QueueOrder {
  import opened QueueModel
  import Lists
  import TaskModel

  type Urgency = map<nat, nat>

  function Of(u: Urgency, t: nat): nat {
    if t in u then u[t] else 0
  }

  /** Where the task about to block goes on a list. */
  ghost predicate GoesBehind(l: seq<nat>, u: Urgency, t: nat, at: nat) {
    && at <= |l|
    && (forall i :: 0 <= i < at ==> Of(u, l[i]) >= Of(u, t))
    && (forall i :: at <= i < |l| ==> Of(u, l[i]) < Of(u, t))
  }

  ghost predicate ByUrgency(s: System, e: Event, u: Urgency) {
    e.Places? ==>
      && (s.phase.FoundEmpty? ==> GoesBehind(s.q.receivers, u, s.phase.task, e.at))
      && (s.phase.FoundFull? ==> GoesBehind(s.q.senders, u, s.phase.task, e.at))
  }

  /** A run with the step at which each task blocked last, counting from 1. */
  function BlockedAt(tr: seq<System>, es: seq<Event>, i: nat): map<nat, nat>
    requires i <= |es| && |tr| == |es| + 1
  {
    if i == 0 then map[]
    else if es[i - 1].Places? && (tr[i - 1].phase.FoundEmpty? || tr[i - 1].phase.FoundFull?) then
      BlockedAt(tr, es, i - 1)[tr[i - 1].phase.task := i]
    else BlockedAt(tr, es, i - 1)
  }

  /** x goes first: it is more urgent than y, or as urgent and has waited longer. */
  predicate First(u: Urgency, since: map<nat, nat>, x: nat, y: nat) {
    Of(u, x) > Of(u, y) || (Of(u, x) == Of(u, y) && Of(since, x) < Of(since, y))
  }

  ghost predicate InOrder(l: seq<nat>, u: Urgency, since: map<nat, nat>) {
    forall i, j :: 0 <= i < j < |l| ==> First(u, since, l[i], l[j])
  }

  ghost predicate Since(l: seq<nat>, since: map<nat, nat>, now: nat) {
    forall t :: t in l ==> Of(since, t) <= now
  }

  ghost predicate Ranked(q: Queue, u: Urgency, since: map<nat, nat>, now: nat) {
    && InOrder(q.receivers, u, since) && InOrder(q.senders, u, since)
    && Since(q.receivers, since, now) && Since(q.senders, since, now)
  }

  // ----- what a step does to a list of waiting tasks ----------------------------------------------------

  lemma {:induction false} WokenAreFirst(q: Queue, n: nat)
    ensures var r := WakeReceivers(q, n);
      var k := if n < |q.receivers| then n else |q.receivers|;
      && r.receivers == q.receivers[k..] && r.senders == q.senders && r.wokenSenders == q.wokenSenders
      && (forall t :: t in r.wokenReceivers <==> t in q.wokenReceivers || t in q.receivers[..k])
    decreases n
  {
    if n > 0 && |q.receivers| > 0 {
      WokenAreFirst(WakeReceiver(q), n - 1);
      var k := if n < |q.receivers| then n else |q.receivers|;
      assert q.receivers[..k] == [q.receivers[0]] + q.receivers[1..][..k - 1];
    }
  }

  lemma {:induction false} WokenSendersAreFirst(q: Queue, n: nat)
    ensures var r := WakeSenders(q, n);
      var k := if n < |q.senders| then n else |q.senders|;
      && r.senders == q.senders[k..] && r.receivers == q.receivers && r.wokenReceivers == q.wokenReceivers
      && (forall t :: t in r.wokenSenders <==> t in q.wokenSenders || t in q.senders[..k])
    decreases n
  {
    if n > 0 && |q.senders| > 0 {
      WokenSendersAreFirst(WakeSender(q), n - 1);
      var k := if n < |q.senders| then n else |q.senders|;
      assert q.senders[..k] == [q.senders[0]] + q.senders[1..][..k - 1];
    }
  }

  /** How many messages, or free slots, e announces to waiting tasks. */
  function Announced(s: System, e: Event): nat {
    match e
    case TaskSends(_, _, p) => if Accepts(s.q, p) then 1 else 0
    case IsrSends(_, p) => if Accepts(s.q, p) && s.q.txLock == UNLOCKED then 1 else 0
    case TaskPeeks(_) => if |s.q.contents| > 0 then 1 else 0
    case UnlocksTx => Posted(s.q.txLock)
    case _ => 0
  }

  function Freed(s: System, e: Event): nat {
    match e
    case TaskReceives(_) => if |s.q.contents| > 0 then 1 else 0
    case IsrReceives => if |s.q.contents| > 0 && s.q.rxLock == UNLOCKED then 1 else 0
    case UnlocksRx => Posted(s.q.rxLock)
    case _ => 0
  }

  function Least(a: nat, b: nat): nat {
    if a < b then a else b
  }

  /** l afterwards is l without its first k tasks, and those are the ones newly woken. */
  ghost predicate TookFirst(l: seq<nat>, r: seq<nat>, k: nat, was: set<nat>, woken: set<nat>) {
    && k <= |l| && r == l[k..]
    && (forall t :: t in l[..k] ==> t in woken)
    && (forall t :: t in woken ==> t in was || t in l[..k])
  }

  lemma TookNone(l: seq<nat>, was: set<nat>, woken: set<nat>)
    requires woken <= was
    ensures TookFirst(l, l, 0, was, woken)
  {
  }

  lemma TookOne(l: seq<nat>, was: set<nat>, woken: set<nat>)
    requires |l| > 0 && woken <= was
    ensures TookFirst(l, l[1..], 1, was, woken + {l[0]})
  {
  }

  lemma TookSome(l: seq<nat>, k: nat, was: set<nat>, woken: set<nat>)
    requires k <= |l| && forall t :: t in woken <==> t in was || t in l[..k]
    ensures TookFirst(l, l[k..], k, was, woken)
  {
  }

  /** Waking one receiver, or nobody if none waits; `was` is who had been woken before the running task ran. */
  lemma OneReceiver(q: Queue, was: set<nat>)
    requires q.wokenReceivers <= was
    ensures var r := WakeReceiver(q);
      && TookFirst(q.receivers, r.receivers, Least(1, |q.receivers|), was, r.wokenReceivers)
      && r.senders == q.senders && r.wokenSenders == q.wokenSenders
  {
    hide TookFirst;
    if |q.receivers| > 0 { TookOne(q.receivers, was, q.wokenReceivers); } else { TookNone(q.receivers, was, q.wokenReceivers); }
  }

  lemma OneSender(q: Queue, was: set<nat>)
    requires q.wokenSenders <= was
    ensures var r := WakeSender(q);
      && TookFirst(q.senders, r.senders, Least(1, |q.senders|), was, r.wokenSenders)
      && r.receivers == q.receivers && r.wokenReceivers == q.wokenReceivers
  {
    hide TookFirst;
    if |q.senders| > 0 { TookOne(q.senders, was, q.wokenSenders); } else { TookNone(q.senders, was, q.wokenSenders); }
  }

  lemma RanIsSmaller(q: Queue, t: nat)
    ensures Ran(q, t).wokenReceivers <= q.wokenReceivers && Ran(q, t).wokenSenders <= q.wokenSenders
  {
  }

  lemma PostsWakeFirst(s: System, e: Event)
    requires Enabled(s, e) && (e.TaskSends? || e.IsrSends? || e.TaskPeeks?)
    ensures var q, r := s.q, Step(s, e).q;
      && TookFirst(q.receivers, r.receivers, Least(Announced(s, e), |q.receivers|), q.wokenReceivers, r.wokenReceivers)
      && r.senders == q.senders && r.wokenSenders <= q.wokenSenders
  {
    hide TookFirst, WakeReceiver, Put, Blocked;
    TookNone(s.q.receivers, s.q.wokenReceivers, s.q.wokenReceivers);
    match e
    case TaskSends(t, m, p) =>
      RanIsSmaller(s.q, t);
      OneReceiver(Ran(s.q, t).(contents := Put(s.q.contents, m, p)), s.q.wokenReceivers);
      TookNone(s.q.receivers, s.q.wokenReceivers, Ran(s.q, t).wokenReceivers);
    case IsrSends(m, p) => OneReceiver(s.q.(contents := Put(s.q.contents, m, p)), s.q.wokenReceivers);
    case TaskPeeks(t) =>
      RanIsSmaller(s.q, t);
      OneReceiver(Ran(s.q, t), s.q.wokenReceivers);
      TookNone(s.q.receivers, s.q.wokenReceivers, Ran(s.q, t).wokenReceivers);
  }

  lemma TakesWakeFirst(s: System, e: Event)
    requires Enabled(s, e) && (e.TaskReceives? || e.IsrReceives?)
    ensures var q, r := s.q, Step(s, e).q;
      && TookFirst(q.senders, r.senders, Least(Freed(s, e), |q.senders|), q.wokenSenders, r.wokenSenders)
      && r.receivers == q.receivers && r.wokenReceivers <= q.wokenReceivers
  {
    hide TookFirst, WakeSender, Blocked;
    TookNone(s.q.senders, s.q.wokenSenders, s.q.wokenSenders);
    match e
    case TaskReceives(t) =>
      RanIsSmaller(s.q, t);
      if |s.q.contents| > 0 { OneSender(Ran(s.q, t).(contents := s.q.contents[1..]), s.q.wokenSenders); }
      TookNone(s.q.senders, s.q.wokenSenders, Ran(s.q, t).wokenSenders);
    case IsrReceives =>
      if |s.q.contents| > 0 { OneSender(s.q.(contents := s.q.contents[1..]), s.q.wokenSenders); }
  }

  /** Each announcement wakes the first task that waits for it, and no other. */
  lemma WakesFirst(s: System, e: Event)
    requires Enabled(s, e) && !e.Places? && !e.TimesOut?
    ensures var q, r := s.q, Step(s, e).q;
      && TookFirst(q.receivers, r.receivers, Least(Announced(s, e), |q.receivers|), q.wokenReceivers, r.wokenReceivers)
      && TookFirst(q.senders, r.senders, Least(Freed(s, e), |q.senders|), q.wokenSenders, r.wokenSenders)
  {
    hide TookFirst, Send, SendFromISR, Receive, ReceiveFromISR, Peek, WakeReceivers, WakeSenders, Blocked;
    var q, r := s.q, Step(s, e).q;
    if e.TaskSends? || e.IsrSends? || e.TaskPeeks? {
      PostsWakeFirst(s, e);
      TookNone(q.senders, q.wokenSenders, r.wokenSenders);
    } else if e.TaskReceives? || e.IsrReceives? {
      TakesWakeFirst(s, e);
      TookNone(q.receivers, q.wokenReceivers, r.wokenReceivers);
    } else {
      TookNone(q.receivers, q.wokenReceivers, q.wokenReceivers);
      TookNone(q.senders, q.wokenSenders, q.wokenSenders);
      if e.UnlocksTx? {
        WokenAreFirst(q, Posted(q.txLock));
        TookSome(q.receivers, Least(Posted(q.txLock), |q.receivers|), q.wokenReceivers, r.wokenReceivers);
      } else if e.UnlocksRx? {
        WokenSendersAreFirst(q, Posted(q.rxLock));
        TookSome(q.senders, Least(Posted(q.rxLock), |q.senders|), q.wokenSenders, r.wokenSenders);
      }
    }
  }

  // ----- the lists stay in order ----------------------------------------------------------------------

  lemma TailInOrder(l: seq<nat>, k: nat, u: Urgency, since: map<nat, nat>, now: nat)
    requires k <= |l| && InOrder(l, u, since) && Since(l, since, now)
    ensures InOrder(l[k..], u, since) && Since(l[k..], since, now)
    ensures forall x, y :: x in l[..k] && y in l[k..] ==> First(u, since, x, y)
  {
  }

  lemma FirstStill(u: Urgency, since: map<nat, nat>, t: nat, n: nat, x: nat, y: nat)
    requires x != t && y != t && First(u, since, x, y)
    ensures First(u, since[t := n], x, y)
  {
  }

  lemma NewcomerIsLast(u: Urgency, since: map<nat, nat>, t: nat, n: nat, x: nat)
    requires x != t && Of(u, x) >= Of(u, t) && Of(since, x) < n
    ensures First(u, since[t := n], x, t)
  {
  }

  lemma NewcomerIsMoreUrgent(u: Urgency, since: map<nat, nat>, t: nat, y: nat)
    requires Of(u, y) < Of(u, t)
    ensures First(u, since, t, y)
  {
  }

  /** The task that blocks now goes behind its equals, who came before. */
  lemma PlacedInOrder(l: seq<nat>, at: nat, t: nat, u: Urgency, since: map<nat, nat>, now: nat)
    requires InOrder(l, u, since) && Since(l, since, now) && GoesBehind(l, u, t, at) && t !in l
    ensures InOrder(l[..at] + [t] + l[at..], u, since[t := now + 1]) && Since(l[..at] + [t] + l[at..], since[t := now + 1], now + 1)
  {
    hide First;
    var r, later := l[..at] + [t] + l[at..], since[t := now + 1];
    assert forall x :: x in r ==> x == t || x in l;
    forall i, j | 0 <= i < j < |r| ensures First(u, later, r[i], r[j]) {
      if i == at {
        assert r[j] == l[j - 1];
        NewcomerIsMoreUrgent(u, later, t, r[j]);
      } else if j == at {
        assert r[i] == l[i] && l[i] in l;
        NewcomerIsLast(u, since, t, now + 1, l[i]);
      } else {
        var p, q := if i < at then i else i - 1, if j < at then j else j - 1;
        assert r[i] == l[p] && r[j] == l[q] && l[p] in l && l[q] in l;
        FirstStill(u, since, t, now + 1, l[p], l[q]);
      }
    }
  }

  lemma OthersUnmoved(l: seq<nat>, t: nat, u: Urgency, since: map<nat, nat>, now: nat)
    requires InOrder(l, u, since) && Since(l, since, now) && t !in l
    ensures InOrder(l, u, since[t := now + 1]) && Since(l, since[t := now + 1], now + 1)
  {
  }

  lemma {:induction false} RemovedExactly(l: seq<nat>, t: nat)
    ensures forall x :: x in Removed(l, t) <==> x in l && x != t
  {
    if |l| > 0 {
      RemovedExactly(l[1..], t);
      assert l == [l[0]] + l[1..];
    }
  }

  lemma {:induction false} RemovedInOrder(l: seq<nat>, t: nat, u: Urgency, since: map<nat, nat>)
    requires InOrder(l, u, since)
    ensures InOrder(Removed(l, t), u, since)
  {
    if |l| > 0 {
      RemovedInOrder(l[1..], t, u, since);
      RemovedExactly(l[1..], t);
      forall y | y in l[1..] ensures First(u, since, l[0], y) { var i :| 0 <= i < |l| - 1 && l[1..][i] == y; }
    }
  }

  /** A timeout takes its task off the lists and nobody else. */
  lemma TimesOutTakesOne(s: System, e: Event, x: nat)
    requires Enabled(s, e) && e.TimesOut?
    ensures x in Step(s, e).q.receivers <==> x in s.q.receivers && x != e.task
    ensures x in Step(s, e).q.senders <==> x in s.q.senders && x != e.task
  {
    RemovedExactly(s.q.receivers, e.task);
    RemovedExactly(s.q.senders, e.task);
  }

  lemma PlacesKeepsRank(s: System, e: Event, u: Urgency, since: map<nat, nat>, now: nat)
    requires Inv(s) && Enabled(s, e) && e.Places? && ByUrgency(s, e, u) && Ranked(s.q, u, since, now)
    ensures Ranked(Step(s, e).q, u, since[s.phase.task := now + 1], now + 1)
  {
    hide InOrder, Since, GoesBehind, OnePlace, MessagesPromised, SlotsPromised;
    var t := s.phase.task;
    if s.phase.FoundEmpty? {
      PlacedInOrder(s.q.receivers, e.at, t, u, since, now);
      OthersUnmoved(s.q.senders, t, u, since, now);
    } else {
      PlacedInOrder(s.q.senders, e.at, t, u, since, now);
      OthersUnmoved(s.q.receivers, t, u, since, now);
    }
  }

  lemma TimesOutKeepsRank(s: System, e: Event, u: Urgency, since: map<nat, nat>, now: nat)
    requires Enabled(s, e) && e.TimesOut? && Ranked(s.q, u, since, now)
    ensures Ranked(Step(s, e).q, u, since, now + 1)
  {
    hide InOrder;
    RemovedInOrder(s.q.receivers, e.task, u, since);
    RemovedInOrder(s.q.senders, e.task, u, since);
    RemovedExactly(s.q.receivers, e.task);
    RemovedExactly(s.q.senders, e.task);
  }

  lemma WakesKeepRank(s: System, e: Event, u: Urgency, since: map<nat, nat>, now: nat)
    requires Enabled(s, e) && !e.Places? && !e.TimesOut? && Ranked(s.q, u, since, now)
    ensures Ranked(Step(s, e).q, u, since, now + 1)
  {
    hide InOrder, Step, Enabled, Announced, Freed;
    WakesFirst(s, e);
    TailInOrder(s.q.receivers, Least(Announced(s, e), |s.q.receivers|), u, since, now);
    TailInOrder(s.q.senders, Least(Freed(s, e), |s.q.senders|), u, since, now);
  }

  lemma {:induction false} RunKeepsRank(tr: seq<System>, es: seq<Event>, u: Urgency, length: nat, i: nat)
    requires Run(tr, es) && length > 0 && tr[0] == New(length) && i < |tr|
    requires forall j {:trigger es[j]} :: 0 <= j < |es| ==> ByUrgency(tr[j], es[j], u)
    ensures Ranked(tr[i].q, u, BlockedAt(tr, es, i), i)
    decreases i
  {
    hide Step, Enabled, Inv, ByUrgency, Ranked;
    if i == 0 {
      NewIsRanked(length, u);
    } else {
      RunKeepsRank(tr, es, u, length, i - 1);
      NewHasInv(length);
      RunKeepsInv(tr, es, i - 1);
      StepKeepsRank(tr[i - 1], es[i - 1], u, BlockedAt(tr, es, i - 1), i - 1);
    }
  }

  lemma NewIsRanked(length: nat, u: Urgency)
    ensures Ranked(New(length).q, u, map[], 0)
  {
  }

  lemma NewHasInv(length: nat)
    requires length > 0
    ensures Inv(New(length))
  {
  }

  lemma StepKeepsRank(s: System, e: Event, u: Urgency, since: map<nat, nat>, now: nat)
    requires Inv(s) && Enabled(s, e) && ByUrgency(s, e, u) && Ranked(s.q, u, since, now)
    ensures e.Places? ==> s.phase.FoundEmpty? || s.phase.FoundFull?
    ensures Ranked(Step(s, e).q, u, if e.Places? then since[s.phase.task := now + 1] else since, now + 1)
  {
    if e.Places? {
      PlacesKeepsRank(s, e, u, since, now);
    } else {
      hide Step, Ranked;
      if e.TimesOut? { TimesOutKeepsRank(s, e, u, since, now); } else { WakesKeepRank(s, e, u, since, now); }
    }
  }

  // ----- main result ------------------------------------------------------------------------------------

  /**
    The most urgent first.  In every run: whatever wakes receivers, a post, a peek or the
    unlocking of the queue, each task woken goes before every task left waiting, being
    more urgent, or as urgent and blocked earlier; and no more are woken than there are
    messages announced, as many if they are there.  Likewise for senders.
   */
  lemma WokenGoFirst(tr: seq<System>, es: seq<Event>, u: Urgency, length: nat, i: nat)
    requires Run(tr, es) && length > 0 && tr[0] == New(length) && i < |es| && !es[i].Places? && !es[i].TimesOut?
    requires forall j {:trigger es[j]} :: 0 <= j < |es| ==> ByUrgency(tr[j], es[j], u)
    ensures var q, r, since := tr[i].q, tr[i + 1].q, BlockedAt(tr, es, i);
      && (forall x, y :: x in r.wokenReceivers && x !in q.wokenReceivers && y in r.receivers ==> First(u, since, x, y))
      && (forall x, y :: x in r.wokenSenders && x !in q.wokenSenders && y in r.senders ==> First(u, since, x, y))
      && (forall x :: x in q.receivers ==> x in r.receivers || x in r.wokenReceivers)
      && (forall x :: x in q.senders ==> x in r.senders || x in r.wokenSenders)
      && |r.receivers| == |q.receivers| - Least(Announced(tr[i], es[i]), |q.receivers|)
      && |r.senders| == |q.senders| - Least(Freed(tr[i], es[i]), |q.senders|)
  {
    hide Step, Enabled, Inv, ByUrgency, Announced, Freed, First, BlockedAt;
    RunKeepsRank(tr, es, u, length, i);
    WakesFirst(tr[i], es[i]);
    FirstWoken(tr[i].q.receivers, Least(Announced(tr[i], es[i]), |tr[i].q.receivers|), u, BlockedAt(tr, es, i), i);
    FirstWoken(tr[i].q.senders, Least(Freed(tr[i], es[i]), |tr[i].q.senders|), u, BlockedAt(tr, es, i), i);
  }

  lemma FirstWoken(l: seq<nat>, k: nat, u: Urgency, since: map<nat, nat>, now: nat)
    requires k <= |l| && InOrder(l, u, since) && Since(l, since, now)
    ensures forall x, y :: x in l[..k] && y in l[k..] ==> First(u, since, x, y)
    ensures forall x :: x in l ==> x in l[..k] || x in l[k..]
  {
    TailInOrder(l, k, u, since, now);
    assert l == l[..k] + l[k..];
  }

  lemma InsertedOwners(l: seq<Lists.Item>, x: Lists.Item, p: nat)
    requires p <= |l|
    ensures TaskModel.Owners(Lists.InsertAt(l, p, x)) == TaskModel.Owners(l)[..p] + [x.owner] + TaskModel.Owners(l)[p..]
  {
  }

  lemma InsertedRank(l: seq<Lists.Item>, x: Lists.Item, i: nat)
    requires Lists.Ordered(l) && i < |l|
    ensures i < Lists.InsertPos(l, x.value) <==> l[i].value <= x.value
  {
    hide Lists.InsertPos, Lists.Ordered;
    var p := Lists.InsertPos(l, x.value);
    Lists.OrderedIsSorted(l);
    if p <= i { assert l[p].value <= l[i].value; }
  }

  /** vListInsert on an event list, item values being MAX_PRIORITIES - priority, puts a task where GoesBehind says. */
  lemma InsertGoesBehind(l: seq<Lists.Item>, x: Lists.Item, u: Urgency)
    requires Lists.Ordered(l) && Of(u, x.owner) == TaskModel.MAX_PRIORITIES - x.value
    requires forall e :: e in l ==> Of(u, e.owner) == TaskModel.MAX_PRIORITIES - e.value
    ensures var p := Lists.InsertPos(l, x.value);
      && GoesBehind(TaskModel.Owners(l), u, x.owner, p)
      && TaskModel.Owners(Lists.Inserted(l, x)) == TaskModel.Owners(l)[..p] + [x.owner] + TaskModel.Owners(l)[p..]
  {
    hide Lists.InsertPos, Lists.Ordered, Of;
    var p := Lists.InsertPos(l, x.value);
    InsertedOwners(l, x, p);
    forall i | 0 <= i < |l| ensures i < p <==> Of(u, TaskModel.Owners(l)[i]) >= Of(u, x.owner) {
      InsertedRank(l, x, i);
      assert l[i] in l;
    }
  }
}
