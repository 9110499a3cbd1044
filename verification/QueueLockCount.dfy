/**
  Runs of a queue (queue.c) from its creation in which 127 interrupts fall between
  prvLockQueue and prvUnlockQueue, so that the 8-bit lock count is at its maximum
  and the next post, or the next message taken, is not honoured.
 */
module QueueLockCount {
  import opened QueueModel

  function Fill(n: nat): seq<Message> {
    seq(n, _ => [])
  }

  lemma Filled(n: nat)
    ensures Fill(n) + [[]] == Fill(n + 1)
    ensures n > 0 ==> Fill(n)[1..] == Fill(n - 1)
  {
  }

  function Last(tr: seq<System>): System
    requires |tr| > 0
  {
    tr[|tr| - 1]
  }

  lemma Extended(tr: seq<System>, es: seq<Event>, e: Event)
    requires Run(tr, es) && Enabled(Last(tr), e)
    ensures Run(tr + [Step(Last(tr), e)], es + [e])
  {
  }

  /** Task 1 waits to receive, and n interrupts have posted since it locked the queue. */
  function Posting(length: nat, n: nat): System
    requires n <= 127
  {
    System(Queue(length, Fill(n), n, 0, [1], [], {}, {}), Placed)
  }

  lemma {:induction false} PostsCounted(length: nat, n: nat) returns (tr: seq<System>, es: seq<Event>)
    requires n <= 127 <= length
    ensures Run(tr, es) && tr[0] == New(length) && Last(tr) == Posting(length, n)
  {
    if n == 0 {
      es := [TaskLocks(1), ChecksEmpty, Places(0)];
      var locked := Queue(length, [], 0, 0, [], [], {}, {});
      tr := [New(length), System(locked, Locked(1)), System(locked, FoundEmpty(1)), Posting(length, 0)];
    } else {
      tr, es := PostsCounted(length, n - 1);
      Filled(n - 1);
      Extended(tr, es, IsrSends([], Back));
      tr, es := tr + [Posting(length, n)], es + [IsrSends([], Back)];
    }
  }

  /**
    On any queue of 128 places or more the count can reach its maximum; after one
    more post and the unlocking, a task waits to receive on a queue that is not
    empty, and nobody has been woken.
   */
  lemma PostCanBeLost(length: nat) returns (tr: seq<System>, es: seq<Event>)
    requires length >= 128
    ensures Run(tr, es) && tr[0] == New(length) && Last(tr).phase == Placed && Last(tr).q.txLock == INT8_MAX
    ensures var q := UnlockRx(UnlockTx(SendFromISR(Last(tr).q, [], Back)));
      q.receivers == [1] && |q.contents| == 128 && q.wokenReceivers == {} && q.txLock == UNLOCKED == q.rxLock
  {
    tr, es := PostsCounted(length, 127);
  }

  /** Task 1 waits to send to a queue that was full, and n interrupts have taken a message since it locked the queue. */
  function Taking(length: nat, n: nat): System
    requires n <= 127 && n <= length
  {
    System(Queue(length, Fill(length - n), 0, n, [], [1], {}, {}), Placed)
  }

  lemma {:induction false} FilledUp(length: nat, n: nat) returns (tr: seq<System>, es: seq<Event>)
    requires n <= length
    ensures Run(tr, es) && tr[0] == New(length)
    ensures Last(tr) == System(Queue(length, Fill(n), UNLOCKED, UNLOCKED, [], [], {}, {}), NotLocked)
  {
    if n == 0 {
      tr, es := [New(length)], [];
    } else {
      tr, es := FilledUp(length, n - 1);
      Filled(n - 1);
      Extended(tr, es, TaskSends(1, [], Back));
      tr, es := tr + [Step(Last(tr), TaskSends(1, [], Back))], es + [TaskSends(1, [], Back)];
    }
  }

  lemma {:induction false} TakesCounted(length: nat, n: nat) returns (tr: seq<System>, es: seq<Event>)
    requires n <= 127 <= length
    ensures Run(tr, es) && tr[0] == New(length) && Last(tr) == Taking(length, n)
  {
    if n == 0 {
      tr, es := FilledUp(length, length);
      var locked := Queue(length, Fill(length), 0, 0, [], [], {}, {});
      Extended(tr, es, TaskLocks(1));
      tr, es := tr + [System(locked, Locked(1))], es + [TaskLocks(1)];
      Extended(tr, es, ChecksFull);
      tr, es := tr + [System(locked, FoundFull(1))], es + [ChecksFull];
      Extended(tr, es, Places(0));
      tr, es := tr + [Taking(length, 0)], es + [Places(0)];
    } else {
      tr, es := TakesCounted(length, n - 1);
      Filled(length - n + 1);
      Extended(tr, es, IsrReceives);
      tr, es := tr + [Taking(length, n)], es + [IsrReceives];
    }
  }

  /** Likewise a task can be left waiting to send to a queue with free places. */
  lemma TakeCanBeLost(length: nat) returns (tr: seq<System>, es: seq<Event>)
    requires length >= 128
    ensures Run(tr, es) && tr[0] == New(length) && Last(tr).phase == Placed && Last(tr).q.rxLock == INT8_MAX
    ensures var q := UnlockRx(UnlockTx(ReceiveFromISR(Last(tr).q)));
      q.senders == [1] && |q.contents| == length - 128 && q.wokenSenders == {} && q.txLock == UNLOCKED == q.rxLock
  {
    tr, es := TakesCounted(length, 127);
  }
}
