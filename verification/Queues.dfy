/**
  Queue_t and its critical sections (queue.c): the circular store with its two
  positions, the lock counts and the event lists, proved to compute the
  functions of QueueModel.dfy.  Positions count items, not bytes.
 */
module Queues {
  import opened QueueModel
  import opened Rings
  import QueueOrder

  predicate FirstIsUrgent(waiting: seq<nat>, urgent: set<nat>) {
    |waiting| > 0 && waiting[0] in urgent
  }

  /** One of the first n waiting tasks is more urgent than the running one. */
  predicate UrgentAmongFirst(waiting: seq<nat>, n: nat, urgent: set<nat>) {
    n > 0 && |waiting| > 0 && (waiting[0] in urgent || UrgentAmongFirst(waiting[1..], n - 1, urgent))
  }

  lemma {:induction false} UrgentAmongFirstMeans(waiting: seq<nat>, n: nat, urgent: set<nat>)
    ensures UrgentAmongFirst(waiting, n, urgent) <==> exists i :: 0 <= i < n && i < |waiting| && waiting[i] in urgent
    decreases n
  {
    if n > 0 && |waiting| > 0 {
      UrgentAmongFirstMeans(waiting[1..], n - 1, urgent);
      if UrgentAmongFirst(waiting[1..], n - 1, urgent) {
        var i :| 0 <= i < n - 1 && i < |waiting[1..]| && waiting[1..][i] in urgent;
        assert waiting[i + 1] in urgent;
      }
      if exists i :: 0 <= i < n && i < |waiting| && waiting[i] in urgent {
        var i :| 0 <= i < n && i < |waiting| && waiting[i] in urgent;
        assert i > 0 ==> waiting[1..][i - 1] in urgent;
      }
    }
  }

  ghost predicate NoneTwice(l: seq<nat>) {
    forall i, j :: 0 <= i < j < |l| ==> l[i] != l[j]
  }

  /** Whoever yields on FirstIsUrgent or UrgentAmongFirst does so for a task that the wake has taken off the list. */
  lemma YieldsForWhomItWakes(q: Queue, n: nat, urgent: set<nat>)
    requires NoneTwice(q.receivers) && NoneTwice(q.senders)
    ensures FirstIsUrgent(q.receivers, urgent) <==> exists t :: t in urgent && t in q.receivers && t !in WakeReceiver(q).receivers
    ensures FirstIsUrgent(q.senders, urgent) <==> exists t :: t in urgent && t in q.senders && t !in WakeSender(q).senders
    ensures UrgentAmongFirst(q.receivers, n, urgent) <==> exists t :: t in urgent && t in q.receivers && t !in WakeReceivers(q, n).receivers
    ensures UrgentAmongFirst(q.senders, n, urgent) <==> exists t :: t in urgent && t in q.senders && t !in WakeSenders(q, n).senders
  {
    hide WakeReceivers, WakeSenders, UrgentAmongFirst;
    QueueOrder.WokenAreFirst(q, n);
    QueueOrder.WokenSendersAreFirst(q, n);
    GoneIsAmongFirst(q.receivers, if n < |q.receivers| then n else |q.receivers|, urgent);
    GoneIsAmongFirst(q.senders, if n < |q.senders| then n else |q.senders|, urgent);
    if |q.receivers| > 0 { GoneIsAmongFirst(q.receivers, 1, urgent); }
    if |q.senders| > 0 { GoneIsAmongFirst(q.senders, 1, urgent); }
    UrgentAmongFirstMeans(q.receivers, n, urgent);
    UrgentAmongFirstMeans(q.senders, n, urgent);
  }

  lemma GoneIsAmongFirst(l: seq<nat>, k: nat, urgent: set<nat>)
    requires k <= |l| && NoneTwice(l)
    ensures (exists t :: t in urgent && t in l && t !in l[k..]) <==> exists i :: 0 <= i < k && l[i] in urgent
  {
    forall j | k <= j < |l| ensures l[j] in l[k..] { assert l[k..][j - k] == l[j]; }
    if i :| 0 <= i < k && l[i] in urgent {
      assert l[i] in l && l[i] !in l[k..];
    }
    if t :| t in urgent && t in l && t !in l[k..] {
      var i :| 0 <= i < |l| && l[i] == t;
      assert i < k;
    }
  }

  class QueueControl {
    const length: nat
    const store: array<Message>          // pcHead
    var writeTo: nat                     // pcWriteTo
    var readFrom: nat                    // pcReadFrom: the slot last read
    var messagesWaiting: nat
    var txLock: Int8
    var rxLock: Int8
    var tasksWaitingToReceive: seq<nat>
    var tasksWaitingToSend: seq<nat>
    ghost var wokenReceivers: set<nat>
    ghost var wokenSenders: set<nat>

    ghost predicate Valid()
      reads this
    {
      && 0 < length == store.Length
      && readFrom < length && messagesWaiting <= length
      && writeTo == Slot(Slot(readFrom + 1, length) + messagesWaiting, length)
    }

    ghost function Contents(): seq<Message>
      reads this, store
      requires Valid()
    {
      Round(store[..], Slot(readFrom + 1, length), messagesWaiting)
    }

    ghost function View(): Queue
      reads this, store
      requires Valid()
    {
      Queue(length, Contents(), txLock, rxLock, tasksWaitingToReceive, tasksWaitingToSend, wokenReceivers, wokenSenders)
    }

    /** xQueueGenericReset( , pdTRUE ) */
    constructor (length: nat, blank: Message)
      requires length > 0
      ensures Valid() && fresh(store) && View() == New(length).q
    {
      this.length := length;
      store := new Message[length](_ => blank);
      messagesWaiting := 0;
      writeTo, readFrom := 0, length - 1;
      txLock, rxLock := UNLOCKED, UNLOCKED;
      tasksWaitingToSend, tasksWaitingToReceive := [], [];
      wokenReceivers, wokenSenders := {}, {};
    }

    // ----- the store as a deque ------------------------------------------------------------

    /** prvCopyDataToQueue */
    method CopyDataToQueue(m: Message, p: Position)
      requires Valid()
      requires if p == Overwrite then length == 1 else messagesWaiting < length
      modifies this`writeTo, this`readFrom, this`messagesWaiting, store
      ensures Valid() && Contents() == Put(old(Contents()), m, p)
    {
      hide Round;
      ghost var result := Put(Contents(), m, p);
      var messages := messagesWaiting;
      if p == Back {
        StoreAtBack(m);
      } else {
        StoreAtFront(m);
        if p == Overwrite {
          if messages > 0 {
            messages := messages - 1;
          }
        }
      }
      SetCount(messages + 1, result);
    }

    /** The branch for queueSEND_TO_BACK */
    method StoreAtBack(m: Message)
      requires Valid() && messagesWaiting < length
      modifies this`writeTo, store
      ensures writeTo == Slot(Slot(readFrom + 1, length) + (messagesWaiting + 1), length)
      ensures Round(store[..], Slot(readFrom + 1, length), messagesWaiting + 1) == old(Contents()) + [m]
    {
      hide Round;
      WrittenAtBack(store[..], Slot(readFrom + 1, length), messagesWaiting, m);
      ghost var was := store[..];
      store[writeTo] := m;
      assert store[..] == was[writeTo := m];
      writeTo := writeTo + 1;
      if writeTo >= length {
        writeTo := 0;
      }
    }

    /** The other branch: the slot last read is written, and becomes the next to be read */
    method StoreAtFront(m: Message)
      requires Valid()
      modifies this`readFrom, store
      ensures readFrom < length && Slot(readFrom + 1, length) == old(readFrom)
      ensures store[old(readFrom)] == m
      ensures messagesWaiting < length ==>
        writeTo == Slot(Slot(readFrom + 1, length) + (messagesWaiting + 1), length)
        && Round(store[..], Slot(readFrom + 1, length), messagesWaiting + 1) == [m] + old(Contents())
    {
      hide Round;
      ghost var was, first := store[..], Slot(readFrom + 1, length);
      if messagesWaiting < length {
        WrittenAtFront(was, first, messagesWaiting, m);
      }
      store[readFrom] := m;
      assert store[..] == was[Before(first, length) := m];
      readFrom := if readFrom == 0 then length - 1 else readFrom - 1;
    }

    method SetCount(messages: nat, ghost result: seq<Message>)
      requires 0 < length == store.Length && readFrom < length && messages <= length
      requires writeTo == Slot(Slot(readFrom + 1, length) + messages, length)
      requires Round(store[..], Slot(readFrom + 1, length), messages) == result
      modifies this`messagesWaiting
      ensures Valid() && Contents() == result
    {
      messagesWaiting := messages;
    }

    /** prvCopyDataFromQueue */
    method CopyDataFromQueue() returns (m: Message)
      requires Valid() && messagesWaiting > 0
      modifies this`readFrom
      ensures readFrom == Slot(old(readFrom) + 1, length) && m == old(Contents())[0]
    {
      readFrom := readFrom + 1;
      if readFrom >= length {
        readFrom := 0;
      }
      m := store[readFrom];
    }

    /** One item read and no longer counted */
    method RemoveItem() returns (m: Message)
      requires Valid() && messagesWaiting > 0
      modifies this`readFrom, this`messagesWaiting
      ensures Valid() && m == old(Contents())[0] && Contents() == old(Contents())[1..]
    {
      hide Round;
      StartedLater(store[..], Slot(readFrom + 1, length), messagesWaiting, 1);
      m := CopyDataFromQueue();
      messagesWaiting := messagesWaiting - 1;
    }

    /** prvCopyDataFromQueue with the read position put back */
    method PeekItem() returns (m: Message)
      requires Valid() && messagesWaiting > 0
      modifies this`readFrom
      ensures Valid() && View() == old(View()) && m == old(Contents())[0]
    {
      var originalReadPosition := readFrom;
      m := CopyDataFromQueue();
      readFrom := originalReadPosition;
    }

    // ----- event lists -----------------------------------------------------------------------

    /**
      xTaskRemoveFromEventList( &xTasksWaitingToReceive ) if a task is waiting.
      `urgent` are the tasks more urgent than the running one: the result says
      whether such a task was woken.
     */
    method WakeAReceiver(urgent: set<nat>) returns (woken: bool, higherWoken: bool)
      requires Valid()
      modifies this`tasksWaitingToReceive, this`wokenReceivers
      ensures View() == WakeReceiver(old(View())) && woken == (|old(tasksWaitingToReceive)| > 0)
      ensures higherWoken == FirstIsUrgent(old(tasksWaitingToReceive), urgent)
    {
      woken, higherWoken := |tasksWaitingToReceive| > 0, false;
      if woken {
        higherWoken := tasksWaitingToReceive[0] in urgent;
        wokenReceivers := wokenReceivers + {tasksWaitingToReceive[0]};
        tasksWaitingToReceive := tasksWaitingToReceive[1..];
      }
    }

    method WakeASender(urgent: set<nat>) returns (woken: bool, higherWoken: bool)
      requires Valid()
      modifies this`tasksWaitingToSend, this`wokenSenders
      ensures View() == WakeSender(old(View())) && woken == (|old(tasksWaitingToSend)| > 0)
      ensures higherWoken == FirstIsUrgent(old(tasksWaitingToSend), urgent)
    {
      woken, higherWoken := |tasksWaitingToSend| > 0, false;
      if woken {
        higherWoken := tasksWaitingToSend[0] in urgent;
        wokenSenders := wokenSenders + {tasksWaitingToSend[0]};
        tasksWaitingToSend := tasksWaitingToSend[1..];
      }
    }

    ghost method RunAgain(t: nat)
      requires Valid()
      modifies this`wokenReceivers, this`wokenSenders
      ensures View() == Ran(old(View()), t)
    {
      wokenReceivers, wokenSenders := wokenReceivers - {t}, wokenSenders - {t};
    }

    // ----- the critical sections ------------------------------------------------------------------

    /** The critical section of xQueueGenericSend, and whether it yields */
    method TrySend(t: nat, m: Message, p: Position, urgent: set<nat>) returns (sent: bool, yieldNow: bool)
      requires Valid() && (p == Overwrite ==> length == 1)
      modifies this, store
      ensures Valid() && View() == Send(old(View()), t, m, p)
      ensures sent == (|old(Contents())| < length || p == Overwrite)
      ensures yieldNow == (sent && FirstIsUrgent(old(tasksWaitingToReceive), urgent))
    {
      hide Round, Put;
      RunAgain(t);
      if messagesWaiting < length || p == Overwrite {
        CopyDataToQueue(m, p);
        var woken, higherWoken := WakeAReceiver(urgent);
        return true, higherWoken;
      }
      return false, false;
    }

    /** xQueueGenericSendFromISR, and whether it woke a more urgent task */
    method TrySendFromISR(m: Message, p: Position, urgent: set<nat>) returns (sent: bool, higherPriorityTaskWoken: bool)
      requires Valid() && (p == Overwrite ==> length == 1)
      modifies this, store
      ensures Valid() && View() == SendFromISR(old(View()), m, p)
      ensures sent == (|old(Contents())| < length || p == Overwrite)
      ensures higherPriorityTaskWoken ==
        (sent && old(txLock) == UNLOCKED && FirstIsUrgent(old(tasksWaitingToReceive), urgent))
    {
      hide Round, Put;
      higherPriorityTaskWoken := false;
      if messagesWaiting < length || p == Overwrite {
        var lock := txLock;
        CopyDataToQueue(m, p);
        if lock == UNLOCKED {
          var woken;
          woken, higherPriorityTaskWoken := WakeAReceiver(urgent);
        } else {
          txLock := Increment(lock);
        }
        return true, higherPriorityTaskWoken;
      }
      return false, false;
    }

    /** The critical section of xQueueReceive, and whether it yields */
    method TryReceive(t: nat, urgent: set<nat>) returns (received: bool, m: Message, yieldNow: bool)
      requires Valid()
      modifies this
      ensures Valid() && View() == Receive(old(View()), t)
      ensures received == (|old(Contents())| > 0) && (received ==> m == old(Contents())[0])
      ensures yieldNow == (received && FirstIsUrgent(old(tasksWaitingToSend), urgent))
    {
      hide Round;
      RunAgain(t);
      if messagesWaiting > 0 {
        m := RemoveItem();
        var woken, higherWoken := WakeASender(urgent);
        return true, m, higherWoken;
      }
      return false, [], false;
    }

    /** xQueueReceiveFromISR, and whether it woke a more urgent task */
    method TryReceiveFromISR(urgent: set<nat>) returns (received: bool, m: Message, higherPriorityTaskWoken: bool)
      requires Valid()
      modifies this
      ensures Valid() && View() == ReceiveFromISR(old(View()))
      ensures received == (|old(Contents())| > 0) && (received ==> m == old(Contents())[0])
      ensures higherPriorityTaskWoken ==
        (received && old(rxLock) == UNLOCKED && FirstIsUrgent(old(tasksWaitingToSend), urgent))
    {
      hide Round;
      higherPriorityTaskWoken := false;
      if messagesWaiting > 0 {
        var lock := rxLock;
        m := RemoveItem();
        if lock == UNLOCKED {
          var woken;
          woken, higherPriorityTaskWoken := WakeASender(urgent);
        } else {
          rxLock := Increment(lock);
        }
        return true, m, higherPriorityTaskWoken;
      }
      return false, [], false;
    }

    /** The critical section of xQueuePeek, and whether it yields */
    method TryPeek(t: nat, urgent: set<nat>) returns (peeked: bool, m: Message, yieldNow: bool)
      requires Valid()
      modifies this
      ensures Valid() && View() == Peek(old(View()), t)
      ensures peeked == (|old(Contents())| > 0) && (peeked ==> m == old(Contents())[0])
      ensures yieldNow == (peeked && FirstIsUrgent(old(tasksWaitingToReceive), urgent))
    {
      hide Round;
      RunAgain(t);
      if messagesWaiting > 0 {
        m := PeekItem();
        var woken, higherWoken := WakeAReceiver(urgent);
        return true, m, higherWoken;
      }
      return false, [], false;
    }

    // ----- locking ----------------------------------------------------------------------------------

    /** prvLockQueue */
    method LockQueue()
      requires Valid()
      modifies this`txLock, this`rxLock
      ensures Valid() && View() == Lock(old(View()))
    {
      if rxLock == UNLOCKED {
        rxLock := 0;
      }
      if txLock == UNLOCKED {
        txLock := 0;
      }
    }

    /** The first critical section of prvUnlockQueue, and whether it calls vTaskMissedYield */
    method UnlockTxHalf(urgent: set<nat>) returns (missedYield: bool)
      requires Valid()
      modifies this`txLock, this`tasksWaitingToReceive, this`wokenReceivers
      ensures Valid() && View() == UnlockTx(old(View()))
      ensures missedYield == UrgentAmongFirst(old(tasksWaitingToReceive), Posted(old(txLock)), urgent)
    {
      hide Round;
      var lock: Int8 := txLock;
      missedYield := false;
      while lock > 0
        invariant Valid()
        invariant WakeReceivers(View(), Posted(lock)) == WakeReceivers(old(View()), Posted(old(txLock)))
        invariant (missedYield || UrgentAmongFirst(tasksWaitingToReceive, Posted(lock), urgent))
          == UrgentAmongFirst(old(tasksWaitingToReceive), Posted(old(txLock)), urgent)
      {
        var woken, higherWoken := WakeAReceiver(urgent);
        if !woken {
          break;
        }
        if higherWoken {
          missedYield := true;
        }
        lock := lock - 1;
      }
      txLock := UNLOCKED;
    }

    /** The second critical section of prvUnlockQueue, and whether it calls vTaskMissedYield */
    method UnlockRxHalf(urgent: set<nat>) returns (missedYield: bool)
      requires Valid()
      modifies this`rxLock, this`tasksWaitingToSend, this`wokenSenders
      ensures Valid() && View() == UnlockRx(old(View()))
      ensures missedYield == UrgentAmongFirst(old(tasksWaitingToSend), Posted(old(rxLock)), urgent)
    {
      hide Round;
      var lock: Int8 := rxLock;
      missedYield := false;
      while lock > 0
        invariant Valid()
        invariant WakeSenders(View(), Posted(lock)) == WakeSenders(old(View()), Posted(old(rxLock)))
        invariant (missedYield || UrgentAmongFirst(tasksWaitingToSend, Posted(lock), urgent))
          == UrgentAmongFirst(old(tasksWaitingToSend), Posted(old(rxLock)), urgent)
      {
        var woken, higherWoken := WakeASender(urgent);
        if !woken {
          break;
        }
        if higherWoken {
          missedYield := true;
        }
        lock := lock - 1;
      }
      rxLock := UNLOCKED;
    }
  }
}
