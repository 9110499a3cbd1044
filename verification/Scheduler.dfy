/**
  The scheduler's code (tasks.c), statement by statement over its file-scope
  variables, proved to compute the functions of TaskModel.dfy.
 */
module Scheduler {
  import opened Lists
  import opened TaskModel
  import opened DeferredTicks
  import Preemption
  import InheritanceModel

  type Holder = InheritanceModel.Holder

  // taskEVENT_LIST_ITEM_VALUE_IN_USE, the top bit of a 32-bit item value
  const IN_USE: Tick := 0x8000_0000

  /** The event item values with that of t set for priority p, unless it is in use for something else. */
  function Revalued(values: map<nat, Tick>, t: nat, p: Priority): map<nat, Tick> {
    if t in values && values[t] >= IN_USE then values else values[t := MAX_PRIORITIES - p]
  }

  class Kernel {
    var tickCount: Tick
    var numOfOverflows: nat
    var nextTaskUnblockTime: Tick
    var delayedTaskList: seq<Item>
    var overflowDelayedTaskList: seq<Item>
    var pendedTicks: nat
    var schedulerSuspended: nat
    var readyTasksLists: ReadyLists
    var topReadyPriority: Priority
    var suspendedTaskList: seq<nat>
    var tasksWaitingTermination: seq<nat>
    var pendingReadyList: seq<nat>
    var waiting: set<nat>
    var priorities: map<nat, Priority>
    var currentTCB: nat
    var yieldPending: bool
    const tickless: bool
    // of each task control block, besides uxPriority
    var basePriorities: map<nat, Priority>
    var mutexesHeld: map<nat, nat>
    var eventItemValues: map<nat, Tick>

    constructor (task: nat, priority: Priority, tickless: bool)
      ensures View() == Initial(task, priority, tickless)
      ensures basePriorities == map[task := priority] && mutexesHeld == map[]
      ensures eventItemValues == map[task := MAX_PRIORITIES - priority]
    {
      tickCount, numOfOverflows, nextTaskUnblockTime := 0, 0, MAX_DELAY;
      delayedTaskList, overflowDelayedTaskList := [], [];
      pendedTicks, schedulerSuspended := 0, 0;
      readyTasksLists := seq(MAX_PRIORITIES, i => if i == priority then ReadyList([task], 0) else ReadyList([], 0));
      topReadyPriority := priority;
      suspendedTaskList, tasksWaitingTermination, pendingReadyList, waiting := [], [], [], {};
      priorities, currentTCB, yieldPending := map[task := priority], task, false;
      this.tickless := tickless;
      basePriorities, mutexesHeld := map[task := priority], map[];
      eventItemValues := map[task := MAX_PRIORITIES - priority];
    }

    function Base(t: nat): Priority
      reads this`basePriorities
    {
      if t in basePriorities then basePriorities[t] else 0
    }

    function Held(t: nat): nat
      reads this`mutexesHeld
    {
      if t in mutexesHeld then mutexesHeld[t] else 0
    }

    function EventValue(t: nat): Tick
      reads this`eventItemValues
    {
      if t in eventItemValues then eventItemValues[t] else MAX_PRIORITIES
    }

    function View(): State
      reads this
    {
      State(Clock(tickCount, numOfOverflows, nextTaskUnblockTime, delayedTaskList, overflowDelayedTaskList),
            pendedTicks, schedulerSuspended, readyTasksLists, topReadyPriority, suspendedTaskList,
            tasksWaitingTermination, pendingReadyList, waiting, priorities, currentTCB, yieldPending, tickless)
    }

    // ----- list handling shared by the operations --------------------------------------------

    /** prvAddTaskToReadyList */
    method AddTaskToReadyList(t: nat)
      modifies this`topReadyPriority, this`readyTasksLists
      ensures View() == AddToReady(old(View()), t)
    {
      var p := Prio(View(), t);
      if p > topReadyPriority {
        topReadyPriority := p;
      }
      readyTasksLists := readyTasksLists[p := InsertEnd(readyTasksLists[p], t)];
    }

    /** uxListRemove on the state list item */
    method RemoveStateItem(t: nat)
      modifies this`readyTasksLists, this`delayedTaskList, this`overflowDelayedTaskList
      modifies this`suspendedTaskList, this`tasksWaitingTermination
      ensures View() == RemoveState(old(View()), t)
    {
      hide RemoveReady, Find, Without, WithoutOwner;
      var p := Prio(View(), t);
      readyTasksLists := readyTasksLists[p := RemoveReady(readyTasksLists[p], t)];
      delayedTaskList := WithoutOwner(delayedTaskList, t);
      overflowDelayedTaskList := WithoutOwner(overflowDelayedTaskList, t);
      suspendedTaskList := Without(suspendedTaskList, t);
      tasksWaitingTermination := Without(tasksWaitingTermination, t);
    }

    /** prvResetNextTaskUnblockTime */
    method ResetNextTaskUnblockTime()
      modifies this`nextTaskUnblockTime
      ensures View() == ResetNextUnblock(old(View()))
    {
      if |delayedTaskList| == 0 {
        nextTaskUnblockTime := MAX_DELAY;
      } else {
        nextTaskUnblockTime := delayedTaskList[0].value;
      }
    }

    // ----- the tick ------------------------------------------------------------------------------

    /** taskSWITCH_DELAYED_LISTS */
    method SwitchDelayedLists()
      modifies this`delayedTaskList, this`overflowDelayedTaskList, this`numOfOverflows, this`nextTaskUnblockTime
      ensures View() == old(View()).(clock := SwitchLists(old(View()).clock))
    {
      var temp := delayedTaskList;
      delayedTaskList := overflowDelayedTaskList;
      overflowDelayedTaskList := temp;
      numOfOverflows := numOfOverflows + 1;
      ResetNextTaskUnblockTime();
    }

    /** The unblocking loop of xTaskIncrementTick */
    method UnblockDueTasks() returns (switchRequired: bool)
      modifies this`delayedTaskList, this`waiting, this`pendingReadyList, this`topReadyPriority
      modifies this`readyTasksLists, this`nextTaskUnblockTime
      ensures View() == Unblock(old(View()))
      ensures switchRequired == UnblocksPeer(old(View()))
    {
      hide UnblockHead;
      switchRequired := false;
      while true
        invariant Unblock(View()) == Unblock(old(View()))
        invariant (switchRequired || UnblocksPeer(View())) == UnblocksPeer(old(View()))
        decreases |delayedTaskList|
      {
        if |delayedTaskList| == 0 {
          nextTaskUnblockTime := MAX_DELAY;
          break;
        }
        var head := delayedTaskList[0];
        if tickCount < head.value {
          nextTaskUnblockTime := head.value;
          break;
        }
        UnblockFirst(head.owner);
        if Prio(View(), head.owner) >= Prio(View(), currentTCB) {
          switchRequired := true;
        }
      }
    }

    method UnblockFirst(t: nat)
      requires |delayedTaskList| > 0 && delayedTaskList[0].owner == t
      modifies this`delayedTaskList, this`waiting, this`pendingReadyList, this`topReadyPriority, this`readyTasksLists
      ensures View() == UnblockHead(old(View()))
      ensures delayedTaskList == old(delayedTaskList)[1..]
    {
      hide InsertEnd, Without;
      delayedTaskList := delayedTaskList[1..];
      waiting := waiting - {t};
      pendingReadyList := Without(pendingReadyList, t);
      AddTaskToReadyList(t);
    }

    /** xTaskIncrementTick */
    method IncrementTick() returns (switchRequired: bool)
      modifies this
      ensures View() == TaskModel.IncrementTick(old(View()))
      ensures switchRequired == Preemption.Asks(old(View()), TickInterrupt)
    {
      switchRequired := false;
      if schedulerSuspended == 0 {
        tickCount := if tickCount == MAX_DELAY then 0 else tickCount + 1;
        if tickCount == 0 {
          SwitchDelayedLists();
        }
        if tickCount >= nextTaskUnblockTime {
          switchRequired := UnblockDueTasks();
        }
        if |readyTasksLists[Prio(View(), currentTCB)].items| > 1 {
          switchRequired := true;
        }
        if yieldPending {
          switchRequired := true;
        }
      } else {
        pendedTicks := pendedTicks + 1;
      }
    }

    // ----- suspending and resuming the scheduler --------------------------------------------------

    /** vTaskSuspendAll */
    method SuspendAll()
      modifies this`schedulerSuspended
      ensures View() == TaskModel.SuspendAll(old(View()))
    {
      schedulerSuspended := schedulerSuspended + 1;
    }

    /** The loop of xTaskResumeAll over the pending ready list, and what follows it */
    method DrainPendingReadyList()
      modifies this`pendingReadyList, this`readyTasksLists, this`delayedTaskList, this`overflowDelayedTaskList
      modifies this`suspendedTaskList, this`tasksWaitingTermination, this`topReadyPriority, this`yieldPending
      modifies this`nextTaskUnblockTime
      ensures View() == DrainPending(old(View()))
    {
      hide RemoveState, AddToReady;
      var moved := false;
      while |pendingReadyList| > 0
        invariant Drain(View()) == Drain(old(View()))
        invariant moved == (|old(pendingReadyList)| > |pendingReadyList|)
        invariant !moved ==> View() == old(View())
        decreases |pendingReadyList|
      {
        MoveFirstPending();
        moved := true;
      }
      if moved {
        ResetNextTaskUnblockTime();
      }
    }

    method MoveFirstPending()
      requires |pendingReadyList| > 0
      modifies this`pendingReadyList, this`readyTasksLists, this`delayedTaskList, this`overflowDelayedTaskList
      modifies this`suspendedTaskList, this`tasksWaitingTermination, this`topReadyPriority, this`yieldPending
      ensures View() == DrainHead(old(View()))
      ensures pendingReadyList == old(pendingReadyList)[1..]
    {
      hide RemoveState, AddToReady;
      var t := pendingReadyList[0];
      pendingReadyList := pendingReadyList[1..];
      RemoveStateItem(t);
      AddTaskToReadyList(t);
      if Prio(View(), t) >= Prio(View(), currentTCB) {
        yieldPending := true;
      }
    }

    /** The loop of xTaskResumeAll over the pended ticks */
    method DeliverPendedTicks()
      requires schedulerSuspended == 0
      modifies this
      ensures View() == CatchUp(old(View()), old(pendedTicks)).(pended := 0)
    {
      hide DoTick, TickWantsSwitch;
      var pendedCounts := pendedTicks;
      while pendedCounts > 0
        invariant schedulerSuspended == 0
        invariant CatchUp(View(), pendedCounts) == CatchUp(old(View()), old(pendedTicks))
      {
        ghost var s := View();
        var switchRequired := IncrementTick();
        if switchRequired {
          yieldPending := true;
        }
        TickFramed(s, s.pended, s.depth, s.yieldPending);
        assert View() == CatchUpTick(s);
        pendedCounts := pendedCounts - 1;
      }
      pendedTicks := 0;
    }

    /** xTaskResumeAll */
    method ResumeAll() returns (alreadyYielded: bool)
      requires schedulerSuspended > 0
      modifies this
      ensures View() == TaskModel.ResumeAll(old(View()))
      ensures alreadyYielded == (old(schedulerSuspended) == 1 && |old(priorities)| > 0 && yieldPending)
    {
      alreadyYielded := false;
      schedulerSuspended := schedulerSuspended - 1;
      if schedulerSuspended == 0 {
        if |priorities| > 0 {
          DrainPendingReadyList();
          DeliverPendedTicks();
          if yieldPending {
            alreadyYielded := true;
          }
        }
      }
    }

    // ----- choosing the running task ------------------------------------------------------------------

    /** taskSELECT_HIGHEST_PRIORITY_TASK */
    method SelectHighestPriorityTask()
      requires exists p: Priority :: p <= topReadyPriority && |readyTasksLists[p].items| > 0
      modifies this`topReadyPriority, this`readyTasksLists, this`currentTCB
      ensures var p := TopNonEmpty(old(readyTasksLists), old(topReadyPriority));
        var l := old(readyTasksLists)[p];
        && |l.items| > 0
        && var k := NextIndex(|l.items| + 1, l.index);
           View() == old(View()).(topReady := p, current := l.items[k - 1],
                                  ready := old(readyTasksLists)[p := ReadyList(l.items, k)])
    {
      var top: Priority := topReadyPriority;
      TopNonEmptyFinds(readyTasksLists, top);
      while |readyTasksLists[top].items| == 0
        invariant TopNonEmpty(readyTasksLists, top) == TopNonEmpty(old(readyTasksLists), old(topReadyPriority))
        decreases top
      {
        top := top - 1;
      }
      // listGET_OWNER_OF_NEXT_ENTRY
      var l := readyTasksLists[top];
      var k := l.index + 1;
      if k == |l.items| + 1 {
        k := 1;
      }
      readyTasksLists := readyTasksLists[top := ReadyList(l.items, k)];
      currentTCB := l.items[k - 1];
      topReadyPriority := top;
    }

    /** vTaskSwitchContext */
    method SwitchContext()
      requires Enabled(View(), ContextSwitch)
      modifies this
      ensures View() == TaskModel.SwitchContext(old(View()))
    {
      if schedulerSuspended != 0 {
        yieldPending := true;
      } else {
        ghost var p: Priority :| p <= View().topReady && |View().ready[p].items| > 0;
        yieldPending := false;
        assert |readyTasksLists[p].items| > 0;
        SelectHighestPriorityTask();
      }
    }

    // ----- blocking and waking ---------------------------------------------------------------------------

    /** The second half of prvAddCurrentTaskToDelayedList: which delayed list, and how far the unblock time */
    method AddToDelayedLists(wait: Tick)
      modifies this`delayedTaskList, this`overflowDelayedTaskList, this`nextTaskUnblockTime
      ensures View() == old(View()).(clock := SetAlarm(old(View()).clock, currentTCB, wait))
    {
      hide Inserted;
      var timeToWake := (tickCount + wait) % 0x1_0000_0000;
      if timeToWake < tickCount {
        overflowDelayedTaskList := Inserted(overflowDelayedTaskList, Item(currentTCB, timeToWake));
      } else {
        delayedTaskList := Inserted(delayedTaskList, Item(currentTCB, timeToWake));
        if timeToWake < nextTaskUnblockTime {
          nextTaskUnblockTime := timeToWake;
        }
      }
    }

    /** prvAddCurrentTaskToDelayedList */
    method AddCurrentTaskToDelayedList(wait: Tick, canBlockIndefinitely: bool)
      modifies this`readyTasksLists, this`suspendedTaskList, this`delayedTaskList, this`overflowDelayedTaskList
      modifies this`nextTaskUnblockTime
      ensures View() == Block(old(View()), wait, canBlockIndefinitely, false)
    {
      hide RemoveReady, SetAlarm;
      var p := Prio(View(), currentTCB);
      readyTasksLists := readyTasksLists[p := RemoveReady(readyTasksLists[p], currentTCB)];
      if wait == MAX_DELAY && canBlockIndefinitely {
        suspendedTaskList := suspendedTaskList + [currentTCB];
      } else {
        AddToDelayedLists(wait);
      }
    }

    /** vTaskPlaceOnEventList: the event list is ordered by item value, that is by priority */
    method PlaceOnEventList(eventList: seq<Item>, wait: Tick) returns (placed: seq<Item>)
      modifies this`waiting, this`readyTasksLists, this`suspendedTaskList, this`delayedTaskList, this`overflowDelayedTaskList
      modifies this`nextTaskUnblockTime
      ensures View() == Block(old(View()), wait, true, true)
      ensures placed == Inserted(eventList, Item(currentTCB, EventValue(currentTCB)))
    {
      hide Inserted, SetAlarm, RemoveReady;
      placed := Inserted(eventList, Item(currentTCB, EventValue(currentTCB)));
      waiting := waiting + {currentTCB};
      AddCurrentTaskToDelayedList(wait, true);
    }

    /** vTaskPlaceOnUnorderedEventList: the item carries a value of the caller's, marked as in use */
    method PlaceOnUnorderedEventList(eventList: seq<Item>, itemValue: Tick, wait: Tick) returns (placed: seq<Item>)
      requires schedulerSuspended > 0
      modifies this`waiting, this`readyTasksLists, this`suspendedTaskList, this`delayedTaskList, this`overflowDelayedTaskList
      modifies this`nextTaskUnblockTime, this`eventItemValues
      ensures View() == Block(old(View()), wait, true, true)
      ensures EventValue(currentTCB) >= IN_USE && EventValue(currentTCB) % IN_USE == itemValue % IN_USE
      ensures eventItemValues == old(eventItemValues)[currentTCB := EventValue(currentTCB)]
      ensures placed == eventList + [Item(currentTCB, EventValue(currentTCB))]
    {
      hide SetAlarm, RemoveReady;
      var value: Tick := if itemValue >= IN_USE then itemValue else itemValue + IN_USE;
      eventItemValues := eventItemValues[currentTCB := value];
      placed := eventList + [Item(currentTCB, value)];
      waiting := waiting + {currentTCB};
      AddCurrentTaskToDelayedList(wait, true);
    }

    /** vTaskPlaceOnEventListRestricted, by which the timer daemon blocks */
    method PlaceOnEventListRestricted(eventList: seq<Item>, wait: Tick, indefinitely: bool) returns (placed: seq<Item>)
      modifies this`waiting, this`readyTasksLists, this`suspendedTaskList, this`delayedTaskList, this`overflowDelayedTaskList
      modifies this`nextTaskUnblockTime
      ensures View() == Block(old(View()), if indefinitely then MAX_DELAY else wait, indefinitely, true)
      ensures placed == eventList + [Item(currentTCB, EventValue(currentTCB))]
    {
      hide SetAlarm, RemoveReady;
      placed := eventList + [Item(currentTCB, EventValue(currentTCB))];
      waiting := waiting + {currentTCB};
      var ticksToWait := wait;
      if indefinitely {
        ticksToWait := MAX_DELAY;
      }
      AddCurrentTaskToDelayedList(ticksToWait, indefinitely);
    }

    /** uxListRemove on the event list item, wherever it is; found if it was on a list */
    method RemoveEventItem(t: nat) returns (found: bool)
      modifies this`waiting, this`pendingReadyList
      ensures View() == RemoveEvent(old(View()), t)
      ensures found == (t in old(waiting) || t in old(pendingReadyList))
    {
      hide Without;
      WithoutMembers(pendingReadyList, t);
      found := false;
      if t in waiting || t in pendingReadyList {
        waiting := waiting - {t};
        pendingReadyList := Without(pendingReadyList, t);
        found := true;
      }
    }

    method MoveToReady(t: nat)
      modifies this`readyTasksLists, this`delayedTaskList, this`overflowDelayedTaskList
      modifies this`suspendedTaskList, this`tasksWaitingTermination, this`topReadyPriority
      ensures View() == AddToReady(RemoveState(old(View()), t), t)
    {
      hide RemoveState, AddToReady;
      RemoveStateItem(t);
      AddTaskToReadyList(t);
    }

    /** The middle of xTaskRemoveFromEventList: ready at once, or pending while the scheduler is suspended */
    method ReadyOrPending(t: nat)
      modifies this`readyTasksLists, this`delayedTaskList, this`overflowDelayedTaskList, this`pendingReadyList
      modifies this`suspendedTaskList, this`tasksWaitingTermination, this`topReadyPriority, this`nextTaskUnblockTime
      ensures var s := old(View());
        View() == if s.depth > 0 then s.(pendingReady := s.pendingReady + [t])
          else if tickless then ResetNextUnblock(AddToReady(RemoveState(s, t), t)) else AddToReady(RemoveState(s, t), t)
    {
      hide RemoveState, AddToReady;
      if schedulerSuspended == 0 {
        MoveToReady(t);
        if tickless {
          ResetNextTaskUnblockTime();
        }
      } else {
        pendingReadyList := pendingReadyList + [t];
      }
    }

    /** xTaskRemoveFromEventList, t being the head of the event list */
    method RemoveFromEventList(t: nat) returns (higherPriorityWoken: bool)
      requires t in waiting
      modifies this`readyTasksLists, this`delayedTaskList, this`overflowDelayedTaskList, this`pendingReadyList, this`waiting
      modifies this`suspendedTaskList, this`tasksWaitingTermination, this`topReadyPriority, this`yieldPending
      modifies this`nextTaskUnblockTime
      ensures View() == EventWake(old(View()), t)
      ensures higherPriorityWoken == Preemption.Records(old(View()), Woken(t))
    {
      hide RemoveState, AddToReady;
      waiting := waiting - {t};
      ReadyOrPending(t);
      higherPriorityWoken := Prio(View(), t) > Prio(View(), currentTCB);
      if higherPriorityWoken {
        yieldPending := true;
      }
    }

    /** vTaskRemoveFromUnorderedEventList */
    method RemoveFromUnorderedEventList(t: nat)
      requires schedulerSuspended > 0 && t in waiting
      modifies this`readyTasksLists, this`delayedTaskList, this`overflowDelayedTaskList, this`waiting
      modifies this`suspendedTaskList, this`tasksWaitingTermination, this`topReadyPriority, this`yieldPending
      modifies this`nextTaskUnblockTime
      ensures View() == UnorderedWake(old(View()), t)
    {
      hide RemoveState, AddToReady;
      waiting := waiting - {t};
      if tickless {
        ResetNextTaskUnblockTime();
      }
      MoveToReady(t);
      if Prio(View(), t) > Prio(View(), currentTCB) {
        yieldPending := true;
      }
    }

    // ----- suspending and resuming a task ------------------------------------------------------------------

    /** vTaskSuspend, and whether it yields */
    method Suspend(t: nat) returns (yieldNow: bool)
      modifies this`readyTasksLists, this`delayedTaskList, this`overflowDelayedTaskList, this`pendingReadyList, this`waiting
      modifies this`suspendedTaskList, this`tasksWaitingTermination, this`nextTaskUnblockTime
      ensures View() == TaskModel.Suspend(old(View()), t) && yieldNow == Preemption.Asks(old(View()), TaskSuspended(t))
    {
      hide RemoveState, RemoveEvent;
      RemoveStateItem(t);
      var found := RemoveEventItem(t);
      suspendedTaskList := suspendedTaskList + [t];
      ResetNextTaskUnblockTime();
      yieldNow := t == currentTCB;
    }

    /** vTaskResume, and whether it yields */
    method Resume(t: nat) returns (yieldNow: bool)
      modifies this`readyTasksLists, this`delayedTaskList, this`overflowDelayedTaskList
      modifies this`suspendedTaskList, this`tasksWaitingTermination, this`topReadyPriority
      ensures View() == TaskModel.Resume(old(View()), t)
      ensures yieldNow == Preemption.Asks(old(View()), TaskResumed(t))
    {
      hide RemoveState, AddToReady;
      yieldNow := false;
      if t != currentTCB {
        if IsSuspended(View(), t) {
          MoveToReady(t);
          if Prio(View(), t) >= Prio(View(), currentTCB) {
            yieldNow := true;
          }
        }
      }
    }

    /** xTaskResumeFromISR */
    method ResumeFromISR(t: nat) returns (yieldRequired: bool)
      modifies this`readyTasksLists, this`delayedTaskList, this`overflowDelayedTaskList, this`pendingReadyList
      modifies this`suspendedTaskList, this`tasksWaitingTermination, this`topReadyPriority, this`yieldPending
      ensures View() == TaskModel.ResumeFromISR(old(View()), t)
      ensures yieldRequired == Preemption.Records(old(View()), ResumedFromISR(t))
    {
      hide RemoveReady, InsertEnd, Without, WithoutOwner;
      yieldRequired := false;
      if IsSuspended(View(), t) {
        if schedulerSuspended == 0 {
          if Prio(View(), t) >= Prio(View(), currentTCB) {
            yieldRequired := true;
            yieldPending := true;
          }
          MoveToReady(t);
        } else {
          pendingReadyList := pendingReadyList + [t];
        }
      }
    }

    // ----- notifications and aborted delays: what they do to the lists -----------------------------------

    /** xTaskGenericNotify, t waiting for the notification, and whether it yields */
    method NotifyWaiting(t: nat) returns (yieldNow: bool)
      modifies this`readyTasksLists, this`delayedTaskList, this`overflowDelayedTaskList
      modifies this`suspendedTaskList, this`tasksWaitingTermination, this`topReadyPriority, this`nextTaskUnblockTime
      ensures View() == Notify(old(View()), t) && yieldNow == Preemption.Asks(old(View()), Notified(t))
    {
      hide RemoveState, AddToReady;
      MoveToReady(t);
      if tickless {
        ResetNextTaskUnblockTime();
      }
      yieldNow := Prio(View(), t) > Prio(View(), currentTCB);
    }

    /** xTaskGenericNotifyFromISR and vTaskGenericNotifyGiveFromISR, t waiting for the notification */
    method NotifyWaitingFromISR(t: nat) returns (higherPriorityWoken: bool)
      modifies this`readyTasksLists, this`delayedTaskList, this`overflowDelayedTaskList, this`pendingReadyList
      modifies this`suspendedTaskList, this`tasksWaitingTermination, this`topReadyPriority, this`yieldPending
      ensures View() == NotifyFromISR(old(View()), t)
      ensures higherPriorityWoken == Preemption.Records(old(View()), NotifiedFromISR(t))
    {
      hide RemoveState, AddToReady;
      if schedulerSuspended == 0 {
        MoveToReady(t);
      } else {
        pendingReadyList := pendingReadyList + [t];
      }
      if Prio(View(), t) > Prio(View(), currentTCB) {
        higherPriorityWoken := true;
        yieldPending := true;
      } else {
        higherPriorityWoken := false;
      }
    }

    /** xTaskAbortDelay between vTaskSuspendAll and xTaskResumeAll, t being blocked; aborted is ucDelayAborted */
    method AbortBlocked(t: nat) returns (aborted: bool)
      requires schedulerSuspended > 0
      modifies this`readyTasksLists, this`delayedTaskList, this`overflowDelayedTaskList, this`pendingReadyList, this`waiting
      modifies this`suspendedTaskList, this`tasksWaitingTermination, this`topReadyPriority, this`yieldPending
      ensures View() == AbortDelay(old(View()), t)
      ensures aborted == (t in old(waiting) || t in old(pendingReadyList))
    {
      hide RemoveState, RemoveEvent, AddToReady;
      RemoveStateItem(t);
      aborted := RemoveEventItem(t);
      AddTaskToReadyList(t);
      if Prio(View(), t) > Prio(View(), currentTCB) {
        yieldPending := true;
      }
    }

    // ----- priority inheritance ----------------------------------------------------------------------------

    /** A task's priority set, the task moved between ready lists if it is on one. */
    method SetPriority(t: nat, p: Priority)
      modifies this`priorities, this`readyTasksLists, this`topReadyPriority
      ensures View() == ChangePriority(old(View()), t, p)
    {
      hide RemoveReady, InsertEnd;
      if IsReady(View(), t) {
        var was := Prio(View(), t);
        readyTasksLists := readyTasksLists[was := RemoveReady(readyTasksLists[was], t)];
        priorities := priorities[t := p];
        AddTaskToReadyList(t);
      } else {
        priorities := priorities[t := p];
      }
    }

    /** xTaskPriorityInherit */
    method PriorityInherit(holder: Holder) returns (inherited: bool)
      modifies this`priorities, this`readyTasksLists, this`topReadyPriority, this`eventItemValues
      ensures var s := old(View());
        var raised := holder.By? && Prio(s, holder.task) < Prio(s, s.current);
        && inherited == (raised || (holder.By? && Base(holder.task) < Prio(s, s.current)))
        && View() == (if raised then ChangePriority(s, holder.task, Prio(s, s.current)) else s)
        && eventItemValues ==
             if raised then Revalued(old(eventItemValues), holder.task, Prio(s, s.current)) else old(eventItemValues)
    {
      hide ChangePriority;
      inherited := false;
      if holder != InheritanceModel.Nobody {
        var t := holder.task;
        var urgent := Prio(View(), currentTCB);
        if Prio(View(), t) < urgent {
          if EventValue(t) < IN_USE {
            eventItemValues := eventItemValues[t := MAX_PRIORITIES - urgent];
          }
          SetPriority(t, urgent);
          inherited := true;
        } else {
          if Base(t) < urgent {
            inherited := true;
          }
        }
      }
    }

    /** xTaskPriorityDisinherit: what it asserts of the holder is required */
    method PriorityDisinherit(holder: Holder) returns (switchRequired: bool)
      requires holder.By? ==> holder.task == currentTCB && Held(holder.task) > 0 && IsReady(View(), holder.task)
      modifies this`priorities, this`readyTasksLists, this`topReadyPriority, this`eventItemValues, this`mutexesHeld
      ensures var s := old(View());
        && switchRequired == (holder.By? && Prio(s, holder.task) != Base(holder.task) && old(Held(holder.task)) == 1)
        && View() == (if switchRequired then ChangePriority(s, holder.task, Base(holder.task)) else s)
        && eventItemValues == (
             if switchRequired then old(eventItemValues)[holder.task := MAX_PRIORITIES - Base(holder.task)]
             else old(eventItemValues))
        && mutexesHeld == (
             if holder.By? then old(mutexesHeld)[holder.task := old(Held(holder.task)) - 1] else old(mutexesHeld))
    {
      hide ChangePriority;
      switchRequired := false;
      if holder != InheritanceModel.Nobody {
        var t := holder.task;
        mutexesHeld := mutexesHeld[t := Held(t) - 1];
        if Prio(View(), t) != Base(t) {
          if Held(t) == 0 {
            SetPriority(t, Base(t));
            eventItemValues := eventItemValues[t := MAX_PRIORITIES - Base(t)];
            switchRequired := true;
          }
        }
      }
    }

    /** vTaskPriorityDisinheritAfterTimeout */
    method PriorityDisinheritAfterTimeout(holder: Holder, highestPriorityWaitingTask: Priority)
      requires holder.By? ==> Held(holder.task) > 0
      modifies this`priorities, this`readyTasksLists, this`topReadyPriority, this`eventItemValues
      ensures var s := old(View());
        var use := if !holder.By? || Base(holder.task) < highestPriorityWaitingTask then highestPriorityWaitingTask
                   else Base(holder.task);
        var changed := holder.By? && Prio(s, holder.task) != use && Held(holder.task) == 1;
        && View() == (if changed then ChangePriority(s, holder.task, use) else s)
        && eventItemValues == if changed then Revalued(old(eventItemValues), holder.task, use) else old(eventItemValues)
    {
      hide ChangePriority;
      if holder != InheritanceModel.Nobody {
        var t := holder.task;
        var priorityToUse: Priority;
        if Base(t) < highestPriorityWaitingTask {
          priorityToUse := highestPriorityWaitingTask;
        } else {
          priorityToUse := Base(t);
        }
        if Prio(View(), t) != priorityToUse {
          if Held(t) == 1 {
            if EventValue(t) < IN_USE {
              eventItemValues := eventItemValues[t := MAX_PRIORITIES - priorityToUse];
            }
            SetPriority(t, priorityToUse);
          }
        }
      }
    }

    /** pvTaskIncrementMutexHeldCount */
    method IncrementMutexHeldCount() returns (holder: Holder)
      modifies this`mutexesHeld
      ensures mutexesHeld == old(mutexesHeld)[currentTCB := old(Held(currentTCB)) + 1]
      ensures holder == InheritanceModel.By(currentTCB)
    {
      mutexesHeld := mutexesHeld[currentTCB := Held(currentTCB) + 1];
      holder := InheritanceModel.By(currentTCB);
    }
  }
}
