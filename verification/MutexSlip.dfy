/**
  A run of the mutex code, from tasks at rest to a give that slips, told step by
  step (tasks.c and queue.c).
 */
module MutexSlip {
  import opened Lists
  import TaskModel
  import opened InheritanceModel

  /** Tasks 1 to 6.  Only 1 and 6 hold a mutex, so only their priorities p1 and p6 change; x and y are mutexes 1 and 2. */
  function Six(p1: TaskModel.Priority, p6: TaskModel.Priority, ready: set<nat>, running: nat, mustSwitch: bool,
               x: Mutex, y: Mutex, inherited: set<nat>, retry: map<nat, Retry>): System {
    System(map[1 := 1, 2 := 3, 3 := 1, 4 := 2, 5 := 2, 6 := 0], map[1 := p1, 2 := 3, 3 := 1, 4 := 2, 5 := 2, 6 := p6],
           ready, running, mustSwitch, map[1 := x, 2 := y], inherited, retry)
  }

  /**
    Task 1 takes mutex 1; tasks 2 and 3 wait for it.  Task 6 takes mutex 2, tasks
    4 and 5 wait for it, and 6 gives it back, which wakes 4.  Before 4 runs, task
    1 resumes at the priority of task 2; 2 times out at that same priority, and
    its time slice ends before it has undone the inheritance.
   */
  function StateAt(i: nat): System
    requires i <= 22
  {
    var free := Mutex(Nobody, []);
    var waited := Mutex(By(1), [Item(2, 4), Item(3, 6)]);
    var left, handed := Mutex(By(1), [Item(3, 6)]), Mutex(Nobody, [Item(5, 5)]);
    match i
    case 0 => Six(1, 0, {1, 2, 3, 6}, 1, false, free, free, {}, map[])
    case 1 => Six(1, 0, {1, 2, 3, 6}, 1, false, Mutex(By(1), []), free, {}, map[])
    case 2 => Six(1, 0, {2, 3, 6}, 1, true, Mutex(By(1), []), free, {}, map[])
    case 3 => Six(1, 0, {2, 3, 6}, 2, false, Mutex(By(1), []), free, {}, map[])
    case 4 => Six(3, 0, {3, 6}, 2, true, Mutex(By(1), [Item(2, 4)]), free, {2}, map[])
    case 5 => Six(3, 0, {3, 6}, 3, false, Mutex(By(1), [Item(2, 4)]), free, {2}, map[])
    case 6 => Six(3, 0, {6}, 3, true, waited, free, {2}, map[])
    case 7 => Six(3, 0, {6}, 6, false, waited, free, {2}, map[])
    case 8 => Six(3, 0, {6}, 6, false, waited, Mutex(By(6), []), {2}, map[])
    case 9 => Six(3, 0, {4, 6}, 6, true, waited, Mutex(By(6), []), {2}, map[])
    case 10 => Six(3, 0, {4, 6}, 4, false, waited, Mutex(By(6), []), {2}, map[])
    case 11 => Six(3, 2, {6}, 4, true, waited, Mutex(By(6), [Item(4, 5)]), {2, 4}, map[])
    case 12 => Six(3, 2, {5, 6}, 4, true, waited, Mutex(By(6), [Item(4, 5)]), {2, 4}, map[])
    case 13 => Six(3, 2, {5, 6}, 5, false, waited, Mutex(By(6), [Item(4, 5)]), {2, 4}, map[])
    case 14 => Six(3, 2, {6}, 5, true, waited, Mutex(By(6), [Item(4, 5), Item(5, 5)]), {2, 4, 5}, map[])
    case 15 => Six(3, 2, {6}, 6, false, waited, Mutex(By(6), [Item(4, 5), Item(5, 5)]), {2, 4, 5}, map[])
    case 16 => Six(3, 0, {4, 6}, 6, true, waited, handed, {2, 4, 5}, map[4 := Retry(2, true)])
    case 17 => Six(3, 0, {1, 4, 6}, 6, true, waited, handed, {2, 4, 5}, map[4 := Retry(2, true)])
    case 18 => Six(3, 0, {1, 4, 6}, 1, false, waited, handed, {2, 4, 5}, map[4 := Retry(2, true)])
    case 19 => Six(3, 0, {1, 2, 4, 6}, 1, true, left, handed, {2, 4, 5}, map[2 := Retry(1, false), 4 := Retry(2, true)])
    case 20 => Six(3, 0, {1, 2, 4, 6}, 2, false, left, handed, {2, 4, 5}, map[2 := Retry(1, false), 4 := Retry(2, true)])
    case 21 => Six(3, 0, {1, 2, 4, 6}, 2, false, left, handed, {2, 4, 5}, map[2 := Retry(1, false), 4 := Retry(2, true)])
    case _ => Six(3, 0, {1, 2, 4, 6}, 1, false, left, handed, {2, 4, 5}, map[2 := Retry(1, false), 4 := Retry(2, true)])
  }

  function EventAt(i: nat): Event {
    match i
    case 0 => Takes(1)
    case 1 => Sleeps
    case 2 => Switches(2)
    case 3 => Blocks(1)
    case 4 => Switches(3)
    case 5 => Blocks(1)
    case 6 => Switches(6)
    case 7 => Takes(2)
    case 8 => Wakes(4, true)
    case 9 => Switches(4)
    case 10 => Blocks(2)
    case 11 => Wakes(5, true)
    case 12 => Switches(5)
    case 13 => Blocks(2)
    case 14 => Switches(6)
    case 15 => Gives(2)
    case 16 => Wakes(1, true)
    case 17 => Switches(1)
    case 18 => TimesOut(1, 0, true)
    case 19 => Switches(2)
    case 20 => LooksAgain
    case _ => Switches(1)
  }

  ghost predicate StepAt(i: nat)
    requires i < 22
  {
    Enabled(StateAt(i), EventAt(i)) && StateAt(i + 1) == Step(StateAt(i), EventAt(i))
  }

  lemma Placed()
    ensures Inserted([], Item(2, 4)) == [Item(2, 4)]
    ensures Inserted([Item(2, 4)], Item(3, 6)) == [Item(2, 4), Item(3, 6)]
    ensures Inserted([], Item(4, 5)) == [Item(4, 5)]
    ensures Inserted([Item(4, 5)], Item(5, 5)) == [Item(4, 5), Item(5, 5)]
  {
  }

  lemma Step0()
    ensures StepAt(0)
  {
  }

  lemma Step1()
    ensures StepAt(1)
  {
  }

  lemma Step2()
    ensures StepAt(2)
  {
  }

  lemma Step3()
    ensures StepAt(3)
  {
    hide Inserted;
    Placed();
  }

  lemma Step4()
    ensures StepAt(4)
  {
  }

  lemma Step5()
    ensures StepAt(5)
  {
    hide Inserted;
    Placed();
  }

  lemma Step6()
    ensures StepAt(6)
  {
  }

  lemma Step7()
    ensures StepAt(7)
  {
  }

  lemma Step8()
    ensures StepAt(8)
  {
  }

  lemma Step9()
    ensures StepAt(9)
  {
  }

  lemma Step10()
    ensures StepAt(10)
  {
    hide Inserted;
    Placed();
  }

  lemma Step11()
    ensures StepAt(11)
  {
  }

  lemma Step12()
    ensures StepAt(12)
  {
  }

  lemma Step13()
    ensures StepAt(13)
  {
    hide Inserted;
    Placed();
  }

  lemma Step14()
    ensures StepAt(14)
  {
  }

  lemma Step15()
    ensures StepAt(15)
  {
  }

  lemma Step16()
    ensures StepAt(16)
  {
  }

  lemma Step17()
    ensures StepAt(17)
  {
  }

  lemma Step18()
    ensures StepAt(18)
  {
    hide RemoveAt;
    TakenOff();
  }

  lemma TakenOff()
    ensures RemoveAt([Item(2, 4), Item(3, 6)], 0) == [Item(3, 6)]
  {
  }

  lemma Step19()
    ensures StepAt(19)
  {
  }

  lemma Step20()
    ensures StepAt(20)
  {
  }

  lemma Step21()
    ensures StepAt(21)
  {
  }

  lemma EachStep(i: nat)
    requires i < 22
    ensures StepAt(i)
  {
    hide StepAt;
    Step0(); Step1(); Step2(); Step3(); Step4(); Step5();
    Step6(); Step7(); Step8(); Step9(); Step10(); Step11();
    Step12(); Step13(); Step14(); Step15(); Step16(); Step17();
    Step18(); Step19(); Step20(); Step21();
  }

  /** In a run from tasks at rest, in which no give has slipped so far, the next give slips. */
  lemma SlipHappens() returns (tr: seq<System>, es: seq<Event>)
    ensures Run(tr, es) && NoSlip(tr, es) && Start(tr[0]) && |es| == 22
    ensures Inv(tr[22]) && Enabled(tr[22], Gives(1)) && Slips(tr[22], 1) && tr[22].running !in tr[22].retry
  {
    hide Step, Enabled, Slips, Inv, StateAt, EventAt;
    tr, es := seq(23, i requires 0 <= i < 23 => StateAt(i)), seq(22, i requires 0 <= i < 22 => EventAt(i));
    AtRest();
    forall i {:trigger es[i]} | 0 <= i < 22
      ensures Enabled(tr[i], es[i]) && tr[i + 1] == Step(tr[i], es[i])
      ensures es[i].Gives? ==> !Slips(tr[i], es[i].mutex)
    {
      EachStep(i);
      NoSlipBefore(i);
    }
    StartInv(tr[0]);
    RunKeepsInv(tr, es, 22);
    LastGiveSlips();
  }

  lemma AtRest()
    ensures Start(StateAt(0))
  {
  }

  lemma NoSlipBefore(i: nat)
    requires i < 22
    ensures EventAt(i).Gives? ==> !Slips(StateAt(i), EventAt(i).mutex)
  {
    if i == 15 { assert At(StateAt(15).mutexes, 2).waiters[0] == Item(4, 5); }
  }

  lemma LastGiveSlips()
    ensures var s := StateAt(22); Enabled(s, Gives(1)) && Slips(s, 1) && s.running !in s.retry
  {
    var d := SetPrio(StateAt(22), 1, 1);
    assert Item(5, 5) in At(d.mutexes, 2).waiters;
    assert !AheadOf(d, 2);
  }
}
