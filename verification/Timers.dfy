/**
  The timer daemon's code (timers.c), statement by statement, proved to compute
  the functions of TimerModel.dfy.  Of a Time the code reads only the tick count;
  the epoch records what the clock stands for.
 */
module Timers {
  import opened Lists
  import TaskModel
  import opened TimerModel
  import opened TimerWork

  class TimerDaemon {
    var clock: Time                     // what xTaskGetTickCount reads
    var lastTime: Time                  // xLastTime
    var currentTimerList: seq<Item>
    var overflowTimerList: seq<Item>
    var timerQueue: seq<Command>
    var timers: map<nat, Timer>
    ghost var log: seq<Fire>

    constructor (timers: map<nat, Timer>)
      ensures View() == Daemon(Time(0, 0), Time(0, 0), [], [], [], timers, [])
    {
      clock, lastTime := Time(0, 0), Time(0, 0);
      currentTimerList, overflowTimerList, timerQueue := [], [], [];
      this.timers, log := timers, [];
    }

    ghost function View(): Daemon
      reads this
    {
      Daemon(clock, lastTime, currentTimerList, overflowTimerList, timerQueue, timers, log)
    }

    method CallBack(t: nat)
      modifies this`log
      ensures View() == Call(old(View()), t)
    {
      log := log + [Fire(t, True(clock))];
    }

    /** xTimerGenericCommand( tmrCOMMAND_START_DONT_TRACE ) */
    method Restart(t: nat, stamp: Time)
      modifies this`timerQueue
      ensures View() == Post(old(View()), Start(t, stamp))
    {
      timerQueue := timerQueue + [Start(t, stamp)];
    }

    /** prvInsertTimerInActiveList, the time now being the daemon's last look at the clock */
    method InsertTimerInActiveList(t: nat, nextExpiryTime: Tick, commandTime: Tick) returns (processTimerNow: bool)
      modifies this`currentTimerList, this`overflowTimerList
      ensures processTimerNow ==
        ExpiredAlready(nextExpiryTime, lastTime.tick, commandTime, TimerOf(old(View()), t).period)
      ensures View() == Insert(old(View()), t, nextExpiryTime, commandTime)
    {
      hide Inserted;
      var timeNow := lastTime.tick;
      var period := (if t in timers then timers[t] else Timer(1, false)).period;
      processTimerNow := false;
      if nextExpiryTime <= timeNow {
        if (timeNow - commandTime) % 0x1_0000_0000 >= period {
          processTimerNow := true;
        } else {
          overflowTimerList := Inserted(overflowTimerList, Item(t, nextExpiryTime));
        }
      } else {
        if timeNow < commandTime && nextExpiryTime >= commandTime {
          processTimerNow := true;
        } else {
          currentTimerList := Inserted(currentTimerList, Item(t, nextExpiryTime));
        }
      }
    }

    /** prvProcessExpiredTimer */
    method ProcessExpiredTimer()
      requires |currentTimerList| > 0
      modifies this`currentTimerList, this`overflowTimerList, this`timerQueue, this`log
      ensures View() == ProcessExpired(old(View()))
    {
      hide Inserted, ExpiredAlready;
      var t, nextExpireTime := currentTimerList[0].owner, currentTimerList[0].value;
      var timer := if t in timers then timers[t] else Timer(1, false);
      currentTimerList := currentTimerList[1..];
      if timer.autoReload {
        var expired := InsertTimerInActiveList(t, Wrapped(nextExpireTime + timer.period), nextExpireTime);
        if expired {
          Restart(t, Time(lastTime.epoch, nextExpireTime));
        }
      }
      CallBack(t);
    }

    /** prvSwitchTimerLists: terminates because every reload within the epoch comes nearer its end */
    method SwitchTimerLists()
      modifies this`currentTimerList, this`overflowTimerList, this`timerQueue, this`log
      ensures View() == SwitchLists(old(View()))
    {
      hide SwitchHead;
      while |currentTimerList| > 0
        invariant SwitchAll(View()) == SwitchAll(old(View()))
        decreases Measure(currentTimerList)
      {
        SwitchHeadDecreases(View());
        ProcessBeforeSwitch();
      }
      var temp := currentTimerList;
      currentTimerList := overflowTimerList;
      overflowTimerList := temp;
    }

    /** One pass of that loop */
    method ProcessBeforeSwitch()
      requires |currentTimerList| > 0
      modifies this`currentTimerList, this`timerQueue, this`log
      ensures View() == SwitchHead(old(View()))
    {
      hide Inserted;
      var t, nextExpireTime := currentTimerList[0].owner, currentTimerList[0].value;
      var timer := if t in timers then timers[t] else Timer(1, false);
      currentTimerList := currentTimerList[1..];
      CallBack(t);
      if timer.autoReload {
        var reloadTime := Wrapped(nextExpireTime + timer.period);
        if reloadTime > nextExpireTime {
          currentTimerList := Inserted(currentTimerList, Item(t, reloadTime));
        } else {
          Restart(t, Time(lastTime.epoch, nextExpireTime));
        }
      }
    }

    /** prvSampleTimeNow */
    method SampleTimeNow() returns (switched: bool)
      modifies this`currentTimerList, this`overflowTimerList, this`timerQueue, this`log, this`lastTime
      ensures View() == Sample(old(View())) && switched == (clock.tick < old(lastTime).tick)
    {
      if clock.tick < lastTime.tick {
        SwitchTimerLists();
        switched := true;
      } else {
        switched := false;
      }
      lastTime := clock;
    }

    /**
      prvGetNextExpireTime and prvProcessTimerOrBlockTask: if the daemon is to block,
      for how long, and whether it may wait for a command without limit.
     */
    method ProcessTimerOrBlock() returns (blocks: bool, ticksToWait: Tick, indefinitely: bool)
      modifies this`currentTimerList, this`overflowTimerList, this`timerQueue, this`log, this`lastTime
      ensures View() == Wake(old(View())) && blocks == Blocks(old(View()))
      ensures blocks ==> ticksToWait == BlockTime(View())
      ensures blocks ==> (indefinitely <==> View().current == [] && View().overflow == [])
    {
      hide SwitchLists, ProcessExpired;
      var listWasEmpty := |currentTimerList| == 0;
      var nextExpireTime := if listWasEmpty then 0 else currentTimerList[0].value;
      var switched := SampleTimeNow();
      blocks, ticksToWait, indefinitely := false, 0, false;
      if !switched {
        if !listWasEmpty && nextExpireTime <= lastTime.tick {
          ProcessExpiredTimer();
        } else {
          if listWasEmpty {
            listWasEmpty := |overflowTimerList| == 0;
          }
          blocks, indefinitely := true, listWasEmpty;
          ticksToWait := (nextExpireTime - lastTime.tick) % 0x1_0000_0000;
        }
      }
    }

    /** One pass of the loop of prvProcessReceivedCommands */
    method ProcessReceivedCommand()
      requires |timerQueue| > 0
      modifies this`currentTimerList, this`overflowTimerList, this`timerQueue, this`log, this`lastTime, this`timers
      ensures View() == Serve(old(View()))
    {
      hide TaskModel.WithoutOwner, Obey, Sample;
      var c := timerQueue[0];
      timerQueue := timerQueue[1..];
      currentTimerList := TaskModel.WithoutOwner(currentTimerList, c.timer);
      overflowTimerList := TaskModel.WithoutOwner(overflowTimerList, c.timer);
      var switched := SampleTimeNow();
      CarryOut(c);
    }

    /** prvProcessReceivedCommands: terminates because every command served leaves less to do */
    method ProcessReceivedCommands()
      requires Healthy(View())
      modifies this`currentTimerList, this`overflowTimerList, this`timerQueue, this`log, this`lastTime, this`timers
      ensures View() == ServeAll(old(View())) && timerQueue == []
    {
      hide Healthy, Serve, Work;
      while |timerQueue| > 0
        invariant Healthy(View()) && ServeAll(View()) == ServeAll(old(View()))
        decreases Work(View())
      {
        ServingWorks(View());
        ProcessReceivedCommand();
      }
    }

    /** The switch on xMessageID */
    method CarryOut(c: Command)
      modifies this`currentTimerList, this`overflowTimerList, this`timerQueue, this`log, this`timers
      ensures View() == Obey(old(View()), c)
    {
      hide Inserted, ExpiredAlready;
      var t := c.timer;
      var timer := if t in timers then timers[t] else Timer(1, false);
      match c {
        case Start(_, stamp) =>
          var expired := InsertTimerInActiveList(t, Wrapped(stamp.tick + timer.period), stamp.tick);
          if expired {
            CallBack(t);
            if timer.autoReload {
              Restart(t, Later(stamp, timer.period));
            }
          }
        case Stop(_) =>
        case ChangePeriod(_, p) =>
          timers := timers[t := timer.(period := p)];
          var expired := InsertTimerInActiveList(t, Wrapped(lastTime.tick + p), lastTime.tick);
      }
    }
  }
}
