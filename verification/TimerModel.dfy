/**
  The software timer daemon (timers.c) as a value: two sorted lists of 32-bit
  expiry times, one for the epoch of the daemon's last look at the clock and one
  for the next, a command queue, and a log of callbacks.  Timers.dfy proves the
  code against these functions.

  The command queue is unbounded and a callback is a log entry; what callbacks
  and other tasks do in between are the events Posted and TimePasses.
 */
module TimerModel {
  import opened Lists
  import opened TaskModel

  /** A true time: how often the tick count has wrapped, and the tick count, which is all the code sees. */
  datatype Time = Time(epoch: nat, tick: Tick)

  function True(t: Time): nat {
    t.epoch * 0x1_0000_0000 + t.tick
  }

  /** n ticks later, n below one wrap. */
  function Later(t: Time, n: Tick): Time {
    if t.tick + n > MAX_DELAY then Time(t.epoch + 1, t.tick + n - 0x1_0000_0000) else Time(t.epoch, t.tick + n)
  }

  datatype Timer = Timer(period: Tick, autoReload: bool)

  datatype Command =
    | Start(timer: nat, stamp: Time)       // tmrCOMMAND_START and its variants; stamp.tick is xMessageValue
    | Stop(timer: nat)                     // tmrCOMMAND_STOP and, as far as the lists go, tmrCOMMAND_DELETE
    | ChangePeriod(timer: nat, period: Tick)

  datatype Fire = Fire(timer: nat, at: nat)

  datatype Daemon = Daemon(
    now: Time,
    last: Time,                    // xLastTime
    current: seq<Item>,            // *pxCurrentTimerList
    overflow: seq<Item>,           // *pxOverflowTimerList
    queue: seq<Command>,           // xTimerQueue
    timers: map<nat, Timer>,
    log: seq<Fire>                 // callbacks made
  )

  function TimerOf(s: Daemon, t: nat): Timer {
    if t in s.timers then s.timers[t] else Timer(1, false)
  }

  function Wrapped(x: nat): Tick
    requires x <= 2 * MAX_DELAY
  {
    if x > MAX_DELAY then x - 0x1_0000_0000 else x
  }

  function Difference(a: Tick, b: Tick): Tick {
    if a >= b then a - b else a + 0x1_0000_0000 - b
  }

  // ----- the daemon's operations --------------------------------------------------------------

  /** The verdict of prvInsertTimerInActiveList: the timer has expired already. */
  predicate ExpiredAlready(next: Tick, now: Tick, command: Tick, period: Tick) {
    if next <= now then Difference(now, command) >= period else now < command && next >= command
  }

  /** prvInsertTimerInActiveList, the time now being that of the last look at the clock. */
  function Insert(s: Daemon, t: nat, next: Tick, command: Tick): Daemon {
    if ExpiredAlready(next, s.last.tick, command, TimerOf(s, t).period) then s
    else if next <= s.last.tick then s.(overflow := Inserted(s.overflow, Item(t, next)))
    else s.(current := Inserted(s.current, Item(t, next)))
  }

  function Call(s: Daemon, t: nat): Daemon {
    s.(log := s.log + [Fire(t, True(s.now))])
  }

  function Post(s: Daemon, c: Command): Daemon {
    s.(queue := s.queue + [c])
  }

  /** prvProcessExpiredTimer */
  function ProcessExpired(s: Daemon): Daemon
    requires |s.current| > 0
  {
    var t, e := s.current[0].owner, s.current[0].value;
    var r := s.(current := s.current[1..]);
    var next := Wrapped(e + TimerOf(s, t).period);
    var u :=
      if !TimerOf(s, t).autoReload then r
      else if ExpiredAlready(next, s.last.tick, e, TimerOf(s, t).period) then Post(r, Start(t, Time(s.last.epoch, e)))
      else Insert(r, t, next, e);
    Call(u, t)
  }

  /** One pass of the loop of prvSwitchTimerLists. */
  function SwitchHead(s: Daemon): Daemon
    requires |s.current| > 0
  {
    var t, e := s.current[0].owner, s.current[0].value;
    var r := Call(s.(current := s.current[1..]), t);
    var reload := Wrapped(e + TimerOf(s, t).period);
    if !TimerOf(s, t).autoReload then r
    else if reload > e then r.(current := Inserted(r.current, Item(t, reload)))
    else Post(r, Start(t, Time(s.last.epoch, e)))
  }

  /** How far the timers of a list are, all together, from the end of the epoch. */
  function Measure(l: seq<Item>): nat {
    if |l| == 0 then 0 else 0x1_0000_0000 - l[0].value + Measure(l[1..])
  }

  lemma {:induction false} MeasureInserted(l: seq<Item>, x: Item)
    ensures Measure(Inserted(l, x)) == Measure(l) + 0x1_0000_0000 - x.value
  {
    if |l| > 0 && l[0].value <= x.value {
      MeasureInserted(l[1..], x);
      assert Inserted(l, x)[1..] == Inserted(l[1..], x);
    } else {
      assert Inserted(l, x)[1..] == l;
    }
  }

  lemma SwitchHeadDecreases(s: Daemon)
    requires |s.current| > 0
    ensures Measure(SwitchHead(s).current) < Measure(s.current)
  {
    var t, e := s.current[0].owner, s.current[0].value;
    MeasureInserted(s.current[1..], Item(t, Wrapped(e + TimerOf(s, t).period)));
  }

  /** The loop of prvSwitchTimerLists: everything on the current list has expired. */
  function SwitchAll(s: Daemon): Daemon
    decreases Measure(s.current)
  {
    if |s.current| == 0 then s else SwitchHeadDecreases(s); SwitchAll(SwitchHead(s))
  }

  /** prvSwitchTimerLists */
  function SwitchLists(s: Daemon): Daemon {
    var r := SwitchAll(s);
    r.(current := r.overflow, overflow := r.current)
  }

  /** prvSampleTimeNow */
  function Sample(s: Daemon): Daemon {
    var r := if s.now.tick < s.last.tick then SwitchLists(s) else s;
    r.(last := s.now)
  }

  /** prvGetNextExpireTime and prvProcessTimerOrBlockTask */
  function Wake(s: Daemon): Daemon {
    var r := Sample(s);
    if !(s.now.tick < s.last.tick) && |s.current| > 0 && s.current[0].value <= s.now.tick then ProcessExpired(r) else r
  }

  /** prvProcessTimerOrBlockTask finds nothing to call and blocks. */
  predicate Blocks(s: Daemon) {
    !(s.now.tick < s.last.tick) && (|s.current| > 0 ==> s.now.tick < s.current[0].value)
  }

  /** The ticks it then blocks for, unless a command comes first: till the head's expiry, or till the tick count wraps. */
  function BlockTime(s: Daemon): Tick {
    Difference(if |s.current| == 0 then 0 else s.current[0].value, s.now.tick)
  }

  /** What prvProcessReceivedCommands does about a command once it has looked at the clock. */
  function Obey(s: Daemon, c: Command): Daemon {
    var t := c.timer;
    match c
    case Start(_, stamp) =>
      var period := TimerOf(s, t).period;
      var next := Wrapped(stamp.tick + period);
      if ExpiredAlready(next, s.last.tick, stamp.tick, period) then
        var f := Call(s, t);
        if TimerOf(s, t).autoReload then Post(f, Start(t, Later(stamp, period))) else f
      else Insert(s, t, next, stamp.tick)
    case Stop(_) => s
    case ChangePeriod(_, p) =>
      Insert(s.(timers := s.timers[t := TimerOf(s, t).(period := p)]), t, Wrapped(s.last.tick + p), s.last.tick)
  }

  /** One command received by prvProcessReceivedCommands. */
  function Serve(s: Daemon): Daemon
    requires |s.queue| > 0
  {
    var t := s.queue[0].timer;
    var r := s.(queue := s.queue[1..], current := WithoutOwner(s.current, t), overflow := WithoutOwner(s.overflow, t));
    Obey(Sample(r), s.queue[0])
  }

  // ----- placement is exact -----------------------------------------------------------------------

  /** The true expiry time that a place on a list stands for, given the epoch of the last look. */
  function CurrentExpiry(s: Daemon, v: Tick): nat {
    True(Time(s.last.epoch, v))
  }

  function OverflowExpiry(s: Daemon, v: Tick): nat {
    True(Time(s.last.epoch + 1, v))
  }

  /**
    Blocking never sleeps past an expiry: it ends at the first one on the current list,
    or, if that is empty, when the tick count wraps, a count that has just wrapped
    ending it at once.
   */
  lemma BlocksTillNextExpiry(s: Daemon)
    requires Blocks(s) && Ordered(s.current) && s.now.epoch == s.last.epoch
    ensures var till := True(s.now) + BlockTime(s);
      && (forall x :: x in s.current ==> till <= CurrentExpiry(s, x.value))
      && (|s.current| > 0 ==> till == CurrentExpiry(s, s.current[0].value))
      && (|s.current| == 0 ==> till == if s.now.tick == 0 then True(s.now) else True(Time(s.now.epoch + 1, 0)))
      && (forall x :: x in s.overflow ==> till <= OverflowExpiry(s, x.value))
  {
    if |s.current| > 0 {
      assert s.current == [s.current[0]] + s.current[1..];
    }
  }

  /** The daemon blocks if and only if the count has not wrapped since it last looked and no timer listed for this epoch is due. */
  lemma BlocksIffNothingDue(s: Daemon)
    requires Ordered(s.current)
    ensures Blocks(s) <==> s.last.tick <= s.now.tick && forall x :: x in s.current ==> s.now.tick < x.value
  {
    if |s.current| > 0 {
      assert s.current == [s.current[0]] + s.current[1..];
    }
  }

  lemma LaterIsLater(t: Time, n: Tick)
    ensures True(Later(t, n)) == True(t) + n && Later(t, n).tick == Wrapped(t.tick + n)
  {
  }

  /** Within one wrap the 32-bit comparisons decide the true order. */
  lemma VerdictIsExact(now: Time, command: Time, p: Tick)
    requires p > 0 && True(command) <= True(now) < True(command) + 0x1_0000_0000
    ensures var next := Later(command, p);
      && (ExpiredAlready(next.tick, now.tick, command.tick, p) <==> True(next) <= True(now))
      && (True(next) > True(now) ==> next.epoch == if next.tick <= now.tick then now.epoch + 1 else now.epoch)
  {
    assert now.epoch == command.epoch || now.epoch == command.epoch + 1;
    if now.epoch == command.epoch {
      assert Difference(now.tick, command.tick) == now.tick - command.tick;
    } else {
      assert now.tick < command.tick;
    }
  }

  /**
    For every command less than one wrap old and every period: a timer is
    processed at once if and only if its expiry has come; otherwise it goes on
    the list of the epoch its expiry lies in, and the place stands for exactly
    that expiry.
   */
  lemma PlacementIsExact(s: Daemon, t: nat, command: Time)
    requires TimerOf(s, t).period > 0 && True(command) <= True(s.last) < True(command) + 0x1_0000_0000
    ensures var p := TimerOf(s, t).period;
      var next := Wrapped(command.tick + p);
      var x := True(command) + p;
      && (ExpiredAlready(next, s.last.tick, command.tick, p) <==> x <= True(s.last))
      && (x > True(s.last) && x == CurrentExpiry(s, next) ==>
            Insert(s, t, next, command.tick) == s.(current := Inserted(s.current, Item(t, next))))
      && (x > True(s.last) && x != CurrentExpiry(s, next) ==>
            x == OverflowExpiry(s, next)
            && Insert(s, t, next, command.tick) == s.(overflow := Inserted(s.overflow, Item(t, next))))
  {
    hide Inserted;
    LaterIsLater(command, TimerOf(s, t).period);
    VerdictIsExact(s.last, command, TimerOf(s, t).period);
  }
}
