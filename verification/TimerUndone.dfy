/**
  Two runs in which a command to a timer does not hold (timers.c): the list switch
  has queued the timer's restart behind a reset, and a late timer's callback resets
  or stops its own timer.  TimerReset.dfy says when this happens.
 */
module TimerUndone {
  import opened Lists
  import TaskModel
  import opened TimerModel
  import opened TimerShares
  import opened TimerCourse
  import opened TimerDrift

  // ----- the tick count wraps ----------------------------------------------------------------------

  const PERIOD: Tick := 0xFFFF_FFF0

  function At(p: Tick, now: Time, last: Time, current: seq<Item>, queue: seq<Command>, log: seq<Fire>): Daemon {
    Daemon(now, last, current, [], queue, map[0 := Timer(p, true)], log)
  }

  const RESET := Start(0, Time(1, 5))
  const RESTART := Start(0, Time(0, PERIOD))
  const LATE := Fire(0, 0x1_0000_0005)

  /** Started at time 0; looked at the clock at 10; reset at 5 after the wrap, before the daemon ran again. */
  function WrapEvents(): seq<Event> {
    [ Posted(Start(0, Time(0, 0))), DaemonServes, TimePasses(Time(0, 10)), DaemonWakes,
      TimePasses(Time(1, 5)), Posted(RESET), DaemonWakes, DaemonServes, DaemonServes ]
  }

  function WrapStates(): seq<Daemon> {
    [ At(PERIOD, Time(0, 0), Time(0, 0), [], [], []),
      At(PERIOD, Time(0, 0), Time(0, 0), [], [Start(0, Time(0, 0))], []),
      At(PERIOD, Time(0, 0), Time(0, 0), [Item(0, PERIOD)], [], []),
      At(PERIOD, Time(0, 10), Time(0, 0), [Item(0, PERIOD)], [], []),
      At(PERIOD, Time(0, 10), Time(0, 10), [Item(0, PERIOD)], [], []),
      At(PERIOD, Time(1, 5), Time(0, 10), [Item(0, PERIOD)], [], []),
      At(PERIOD, Time(1, 5), Time(0, 10), [Item(0, PERIOD)], [RESET], []),
      At(PERIOD, Time(1, 5), Time(1, 5), [], [RESET, RESTART], [LATE]),
      At(PERIOD, Time(1, 5), Time(1, 5), [Item(0, 0xFFFF_FFF5)], [RESTART], [LATE]),
      At(PERIOD, Time(1, 5), Time(1, 5), [Item(0, 0xFFFF_FFE0)], [], [LATE]) ]
  }

  lemma InsertedAlone(x: Item)
    ensures Inserted([], x) == [x]
  {
  }

  lemma TakenOff(x: Item)
    ensures TaskModel.WithoutOwner([x], x.owner) == [] && TaskModel.WithoutOwner([], x.owner) == []
  {
  }

  lemma Served(p: Tick, now: Time, current: seq<Item>, c: Command, rest: seq<Command>, log: seq<Fire>)
    requires c.Start? && c.timer == 0 && (current == [] || exists v :: current == [Item(0, v)])
    requires Wrapped(c.stamp.tick + p) > now.tick
    requires !ExpiredAlready(Wrapped(c.stamp.tick + p), now.tick, c.stamp.tick, p)
    ensures Serve(At(p, now, now, current, [c] + rest, log)) == At(p, now, now, [Item(0, Wrapped(c.stamp.tick + p))], rest, log)
  {
    hide Inserted, TaskModel.WithoutOwner, ExpiredAlready;
    var x := if current == [] then Item(0, 0) else current[0];
    TakenOff(x);
    assert current == [] || current == [x];
    assert ([c] + rest)[1..] == rest;
    InsertedAlone(Item(0, Wrapped(c.stamp.tick + p)));
  }

  lemma SwitchedLate()
    ensures Leads(WrapStates()[6], DaemonWakes, WrapStates()[7])
  {
    var s := WrapStates()[6];
    var r := SwitchHead(s);
    assert r.current == [] && SwitchAll(r) == r;
    assert SwitchAll(s) == r;
  }

  ghost predicate Leads(s: Daemon, e: Event, r: Daemon) {
    Enabled(s, e) && r == Step(s, e)
  }

  lemma Passes(p: Tick, now: Time, to: Time, last: Time, current: seq<Item>, queue: seq<Command>, log: seq<Fire>)
    requires True(now) <= True(to)
    ensures Leads(At(p, now, last, current, queue, log), TimePasses(to), At(p, to, last, current, queue, log))
  {
  }

  lemma Posts(p: Tick, now: Time, last: Time, current: seq<Item>, queue: seq<Command>, log: seq<Fire>, c: Command)
    requires SoundCommand(c, True(now))
    ensures Leads(At(p, now, last, current, queue, log), Posted(c), At(p, now, last, current, queue + [c], log))
  {
  }

  lemma Taken(i: nat)
    requires i < |WrapEvents()|
    ensures Leads(WrapStates()[i], WrapEvents()[i], WrapStates()[i + 1])
  {
    hide Leads, At;
    var first := WrapEvents()[0].c;
    assert [] + [first] == [first] && [] + [RESET] == [RESET];
    match i
    case 0 => Posts(PERIOD, Time(0, 0), Time(0, 0), [], [], [], first);
    case 1 => ServedFirst();
    case 2 => Passes(PERIOD, Time(0, 0), Time(0, 10), Time(0, 0), [Item(0, PERIOD)], [], []);
    case 3 => LookedAgain();
    case 4 => Passes(PERIOD, Time(0, 10), Time(1, 5), Time(0, 10), [Item(0, PERIOD)], [], []);
    case 5 => Posts(PERIOD, Time(1, 5), Time(0, 10), [Item(0, PERIOD)], [], [], RESET);
    case 6 => SwitchedLate();
    case 7 => ServedReset();
    case 8 => ServedRestart();
  }

  lemma ServedFirst()
    ensures Leads(WrapStates()[1], DaemonServes, WrapStates()[2])
  {
    hide Serve;
    assert [WrapEvents()[0].c] + [] == [WrapEvents()[0].c];
    Served(PERIOD, Time(0, 0), [], WrapEvents()[0].c, [], []);
  }

  lemma ServedReset()
    ensures Leads(WrapStates()[7], DaemonServes, WrapStates()[8])
  {
    hide Serve;
    assert [RESET] + [RESTART] == [RESET, RESTART];
    Served(PERIOD, Time(1, 5), [], RESET, [RESTART], [LATE]);
  }

  lemma ServedRestart()
    ensures Leads(WrapStates()[8], DaemonServes, WrapStates()[9])
  {
    hide Serve;
    assert [RESTART] + [] == [RESTART];
    Served(PERIOD, Time(1, 5), [Item(0, 0xFFFF_FFF5)], RESTART, [], [LATE]);
  }

  lemma LookedAgain()
    ensures Leads(WrapStates()[3], DaemonWakes, WrapStates()[4])
  {
  }

  /**
    Every command is served in time, the reset at step 7 among them; yet in the end,
    with nothing queued, the timer is set for an expiry before the reset's.
   */
  lemma ResetIsLost()
    ensures Run(WrapStates(), WrapEvents()) && Sound(WrapStates()[0], 0) && BothSorted(WrapStates()[0])
    ensures WrapEvents()[5] == Posted(RESET) && Serves(WrapStates()[7], WrapEvents()[7], 0) && WrapStates()[7].queue[0] == RESET
    ensures forall i {:trigger WrapEvents()[i]} :: 0 <= i < |WrapEvents()| && Serves(WrapStates()[i], WrapEvents()[i], 0) ==> InTime(WrapStates()[i])
    ensures WrapStates()[9].queue == [] && exists e: nat ::
      Listed(WrapStates()[9], ShareOf(WrapStates()[9], 0), e) && e < True(RESET.stamp) + PERIOD
  {
    hide Step, Enabled;
    forall i | 0 <= i < |WrapEvents()| ensures Enabled(WrapStates()[i], WrapEvents()[i]) && WrapStates()[i + 1] == Step(WrapStates()[i], WrapEvents()[i]) {
      Taken(i);
    }
    assert Listed(WrapStates()[9], ShareOf(WrapStates()[9], 0), 0x1_FFFF_FFE0);
  }

  // ----- a callback resets or stops its own timer --------------------------------------------------------

  /** What the callback asks for, at time 35: a reset, a stop or the same period anew. */
  predicate AskedFor(x: Command) {
    x == Start(0, Time(0, 35)) || x == Stop(0) || x == ChangePeriod(0, 10)
  }

  function From(tick: Tick): Command {
    Start(0, Time(0, tick))
  }

  function Calls(n: nat): seq<Fire> {
    if n == 0 then [] else Calls(n - 1) + [Fire(0, 35)]
  }

  function State10(now: Tick, last: Tick, current: seq<Item>, queue: seq<Command>, calls: nat): Daemon {
    At(10, Time(0, now), Time(0, last), current, queue, Calls(calls))
  }

  /** Period 10, started at 0; the daemon runs again at 35 only and calls the callback, which asks for x. */
  function LateEvents(x: Command): seq<Event> {
    [Posted(From(0)), DaemonServes, TimePasses(Time(0, 35)), DaemonWakes, Posted(x), DaemonServes, DaemonServes, DaemonServes, DaemonServes]
  }

  function LateStates(x: Command): seq<Daemon> {
    [ State10(0, 0, [], [], 0),
      State10(0, 0, [], [From(0)], 0),
      State10(0, 0, [Item(0, 10)], [], 0),
      State10(35, 0, [Item(0, 10)], [], 0),
      State10(35, 35, [], [From(10)], 1),
      State10(35, 35, [], [From(10), x], 1),
      State10(35, 35, [], [x, From(20)], 2),
      State10(35, 35, if x.Stop? then [] else [Item(0, 45)], [From(20)], 2),
      State10(35, 35, [], [From(30)], 3),
      State10(35, 35, [Item(0, 40)], [], 3) ]
  }

  lemma ServedLate(tick: Tick, current: seq<Item>, rest: seq<Command>, calls: nat)
    requires 10 <= tick + 10 <= 35 && (current == [] || exists v :: current == [Item(0, v)])
    ensures Serve(State10(35, 35, current, [From(tick)] + rest, calls)) == State10(35, 35, [], rest + [From(tick + 10)], calls + 1)
  {
    hide TaskModel.WithoutOwner;
    var x := if current == [] then Item(0, 0) else current[0];
    TakenOff(x);
    assert current == [] || current == [x];
    assert ([From(tick)] + rest)[1..] == rest;
  }

  lemma ServedAsked(x: Command)
    requires AskedFor(x)
    ensures Leads(LateStates(x)[6], DaemonServes, LateStates(x)[7])
  {
    hide TaskModel.WithoutOwner;
    TakenOff(Item(0, 0));
    assert [x, From(20)][1..] == [From(20)];
    assert map[0 := Timer(10, true)][0 := Timer(10, true)] == map[0 := Timer(10, true)];
    InsertedAlone(Item(0, 45));
  }

  lemma CalledLate(x: Command)
    ensures Leads(LateStates(x)[3], DaemonWakes, LateStates(x)[4])
  {
  }

  lemma ServedOnTime(x: Command)
    ensures Leads(LateStates(x)[1], DaemonServes, LateStates(x)[2])
    ensures Leads(LateStates(x)[8], DaemonServes, LateStates(x)[9])
  {
    hide Serve;
    assert [From(0)] + [] == [From(0)] && [From(30)] + [] == [From(30)];
    Served(10, Time(0, 0), [], From(0), [], Calls(0));
    Served(10, Time(0, 35), [], From(30), [], Calls(3));
  }

  lemma ServedTooLate(x: Command)
    ensures Leads(LateStates(x)[5], DaemonServes, LateStates(x)[6])
    ensures Leads(LateStates(x)[7], DaemonServes, LateStates(x)[8])
  {
    hide Serve;
    assert [From(10)] + [x] == [From(10), x] && [x] + [From(20)] == [x, From(20)];
    ServedLate(10, [], [x], 1);
    assert [From(20)] + [] == [From(20)] && [] + [From(30)] == [From(30)];
    ServedLate(20, if x.Stop? then [] else [Item(0, 45)], [], 2);
  }

  lemma TakenLate(x: Command, i: nat)
    requires AskedFor(x) && i < |LateEvents(x)|
    ensures Leads(LateStates(x)[i], LateEvents(x)[i], LateStates(x)[i + 1])
  {
    hide Leads, At, Calls;
    assert [] + [From(0)] == [From(0)] && [From(10)] + [x] == [From(10), x];
    match i
    case 0 => Posts(10, Time(0, 0), Time(0, 0), [], [], Calls(0), From(0));
    case 1 => ServedOnTime(x);
    case 2 => Passes(10, Time(0, 0), Time(0, 35), Time(0, 0), [Item(0, 10)], [], Calls(0));
    case 3 => CalledLate(x);
    case 4 => Posts(10, Time(0, 35), Time(0, 35), [], [From(10)], Calls(1), x);
    case 5 => ServedTooLate(x);
    case 6 => ServedAsked(x);
    case 7 => ServedTooLate(x);
    case 8 => ServedOnTime(x);
  }

  /**
    Without a wrap or a preemption: whatever the callback asks for, in the end nothing is
    queued and the timer is set for 40, on the course it had.
   */
  lemma LateCallbackIsIgnored(x: Command)
    requires AskedFor(x)
    ensures var tr, es := LateStates(x), LateEvents(x);
      && Run(tr, es) && Sound(tr[0], 0) && BothSorted(tr[0])
      && es[4] == Posted(x) && Serves(tr[6], es[6], 0) && tr[6].queue[0] == x
      && (forall i {:trigger es[i]} :: 0 <= i < |es| && Serves(tr[i], es[i], 0) ==> InTime(tr[i]))
      && tr[9].queue == [] && Listed(tr[9], ShareOf(tr[9], 0), 40)
  {
    hide Run, At, Calls, State10;
    LateRun(x);
    LateStart(x);
    LateEnd(x);
  }

  lemma LateRun(x: Command)
    requires AskedFor(x)
    ensures Run(LateStates(x), LateEvents(x))
  {
    hide Step, Enabled, At, Calls, State10;
    var tr, es := LateStates(x), LateEvents(x);
    forall i | 0 <= i < |es| ensures Enabled(tr[i], es[i]) && tr[i + 1] == Step(tr[i], es[i]) {
      TakenLate(x, i);
    }
  }

  lemma LateStart(x: Command)
    ensures Sound(LateStates(x)[0], 0) && BothSorted(LateStates(x)[0])
  {
  }

  lemma LateEnd(x: Command)
    ensures Listed(LateStates(x)[9], ShareOf(LateStates(x)[9], 0), 40)
    ensures LateStates(x)[9].queue == [] && LateStates(x)[6].queue == [x, From(20)]
    ensures forall i {:trigger LateEvents(x)[i]} :: 0 <= i < |LateEvents(x)| && Serves(LateStates(x)[i], LateEvents(x)[i], 0) ==> InTime(LateStates(x)[i])
  {
  }
}
