/**
  The daemon gets its work done (timers.c): while the clock stands still every
  command served and every expiry processed leaves less to do, so the receive loop
  ends, and after finitely many turns the daemon is idle.
 */
module TimerWork {
  import opened Lists
  import TaskModel
  import opened TimerModel
  import opened TimerShares
  import opened TimerCourse
  import opened TimerDrift

  // ----- how much there is to do at time `now` ------------------------------------------------------

  /** A timer listed for true time e. */
  function Lag(now: nat, e: nat): nat {
    if e <= now then 2 * (now - e) + 2 else 0
  }

  function ListWork(now: nat, epoch: nat, l: seq<Item>): nat {
    if |l| == 0 then 0 else Lag(now, True(Time(epoch, l[0].value))) + ListWork(now, epoch, l[1..])
  }

  function CommandWork(now: nat, c: Command): nat {
    match c
    case Start(_, stamp) => if True(stamp) <= now then 2 * (now - True(stamp)) + 1 else 1
    case Stop(_) => 1
    case ChangePeriod(_, _) => 1
  }

  function QueueWork(now: nat, q: seq<Command>): nat {
    if |q| == 0 then 0 else CommandWork(now, q[0]) + QueueWork(now, q[1..])
  }

  function Work(s: Daemon): nat {
    var now := True(s.now);
    ListWork(now, s.last.epoch, s.current) + ListWork(now, s.last.epoch + 1, s.overflow) + QueueWork(now, s.queue)
  }

  /** Every timer's share of the state is sound, and the daemon has looked at the clock less than one wrap ago. */
  ghost predicate Healthy(s: Daemon) {
    LookedRecently(s) && forall t: nat :: Sound(s, t)
  }

  lemma {:induction false} WorkInserted(now: nat, epoch: nat, l: seq<Item>, x: Item)
    ensures ListWork(now, epoch, Inserted(l, x)) == ListWork(now, epoch, l) + Lag(now, True(Time(epoch, x.value)))
  {
    hide Lag;
    if |l| > 0 && l[0].value <= x.value {
      WorkInserted(now, epoch, l[1..], x);
      assert Inserted(l, x)[0] == l[0] && Inserted(l, x)[1..] == Inserted(l[1..], x);
    } else {
      assert Inserted(l, x)[0] == x && Inserted(l, x)[1..] == l;
    }
  }

  lemma {:induction false} WorkWithout(now: nat, epoch: nat, l: seq<Item>, t: nat)
    ensures ListWork(now, epoch, TaskModel.WithoutOwner(l, t)) <= ListWork(now, epoch, l)
  {
    hide Lag;
    if |l| > 0 {
      WorkWithout(now, epoch, l[1..], t);
      FirstOrLater(l, t);
    }
  }

  lemma FirstOrLater(l: seq<Item>, t: nat)
    requires |l| > 0
    ensures TaskModel.WithoutOwner(l, t) == if l[0].owner == t then l[1..] else [l[0]] + TaskModel.WithoutOwner(l[1..], t)
  {
    assert TaskModel.Owners(l)[1..] == TaskModel.Owners(l[1..]);
  }

  lemma {:induction false} WorkPosted(now: nat, q: seq<Command>, c: Command)
    ensures QueueWork(now, q + [c]) == QueueWork(now, q) + CommandWork(now, c)
  {
    hide CommandWork;
    if |q| > 0 {
      assert (q + [c])[0] == q[0] && (q + [c])[1..] == q[1..] + [c];
      WorkPosted(now, q[1..], c);
    } else {
      assert q + [c] == [c] && [c][1..] == [];
    }
  }

  // ----- each operation leaves less -------------------------------------------------------------------

  lemma SwitchingWorks(s: Daemon)
    requires WrappedOnce(s) && |s.current| > 0 && TimerOf(s, s.current[0].owner).period > 0
    ensures Work(SwitchHead(s)) < Work(s) && SwitchHead(s).now == s.now && SwitchHead(s).last == s.last
    ensures SwitchHead(s).timers == s.timers
  {
    hide ListWork, QueueWork, Inserted;
    var t, v, now := s.current[0].owner, s.current[0].value, True(s.now);
    var next := Wrapped(v + TimerOf(s, t).period);
    FirstListed(now, s.last.epoch, s.current);
    WorkInserted(now, s.last.epoch, s.current[1..], Item(t, next));
    WorkPosted(now, s.queue, Start(t, Time(s.last.epoch, v)));
  }

  lemma FirstListed(now: nat, epoch: nat, l: seq<Item>)
    requires |l| > 0
    ensures ListWork(now, epoch, l) == Lag(now, True(Time(epoch, l[0].value))) + ListWork(now, epoch, l[1..])
  {
  }

  lemma {:induction false} SwitchAllWorks(s: Daemon)
    requires WrappedOnce(s) && forall t: nat :: TimerOf(s, t).period > 0
    ensures var r := SwitchAll(s);
      Work(r) <= Work(s) && r.now == s.now && r.last == s.last && r.current == [] && r.timers == s.timers
    decreases Measure(s.current)
  {
    hide Work, SwitchHead;
    if |s.current| > 0 {
      SwitchHeadDecreases(s);
      SwitchingWorks(s);
      SameTimers(s, SwitchHead(s));
      SwitchAllWorks(SwitchHead(s));
    }
  }

  lemma SameTimers(s: Daemon, r: Daemon)
    requires (forall t: nat :: TimerOf(s, t).period > 0) && r.timers == s.timers
    ensures forall t: nat :: TimerOf(r, t).period > 0
  {
    forall t: nat ensures TimerOf(r, t).period > 0 { assert TimerOf(r, t) == TimerOf(s, t); }
  }

  lemma NothingListedNoWork(now: nat, epoch: nat)
    ensures ListWork(now, epoch, []) == 0
  {
  }

  lemma SamplingWorks(s: Daemon)
    requires LookedRecently(s) && forall t: nat :: TimerOf(s, t).period > 0
    ensures Work(Sample(s)) <= Work(s) && Sample(s).now == s.now && Sample(s).last == s.now && Sample(s).timers == s.timers
  {
    hide ListWork, QueueWork;
    if s.current == [] && s.overflow == [] {
      assert Sample(s) == s.(last := s.now);
      NothingListedNoWork(True(s.now), s.last.epoch);
      NothingListedNoWork(True(s.now), s.last.epoch + 1);
      NothingListedNoWork(True(s.now), s.now.epoch);
      NothingListedNoWork(True(s.now), s.now.epoch + 1);
    } else if s.now.tick < s.last.tick {
      SwitchAllWorks(s);
      NothingListedNoWork(True(s.now), s.last.epoch);
      NothingListedNoWork(True(s.now), s.now.epoch + 1);
    }
  }

  /** Whatever is put on a list lies ahead and is no work yet. */
  lemma PlacingWorks(s: Daemon, t: nat, next: Tick, command: Tick)
    requires s.last == s.now
    ensures var r := Insert(s, t, next, command); Work(r) == Work(s) && r == s.(current := r.current, overflow := r.overflow)
  {
    hide ListWork, QueueWork, Inserted, ExpiredAlready;
    WorkInserted(True(s.now), s.last.epoch, s.current, Item(t, next));
    WorkInserted(True(s.now), s.last.epoch + 1, s.overflow, Item(t, next));
  }

  lemma PostingWorks(s: Daemon, c: Command)
    ensures Work(Post(s, c)) == Work(s) + CommandWork(True(s.now), c)
  {
    hide ListWork, QueueWork, CommandWork;
    WorkPosted(True(s.now), s.queue, c);
  }

  lemma CallingWorks(s: Daemon, t: nat)
    ensures Work(Call(s, t)) == Work(s)
  {
  }

  lemma ExpiryWorks(s: Daemon)
    requires s.last == s.now && |s.current| > 0 && s.current[0].value <= s.now.tick
    ensures Work(ProcessExpired(s)) < Work(s)
  {
    hide Inserted, Insert, ExpiredAlready, ListWork, QueueWork;
    var t, v := s.current[0].owner, s.current[0].value;
    var r := s.(current := s.current[1..]);
    var next, again := Wrapped(v + TimerOf(s, t).period), Start(t, Time(s.last.epoch, v));
    FirstListed(True(s.now), s.last.epoch, s.current);
    PlacingWorks(r, t, next, v);
    PostingWorks(r, again);
    CallingWorks(r, t);
    CallingWorks(Post(r, again), t);
    CallingWorks(Insert(r, t, next, v), t);
  }

  lemma ObeyingWorks(s: Daemon, c: Command)
    requires s.last == s.now && TimerOf(s, c.timer).period > 0 && SoundCommand(c, True(s.now))
    ensures Work(Obey(s, c)) < Work(s) + CommandWork(True(s.now), c)
  {
    hide Inserted, Insert, ExpiredAlready, Work;
    var t := c.timer;
    match c
    case Start(_, stamp) =>
      var p := TimerOf(s, t).period;
      PlacingWorks(s, t, Wrapped(stamp.tick + p), stamp.tick);
      RestartNotEarly(s, stamp, p);
      LaterIsLater(stamp, p);
      CallingWorks(s, t);
      PostingWorks(Call(s, t), Start(t, Later(stamp, p)));
    case Stop(_) =>
    case ChangePeriod(_, p) =>
      var u := s.(timers := s.timers[t := TimerOf(s, t).(period := p)]);
      TimersAreNoWork(s, u);
      PlacingWorks(u, t, Wrapped(s.last.tick + p), s.last.tick);
  }

  lemma TimersAreNoWork(s: Daemon, r: Daemon)
    requires r == s.(timers := r.timers)
    ensures Work(r) == Work(s)
  {
  }

  lemma ReceivingWorks(s: Daemon)
    requires |s.queue| > 0
    ensures Work(Received(s)) + CommandWork(True(s.now), s.queue[0]) <= Work(s)
  {
    hide ListWork, CommandWork, TaskModel.WithoutOwner;
    WorkWithout(True(s.now), s.last.epoch, s.current, s.queue[0].timer);
    WorkWithout(True(s.now), s.last.epoch + 1, s.overflow, s.queue[0].timer);
  }

  lemma PeriodsPositive(s: Daemon)
    requires Healthy(s)
    ensures forall t: nat :: TimerOf(s, t).period > 0
  {
    forall t: nat ensures TimerOf(s, t).period > 0 { assert Sound(s, t); }
  }

  lemma HeadCommandSound(s: Daemon)
    requires Healthy(s) && |s.queue| > 0
    ensures SoundCommand(s.queue[0], True(s.now))
  {
    var t := s.queue[0].timer;
    assert Sound(s, t);
    assert s.queue[0] in ShareOf(s, t).commands;
  }

  /** Serving a command leaves less to do: the receive loop ends. */
  lemma ServingWorks(s: Daemon)
    requires Healthy(s) && |s.queue| > 0
    ensures Healthy(Serve(s)) && Work(Serve(s)) < Work(s) && Serve(s).now == s.now == Serve(s).last
  {
    hide Work, Sample, Obey, Sound, SoundCommand, TaskModel.WithoutOwner;
    PeriodsPositive(s);
    HeadCommandSound(s);
    ReceivingWorks(s);
    StillRecent(s);
    SameTimers(s, Received(s));
    SamplingWorks(Received(s));
    SameTimers(s, Sample(Received(s)));
    ObeyingWorks(Sample(Received(s)), s.queue[0]);
    ObeyFrame(Sample(Received(s)), s.queue[0]);
    forall t: nat ensures Sound(Serve(s), t) { StepKeepsSound(s, DaemonServes, t); }
  }

  /** So does a turn of prvProcessTimerOrBlockTask that finds an expiry due. */
  lemma WakingWorks(s: Daemon)
    requires Healthy(s)
    ensures Healthy(Wake(s)) && Work(Wake(s)) <= Work(s) && Wake(s).now == s.now == Wake(s).last
    ensures s.last == s.now && |s.current| > 0 && s.current[0].value <= s.now.tick ==> Work(Wake(s)) < Work(s)
  {
    hide Work, Sample, ProcessExpired, Sound;
    PeriodsPositive(s);
    SamplingWorks(s);
    if !(s.now.tick < s.last.tick) && |s.current| > 0 && s.current[0].value <= s.now.tick {
      SampleInEpoch(s);
      ExpiryWorks(Sample(s));
      ExpiryFrame(Sample(s));
    }
    if s.last == s.now { SampleInEpoch(s); }
    forall t: nat ensures Sound(Wake(s), t) { StepKeepsSound(s, DaemonWakes, t); }
  }

  // ----- the daemon reaches rest -------------------------------------------------------------------------

  /** The daemon's next turn. */
  function Turn(s: Daemon): Event {
    if |s.queue| > 0 then DaemonServes else DaemonWakes
  }

  lemma TurnWorks(s: Daemon)
    requires Healthy(s) && !Idle(s)
    ensures Enabled(s, Turn(s)) && Healthy(Step(s, Turn(s))) && Step(s, Turn(s)).now == s.now == Step(s, Turn(s)).last
    ensures Work(Step(s, Turn(s))) < Work(s) || (Work(Step(s, Turn(s))) == Work(s) && s.last != s.now)
  {
    hide Work, Serve, Wake, Sound;
    if |s.queue| > 0 { ServingWorks(s); } else { WakingWorks(s); }
  }

  /**
    From every sound state in which the daemon has looked at the clock less than one
    wrap ago, its own turns alone, the clock standing still, bring it to rest.
   */
  lemma {:induction false} ReachesIdle(s: Daemon) returns (tr: seq<Daemon>, es: seq<Event>)
    requires Healthy(s)
    ensures Run(tr, es) && tr[0] == s && Idle(tr[|es|]) && tr[|es|].now == s.now
    ensures forall i {:trigger es[i]} :: 0 <= i < |es| ==> es[i] == Turn(tr[i])
    decreases Work(s), if s.last == s.now then 0 else 1
  {
    hide Work, Step, Enabled, Healthy, Idle, Turn;
    if Idle(s) {
      tr, es := [s], [];
    } else {
      TurnWorks(s);
      tr, es := ReachesIdle(Step(s, Turn(s)));
      tr, es := [s] + tr, [Turn(s)] + es;
    }
  }

  // ----- and every due call is made ----------------------------------------------------------------------

  lemma {:induction false} DueGrows(g: Course, k: nat, j: nat)
    requires k <= j
    ensures Due(g, k) <= Due(g, j)
  {
    if k < j { DueGrows(g, k, j - 1); }
  }

  lemma OwnRestartInTime(s: Daemon, t: nat, g: Course, j: nat)
    requires Steady(s, t, g, j, 0) && |s.queue| > 0 && s.queue[0].timer == t
    requires True(s.now) + g.timer.period < Due(g, j) + 0x1_0000_0000
    ensures InTime(s)
  {
    hide ValuesOf, CommandsOf, FiresOf, CalledOnTime, Due;
    Receiving(s, t);
    var c :| c in ShareOf(s, t).commands && Starts(c, g.timer.period, Due(g, j), True(s.now));
  }

  lemma {:induction false} TurnsKeepCourse(tr: seq<Daemon>, es: seq<Event>, t: nat, g: Course, k: nat, i: nat) returns (j: nat)
    requires Run(tr, es) && i < |tr| && Steady(tr[0], t, g, k, 0)
    requires forall n {:trigger es[n]} :: 0 <= n < |es| ==> es[n] == Turn(tr[n])
    requires True(tr[0].now) + g.timer.period < Due(g, k) + 0x1_0000_0000
    ensures k <= j && Steady(tr[i], t, g, j, 0) && tr[i].now == tr[0].now
    decreases i
  {
    hide Step, Enabled, Steady, ServesOwn, InTime, Due;
    if i == 0 {
      j := k;
    } else {
      j := TurnsKeepCourse(tr, es, t, g, k, i - 1);
      var s := tr[i - 1];
      if Serves(s, es[i - 1], t) {
        DueGrows(g, k, j);
        OwnRestartInTime(s, t, g, j);
        AloneServesOwn(s, t, g, j);
      }
      StepMovesNow(s, Turn(s));
      j := StepKeepsSteady(s, es[i - 1], t, g, j, 0);
    }
  }

  /**
    A timer on its course, the last expiry (or the start) less than one wrap ago:
    the daemon's own turns bring it to rest, and by then the timer has been called
    for every expiry that lies behind.
   */
  lemma DueCallsAreMade(s: Daemon, t: nat, g: Course, k: nat) returns (tr: seq<Daemon>, es: seq<Event>)
    requires Healthy(s) && BothSorted(s) && Steady(s, t, g, k, 0)
    requires True(s.now) + g.timer.period < Due(g, k) + 0x1_0000_0000
    ensures Run(tr, es) && tr[0] == s && Idle(tr[|es|]) && tr[|es|].now == s.now
    ensures forall i {:trigger es[i]} :: 0 <= i < |es| ==> es[i] == Turn(tr[i])
    ensures CaughtUpWith(tr[|es|], t, g)
  {
    hide Step, Enabled, Healthy, Idle, Turn, Steady, Ordered, CaughtUpWith, Due;
    tr, es := ReachesIdle(s);
    var j := TurnsKeepCourse(tr, es, t, g, k, |es|);
    RunKeepsSorted(tr, es, |es|);
    IdleHasCaughtUp(tr[|es|], t, g, j, 0);
  }

  /** prvProcessReceivedCommands: every command there is, and those that serving them posts. */
  ghost function ServeAll(s: Daemon): Daemon
    requires Healthy(s)
    decreases Work(s)
  {
    if |s.queue| == 0 then s else ServingWorks(s); ServeAll(Serve(s))
  }
}
