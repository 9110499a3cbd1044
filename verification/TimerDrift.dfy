/**
  Runs of the timer daemon (timers.c): from the moment a Start or a new period is
  served, the timer keeps the course it was told until another command for it is
  served; a timer left alone does not drift; and when the daemon has nothing left
  to do, each timer has been called for exactly the expiries that lie behind.
 */
module TimerDrift {
  import opened Lists
  import opened TaskModel
  import opened TimerModel
  import opened TimerShares
  import opened TimerCourse

  datatype Event =
    | TimePasses(to: Time)
    | Posted(c: Command)          // xTimerGenericCommand by a task, an interrupt or a callback
    | DaemonWakes
    | DaemonServes

  ghost predicate Enabled(s: Daemon, e: Event) {
    match e
    case TimePasses(to) => True(s.now) <= True(to)
    case Posted(c) => SoundCommand(c, True(s.now))
    case DaemonWakes => LookedRecently(s)
    case DaemonServes => |s.queue| > 0 && LookedRecently(s)
  }

  function Step(s: Daemon, e: Event): Daemon
    requires Enabled(s, e)
  {
    match e
    case TimePasses(to) => s.(now := to)
    case Posted(c) => Post(s, c)
    case DaemonWakes => Wake(s)
    case DaemonServes => Serve(s)
  }

  ghost predicate Run(tr: seq<Daemon>, es: seq<Event>) {
    && |tr| == |es| + 1
    && forall i {:trigger es[i]} :: 0 <= i < |es| ==> Enabled(tr[i], es[i]) && tr[i + 1] == Step(tr[i], es[i])
  }

  predicate Serves(s: Daemon, e: Event, t: nat) {
    e.DaemonServes? && |s.queue| > 0 && s.queue[0].timer == t
  }

  /** The command about to be served is less than one wrap old. */
  predicate InTime(s: Daemon)
    requires |s.queue| > 0
  {
    s.queue[0].Start? ==> True(s.now) < True(s.queue[0].stamp) + 0x1_0000_0000
  }

  // ----- what holds of every timer in every run -----------------------------------------------------

  /** t is on at most one list; its periods are positive and the commands for it not from the future. */
  ghost predicate Sound(s: Daemon, t: nat) {
    var m := ShareOf(s, t);
    && |m.current| + |m.overflow| <= 1 && m.timer.period > 0
    && forall c :: c in m.commands ==> SoundCommand(c, True(s.now))
  }

  predicate SoundCommand(c: Command, now: nat) {
    match c
    case Start(_, stamp) => True(stamp) <= now
    case Stop(_) => true
    case ChangePeriod(_, p) => p > 0
  }

  lemma SoundFrame(s: Daemon, r: Daemon, t: nat)
    requires Sound(s, t) && ShareOf(r, t) == ShareOf(s, t) && True(s.now) <= True(r.now)
    ensures Sound(r, t)
  {
    hide ShareOf;
    forall c | c in ShareOf(r, t).commands ensures SoundCommand(c, True(r.now)) {
      assert SoundCommand(c, True(s.now));
    }
  }

  lemma SwitchSound(s: Daemon, t: nat)
    requires WrappedOnce(s) && Sound(s, t) && |s.current| > 0
    ensures Sound(SwitchHead(s), t)
  {
    hide ShareOf;
    if s.current[0].owner == t {
      HeadTaken(s, t);
      SwitchingOwn(s, t);
    } else {
      SwitchingOther(s, t);
      SoundFrame(s, SwitchHead(s), t);
    }
  }

  lemma {:induction false} SwitchAllSound(s: Daemon, t: nat)
    requires WrappedOnce(s) && Sound(s, t)
    ensures var r := SwitchAll(s); Sound(r, t) && r.now == s.now && r.current == []
    decreases Measure(s.current)
  {
    hide Sound;
    if |s.current| > 0 {
      SwitchHeadDecreases(s);
      SwitchSound(s, t);
      SwitchAllSound(SwitchHead(s), t);
    }
  }

  lemma SampleSound(s: Daemon, t: nat)
    requires LookedRecently(s) && Sound(s, t)
    ensures Sound(Sample(s), t) && Sample(s).now == s.now && Sample(s).last == s.now
  {
    hide ValuesOf, CommandsOf, FiresOf;
    if s.current == [] && s.overflow == [] {
      assert Sample(s) == s.(last := s.now);
      SoundFrame(s, Sample(s), t);
    } else if s.now.tick < s.last.tick {
      SwitchAllSound(s, t);
      Swapped(SwitchAll(s), t);
    } else {
      SoundFrame(s, Sample(s), t);
    }
  }

  lemma ExpirySound(s: Daemon, t: nat)
    requires Sound(s, t) && s.last == s.now && |s.current| > 0 && s.current[0].value <= s.now.tick
    ensures Sound(ProcessExpired(s), t)
  {
    hide ShareOf, ExpiredAlready, Insert, Inserted;
    ExpiryFrame(s);
    if s.current[0].owner == t {
      HeadTaken(s, t);
      ExpiryOwn(s, t);
    } else {
      ExpiryOther(s, t);
      SoundFrame(s, ProcessExpired(s), t);
    }
  }

  lemma WakeSound(s: Daemon, t: nat)
    requires Sound(s, t) && LookedRecently(s)
    ensures Sound(Wake(s), t)
  {
    hide Sound, Sample, ProcessExpired;
    SampleSound(s, t);
    if !(s.now.tick < s.last.tick) {
      SampleInEpoch(s);
      if |s.current| > 0 && s.current[0].value <= s.now.tick { ExpirySound(Sample(s), t); }
    }
  }

  lemma ReceivedSound(s: Daemon, t: nat)
    requires Sound(s, t) && |s.queue| > 0
    ensures Sound(Received(s), t)
    ensures s.queue[0].timer == t ==> SoundCommand(s.queue[0], True(s.now)) && Unlisted(ShareOf(Received(s), t))
  {
    hide ValuesOf, CommandsOf, FiresOf;
    Receiving(s, t);
    if s.queue[0].timer == t {
      forall c | c in CommandsOf(s.queue[1..], t) ensures SoundCommand(c, True(s.now)) {
        assert c in ShareOf(s, t).commands;
      }
    } else {
      SoundFrame(s, Received(s), t);
    }
  }

  lemma ObeySound(s: Daemon, c: Command, t: nat)
    requires Sound(s, t) && s.last == s.now
    requires c.timer == t ==> SoundCommand(c, True(s.now)) && Unlisted(ShareOf(s, t))
    ensures Sound(Obey(s, c), t)
  {
    hide ShareOf, Insert, Inserted, ExpiredAlready;
    ObeyFrame(s, c);
    if c.timer == t {
      ObeyingOwn(s, c, t);
      if c.Start? { RestartNotEarly(s, c.stamp, ShareOf(s, t).timer.period); }
    } else {
      ObeyingOther(s, c, t);
      SoundFrame(s, Obey(s, c), t);
    }
  }

  /** However old the command: a restart posted because the expiry has come is not from the future. */
  lemma RestartNotEarly(s: Daemon, stamp: Time, p: Tick)
    requires p > 0 && True(stamp) <= True(s.now) && s.last == s.now
    ensures ExpiredAlready(Wrapped(stamp.tick + p), s.last.tick, stamp.tick, p) ==> True(Later(stamp, p)) <= True(s.now)
  {
    LaterIsLater(stamp, p);
    if True(s.now) < True(stamp) + 0x1_0000_0000 { VerdictIsExact(s.now, stamp, p); }
  }

  lemma StepKeepsSound(s: Daemon, e: Event, t: nat)
    requires Sound(s, t) && Enabled(s, e)
    ensures Sound(Step(s, e), t)
  {
    hide ShareOf, Wake, Sample, Obey;
    match e
    case TimePasses(to) => ClockOnly(s, to, t); SoundFrame(s, s.(now := to), t);
    case Posted(c) => Posting(s, c, t);
    case DaemonWakes => WakeSound(s, t);
    case DaemonServes =>
      ReceivedSound(s, t);
      StillRecent(s);
      if s.queue[0].timer == t { SampleMisses(Received(s), t); }
      SampleSound(Received(s), t);
      ObeySound(Sample(Received(s)), s.queue[0], t);
  }

  lemma ClockOnly(s: Daemon, to: Time, t: nat)
    ensures ShareOf(s.(now := to), t) == ShareOf(s, t)
  {
  }

  lemma StillRecent(s: Daemon)
    requires LookedRecently(s) && |s.queue| > 0
    ensures LookedRecently(Received(s))
  {
    Receiving(s, s.queue[0].timer + 1);
  }

  lemma {:induction false} RunKeepsSound(tr: seq<Daemon>, es: seq<Event>, t: nat, i: nat)
    requires Run(tr, es) && i < |tr| && Sound(tr[0], t)
    ensures Sound(tr[i], t)
  {
    hide Step, Enabled, Sound;
    if i > 0 {
      RunKeepsSound(tr, es, t, i - 1);
      StepKeepsSound(tr[i - 1], es[i - 1], t);
    }
  }

  // ----- a step keeps the course --------------------------------------------------------------------

  function OthersAfter(e: Event, t: nat, q: nat): nat {
    if e.Posted? && e.c.timer == t then q + 1 else q
  }

  /** The command about to be served is the one that will list t for expiry k. */
  ghost predicate ServesOwn(s: Daemon, t: nat, g: Course, k: nat)
    requires |s.queue| > 0
  {
    Unlisted(ShareOf(s, t)) && Awaits(g, k) && Starts(s.queue[0], g.timer.period, Due(g, k), True(s.now)) && InTime(s)
  }

  lemma StepKeepsSteady(s: Daemon, e: Event, t: nat, g: Course, k: nat, q: nat) returns (j: nat)
    requires Steady(s, t, g, k, q) && Enabled(s, e) && (Serves(s, e, t) ==> ServesOwn(s, t, g, k))
    ensures k <= j && Steady(Step(s, e), t, g, j, OthersAfter(e, t, q))
  {
    hide Steady, Wake, Serve, ShareOf;
    j := k;
    match e
    case TimePasses(to) =>
      ClockOnly(s, to, t);
      SteadyFrame(s, s.(now := to), t, g, k, q);
    case Posted(c) =>
      PostKeeps(s, c, t, g, k, q);
    case DaemonWakes =>
      j := WakeKeeps(s, t, g, k, q);
    case DaemonServes =>
      if s.queue[0].timer == t {
        j := ServeOwn(s, t, g, k, q);
      } else {
        j := ServeOther(s, t, g, k, q);
      }
  }

  lemma PostKeeps(s: Daemon, c: Command, t: nat, g: Course, k: nat, q: nat)
    requires Steady(s, t, g, k, q)
    ensures Steady(Post(s, c), t, g, k, OthersAfter(Posted(c), t, q))
  {
    hide ShareOf, Due, Starts, CalledOnTime;
    Posting(s, c, t);
    var m := ShareOf(s, t);
    if c.timer == t {
      CallsOnly(m, ShareOf(Post(s, c), t), g, k, True(s.now));
      if Awaits(g, k) && !Listed(s, m, Due(g, k)) {
        var own :| own in m.commands && Starts(own, g.timer.period, Due(g, k), True(s.now));
        assert own in m.commands + [c];
      }
    }
  }

  lemma ServeOwn(s: Daemon, t: nat, g: Course, k: nat, q: nat) returns (j: nat)
    requires Steady(s, t, g, k, q) && |s.queue| > 0 && s.queue[0].timer == t && ServesOwn(s, t, g, k)
    ensures k <= j && Steady(Serve(s), t, g, j, q)
  {
    hide ValuesOf, CommandsOf, FiresOf, Sample, Obey;
    Receiving(s, t);
    SampleMisses(Received(s), t);
    j := ObeyOwn(Sample(Received(s)), s.queue[0], t, g, k, q);
  }

  // ----- only time moves the clock ------------------------------------------------------------------------

  lemma StepMovesNow(s: Daemon, e: Event)
    requires Enabled(s, e)
    ensures True(s.now) <= True(Step(s, e).now)
    ensures !e.TimePasses? ==> Step(s, e).now == s.now
  {
    hide Sample, Obey, ProcessExpired;
    match e
    case TimePasses(_) =>
    case Posted(_) =>
    case DaemonWakes =>
      SampleKeepsNow(s);
      if !(s.now.tick < s.last.tick) && |s.current| > 0 {
        SampleInEpoch(s);
        ExpiryFrame(Sample(s));
      }
    case DaemonServes =>
      SampleKeepsNow(Received(s));
      ObeyFrame(Sample(Received(s)), s.queue[0]);
  }

  lemma SampleKeepsNow(s: Daemon)
    ensures Sample(s).now == s.now
  {
    SwitchKeepsNow(s);
  }

  lemma {:induction false} SwitchKeepsNow(s: Daemon)
    ensures SwitchAll(s).now == s.now
    decreases Measure(s.current)
  {
    hide Inserted;
    if |s.current| > 0 {
      SwitchHeadDecreases(s);
      SwitchKeepsNow(SwitchHead(s));
    }
  }

  lemma {:induction false} NowGrows(tr: seq<Daemon>, es: seq<Event>, i: nat, j: nat)
    requires Run(tr, es) && i <= j < |tr|
    ensures True(tr[i].now) <= True(tr[j].now)
    decreases j
  {
    hide Step, Enabled;
    if i < j {
      NowGrows(tr, es, i, j - 1);
      StepMovesNow(tr[j - 1], es[j - 1]);
    }
  }

  // ----- a command served begins a course -----------------------------------------------------------

  /** The course that the command at the head of the queue sets its timer on. */
  function CourseTold(s: Daemon): Course
    requires |s.queue| > 0
  {
    var c := s.queue[0];
    var m := ShareOf(s, c.timer);
    match c
    case Start(_, stamp) => Course(True(stamp), m.timer, |m.calls|)
    case ChangePeriod(_, p) => Course(True(s.now), m.timer.(period := p), |m.calls|)
    case Stop(_) => Course(True(s.now), m.timer, |m.calls|)
  }

  lemma ServeBegins(s: Daemon, t: nat) returns (k: nat, q: nat)
    requires Sound(s, t) && |s.queue| > 0 && s.queue[0].timer == t && !s.queue[0].Stop? && InTime(s)
    ensures Steady(Serve(s), t, CourseTold(s), k, q) && |CommandsOf(s.queue, t)| == q + 1
    ensures s.queue[0].Start? && Due(CourseTold(s), 0) > True(s.now) ==>
      Listed(Serve(s), ShareOf(Serve(s), t), Due(CourseTold(s), 0))
  {
    hide ValuesOf, CommandsOf, FiresOf, Sample, Obey;
    var g, d := CourseTold(s), Received(s);
    k, q := 0, |ShareOf(d, t).commands|;
    ReceivedSound(s, t);
    Receiving(s, t);
    SampleMisses(d, t);
    if s.queue[0].Start? {
      k := ObeyOwn(Sample(d), s.queue[0], t, g, 0, q);
    } else {
      ObeyPeriod(Sample(d), s.queue[0], t);
    }
  }

  lemma ObeyPeriod(s: Daemon, c: Command, t: nat)
    requires c.ChangePeriod? && c.period > 0 && c.timer == t && s.last == s.now && Unlisted(ShareOf(s, t))
    ensures var m := ShareOf(s, t);
      Steady(Obey(s, c), t, Course(True(s.now), m.timer.(period := c.period), |m.calls|), 0, |m.commands|)
  {
    hide ExpiredAlready, Insert, Inserted, ValuesOf, FiresOf, CommandsOf;
    var m, p := ShareOf(s, t), c.period;
    var u := s.(timers := s.timers[t := m.timer.(period := p)]);
    ObeyingOwn(s, c, t);
    ObeyFrame(s, c);
    VerdictIsExact(s.last, s.last, p);
    PlacedExactly(u, t, m.(timer := m.timer.(period := p)), s.last);
  }

  lemma ServeStops(s: Daemon, t: nat)
    requires Sound(s, t) && |s.queue| > 0 && s.queue[0].timer == t && s.queue[0].Stop?
    ensures Unlisted(ShareOf(Serve(s), t)) && ShareOf(Serve(s), t).calls == ShareOf(s, t).calls
  {
    hide ValuesOf, CommandsOf, FiresOf, Sample;
    ReceivedSound(s, t);
    Receiving(s, t);
    SampleMisses(Received(s), t);
  }

  // ----- runs ------------------------------------------------------------------------------------------

  lemma {:induction false} CourseLasts(tr: seq<Daemon>, es: seq<Event>, t: nat, g: Course, i: nat, j: nat, k: nat, q: nat)
      returns (l: nat, r: nat)
    requires Run(tr, es) && i <= j < |tr| && Steady(tr[i], t, g, k, q)
    requires forall n {:trigger es[n]} :: i <= n < j ==> !Serves(tr[n], es[n], t)
    ensures Steady(tr[j], t, g, l, r)
  {
    hide Step, Enabled, Steady, Serves;
    if i == j {
      l, r := k, q;
    } else {
      l, r := CourseLasts(tr, es, t, g, i, j - 1, k, q);
      l := StepKeepsSteady(tr[j - 1], es[j - 1], t, g, l, r);
      r := OthersAfter(es[j - 1], t, r);
    }
  }

  /** The expiry that comes after the calls made so far. */
  function NextDue(m: Share, g: Course): int {
    g.start + (|m.calls| - g.before + 1) * g.timer.period
  }

  /** Each call on the course came at or after its expiry. */
  ghost predicate NotEarly(m: Share, g: Course, now: nat) {
    forall j :: g.before <= j < |m.calls| ==> g.start + (j - g.before + 1) * g.timer.period <= m.calls[j] <= now
  }

  /**
    With n calls since the course was told: call j came at or after start + (j + 1) p,
    and t waits, on one list or as its queued restart, for exactly start + (n + 1) p;
    a one-shot timer once called is on no list.
   */
  ghost predicate OnCourse(s: Daemon, t: nat, g: Course) {
    var m := ShareOf(s, t);
    var n := |m.calls| - g.before;
    && n >= 0 && m.timer == g.timer && NotEarly(m, g, True(s.now))
    && if Awaits(g, n) then
         || Listed(s, m, NextDue(m, g))
         || (Unlisted(m) && exists c :: c in m.commands && Starts(c, g.timer.period, NextDue(m, g), True(s.now)))
       else n == 1 && Unlisted(m)
  }

  lemma NextDueIsDue(m: Share, g: Course, k: nat)
    requires |m.calls| == g.before + k
    ensures NextDue(m, g) == Due(g, k)
  {
    DueAtIsMultiple(g.start, g.timer.period, k);
  }

  lemma OnTimeIsNotEarly(m: Share, g: Course, k: nat, now: nat)
    requires CalledOnTime(m, g, k, now)
    ensures NotEarly(m, g, now)
  {
    forall j | g.before <= j < |m.calls| ensures g.start + (j - g.before + 1) * g.timer.period <= m.calls[j] <= now {
      DueAtIsMultiple(g.start, g.timer.period, j - g.before);
    }
  }

  lemma SteadyMeans(s: Daemon, t: nat, g: Course, k: nat, q: nat)
    requires Steady(s, t, g, k, q)
    ensures OnCourse(s, t, g) && |ShareOf(s, t).calls| == g.before + k && g.start <= True(s.now)
  {
    hide ShareOf, Listed, Starts, NotEarly, NextDue, Due;
    NextDueIsDue(ShareOf(s, t), g, k);
    OnTimeIsNotEarly(ShareOf(s, t), g, k, True(s.now));
  }

  /**
    Served commands rule.  Over every run: once a Start less than one wrap old, or a
    new period, has been served for t, t keeps exactly that course, through every
    reload and list switch, until the next command for it is served.  A one-shot
    timer is called once, not early, and is then nowhere.
   */
  lemma CommandRules(tr: seq<Daemon>, es: seq<Event>, t: nat, i: nat, j: nat)
    requires Run(tr, es) && Sound(tr[0], t) && i < j < |tr|
    requires Serves(tr[i], es[i], t) && !tr[i].queue[0].Stop? && InTime(tr[i])
    requires forall n {:trigger es[n]} :: i < n < j ==> !Serves(tr[n], es[n], t)
    ensures OnCourse(tr[j], t, CourseTold(tr[i]))
  {
    hide Steady, OnCourse, Sound, CourseTold, Serve, Wake, InTime;
    var k, q := ServedCourse(tr, es, t, i, j);
    SteadyMeans(tr[j], t, CourseTold(tr[i]), k, q);
  }

  lemma ServedCourse(tr: seq<Daemon>, es: seq<Event>, t: nat, i: nat, j: nat) returns (k: nat, q: nat)
    requires Run(tr, es) && Sound(tr[0], t) && i < j < |tr|
    requires Serves(tr[i], es[i], t) && !tr[i].queue[0].Stop? && InTime(tr[i])
    requires forall n {:trigger es[n]} :: i < n < j ==> !Serves(tr[n], es[n], t)
    ensures Steady(tr[j], t, CourseTold(tr[i]), k, q)
  {
    hide Steady, Sound, CourseTold, Serve, Wake, InTime;
    RunKeepsSound(tr, es, t, i);
    k, q := ServeBegins(tr[i], t);
    k, q := CourseLasts(tr, es, t, CourseTold(tr[i]), i + 1, j, k, q);
  }

  /** After a Stop is served, t is on no list and is not called until the next command for it is served. */
  lemma {:induction false} StopRules(tr: seq<Daemon>, es: seq<Event>, t: nat, i: nat, j: nat)
    requires Run(tr, es) && Sound(tr[0], t) && i < j < |tr|
    requires Serves(tr[i], es[i], t) && tr[i].queue[0].Stop?
    requires forall n {:trigger es[n]} :: i < n < j ==> !Serves(tr[n], es[n], t)
    ensures Unlisted(ShareOf(tr[j], t)) && FiresOf(tr[j].log, t) == FiresOf(tr[i].log, t)
    decreases j
  {
    hide Sound, Serve, Wake, ShareOf;
    if j == i + 1 {
      RunKeepsSound(tr, es, t, i);
      ServeStops(tr[i], t);
    } else {
      StopRules(tr, es, t, i, j - 1);
      StepMisses(tr[j - 1], es[j - 1], t);
    }
    CallsAreFires(tr[i], t);
    CallsAreFires(tr[j], t);
    CallsAreFires(tr[j - 1], t);
  }

  /** The last command served for t before step j, if there is one. */
  lemma {:induction false} LastServed(tr: seq<Daemon>, es: seq<Event>, t: nat, j: nat) returns (found: bool, i: nat)
    requires Run(tr, es) && j < |tr|
    ensures found ==> i < j && Serves(tr[i], es[i], t) && forall n {:trigger es[n]} :: i < n < j ==> !Serves(tr[n], es[n], t)
    ensures !found ==> forall n {:trigger es[n]} :: 0 <= n < j ==> !Serves(tr[n], es[n], t)
  {
    hide Step, Enabled, Serves;
    if j == 0 {
      found, i := false, 0;
    } else if Serves(tr[j - 1], es[j - 1], t) {
      found, i := true, j - 1;
    } else {
      found, i := LastServed(tr, es, t, j - 1);
    }
  }

  lemma {:induction false} NeverServed(tr: seq<Daemon>, es: seq<Event>, t: nat, j: nat)
    requires Run(tr, es) && j < |tr| && Unlisted(ShareOf(tr[0], t))
    requires forall n {:trigger es[n]} :: 0 <= n < j ==> !Serves(tr[n], es[n], t)
    ensures Unlisted(ShareOf(tr[j], t))
  {
    hide Step, Enabled, Serves, ShareOf;
    if j > 0 {
      NeverServed(tr, es, t, j - 1);
      StepMisses(tr[j - 1], es[j - 1], t);
    }
  }

  /** Listed for e, on the list of the epoch that e lies in. */
  ghost predicate InOwnEpoch(s: Daemon, m: Share, e: int) {
    Listed(s, m, e) && e / 0x1_0000_0000 == if m.current != [] then s.last.epoch else s.last.epoch + 1
  }

  lemma ListedInOwnEpoch(s: Daemon, m: Share, e: int)
    requires Listed(s, m, e)
    ensures InOwnEpoch(s, m, e)
  {
  }

  /**
    Both lists hold only timers of their own epoch.  In every run from empty lists,
    commands served less than one wrap after they were given: any timer on a list got
    there by a command, it keeps the course that the last one told it, and its place
    stands for its next expiry, which lies in the epoch of the daemon's last look if
    it is on the current list and in the one after if it is on the overflow list.
   */
  lemma ListsKeepTheirEpoch(tr: seq<Daemon>, es: seq<Event>, t: nat, j: nat) returns (i: nat)
    requires Run(tr, es) && j < |tr| && Sound(tr[0], t) && Unlisted(ShareOf(tr[0], t))
    requires forall n {:trigger es[n]} :: 0 <= n < j && Serves(tr[n], es[n], t) ==> InTime(tr[n])
    requires !Unlisted(ShareOf(tr[j], t))
    ensures i < j && Serves(tr[i], es[i], t) && !tr[i].queue[0].Stop? && OnCourse(tr[j], t, CourseTold(tr[i]))
    ensures InOwnEpoch(tr[j], ShareOf(tr[j], t), NextDue(ShareOf(tr[j], t), CourseTold(tr[i])))
  {
    hide Step, Enabled, Sound, InTime, ShareOf, CourseTold;
    var found;
    found, i := LastServed(tr, es, t, j);
    if !found {
      NeverServed(tr, es, t, j);
    } else if tr[i].queue[0].Stop? {
      StopRules(tr, es, t, i, j);
    } else {
      CommandRules(tr, es, t, i, j);
      ListedInOwnEpoch(tr[j], ShareOf(tr[j], t), NextDue(ShareOf(tr[j], t), CourseTold(tr[i])));
    }
  }

  lemma CallsAreFires(s: Daemon, t: nat)
    ensures ShareOf(s, t).calls == FiresOf(s.log, t)
  {
  }

  lemma StepMisses(s: Daemon, e: Event, t: nat)
    requires Unlisted(ShareOf(s, t)) && Enabled(s, e) && !Serves(s, e, t)
    ensures Unlisted(ShareOf(Step(s, e), t)) && ShareOf(Step(s, e), t).calls == ShareOf(s, t).calls
  {
    hide ShareOf, Sample, Obey, ProcessExpired;
    match e
    case TimePasses(to) => ClockOnly(s, to, t);
    case Posted(c) => Posting(s, c, t);
    case DaemonWakes =>
      SampleMisses(s, t);
      if !(s.now.tick < s.last.tick) && |s.current| > 0 && s.current[0].value <= s.now.tick {
        SampleInEpoch(s);
        HeadTaken(s, t);
        ExpiryOther(Sample(s), t);
      }
    case DaemonServes =>
      Receiving(s, t);
      SampleMisses(Received(s), t);
      ObeyingOther(Sample(Received(s)), s.queue[0], t);
  }

  // ----- a timer left alone ------------------------------------------------------------------------------

  /** No other command for t, and its own restarts are served less than one wrap after their time. */
  ghost predicate LeftAlone(s: Daemon, e: Event, t: nat) {
    && (e.Posted? ==> e.c.timer != t)
    && (Serves(s, e, t) ==> InTime(s))
  }

  lemma AloneServesOwn(s: Daemon, t: nat, g: Course, k: nat)
    requires Steady(s, t, g, k, 0) && |s.queue| > 0 && s.queue[0].timer == t && InTime(s)
    ensures ServesOwn(s, t, g, k)
  {
    hide ValuesOf, CommandsOf, FiresOf, CalledOnTime, Due;
    Receiving(s, t);
    var c :| c in ShareOf(s, t).commands && Starts(c, g.timer.period, Due(g, k), True(s.now));
  }

  lemma {:induction false} AloneKeepsCourse(tr: seq<Daemon>, es: seq<Event>, t: nat, g: Course, i: nat, j: nat, k: nat)
      returns (l: nat)
    requires Run(tr, es) && i <= j < |tr| && Steady(tr[i], t, g, k, 0)
    requires forall n {:trigger es[n]} :: i <= n < j ==> LeftAlone(tr[n], es[n], t)
    ensures Steady(tr[j], t, g, l, 0)
    decreases j
  {
    hide Step, Enabled, Steady, ServesOwn, InTime;
    if i == j {
      l := k;
    } else {
      l := AloneKeepsCourse(tr, es, t, g, i, j - 1, k);
      if Serves(tr[j - 1], es[j - 1], t) { AloneServesOwn(tr[j - 1], t, g, l); }
      l := StepKeepsSteady(tr[j - 1], es[j - 1], t, g, l, 0);
    }
  }

  /** How many lists and commands t is on. */
  function Places(m: Share): nat {
    |m.current| + |m.overflow| + |m.commands|
  }

  /**
    No drift.  A timer, not in use so far, is started at true time `stamp`.  In every run
    from there it is on its course and in one place at most: no call is early, lost
    or made twice, and lateness never adds up.
   */
  lemma NoDrift(s: Daemon, stamp: Time, tr: seq<Daemon>, es: seq<Event>, t: nat, i: nat)
    requires TimerOf(s, t).period > 0 && Places(ShareOf(s, t)) == 0
    requires Run(tr, es) && True(stamp) <= True(s.now) && tr[0] == Post(s, Start(t, stamp)) && i < |tr|
    requires forall n {:trigger es[n]} :: 0 <= n < i ==> LeftAlone(tr[n], es[n], t)
    ensures var g := Course(True(stamp), TimerOf(s, t), |FiresOf(s.log, t)|);
      && OnCourse(tr[i], t, g)
      && Places(ShareOf(tr[i], t)) == if Awaits(g, |FiresOf(tr[i].log, t)| - g.before) then 1 else 0
  {
    hide Step, Enabled, LeftAlone, Steady, OnCourse;
    var g := Course(True(stamp), TimerOf(s, t), |FiresOf(s.log, t)|);
    StartedSteady(s, stamp, t);
    var k := AloneKeepsCourse(tr, es, t, g, 0, i, 0);
    SteadyMeans(tr[i], t, g, k, 0);
    PlacesOf(tr[i], t, g, k);
  }

  /** So does a timer whose only queued command is served and that is then left alone, through its own restarts. */
  lemma SoleCommandRules(tr: seq<Daemon>, es: seq<Event>, t: nat, i: nat, j: nat)
    requires Run(tr, es) && Sound(tr[0], t) && i < j < |tr|
    requires Serves(tr[i], es[i], t) && !tr[i].queue[0].Stop? && InTime(tr[i])
    requires CommandsOf(tr[i].queue, t) == [tr[i].queue[0]]
    requires forall n {:trigger es[n]} :: i < n < j ==> LeftAlone(tr[n], es[n], t)
    ensures var g := CourseTold(tr[i]);
      && OnCourse(tr[j], t, g)
      && Places(ShareOf(tr[j], t)) == if Awaits(g, |FiresOf(tr[j].log, t)| - g.before) then 1 else 0
  {
    hide Steady, Sound, CourseTold, Serve, Wake, InTime, LeftAlone, OnCourse, ValuesOf, FiresOf, Places;
    RunKeepsSound(tr, es, t, i);
    var k, q := ServeBegins(tr[i], t);
    k := AloneKeepsCourse(tr, es, t, CourseTold(tr[i]), i + 1, j, k);
    SteadyMeans(tr[j], t, CourseTold(tr[i]), k, 0);
    PlacesOf(tr[j], t, CourseTold(tr[i]), k);
  }

  lemma StartedSteady(s: Daemon, stamp: Time, t: nat)
    requires TimerOf(s, t).period > 0 && Places(ShareOf(s, t)) == 0 && True(stamp) <= True(s.now)
    ensures Steady(Post(s, Start(t, stamp)), t, Course(True(stamp), TimerOf(s, t), |FiresOf(s.log, t)|), 0, 0)
  {
    hide ValuesOf, CommandsOf, FiresOf;
    Posting(s, Start(t, stamp), t);
    Queued(ShareOf(s, t), Start(t, stamp), TimerOf(s, t).period, True(stamp) + TimerOf(s, t).period, True(s.now));
  }

  lemma PlacesOf(s: Daemon, t: nat, g: Course, k: nat)
    requires Steady(s, t, g, k, 0)
    ensures Places(ShareOf(s, t)) == if Awaits(g, k) then 1 else 0
  {
    hide ShareOf, CalledOnTime, Due;
  }

  // ----- when the daemon has nothing left to do --------------------------------------------------------------------

  ghost predicate BothSorted(s: Daemon) {
    Ordered(s.current) && Ordered(s.overflow)
  }

  lemma SwitchHeadSorted(s: Daemon)
    requires BothSorted(s) && |s.current| > 0
    ensures BothSorted(SwitchHead(s))
  {
    hide Inserted;
    var t, v := s.current[0].owner, s.current[0].value;
    OrderedInserted(s.current[1..], Item(t, Wrapped(v + TimerOf(s, t).period)));
  }

  lemma {:induction false} SwitchSorted(s: Daemon)
    requires BothSorted(s)
    ensures BothSorted(SwitchAll(s)) && SwitchAll(s).current == []
    decreases Measure(s.current)
  {
    hide BothSorted, SwitchHead;
    if |s.current| > 0 {
      SwitchHeadSorted(s);
      SwitchHeadDecreases(s);
      SwitchSorted(SwitchHead(s));
    }
  }

  lemma InsertSorted(s: Daemon, t: nat, next: Tick, command: Tick)
    requires BothSorted(s)
    ensures BothSorted(Insert(s, t, next, command))
  {
    OrderedInserted(s.current, Item(t, next));
    OrderedInserted(s.overflow, Item(t, next));
  }

  lemma StepKeepsSorted(s: Daemon, e: Event)
    requires BothSorted(s) && Enabled(s, e)
    ensures BothSorted(Step(s, e))
  {
    hide Inserted, Ordered;
    match e
    case TimePasses(_) =>
    case Posted(_) =>
    case DaemonWakes =>
      SampleSorted(s);
      if |Sample(s).current| > 0 { ExpiredSorted(Sample(s)); }
    case DaemonServes =>
      WithoutOwnerOrdered(s.current, s.queue[0].timer);
      WithoutOwnerOrdered(s.overflow, s.queue[0].timer);
      SampleSorted(Received(s));
      ObeySorted(Sample(Received(s)), s.queue[0]);
  }

  lemma SampleSorted(s: Daemon)
    requires BothSorted(s)
    ensures BothSorted(Sample(s))
  {
    SwitchSorted(s);
  }

  lemma ExpiredSorted(s: Daemon)
    requires BothSorted(s) && |s.current| > 0
    ensures BothSorted(ProcessExpired(s))
  {
    hide Inserted, Insert, ExpiredAlready;
    var t, e := s.current[0].owner, s.current[0].value;
    InsertSorted(s.(current := s.current[1..]), t, Wrapped(e + TimerOf(s, t).period), e);
  }

  lemma ObeySorted(s: Daemon, c: Command)
    requires BothSorted(s)
    ensures BothSorted(Obey(s, c))
  {
    hide Inserted, Ordered, Insert;
    match c
    case Start(t, stamp) => InsertSorted(s, t, Wrapped(stamp.tick + TimerOf(s, t).period), stamp.tick);
    case Stop(_) =>
    case ChangePeriod(t, p) =>
      InsertSorted(s.(timers := s.timers[t := TimerOf(s, t).(period := p)]), t, Wrapped(s.last.tick + p), s.last.tick);
  }

  lemma {:induction false} RunKeepsSorted(tr: seq<Daemon>, es: seq<Event>, i: nat)
    requires Run(tr, es) && i < |tr| && BothSorted(tr[0])
    ensures BothSorted(tr[i])
  {
    hide Step, Enabled, BothSorted;
    if i > 0 {
      RunKeepsSorted(tr, es, i - 1);
      StepKeepsSorted(tr[i - 1], es[i - 1]);
    }
  }

  /** The daemon would block: its queue is empty and no expiry due. */
  predicate Idle(s: Daemon) {
    s.queue == [] && s.last == s.now && (|s.current| > 0 ==> s.now.tick < s.current[0].value)
  }

  /** Called for exactly the expiries that lie behind the present time. */
  ghost predicate CaughtUpWith(s: Daemon, t: nat, g: Course) {
    var n, p := |FiresOf(s.log, t)| - g.before, g.timer.period;
    if g.timer.autoReload then n >= 0 && g.start + n * p <= True(s.now) < g.start + (n + 1) * p
    else n == if g.start + p <= True(s.now) then 1 else 0
  }

  lemma IdleHasCaughtUp(s: Daemon, t: nat, g: Course, k: nat, q: nat)
    requires Steady(s, t, g, k, q) && Ordered(s.current) && Idle(s)
    ensures CaughtUpWith(s, t, g)
  {
    hide FiresOf, ValuesOf;
    var p := g.timer.period;
    CallsAreFires(s, t);
    DueAtIsMultiple(g.start, p, k);
    if k > 0 {
      DueAtIsMultiple(g.start, p, k - 1);
      assert Due(g, k - 1) <= ShareOf(s, t).calls[g.before + k - 1] <= True(s.now);
    }
    if Awaits(g, k) { ListedAhead(s, t, Due(g, k)); }
  }

  lemma ListedAhead(s: Daemon, t: nat, e: nat)
    requires Listed(s, ShareOf(s, t), e) && Ordered(s.current) && Idle(s)
    ensures True(s.now) < e
  {
    hide FiresOf, CommandsOf, ValuesOf;
    if ShareOf(s, t).current != [] {
      ValueIsListed(s.current, t);
      assert s.current == [s.current[0]] + s.current[1..];
    }
  }

  /**
    Nothing due is left uncalled.  Over every run of a timer left alone, whenever the
    daemon would block: with n calls of an auto-reload timer so far,
    start + n p <= now < start + (n + 1) p; a one-shot timer has been called if and
    only if start + p <= now.
   */
  lemma CaughtUp(s: Daemon, stamp: Time, tr: seq<Daemon>, es: seq<Event>, t: nat, i: nat)
    requires TimerOf(s, t).period > 0 && Places(ShareOf(s, t)) == 0 && BothSorted(s)
    requires Run(tr, es) && True(stamp) <= True(s.now) && tr[0] == Post(s, Start(t, stamp)) && i < |tr|
    requires forall n {:trigger es[n]} :: 0 <= n < i ==> LeftAlone(tr[n], es[n], t)
    requires Idle(tr[i])
    ensures CaughtUpWith(tr[i], t, Course(True(stamp), TimerOf(s, t), |FiresOf(s.log, t)|))
  {
    hide Step, Enabled, LeftAlone, Steady, ShareOf, FiresOf, CaughtUpWith, Ordered;
    var g := Course(True(stamp), TimerOf(s, t), |FiresOf(s.log, t)|);
    StartedSteady(s, stamp, t);
    var k := AloneKeepsCourse(tr, es, t, g, 0, i, 0);
    RunKeepsSorted(tr, es, i);
    IdleHasCaughtUp(tr[i], t, g, k, 0);
  }

  /** The same after any command served, until the next one for the timer. */
  lemma CommandCaughtUp(tr: seq<Daemon>, es: seq<Event>, t: nat, i: nat, j: nat)
    requires Run(tr, es) && Sound(tr[0], t) && BothSorted(tr[0]) && i < j < |tr|
    requires Serves(tr[i], es[i], t) && !tr[i].queue[0].Stop? && InTime(tr[i])
    requires forall n {:trigger es[n]} :: i < n < j ==> !Serves(tr[n], es[n], t)
    requires Idle(tr[j])
    ensures CaughtUpWith(tr[j], t, CourseTold(tr[i]))
  {
    hide Steady, Sound, CourseTold, Serve, Wake, InTime, CaughtUpWith, Ordered;
    var k, q := ServedCourse(tr, es, t, i, j);
    RunKeepsSorted(tr, es, j);
    IdleHasCaughtUp(tr[j], t, CourseTold(tr[i]), k, q);
  }
}
