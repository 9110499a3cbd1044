/**
  When a command to a running timer holds (timers.c).  An auto-reload timer that is
  late, or that the list switch has called, waits for its next expiry as a restart
  in the command queue, not on a list.  A reset, a stop or a new period received
  then takes nothing out of the queue: the restart behind it is served next and
  puts the timer back on its old course.
 */
module TimerReset {
  import opened TimerModel
  import opened TimerShares
  import opened TimerCourse
  import opened TimerDrift

  // ----- one command served, exactly --------------------------------------------------------------

  /** The timer off its lists, the clock read, and the command about to be carried out. */
  lemma ReadyToObey(s: Daemon, t: nat) returns (u: Daemon)
    requires Sound(s, t) && |s.queue| > 0 && s.queue[0].timer == t
    ensures Serve(s) == Obey(u, s.queue[0]) && u.now == s.now == u.last && Serve(s).now == s.now && Serve(s).last == s.now
    ensures ShareOf(u, t) == ShareOf(s, t).(current := [], overflow := [], commands := CommandsOf(s.queue[1..], t))
    ensures ShareOf(s, t).commands == [s.queue[0]] + CommandsOf(s.queue[1..], t)
    ensures ShareOf(s, t).timer.period > 0 && SoundCommand(s.queue[0], True(s.now))
  {
    hide ValuesOf, CommandsOf, FiresOf, Sample, Obey;
    ReceivedSound(s, t);
    Receiving(s, t);
    SampleMisses(Received(s), t);
    u := Sample(Received(s));
    ObeyFrame(u, s.queue[0]);
  }

  lemma ObeyedStart(u: Daemon, c: Command, t: nat)
    requires c.Start? && c.timer == t && u.now == u.last && Unlisted(ShareOf(u, t)) && ShareOf(u, t).timer.period > 0
    requires True(c.stamp) <= True(u.now) < True(c.stamp) + 0x1_0000_0000
    ensures var r, m, n := Obey(u, c), ShareOf(u, t), ShareOf(Obey(u, c), t);
      var x := True(c.stamp) + m.timer.period;
      && n.timer == m.timer
      && if x > True(u.now) then Listed(r, n, x) && n.commands == m.commands && n.calls == m.calls
         else Unlisted(n) && n.commands == m.commands + Again(c, m.timer) && n.calls == m.calls + [True(u.now)]
  {
    hide ValuesOf, CommandsOf, FiresOf, Obey, ExpiredAlready;
    var m := ShareOf(u, t);
    ObeyFrame(u, c);
    ObeyingOwn(u, c, t);
    VerdictIsExact(u.last, c.stamp, m.timer.period);
    LaterIsLater(c.stamp, m.timer.period);
    if True(c.stamp) + m.timer.period > True(u.now) { PlacedExactly(u, t, m, c.stamp); }
  }

  lemma ObeyedPeriod(u: Daemon, c: Command, t: nat)
    requires c.ChangePeriod? && c.period > 0 && c.timer == t && u.now == u.last && Unlisted(ShareOf(u, t))
    ensures var r, m, n := Obey(u, c), ShareOf(u, t), ShareOf(Obey(u, c), t);
      n.timer == m.timer.(period := c.period) && Listed(r, n, True(u.now) + c.period)
      && n.commands == m.commands && n.calls == m.calls
  {
    hide ValuesOf, CommandsOf, FiresOf, Obey, ExpiredAlready;
    var m := ShareOf(u, t);
    ObeyFrame(u, c);
    ObeyingOwn(u, c, t);
    VerdictIsExact(u.last, u.last, c.period);
    PlacedExactly(u.(timers := u.timers[t := m.timer.(period := c.period)]), t, m.(timer := m.timer.(period := c.period)), u.last);
  }

  /** What serving the command at the head of the queue does to its timer. */
  lemma ServedExactly(s: Daemon, t: nat)
    requires Sound(s, t) && |s.queue| > 0 && s.queue[0].timer == t && InTime(s)
    ensures var r, c, rest := Serve(s), s.queue[0], CommandsOf(s.queue[1..], t);
      var m, n := ShareOf(s, t), ShareOf(r, t);
      && r.now == s.now && m.commands == [c] + rest
      && match c
         case Start(_, stamp) =>
           var x := True(stamp) + m.timer.period;
           && n.timer == m.timer
           && if x > True(s.now) then Listed(r, n, x) && n.commands == rest && n.calls == m.calls
              else Unlisted(n) && n.commands == rest + Again(c, m.timer) && n.calls == m.calls + [True(s.now)]
         case Stop(_) => n == m.(current := [], overflow := [], commands := rest)
         case ChangePeriod(_, p) =>
           n.timer == m.timer.(period := p) && Listed(r, n, True(s.now) + p) && n.commands == rest && n.calls == m.calls
  {
    hide ShareOf, CommandsOf, Sound, Serve, Listed, Again;
    var c := s.queue[0];
    var u := ReadyToObey(s, t);
    match c
    case Start(_, _) => ObeyedStart(u, c, t);
    case Stop(_) =>
    case ChangePeriod(_, _) => ObeyedPeriod(u, c, t);
  }

  /** The restart posted with a call made while serving c. */
  function Again(c: Command, timer: Timer): seq<Command>
    requires c.Start?
  {
    if timer.autoReload then [Start(c.timer, Later(c.stamp, timer.period))] else []
  }

  // ----- events that leave a timer alone -----------------------------------------------------------

  /** On no list, or listed for x. */
  ghost predicate AtRest(s: Daemon, m: Share, x: nat) {
    Unlisted(m) || Listed(s, m, x)
  }

  lemma SampleAhead(s: Daemon, t: nat, x: nat)
    requires LookedRecently(s) && AtRest(s, ShareOf(s, t), x) && True(s.now) < x
    ensures var m, n := ShareOf(s, t), ShareOf(Sample(s), t);
      && n == m.(current := n.current, overflow := n.overflow) && Sample(s).now == s.now == Sample(s).last
      && (Unlisted(m) ==> Unlisted(n)) && (Listed(s, m, x) ==> Listed(Sample(s), n, x))
  {
    hide ValuesOf, CommandsOf, FiresOf;
    if Unlisted(ShareOf(s, t)) {
      SampleMisses(s, t);
    } else if s.now.tick < s.last.tick {
      assert s.now.epoch == s.last.epoch + 1;
      SwitchAllMisses(s, t);
      Swapped(SwitchAll(s), t);
    } else {
      SampleInEpoch(s);
      assert s.now.epoch == s.last.epoch;
    }
  }

  /** No event that serves or posts no command for t touches it while its place is for a time yet to come. */
  lemma Untouched(s: Daemon, e: Event, t: nat, x: nat)
    requires Enabled(s, e) && !Serves(s, e, t) && (e.Posted? ==> e.c.timer != t)
    requires AtRest(s, ShareOf(s, t), x) && True(Step(s, e).now) < x
    ensures var m, n := ShareOf(s, t), ShareOf(Step(s, e), t);
      && n == m.(current := n.current, overflow := n.overflow)
      && (Unlisted(m) ==> Unlisted(n)) && (Listed(s, m, x) ==> Listed(Step(s, e), n, x))
  {
    hide ShareOf, Sample, Obey, Wake;
    StepMovesNow(s, e);
    match e
    case TimePasses(to) => ClockOnly(s, to, t);
    case Posted(c) => Posting(s, c, t);
    case DaemonWakes => WakeAhead(s, t, x);
    case DaemonServes =>
      Receiving(s, t);
      StillRecent(s);
      SampleAhead(Received(s), t, x);
      ObeyingOther(Sample(Received(s)), s.queue[0], t);
      ObeyFrame(Sample(Received(s)), s.queue[0]);
  }

  lemma WakeAhead(s: Daemon, t: nat, x: nat)
    requires LookedRecently(s) && AtRest(s, ShareOf(s, t), x) && True(s.now) < x
    ensures var m, n := ShareOf(s, t), ShareOf(Wake(s), t);
      && n == m.(current := n.current, overflow := n.overflow)
      && (Unlisted(m) ==> Unlisted(n)) && (Listed(s, m, x) ==> Listed(Wake(s), n, x))
  {
    hide ShareOf, Sample, ProcessExpired;
    SampleAhead(s, t, x);
    if !(s.now.tick < s.last.tick) && |s.current| > 0 && s.current[0].value <= s.now.tick {
      SampleInEpoch(s);
      HeadTaken(s, t);
      HeadIsDue(s, t, x);
      ExpiryOther(Sample(s), t);
      ExpiryFrame(Sample(s));
    }
  }

  lemma HeadIsDue(s: Daemon, t: nat, x: nat)
    requires |s.current| > 0 && s.current[0].value <= s.now.tick && True(s.last) <= True(s.now) && True(s.now) < x
    requires AtRest(s, ShareOf(s, t), x)
    ensures s.current[0].owner != t
  {
  }

  // ----- the guard -------------------------------------------------------------------------------------

  /** t is on its course, and a command that is not its own restart, the only such one, is about to be served. */
  ghost predicate Commanded(s: Daemon, t: nat, g: Course, k: nat) {
    && Steady(s, t, g, k, 1) && |s.queue| > 0 && s.queue[0].timer == t
    && (Awaits(g, k) ==> !Starts(s.queue[0], g.timer.period, Due(g, k), True(s.now)))
  }

  /** The command is the only one queued if and only if the timer is on a list when it is received, or needs no restart. */
  lemma SoleIffListed(s: Daemon, t: nat, g: Course, k: nat)
    requires Commanded(s, t, g, k)
    ensures CommandsOf(s.queue, t) == [s.queue[0]] <==> !Awaits(g, k) || Listed(s, ShareOf(s, t), Due(g, k))
  {
    hide ValuesOf, CommandsOf, FiresOf, CalledOnTime, Due;
    Receiving(s, t);
  }

  /** Otherwise it is on no list, and its own restart is queued behind the command. */
  lemma RestartBehind(s: Daemon, t: nat, g: Course, k: nat) returns (own: Command)
    requires Commanded(s, t, g, k) && Awaits(g, k) && !Listed(s, ShareOf(s, t), Due(g, k))
    ensures Unlisted(ShareOf(s, t)) && CommandsOf(s.queue, t) == [s.queue[0], own]
    ensures Starts(own, g.timer.period, Due(g, k), True(s.now)) && own.timer == t
  {
    hide ValuesOf, CommandsOf, FiresOf, CalledOnTime, Due;
    Receiving(s, t);
    var cs := ShareOf(s, t).commands;
    own :| own in cs && Starts(own, g.timer.period, Due(g, k), True(s.now));
    assert cs == [s.queue[0], cs[1]] && own == cs[1];
    CommandsAreOwn(s.queue, t);
  }

  lemma {:induction false} CommandsAreOwn(q: seq<Command>, t: nat)
    ensures forall c :: c in CommandsOf(q, t) ==> c.timer == t
  {
    if |q| > 0 { CommandsAreOwn(q[1..], t); }
  }

  // ----- runs ------------------------------------------------------------------------------------------

  /** The course that the command about to be served sets t on, and the old one with the periods it leaves. */
  function FormerCourse(s: Daemon, g: Course, k: nat): Course
    requires |s.queue| > 0
  {
    Course(Due(g, k) - g.timer.period, CourseTold(s).timer, g.before + k)
  }

  /** While own, the restart of t, is the only command queued, t is left alone and its place is not yet due. */
  lemma {:induction false} OwnWaits(tr: seq<Daemon>, es: seq<Event>, t: nat, x: nat, i: nat, j: nat)
    requires Run(tr, es) && i <= j < |tr| && AtRest(tr[i], ShareOf(tr[i], t), x) && True(tr[j].now) < x
    requires forall n {:trigger es[n]} :: i <= n < j ==> LeftAlone(tr[n], es[n], t) && !Serves(tr[n], es[n], t)
    ensures var m, n := ShareOf(tr[i], t), ShareOf(tr[j], t);
      n == m.(current := n.current, overflow := n.overflow) && AtRest(tr[j], n, x)
    decreases j
  {
    hide Step, Enabled, Serves, ShareOf, Listed, Unlisted;
    if i < j {
      StepMovesNow(tr[j - 1], es[j - 1]);
      OwnWaits(tr, es, t, x, i, j - 1);
      Untouched(tr[j - 1], es[j - 1], t, x);
    }
  }

  /**
    A command that does not hold.  Over every run: t, on its course, waits for its next
    expiry on no list when a command for it is served; its own restart is the next
    command served, before the expiry the command asks for.  From then on t is back on
    its old course, as if not reset or stopped; a new period counts from the old start.
   */
  lemma UnlistedDoesNotHold(tr: seq<Daemon>, es: seq<Event>, t: nat, g: Course, k: nat, i: nat, m: nat, j: nat)
    requires Run(tr, es) && Sound(tr[0], t) && i < m < j < |tr|
    requires Serves(tr[i], es[i], t) && InTime(tr[i]) && Commanded(tr[i], t, g, k)
    requires Awaits(g, k) && !Listed(tr[i], ShareOf(tr[i], t), Due(g, k))
    requires Serves(tr[m], es[m], t) && (tr[i].queue[0].Stop? || True(tr[m].now) < Due(CourseTold(tr[i]), 0))
    requires forall n {:trigger es[n]} :: i < n < m ==> !Serves(tr[n], es[n], t)
    requires forall n {:trigger es[n]} :: i < n < j ==> LeftAlone(tr[n], es[n], t)
    ensures var f := FormerCourse(tr[i], g, k);
      && OnCourse(tr[j], t, f)
      && Places(ShareOf(tr[j], t)) == if Awaits(f, |FiresOf(tr[j].log, t)| - f.before) then 1 else 0
  {
    hide Sound, Serve, Wake, Steady, OnCourse, InTime, ShareOf, Places, Awaits, Listed, Unlisted, CommandsOf, Commanded, DueAt;
    RunKeepsSound(tr, es, t, i);
    NowGrows(tr, es, i, m);
    var x := if tr[i].queue[0].Stop? then True(tr[m].now) + 1 else Due(CourseTold(tr[i]), 0);
    var own := OwnBehind(tr[i], t, g, k, x);
    OwnWaits(tr, es, t, x, i + 1, m);
    RunKeepsSound(tr, es, t, m);
    OwnServed(tr[m], t, own);
    SoleCommandRules(tr, es, t, m, j);
  }

  lemma OwnServed(s: Daemon, t: nat, own: Command)
    requires Sound(s, t) && ShareOf(s, t).commands == [own] && own.Start? && |s.queue| > 0 && s.queue[0].timer == t
    ensures CommandsOf(s.queue, t) == [s.queue[0]] && s.queue[0] == own
    ensures CourseTold(s) == Course(True(own.stamp), ShareOf(s, t).timer, |ShareOf(s, t).calls|)
  {
    hide ValuesOf, FiresOf, CommandsOf;
    Receiving(s, t);
  }

  /** Served before its restart, the command leaves that alone in the queue. */
  lemma OwnBehind(s: Daemon, t: nat, g: Course, k: nat, x: nat) returns (own: Command)
    requires Sound(s, t) && Commanded(s, t, g, k) && InTime(s) && Awaits(g, k) && !Listed(s, ShareOf(s, t), Due(g, k))
    requires !s.queue[0].Stop? ==> x == Due(CourseTold(s), 0) && x > True(s.now)
    ensures Starts(own, g.timer.period, Due(g, k), True(s.now)) && own.timer == t
    ensures var n := ShareOf(Serve(s), t);
      && AtRest(Serve(s), n, x) && n.commands == [own]
      && n.calls == ShareOf(s, t).calls && |n.calls| == g.before + k && n.timer == CourseTold(s).timer
  {
    hide Serve, ValuesOf, CommandsOf, FiresOf, CurrentExpiry, OverflowExpiry;
    own := RestartBehind(s, t, g, k);
    ServedExactly(s, t);
    Receiving(s, t);
    assert CommandsOf(s.queue[1..], t) == [own];
  }

  /** A command that holds: served while the timer is on a list, or is a one-shot timer that has been called. */
  lemma ListedHolds(tr: seq<Daemon>, es: seq<Event>, t: nat, g: Course, k: nat, i: nat, j: nat)
    requires Run(tr, es) && Sound(tr[0], t) && i < j < |tr|
    requires Serves(tr[i], es[i], t) && InTime(tr[i]) && Commanded(tr[i], t, g, k)
    requires !Awaits(g, k) || Listed(tr[i], ShareOf(tr[i], t), Due(g, k))
    requires forall n {:trigger es[n]} :: i < n < j ==> LeftAlone(tr[n], es[n], t)
    ensures !tr[i].queue[0].Stop? ==> OnCourse(tr[j], t, CourseTold(tr[i]))
    ensures tr[i].queue[0].Stop? ==> Places(ShareOf(tr[j], t)) == 0 && FiresOf(tr[j].log, t) == FiresOf(tr[i].log, t)
  {
    hide Sound, Serve, Wake, Steady, OnCourse, InTime, Awaits, Listed, Commanded, Due;
    hide ValuesOf, CommandsOf, FiresOf, CourseTold, LeftAlone;
    SoleIffListed(tr[i], t, g, k);
    if tr[i].queue[0].Stop? {
      RunKeepsSound(tr, es, t, i);
      ServedExactly(tr[i], t);
      StaysStopped(tr, es, t, i + 1, j);
    } else {
      SoleCommandRules(tr, es, t, i, j);
    }
  }

  lemma {:induction false} StaysStopped(tr: seq<Daemon>, es: seq<Event>, t: nat, i: nat, j: nat)
    requires Run(tr, es) && i <= j < |tr| && Places(ShareOf(tr[i], t)) == 0
    requires forall n {:trigger es[n]} :: i <= n < j ==> LeftAlone(tr[n], es[n], t)
    ensures ShareOf(tr[j], t) == ShareOf(tr[i], t)
    decreases j
  {
    hide Step, Enabled, ValuesOf, CommandsOf, FiresOf;
    if i < j {
      StaysStopped(tr, es, t, i, j - 1);
      if Serves(tr[j - 1], es[j - 1], t) { Receiving(tr[j - 1], t); }
      Untouched(tr[j - 1], es[j - 1], t, True(tr[j].now) + 1);
    }
  }

  /** The next command served for t between i and j, if there is one. */
  lemma {:induction false} NextServed(tr: seq<Daemon>, es: seq<Event>, t: nat, i: nat, j: nat) returns (found: bool, m: nat)
    requires Run(tr, es) && i <= j < |tr|
    ensures found ==> i <= m < j && Serves(tr[m], es[m], t) && forall n {:trigger es[n]} :: i <= n < m ==> !Serves(tr[n], es[n], t)
    ensures !found ==> forall n {:trigger es[n]} :: i <= n < j ==> !Serves(tr[n], es[n], t)
    decreases j - i
  {
    hide Step, Enabled, Serves;
    if i == j {
      found, m := false, j;
    } else if Serves(tr[i], es[i], t) {
      found, m := true, i;
    } else {
      found, m := NextServed(tr, es, t, i + 1, j);
    }
  }

  lemma AsBefore(s: Daemon, t: nat, g: Course, k: nat)
    requires Commanded(s, t, g, k) && s.queue[0].Stop?
    ensures FormerCourse(s, g, k).timer == g.timer
  {
    hide ValuesOf, CommandsOf, FiresOf;
  }

  /**
    When a stop holds.  A stop is served for an auto-reload timer on its course, which is
    then left alone: once no command for the timer is queued, it is on no list if and only
    if it was on one when the stop was received.
   */
  lemma StopHoldsIff(tr: seq<Daemon>, es: seq<Event>, t: nat, g: Course, k: nat, i: nat, j: nat)
    requires Run(tr, es) && Sound(tr[0], t) && i < j < |tr| && g.timer.autoReload
    requires Serves(tr[i], es[i], t) && Commanded(tr[i], t, g, k) && tr[i].queue[0].Stop?
    requires forall n {:trigger es[n]} :: i < n < j ==> LeftAlone(tr[n], es[n], t)
    requires CommandsOf(tr[j].queue, t) == []
    ensures Unlisted(ShareOf(tr[j], t)) <==> Listed(tr[i], ShareOf(tr[i], t), Due(g, k))
  {
    hide Sound, Serve, Wake, Steady, OnCourse, Listed, Commanded, Due, ValuesOf, CommandsOf, FiresOf, LeftAlone, FormerCourse, True;
    if Listed(tr[i], ShareOf(tr[i], t), Due(g, k)) {
      ListedHolds(tr, es, t, g, k, i, j);
    } else {
      var found, m := NextServed(tr, es, t, i + 1, j);
      if found {
        AsBefore(tr[i], t, g, k);
        UnlistedDoesNotHold(tr, es, t, g, k, i, m, j);
      } else {
        RunKeepsSound(tr, es, t, i);
        var own := OwnBehind(tr[i], t, g, k, True(tr[j].now) + 1);
        OwnWaits(tr, es, t, True(tr[j].now) + 1, i + 1, j);
        assert false;
      }
    }
  }

  // ----- which of several starts prevails -----------------------------------------------------------------

  /** How many expiries of a timer started at `stamp` with period p lie behind, and the first that does not. */
  function Behind(now: nat, p: nat, stamp: nat): nat
    requires p > 0
    decreases now - stamp
  {
    if stamp + p <= now then Behind(now, p, stamp + p) + 1 else 0
  }

  function NextAfter(now: nat, p: nat, stamp: nat): (x: nat)
    requires p > 0
    ensures x > now
    decreases now - stamp
  {
    if stamp + p <= now then NextAfter(now, p, stamp + p) else stamp + p
  }

  /** Of all starts queued for a timer, the one with the most expiries behind; the last of them. */
  function Prevails(now: nat, p: nat, stamps: seq<nat>): nat
    requires p > 0 && |stamps| > 0
  {
    if |stamps| == 1 then stamps[0]
    else
      var w := Prevails(now, p, stamps[1..]);
      if Behind(now, p, stamps[0]) <= Behind(now, p, w) then w else stamps[0]
  }

  lemma {:induction false} PrevailsAppend(now: nat, p: nat, stamps: seq<nat>, x: nat)
    requires p > 0 && |stamps| > 0
    ensures Prevails(now, p, stamps + [x]) ==
      var w := Prevails(now, p, stamps);
      if Behind(now, p, w) <= Behind(now, p, x) then x else w
  {
    hide Behind;
    assert (stamps + [x])[1..] == stamps[1..] + [x];
    if |stamps| == 1 {
      assert (stamps + [x])[1..] == [x];
    } else {
      PrevailsAppend(now, p, stamps[1..], x);
    }
  }

  /** Serving a start that is late moves it to the back with one expiry fewer behind it: the same start prevails. */
  lemma PrevailsStill(now: nat, p: nat, stamps: seq<nat>)
    requires p > 0 && |stamps| > 0
    ensures stamps[0] + p <= now ==>
      NextAfter(now, p, Prevails(now, p, stamps[1..] + [stamps[0] + p])) == NextAfter(now, p, Prevails(now, p, stamps))
    ensures stamps[0] + p > now && |stamps| > 1 ==> Prevails(now, p, stamps) == Prevails(now, p, stamps[1..])
  {
    if |stamps| > 1 {
      PrevailsAppend(now, p, stamps[1..], stamps[0] + p);
    } else {
      assert stamps[1..] + [stamps[0] + p] == [stamps[0] + p];
    }
  }

  function Stamps(cs: seq<Command>): seq<nat>
    requires forall c :: c in cs ==> c.Start?
  {
    seq(|cs|, i requires 0 <= i < |cs| => True(cs[i].stamp))
  }

  predicate StartInTime(c: Command, t: nat, now: nat) {
    c.Start? && c.timer == t && now < True(c.stamp) + 0x1_0000_0000
  }

  /** All commands queued for t are starts less than one wrap old, and the one that prevails is next due at e. */
  ghost predicate Race(s: Daemon, t: nat, e: nat) {
    var m, now := ShareOf(s, t), True(s.now);
    && Sound(s, t) && m.timer.autoReload && m.commands != []
    && (forall c :: c in m.commands ==> StartInTime(c, t, now))
    && e == NextAfter(now, m.timer.period, Prevails(now, m.timer.period, Stamps(m.commands)))
  }

  /** ... while t is not called from a list; in the end it is listed for e. */
  ghost predicate Settles(s: Daemon, t: nat, e: nat) {
    if ShareOf(s, t).commands == [] then
      Sound(s, t) && ShareOf(s, t).timer.autoReload && Listed(s, ShareOf(s, t), e) && True(s.now) < e
    else Race(s, t, e) && exists x: nat :: True(s.now) < x && AtRest(s, ShareOf(s, t), x)
  }

  lemma SettlesFrame(s: Daemon, r: Daemon, t: nat, e: nat, x: nat)
    requires Settles(s, t, e) && Sound(r, t) && r.now == s.now && AtRest(s, ShareOf(s, t), x) && True(s.now) < x
    requires ShareOf(s, t).commands == [] ==> x == e
    requires var m, n := ShareOf(s, t), ShareOf(r, t);
      && n == m.(current := n.current, overflow := n.overflow)
      && (Unlisted(m) ==> Unlisted(n)) && (Listed(s, m, x) ==> Listed(r, n, x))
    ensures Settles(r, t, e)
  {
    hide ShareOf, Sound, Listed, NextAfter, Prevails;
    assert AtRest(r, ShareOf(r, t), x);
  }

  lemma StampsServed(cs: seq<Command>)
    requires |cs| > 0 && forall c :: c in cs ==> c.Start?
    ensures Stamps(cs)[0] == True(cs[0].stamp) && Stamps(cs)[1..] == Stamps(cs[1..]) && |Stamps(cs)| == |cs|
    ensures forall d: Command :: d.Start? ==> Stamps(cs[1..] + [d]) == Stamps(cs[1..]) + [True(d.stamp)]
  {
  }

  lemma ServedSettles(s: Daemon, t: nat, e: nat)
    requires Race(s, t, e) && |s.queue| > 0 && s.queue[0].timer == t && Sound(Serve(s), t)
    ensures Settles(Serve(s), t, e)
  {
    hide Serve, ValuesOf, FiresOf, CommandsOf, Sound, NextAfter, Prevails, CurrentExpiry, OverflowExpiry;
    var cs, p, now := ShareOf(s, t).commands, ShareOf(s, t).timer.period, True(s.now);
    SoundReceiving(s, t);
    assert s.queue[0] in cs;
    ServedExactly(s, t);
    StampsServed(cs);
    PrevailsStill(now, p, Stamps(cs));
    LaterIsLater(cs[0].stamp, p);
    if |cs| == 1 { OnlyOne(now, p, Stamps(cs)); }
    assert AtRest(Serve(s), ShareOf(Serve(s), t), now + 1) || AtRest(Serve(s), ShareOf(Serve(s), t), True(cs[0].stamp) + p);
  }

  lemma OnlyOne(now: nat, p: nat, stamps: seq<nat>)
    requires p > 0 && |stamps| == 1
    ensures Prevails(now, p, stamps) == stamps[0]
    ensures stamps[0] + p > now ==> NextAfter(now, p, stamps[0]) == stamps[0] + p
  {
  }

  lemma SoundReceiving(s: Daemon, t: nat)
    requires Sound(s, t) && |s.queue| > 0 && s.queue[0].timer == t
    ensures ShareOf(s, t).commands == [s.queue[0]] + CommandsOf(s.queue[1..], t) && ShareOf(s, t).timer.period > 0
  {
    hide ValuesOf, FiresOf, CommandsOf;
    Receiving(s, t);
  }

  /** The clock stands still and nobody commands t. */
  predicate Undisturbed(s: Daemon, e: Event, t: nat) {
    (e.Posted? ==> e.c.timer != t) && (e.TimePasses? ==> e.to == s.now)
  }

  lemma StepKeepsSettles(s: Daemon, e: Event, t: nat, x: nat)
    requires Settles(s, t, x) && Enabled(s, e) && Undisturbed(s, e, t)
    ensures Settles(Step(s, e), t, x) && Step(s, e).now == s.now
  {
    hide Settles, Race, ShareOf, Sound, Listed, Unlisted, Serve, Wake;
    SettlesMeans(s, t, x);
    StepMovesNow(s, e);
    StepKeepsSound(s, e, t);
    if Serves(s, e, t) {
      assert ShareOf(s, t).commands != [] by { SoundReceiving(s, t); }
      ServedSettles(s, t, x);
    } else {
      var y: nat :| True(s.now) < y && AtRest(s, ShareOf(s, t), y) && (ShareOf(s, t).commands == [] ==> y == x);
      Untouched(s, e, t, y);
      SettlesFrame(s, Step(s, e), t, x, y);
    }
  }

  lemma SettlesMeans(s: Daemon, t: nat, e: nat)
    requires Settles(s, t, e)
    ensures Sound(s, t) && (ShareOf(s, t).commands != [] ==> Race(s, t, e))
    ensures exists y: nat :: True(s.now) < y && AtRest(s, ShareOf(s, t), y) && (ShareOf(s, t).commands == [] ==> y == e)
  {
    hide ShareOf, Sound, Listed, Unlisted, NextAfter, Prevails;
    if ShareOf(s, t).commands == [] { assert AtRest(s, ShareOf(s, t), e); }
  }

  lemma {:induction false} RunSettles(tr: seq<Daemon>, es: seq<Event>, t: nat, e: nat, i: nat, j: nat)
    requires Run(tr, es) && i <= j < |tr| && Settles(tr[i], t, e)
    requires forall n {:trigger es[n]} :: i <= n < j ==> Undisturbed(tr[n], es[n], t)
    ensures Settles(tr[j], t, e) && tr[j].now == tr[i].now
    decreases j
  {
    hide Step, Enabled, Settles;
    if i < j {
      RunSettles(tr, es, t, e, i, j - 1);
      StepKeepsSettles(tr[j - 1], es[j - 1], t, e);
    }
  }

  /**
    Several starts, resets and own restarts alike.  Once the daemon has served the
    starts queued for a timer, the clock standing still, the timer is listed for the
    next expiry of the one that prevails.
   */
  lemma StartsSettle(tr: seq<Daemon>, es: seq<Event>, t: nat, e: nat, i: nat, j: nat)
    requires Run(tr, es) && Sound(tr[0], t) && i < j < |tr| && Serves(tr[i], es[i], t) && Race(tr[i], t, e)
    requires forall n {:trigger es[n]} :: i <= n < j ==> Undisturbed(tr[n], es[n], t)
    requires CommandsOf(tr[j].queue, t) == []
    ensures Listed(tr[j], ShareOf(tr[j], t), e) && True(tr[j].now) < e
  {
    hide Serve, Wake, Race, Sound, Listed;
    RunKeepsSound(tr, es, t, i + 1);
    ServedSettles(tr[i], t, e);
    RunSettles(tr, es, t, e, i + 1, j);
  }

  /**
    When a reset holds.  An auto-reload timer on its course is reset, and the reset
    served in time.  Once the daemon has served what is queued for the timer, the clock
    standing still, it is set for the first expiry counted from the reset if and only
    if it was on a list when the reset was received, or the reset is so late that it has
    more expiries behind it than the restart has, or both come to the same time.
   */
  lemma ResetHoldsIff(tr: seq<Daemon>, es: seq<Event>, t: nat, g: Course, k: nat, i: nat, j: nat)
    requires Run(tr, es) && Sound(tr[0], t) && i < j < |tr| && Serves(tr[i], es[i], t) && g.timer.autoReload
    requires Commanded(tr[i], t, g, k) && tr[i].queue[0].Start? && InTime(tr[i])
    requires True(tr[i].now) + g.timer.period < Due(g, k) + 0x1_0000_0000
    requires forall n {:trigger es[n]} :: i <= n < j ==> Undisturbed(tr[n], es[n], t)
    requires CommandsOf(tr[j].queue, t) == []
    ensures Due(g, k) >= g.timer.period > 0
    ensures var now, p, reset, own := True(tr[i].now), g.timer.period, True(tr[i].queue[0].stamp), Due(g, k) - g.timer.period;
      Listed(tr[j], ShareOf(tr[j], t), NextAfter(now, p, reset)) <==>
        || Listed(tr[i], ShareOf(tr[i], t), Due(g, k))
        || Behind(now, p, reset) > Behind(now, p, own)
        || NextAfter(now, p, reset) == NextAfter(now, p, own)
  {
    hide Serve, Wake, Sound, Listed, Prevails, NextAfter, Behind, Steady;
    RunKeepsSound(tr, es, t, i);
    var e := Racing(tr[i], t, g, k);
    StartsSettle(tr, es, t, e, i, j);
    OnePlace(tr[j], t, e, NextAfter(True(tr[i].now), g.timer.period, True(tr[i].queue[0].stamp)));
  }

  lemma OnePlace(s: Daemon, t: nat, e: nat, x: nat)
    requires Listed(s, ShareOf(s, t), e)
    ensures Listed(s, ShareOf(s, t), x) <==> x == e
  {
  }

  lemma Racing(s: Daemon, t: nat, g: Course, k: nat) returns (e: nat)
    requires Sound(s, t) && Commanded(s, t, g, k) && g.timer.autoReload && s.queue[0].Start? && InTime(s)
    requires True(s.now) + g.timer.period < Due(g, k) + 0x1_0000_0000
    ensures Due(g, k) >= g.timer.period > 0 && Race(s, t, e)
    ensures Listed(s, ShareOf(s, t), Due(g, k)) ==> e == NextAfter(True(s.now), g.timer.period, True(s.queue[0].stamp))
    ensures !Listed(s, ShareOf(s, t), Due(g, k)) ==>
      e == NextOfTwo(True(s.now), g.timer.period, True(s.queue[0].stamp), Due(g, k) - g.timer.period)
  {
    hide True, NextAfter, NextOfTwo, Behind, ShareOf, CommandsOf, Listed, Race, Prevails, Sound, Steady, Due, DueAt;
    CourseMeans(s, t, g, k);
    if Listed(s, ShareOf(s, t), Due(g, k)) {
      SoleIffListed(s, t, g, k);
      e := RaceOfOne(s, t, s.queue[0]);
    } else {
      var own := RestartBehind(s, t, g, k);
      assert True(own.stamp) == Due(g, k) - g.timer.period;
      e := RaceOfTwo(s, t, s.queue[0], own);
    }
  }

  function NextOfTwo(now: nat, p: nat, a: nat, b: nat): nat
    requires p > 0
  {
    NextAfter(now, p, if Behind(now, p, a) > Behind(now, p, b) then a else b)
  }

  lemma RaceOfOne(s: Daemon, t: nat, c: Command) returns (e: nat)
    requires Sound(s, t) && ShareOf(s, t).timer.autoReload && ShareOf(s, t).commands == [c] && StartInTime(c, t, True(s.now))
    ensures ShareOf(s, t).timer.period > 0 && Race(s, t, e)
    ensures e == NextAfter(True(s.now), ShareOf(s, t).timer.period, True(c.stamp))
  {
    hide ShareOf, NextAfter, Behind;
    e := NextAfter(True(s.now), ShareOf(s, t).timer.period, Prevails(True(s.now), ShareOf(s, t).timer.period, Stamps([c])));
  }

  lemma RaceOfTwo(s: Daemon, t: nat, c: Command, d: Command) returns (e: nat)
    requires Sound(s, t) && ShareOf(s, t).timer.autoReload && ShareOf(s, t).commands == [c, d]
    requires StartInTime(c, t, True(s.now)) && StartInTime(d, t, True(s.now))
    ensures ShareOf(s, t).timer.period > 0 && Race(s, t, e)
    ensures var now, p, a, b := True(s.now), ShareOf(s, t).timer.period, True(c.stamp), True(d.stamp);
      e == NextOfTwo(now, p, a, b)
  {
    hide ShareOf, NextAfter, Behind;
    PrevailsOfTwo(True(s.now), ShareOf(s, t).timer.period, Stamps([c, d]));
    e := NextAfter(True(s.now), ShareOf(s, t).timer.period, Prevails(True(s.now), ShareOf(s, t).timer.period, Stamps([c, d])));
  }

  lemma CourseMeans(s: Daemon, t: nat, g: Course, k: nat)
    requires Steady(s, t, g, k, 1)
    ensures Due(g, k) >= g.timer.period > 0 && ShareOf(s, t).timer == g.timer && ShareOf(s, t).commands == CommandsOf(s.queue, t)
  {
  }

  lemma PrevailsOfTwo(now: nat, p: nat, stamps: seq<nat>)
    requires p > 0 && |stamps| == 2
    ensures Prevails(now, p, stamps) == if Behind(now, p, stamps[0]) > Behind(now, p, stamps[1]) then stamps[0] else stamps[1]
  {
  }
}
