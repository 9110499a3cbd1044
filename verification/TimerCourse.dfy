/**
  The course of a timer (timers.c): told to run from true time s with period p, it
  is due at s + p, s + 2p, s + 3p, ... or, one-shot, at s + p alone.  Every way a
  timer is called, reloaded or restarted keeps it on its course, one call for each
  expiry, never early, and its place standing for exactly the next.
 */
module TimerCourse {
  import opened Lists
  import opened TaskModel
  import opened TimerModel
  import opened TimerShares

  /** The k-th expiry, counting from 0, of a timer started at `start` with period p. */
  function DueAt(start: nat, p: nat, k: nat): nat {
    if k == 0 then start + p else DueAt(start, p, k - 1) + p
  }

  lemma {:induction false} DueAtIsMultiple(start: nat, p: nat, k: nat)
    ensures DueAt(start, p, k) == start + (k + 1) * p
  {
    if k > 0 { DueAtIsMultiple(start, p, k - 1); }
  }

  /** What a timer was last told: to run from `start` as `timer` says, `before` calls having been made till then. */
  datatype Course = Course(start: nat, timer: Timer, before: nat)

  function Due(g: Course, k: nat): nat {
    DueAt(g.start, g.timer.period, k)
  }

  /** On one list, where its place stands for the true expiry e. */
  ghost predicate Listed(s: Daemon, m: Share, e: int) {
    || (|m.current| == 1 && m.overflow == [] && CurrentExpiry(s, m.current[0]) == e)
    || (m.current == [] && |m.overflow| == 1 && OverflowExpiry(s, m.overflow[0]) == e)
  }

  /** c starts the timer so that it is due at e. */
  predicate Starts(c: Command, p: nat, e: int, now: nat) {
    c.Start? && True(c.stamp) + p == e && True(c.stamp) <= now
  }

  /** Call k of the course was for its expiry k, and not before it. */
  ghost predicate CalledOnTime(m: Share, g: Course, k: nat, now: nat) {
    && |m.calls| == g.before + k
    && forall i :: g.before <= i < |m.calls| ==> Due(g, i - g.before) <= m.calls[i] <= now
  }

  /** An auto-reload timer always waits for its next expiry, a one-shot timer until it is called. */
  predicate Awaits(g: Course, k: nat) {
    g.timer.autoReload || k == 0
  }

  /** Waiting for e on a list or as the Start that will list it, next to q other commands. */
  ghost predicate Waiting(s: Daemon, m: Share, p: nat, e: nat, q: nat) {
    || (Listed(s, m, e) && |m.commands| == q)
    || (Unlisted(m) && |m.commands| == q + 1 && exists c :: c in m.commands && Starts(c, p, e, True(s.now)))
  }

  /** t follows course g, has been called k times on it, and q other commands for it are queued. */
  ghost predicate Steady(s: Daemon, t: nat, g: Course, k: nat, q: nat) {
    var m := ShareOf(s, t);
    && g.timer.period > 0 && m.timer == g.timer && g.start <= True(s.now) && CalledOnTime(m, g, k, True(s.now))
    && if Awaits(g, k) then Waiting(s, m, g.timer.period, Due(g, k), q) else k == 1 && Unlisted(m) && |m.commands| == q
  }

  // ----- calls ---------------------------------------------------------------------------------------

  lemma CalledAgain(m: Share, g: Course, k: nat, now: nat)
    requires CalledOnTime(m, g, k, now) && now >= Due(g, k)
    ensures CalledOnTime(CalledAt(m, now), g, k + 1, now)
  {
  }

  /** A place depends on the list it is on and the epoch of the last look only. */
  lemma SteadyFrame(s: Daemon, r: Daemon, t: nat, g: Course, k: nat, q: nat)
    requires Steady(s, t, g, k, q) && ShareOf(r, t) == ShareOf(s, t) && r.last.epoch == s.last.epoch && True(s.now) <= True(r.now)
    ensures Steady(r, t, g, k, q)
  {
    hide ShareOf, Due, CalledOnTime, CurrentExpiry, OverflowExpiry;
    var m := ShareOf(s, t);
    CalledBefore(m, g, k, True(s.now), True(r.now));
    if Awaits(g, k) { StillWaiting(s, r, m, g.timer.period, Due(g, k), q); }
  }

  lemma CalledBefore(m: Share, g: Course, k: nat, now: nat, later: nat)
    requires CalledOnTime(m, g, k, now) && now <= later
    ensures CalledOnTime(m, g, k, later)
  {
  }

  lemma StillWaiting(s: Daemon, r: Daemon, m: Share, p: nat, e: nat, q: nat)
    requires Waiting(s, m, p, e, q) && r.last.epoch == s.last.epoch && True(s.now) <= True(r.now)
    ensures Waiting(r, m, p, e, q)
  {
    if !Listed(s, m, e) {
      var c :| c in m.commands && Starts(c, p, e, True(s.now));
      assert Starts(c, p, e, True(r.now));
    }
  }

  // ----- the list switch -----------------------------------------------------------------------------

  /** The clock has wrapped once since the daemon last looked. */
  ghost predicate WrappedOnce(s: Daemon) {
    s.now.epoch == s.last.epoch + 1
  }

  /** The switch loop reaches t: it is called for expiry k and goes on with expiry k + 1, or, one-shot, is nowhere. */
  lemma SwitchCalls(s: Daemon, t: nat, g: Course, k: nat, q: nat)
    requires WrappedOnce(s) && Steady(s, t, g, k, q) && |s.current| > 0 && s.current[0].owner == t
    ensures Steady(SwitchHead(s), t, g, k + 1, q)
  {
    hide ShareOf, CalledOnTime;
    HeadTaken(s, t);
    SwitchingOwn(s, t);
    CalledAgain(ShareOf(s, t), g, k, True(s.now));
    var v, m := s.current[0].value, CalledAt(ShareOf(s, t), True(s.now));
    CallsOnly(m, ShareOf(SwitchHead(s), t), g, k + 1, True(s.now));
    if Awaits(g, k + 1) && Wrapped(v + m.timer.period) <= v {
      Queued(m.(current := []), Start(t, Time(s.last.epoch, v)), g.timer.period, Due(g, k + 1), True(s.now));
    }
  }

  lemma CallsOnly(m: Share, n: Share, g: Course, k: nat, now: nat)
    requires CalledOnTime(m, g, k, now) && n.calls == m.calls
    ensures CalledOnTime(n, g, k, now)
  {
  }

  lemma Queued(m: Share, c: Command, p: nat, e: nat, now: nat)
    requires Starts(c, p, e, now)
    ensures var n := m.(commands := m.commands + [c]);
      exists c :: c in n.commands && Starts(c, p, e, now)
  {
    assert c in m.commands + [c];
  }

  lemma SwitchMisses(s: Daemon, t: nat, g: Course, k: nat, q: nat)
    requires Steady(s, t, g, k, q) && |s.current| > 0 && s.current[0].owner != t
    ensures Steady(SwitchHead(s), t, g, k, q)
  {
    SwitchingOther(s, t);
    SteadyFrame(s, SwitchHead(s), t, g, k, q);
  }

  lemma {:induction false} SwitchAllKeeps(s: Daemon, t: nat, g: Course, k: nat, q: nat) returns (j: nat)
    requires WrappedOnce(s) && Steady(s, t, g, k, q)
    ensures var r := SwitchAll(s);
      k <= j && Steady(r, t, g, j, q) && r.now == s.now && r.last == s.last && r.current == []
    decreases Measure(s.current)
  {
    hide Steady;
    if |s.current| == 0 {
      j := k;
    } else {
      SwitchHeadDecreases(s);
      if s.current[0].owner == t {
        SwitchCalls(s, t, g, k, q);
        j := SwitchAllKeeps(SwitchHead(s), t, g, k + 1, q);
      } else {
        SwitchMisses(s, t, g, k, q);
        j := SwitchAllKeeps(SwitchHead(s), t, g, k, q);
      }
    }
  }

  lemma {:induction false} SwitchAllMisses(s: Daemon, t: nat)
    requires ShareOf(s, t).current == []
    ensures var r := SwitchAll(s); ShareOf(r, t) == ShareOf(s, t) && r.now == s.now && r.last == s.last && r.current == []
    decreases Measure(s.current)
  {
    hide ShareOf;
    if |s.current| > 0 {
      HeadTaken(s, t);
      SwitchingOther(s, t);
      SwitchHeadDecreases(s);
      SwitchAllMisses(SwitchHead(s), t);
    }
  }

  // ----- looking at the clock ----------------------------------------------------------------------------

  /** The daemon last looked less than one wrap ago, or has nothing listed. */
  ghost predicate LookedRecently(s: Daemon) {
    && True(s.last) <= True(s.now)
    && (True(s.now) < True(s.last) + 0x1_0000_0000 || (s.current == [] && s.overflow == []))
  }

  lemma SampleMisses(s: Daemon, t: nat)
    requires Unlisted(ShareOf(s, t))
    ensures ShareOf(Sample(s), t) == ShareOf(s, t) && Sample(s).now == s.now && Sample(s).last == s.now
  {
    hide ValuesOf, CommandsOf, FiresOf;
    SwitchAllMisses(s, t);
    if s.now.tick < s.last.tick { Swapped(SwitchAll(s), t); }
  }

  lemma Swapped(s: Daemon, t: nat)
    requires s.current == []
    ensures ShareOf(s.(current := s.overflow, overflow := s.current, last := s.now), t)
      == ShareOf(s, t).(current := ShareOf(s, t).overflow, overflow := [])
    ensures ShareOf(s, t).current == []
  {
  }

  lemma SwappedKeeps(s: Daemon, t: nat, g: Course, k: nat, q: nat)
    requires WrappedOnce(s) && s.current == [] && Steady(s, t, g, k, q)
    ensures Steady(s.(current := s.overflow, overflow := s.current, last := s.now), t, g, k, q)
  {
    hide ShareOf, Due;
    Swapped(s, t);
  }

  lemma SampleKeeps(s: Daemon, t: nat, g: Course, k: nat, q: nat) returns (j: nat)
    requires LookedRecently(s) && Steady(s, t, g, k, q)
    ensures k <= j && Steady(Sample(s), t, g, j, q) && Sample(s).now == s.now && Sample(s).last == s.now
    ensures !(s.now.tick < s.last.tick) ==> j == k
  {
    hide Steady;
    j := k;
    if s.current == [] && s.overflow == [] {
      NothingListed(s, t, g, k, q);
    } else if s.now.tick < s.last.tick {
      assert WrappedOnce(s);
      j := SwitchAllKeeps(s, t, g, k, q);
      SwappedKeeps(SwitchAll(s), t, g, j, q);
    } else {
      SteadyFrame(s, Sample(s), t, g, k, q);
    }
  }

  lemma NothingListed(s: Daemon, t: nat, g: Course, k: nat, q: nat)
    requires Steady(s, t, g, k, q) && s.current == [] && s.overflow == []
    ensures Steady(Sample(s), t, g, k, q) && Sample(s) == s.(last := s.now)
  {
    assert Unlisted(ShareOf(s, t));
  }

  // ----- expiry and commands ---------------------------------------------------------------------------------

  /** A timer put on a list for a command less than one wrap old: its place stands for exactly its expiry. */
  lemma PlacedExactly(s: Daemon, t: nat, m: Share, command: Time)
    requires Unlisted(m) && TimerOf(s, t).period > 0
    requires True(command) <= True(s.last) < True(command) + 0x1_0000_0000
    requires True(s.last) < True(command) + TimerOf(s, t).period
    ensures var p := TimerOf(s, t).period;
      Listed(s, Placed(m, s.last.tick, Wrapped(command.tick + p)), True(command) + p)
  {
    hide Insert, Inserted, ExpiredAlready;
    LaterIsLater(command, TimerOf(s, t).period);
    VerdictIsExact(s.last, command, TimerOf(s, t).period);
  }

  /** A normal expiry is one call, with the next expiry set exactly; a one-shot timer is then nowhere. */
  lemma ExpiryCalls(s: Daemon, t: nat, g: Course, k: nat, q: nat)
    requires s.last == s.now && Steady(s, t, g, k, q)
    requires |s.current| > 0 && s.current[0].owner == t && s.current[0].value <= s.now.tick
    ensures Steady(ProcessExpired(s), t, g, k + 1, q)
  {
    hide ValuesOf, FiresOf, CommandsOf, CalledOnTime, ExpiredAlready, Insert, Inserted;
    HeadTaken(s, t);
    ExpiryOwn(s, t);
    ExpiryFrame(s);
    var v, m := s.current[0].value, CalledAt(ShareOf(s, t).(current := []), True(s.now));
    CalledAgain(ShareOf(s, t), g, k, True(s.now));
    CallsOnly(CalledAt(ShareOf(s, t), True(s.now)), ShareOf(ProcessExpired(s), t), g, k + 1, True(s.now));
    var stamp := Time(s.last.epoch, v);
    if g.timer.autoReload {
      VerdictIsExact(s.last, stamp, g.timer.period);
      LaterIsLater(stamp, g.timer.period);
      if ExpiredAlready(Wrapped(v + g.timer.period), s.last.tick, v, g.timer.period) {
        Queued(m, Start(t, stamp), g.timer.period, Due(g, k + 1), True(s.now));
      } else {
        PlacedExactly(s, t, m, stamp);
      }
    }
  }

  lemma ExpiryFrame(s: Daemon)
    requires |s.current| > 0
    ensures ProcessExpired(s).now == s.now && ProcessExpired(s).last == s.last
  {
    hide Inserted, ExpiredAlready;
  }

  lemma ExpiryMisses(s: Daemon, t: nat, g: Course, k: nat, q: nat)
    requires Steady(s, t, g, k, q) && |s.current| > 0 && s.current[0].owner != t
    ensures Steady(ProcessExpired(s), t, g, k, q)
  {
    ExpiryOther(s, t);
    SteadyFrame(s, ProcessExpired(s), t, g, k, q);
  }

  lemma WakeKeeps(s: Daemon, t: nat, g: Course, k: nat, q: nat) returns (j: nat)
    requires LookedRecently(s) && Steady(s, t, g, k, q)
    ensures k <= j && Steady(Wake(s), t, g, j, q)
  {
    hide Steady, Sample, ProcessExpired;
    j := SampleKeeps(s, t, g, k, q);
    if !(s.now.tick < s.last.tick) && |s.current| > 0 && s.current[0].value <= s.now.tick {
      SampleInEpoch(s);
      if s.current[0].owner == t {
        ExpiryCalls(Sample(s), t, g, k, q);
        j := k + 1;
      } else {
        ExpiryMisses(Sample(s), t, g, k, q);
      }
    }
  }

  lemma SampleInEpoch(s: Daemon)
    requires !(s.now.tick < s.last.tick)
    ensures Sample(s) == s.(last := s.now)
  {
  }

  /** A command for another timer. */
  lemma ServeOther(s: Daemon, t: nat, g: Course, k: nat, q: nat) returns (j: nat)
    requires LookedRecently(s) && Steady(s, t, g, k, q) && |s.queue| > 0 && s.queue[0].timer != t
    ensures k <= j && Steady(Serve(s), t, g, j, q)
  {
    hide Steady, Sample, Obey, ShareOf, WithoutOwner;
    var d := Received(s);
    Receiving(s, t);
    SteadyFrame(s, d, t, g, k, q);
    j := SampleKeeps(d, t, g, k, q);
    ObeyingOther(Sample(d), s.queue[0], t);
    ObeyFrame(Sample(d), s.queue[0]);
    SteadyFrame(Sample(d), Serve(s), t, g, j, q);
  }

  lemma ObeyFrame(s: Daemon, c: Command)
    ensures Obey(s, c).now == s.now && Obey(s, c).last == s.last
  {
    hide Inserted, ExpiredAlready;
  }

  /** A Start served for expiry k of a timer that is on no list and has q other commands queued. */
  ghost predicate Restarting(s: Daemon, c: Command, t: nat, g: Course, k: nat, q: nat) {
    var m := ShareOf(s, t);
    && c.Start? && c.timer == t && s.last == s.now && Unlisted(m) && |m.commands| == q
    && g.timer.period > 0 && m.timer == g.timer && g.start <= True(s.now) && Awaits(g, k) && CalledOnTime(m, g, k, True(s.now))
    && Starts(c, g.timer.period, Due(g, k), True(s.now)) && True(s.now) < True(c.stamp) + 0x1_0000_0000
  }

  /** The expiry has come: this is its call, and the next one is queued. */
  lemma ObeyLate(s: Daemon, c: Command, t: nat, g: Course, k: nat, q: nat)
    requires Restarting(s, c, t, g, k, q)
    requires ExpiredAlready(Wrapped(c.stamp.tick + g.timer.period), s.last.tick, c.stamp.tick, g.timer.period)
    ensures Due(g, k) <= True(s.now) && Steady(Obey(s, c), t, g, k + 1, q)
  {
    hide ExpiredAlready, Insert, Inserted, CalledOnTime, ValuesOf, FiresOf, CommandsOf;
    var m, p := ShareOf(s, t), g.timer.period;
    ObeyingOwn(s, c, t);
    ObeyFrame(s, c);
    VerdictIsExact(s.last, c.stamp, p);
    LaterIsLater(c.stamp, p);
    CalledAgain(m, g, k, True(s.now));
    CallsOnly(CalledAt(m, True(s.now)), ShareOf(Obey(s, c), t), g, k + 1, True(s.now));
    if g.timer.autoReload {
      Queued(CalledAt(m, True(s.now)), Start(t, Later(c.stamp, p)), p, Due(g, k + 1), True(s.now));
    }
  }

  /** The expiry lies ahead: the timer's place stands for exactly that. */
  lemma ObeyEarly(s: Daemon, c: Command, t: nat, g: Course, k: nat, q: nat)
    requires Restarting(s, c, t, g, k, q)
    requires !ExpiredAlready(Wrapped(c.stamp.tick + g.timer.period), s.last.tick, c.stamp.tick, g.timer.period)
    ensures Due(g, k) > True(s.now) && Steady(Obey(s, c), t, g, k, q)
    ensures Listed(Obey(s, c), ShareOf(Obey(s, c), t), Due(g, k))
  {
    hide ExpiredAlready, Insert, Inserted, CalledOnTime, ValuesOf, FiresOf, CommandsOf;
    var m, p := ShareOf(s, t), g.timer.period;
    ObeyingOwn(s, c, t);
    ObeyFrame(s, c);
    VerdictIsExact(s.last, c.stamp, p);
    LaterIsLater(c.stamp, p);
    PlacedExactly(s, t, m, c.stamp);
    CallsOnly(m, ShareOf(Obey(s, c), t), g, k, True(s.now));
  }

  lemma ObeyOwn(s: Daemon, c: Command, t: nat, g: Course, k: nat, q: nat) returns (j: nat)
    requires Restarting(s, c, t, g, k, q)
    ensures Steady(Obey(s, c), t, g, j, q)
    ensures j == if Due(g, k) <= True(s.now) then k + 1 else k
    ensures j == k ==> Listed(Obey(s, c), ShareOf(Obey(s, c), t), Due(g, k))
  {
    hide ExpiredAlready, Insert, Steady, Due, ShareOf, CalledOnTime, Listed;
    if ExpiredAlready(Wrapped(c.stamp.tick + g.timer.period), s.last.tick, c.stamp.tick, g.timer.period) {
      ObeyLate(s, c, t, g, k, q);
      j := k + 1;
    } else {
      ObeyEarly(s, c, t, g, k, q);
      j := k;
    }
  }
}
