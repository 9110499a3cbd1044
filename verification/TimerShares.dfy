/**
  One timer's share of the daemon's state (timers.c): its places on the lists,
  its commands in the queue and its calls so far, and exactly what each operation
  of the daemon does to it, for its own timer and for any other.
 */
module TimerShares {
  import opened Lists
  import opened TaskModel
  import opened TimerModel

  // ----- one timer's share of the state -----------------------------------------------------------

  function ValuesOf(l: seq<Item>, t: nat): seq<Tick> {
    if |l| == 0 then [] else OwnValue(l[0], t) + ValuesOf(l[1..], t)
  }

  function CommandsOf(q: seq<Command>, t: nat): seq<Command> {
    if |q| == 0 then [] else (if q[0].timer == t then [q[0]] else []) + CommandsOf(q[1..], t)
  }

  /** When timer t was called. */
  function FiresOf(log: seq<Fire>, t: nat): seq<nat> {
    if |log| == 0 then []
    else
      var f := log[|log| - 1];
      FiresOf(log[..|log| - 1], t) + if f.timer == t then [f.at] else []
  }

  datatype Share = Share(current: seq<Tick>, overflow: seq<Tick>, commands: seq<Command>, calls: seq<nat>, timer: Timer)

  function ShareOf(s: Daemon, t: nat): Share {
    Share(ValuesOf(s.current, t), ValuesOf(s.overflow, t), CommandsOf(s.queue, t), FiresOf(s.log, t), TimerOf(s, t))
  }

  predicate Unlisted(m: Share) {
    m.current == [] && m.overflow == []
  }

  function OwnValue(x: Item, t: nat): seq<Tick> {
    if x.owner == t then [x.value] else []
  }

  lemma FirstValue(l: seq<Item>, t: nat)
    requires |l| > 0
    ensures ValuesOf(l, t) == OwnValue(l[0], t) + ValuesOf(l[1..], t)
  {
  }

  lemma {:induction false} ValuesOfConcat(a: seq<Item>, b: seq<Item>, t: nat)
    ensures ValuesOf(a + b, t) == ValuesOf(a, t) + ValuesOf(b, t)
  {
    if |a| == 0 {
      assert a + b == b;
    } else {
      hide ValuesOf, OwnValue;
      assert (a + b)[0] == a[0] && (a + b)[1..] == a[1..] + b;
      FirstValue(a + b, t);
      FirstValue(a, t);
      ValuesOfConcat(a[1..], b, t);
      Regrouped(OwnValue(a[0], t), ValuesOf(a[1..], t), ValuesOf(b, t));
    }
  }

  lemma Regrouped<T>(a: seq<T>, b: seq<T>, c: seq<T>)
    ensures a + (b + c) == a + b + c
  {
  }

  lemma {:induction false} NoValues(l: seq<Item>, t: nat)
    requires forall x :: x in l ==> x.owner != t
    ensures ValuesOf(l, t) == []
  {
    if |l| > 0 { NoValues(l[1..], t); }
  }

  lemma {:induction false} ValueIsListed(l: seq<Item>, t: nat)
    requires ValuesOf(l, t) != []
    ensures Item(t, ValuesOf(l, t)[0]) in l
  {
    if l[0].owner == t {
      assert l[0] == Item(t, ValuesOf(l, t)[0]);
    } else {
      ValueIsListed(l[1..], t);
    }
  }

  lemma ValuesOfParts(a: seq<Item>, x: Item, b: seq<Item>, t: nat)
    ensures ValuesOf(a + [x] + b, t) == ValuesOf(a, t) + (if x.owner == t then [x.value] else []) + ValuesOf(b, t)
  {
    ValuesOfConcat(a + [x], b, t);
    ValuesOfConcat(a, [x], t);
  }

  lemma ValuesOfInserted(l: seq<Item>, x: Item, t: nat)
    ensures x.owner != t ==> ValuesOf(Inserted(l, x), t) == ValuesOf(l, t)
    ensures x.owner == t && ValuesOf(l, t) == [] ==> ValuesOf(Inserted(l, x), t) == [x.value]
  {
    var p := InsertPos(l, x.value);
    assert l == l[..p] + l[p..];
    ValuesOfConcat(l[..p], l[p..], t);
    ValuesOfParts(l[..p], x, l[p..], t);
  }

  lemma ValuesOfRemovedAt(l: seq<Item>, i: nat, t: nat)
    requires i < |l|
    ensures ValuesOf(l, t) == ValuesOf(l[..i], t) + (if l[i].owner == t then [l[i].value] else []) + ValuesOf(l[i + 1..], t)
    ensures ValuesOf(RemoveAt(l, i), t) == ValuesOf(l[..i], t) + ValuesOf(l[i + 1..], t)
  {
    hide ValuesOf;
    assert l == l[..i] + [l[i]] + l[i + 1..];
    ValuesOfParts(l[..i], l[i], l[i + 1..], t);
    ValuesOfConcat(l[..i], l[i + 1..], t);
  }

  lemma ValuesOfRemoved(l: seq<Item>, h: nat, t: nat)
    ensures h != t ==> ValuesOf(WithoutOwner(l, h), t) == ValuesOf(l, t)
    ensures h == t && |ValuesOf(l, t)| <= 1 ==> ValuesOf(WithoutOwner(l, h), t) == []
  {
    hide ValuesOf, RemoveAt, Find;
    var i := Find(Owners(l), h);
    if i < |l| {
      NoneBefore(l, h, i);
      ValuesOfRemovedAt(l, i, t);
    } else {
      NoneBefore(l, h, |l|);
      assert l[..|l|] == l;
    }
  }

  lemma NoneBefore(l: seq<Item>, h: nat, i: nat)
    requires i <= |l| && h !in Owners(l)[..i]
    ensures ValuesOf(l[..i], h) == []
  {
    forall x | x in l[..i] ensures x.owner != h {
      var j :| 0 <= j < i && l[j] == x;
      assert Owners(l)[..i][j] == x.owner;
    }
    NoValues(l[..i], h);
  }

  lemma {:induction false} CommandsOfPosted(q: seq<Command>, c: Command, t: nat)
    ensures CommandsOf(q + [c], t) == CommandsOf(q, t) + if c.timer == t then [c] else []
  {
    if |q| > 0 {
      assert (q + [c])[1..] == q[1..] + [c];
      CommandsOfPosted(q[1..], c, t);
    }
  }

  lemma HeadTaken(s: Daemon, t: nat)
    requires |s.current| > 0
    ensures var r, m := s.(current := s.current[1..]), ShareOf(s, t);
      if s.current[0].owner == t then
        |m.current| > 0 && m.current[0] == s.current[0].value && ShareOf(r, t) == m.(current := m.current[1..])
      else ShareOf(r, t) == m
  {
  }

  lemma Posting(s: Daemon, c: Command, t: nat)
    ensures ShareOf(Post(s, c), t) ==
      if c.timer == t then ShareOf(s, t).(commands := ShareOf(s, t).commands + [c]) else ShareOf(s, t)
  {
    CommandsOfPosted(s.queue, c, t);
  }

  lemma Calling(s: Daemon, h: nat, t: nat)
    ensures ShareOf(Call(s, h), t) ==
      if h == t then ShareOf(s, t).(calls := ShareOf(s, t).calls + [True(s.now)]) else ShareOf(s, t)
  {
    assert (s.log + [Fire(h, True(s.now))])[..|s.log|] == s.log;
  }

  lemma Inserting(s: Daemon, x: Item, t: nat)
    ensures var m, r := ShareOf(s, t), s.(current := Inserted(s.current, x));
      if x.owner == t then m.current == [] ==> ShareOf(r, t) == m.(current := [x.value]) else ShareOf(r, t) == m
    ensures var m, r := ShareOf(s, t), s.(overflow := Inserted(s.overflow, x));
      if x.owner == t then m.overflow == [] ==> ShareOf(r, t) == m.(overflow := [x.value]) else ShareOf(r, t) == m
  {
    hide Inserted;
    ValuesOfInserted(s.current, x, t);
    ValuesOfInserted(s.overflow, x, t);
  }

  // ----- what the daemon's operations do to it ------------------------------------------------------

  function CalledAt(m: Share, now: nat): Share {
    m.(calls := m.calls + [now])
  }

  /** Put where prvInsertTimerInActiveList puts a timer that has not expired. */
  function Placed(m: Share, now: Tick, next: Tick): Share {
    if next <= now then m.(overflow := [next]) else m.(current := [next])
  }

  lemma Placing(s: Daemon, h: nat, next: Tick, command: Tick, t: nat)
    requires h == t ==> Unlisted(ShareOf(s, t))
    ensures var r := Insert(s, h, next, command);
      && ShareOf(r, t) == (
           if h != t || ExpiredAlready(next, s.last.tick, command, TimerOf(s, h).period) then ShareOf(s, t)
           else Placed(ShareOf(s, t), s.last.tick, next))
      && r == s.(current := r.current, overflow := r.overflow)
  {
    hide Inserted, ExpiredAlready, ShareOf;
    Inserting(s, Item(h, next), t);
  }

  lemma SwitchingOther(s: Daemon, t: nat)
    requires |s.current| > 0 && s.current[0].owner != t
    ensures ShareOf(SwitchHead(s), t) == ShareOf(s, t)
  {
    hide Inserted, ShareOf;
    var h, v := s.current[0].owner, s.current[0].value;
    var r := s.(current := s.current[1..]);
    HeadTaken(s, t);
    Calling(r, h, t);
    Inserting(Call(r, h), Item(h, Wrapped(v + TimerOf(s, h).period)), t);
    Posting(Call(r, h), Start(h, Time(s.last.epoch, v)), t);
  }

  /** A timer found on the list that is switched out: called, and set for its next expiry. */
  lemma SwitchingOwn(s: Daemon, t: nat)
    requires |s.current| > 0 && s.current[0].owner == t && |ShareOf(s, t).current| == 1
    ensures var v, m := s.current[0].value, CalledAt(ShareOf(s, t), True(s.now));
      var next := Wrapped(v + m.timer.period);
      ShareOf(SwitchHead(s), t) ==
        if !m.timer.autoReload then m.(current := [])
        else if next > v then m.(current := [next])
        else m.(current := [], commands := m.commands + [Start(t, Time(s.last.epoch, v))])
  {
    hide Inserted, ValuesOf, CommandsOf, FiresOf;
    var v := s.current[0].value;
    var r := s.(current := s.current[1..]);
    HeadTaken(s, t);
    Calling(r, t, t);
    Inserting(Call(r, t), Item(t, Wrapped(v + TimerOf(s, t).period)), t);
    Posting(Call(r, t), Start(t, Time(s.last.epoch, v)), t);
  }

  lemma ExpiryOther(s: Daemon, t: nat)
    requires |s.current| > 0 && s.current[0].owner != t
    ensures ShareOf(ProcessExpired(s), t) == ShareOf(s, t)
  {
    hide Inserted, Insert, ExpiredAlready, ShareOf;
    var h, v := s.current[0].owner, s.current[0].value;
    var r := s.(current := s.current[1..]);
    var next := Wrapped(v + TimerOf(s, h).period);
    HeadTaken(s, t);
    Posting(r, Start(h, Time(s.last.epoch, v)), t);
    Placing(r, h, next, v, t);
    Calling(r, h, t);
    Calling(Post(r, Start(h, Time(s.last.epoch, v))), h, t);
    Calling(Insert(r, h, next, v), h, t);
  }

  /** A timer that has expired: called, and set for its next expiry. */
  lemma ExpiryOwn(s: Daemon, t: nat)
    requires |s.current| > 0 && s.current[0].owner == t
    requires |ShareOf(s, t).current| == 1 && ShareOf(s, t).overflow == []
    ensures var v, m := s.current[0].value, CalledAt(ShareOf(s, t).(current := []), True(s.now));
      var next := Wrapped(v + m.timer.period);
      ShareOf(ProcessExpired(s), t) ==
        if !m.timer.autoReload then m
        else if ExpiredAlready(next, s.last.tick, v, m.timer.period) then
          m.(commands := m.commands + [Start(t, Time(s.last.epoch, v))])
        else Placed(m, s.last.tick, next)
  {
    hide Inserted, Insert, ExpiredAlready, ValuesOf, CommandsOf, FiresOf;
    var v := s.current[0].value;
    var r := s.(current := s.current[1..]);
    var next := Wrapped(v + TimerOf(s, t).period);
    HeadTaken(s, t);
    Posting(r, Start(t, Time(s.last.epoch, v)), t);
    Placing(r, t, next, v, t);
    Calling(r, t, t);
    Calling(Post(r, Start(t, Time(s.last.epoch, v))), t, t);
    Calling(Insert(r, t, next, v), t, t);
  }

  lemma ObeyingOther(s: Daemon, c: Command, t: nat)
    requires c.timer != t
    ensures ShareOf(Obey(s, c), t) == ShareOf(s, t)
  {
    hide Inserted, Insert, ExpiredAlready, ValuesOf, CommandsOf, FiresOf;
    var h, was := c.timer, TimerOf(s, c.timer);
    match c
    case Start(_, stamp) =>
      Placing(s, h, Wrapped(stamp.tick + was.period), stamp.tick, t);
      Calling(s, h, t);
      Posting(Call(s, h), Start(h, Later(stamp, was.period)), t);
    case Stop(_) =>
    case ChangePeriod(_, q) =>
      Placing(s.(timers := s.timers[h := was.(period := q)]), h, Wrapped(s.last.tick + q), s.last.tick, t);
  }

  /** A command to run, carried out on a timer that is on no list. */
  lemma ObeyingOwn(s: Daemon, c: Command, t: nat)
    requires c.timer == t && Unlisted(ShareOf(s, t))
    ensures var m := ShareOf(s, t);
      ShareOf(Obey(s, c), t) == match c
        case Start(_, stamp) =>
          var next := Wrapped(stamp.tick + m.timer.period);
          if !ExpiredAlready(next, s.last.tick, stamp.tick, m.timer.period) then Placed(m, s.last.tick, next)
          else if !m.timer.autoReload then CalledAt(m, True(s.now))
          else CalledAt(m, True(s.now)).(commands := m.commands + [Start(t, Later(stamp, m.timer.period))])
        case Stop(_) => m
        case ChangePeriod(_, p) =>
          var next := Wrapped(s.last.tick + p);
          var u := m.(timer := m.timer.(period := p));
          if ExpiredAlready(next, s.last.tick, s.last.tick, p) then u else Placed(u, s.last.tick, next)
  {
    hide Inserted, Insert, ExpiredAlready, ValuesOf, CommandsOf, FiresOf;
    var was := TimerOf(s, t);
    match c
    case Start(_, stamp) =>
      Placing(s, t, Wrapped(stamp.tick + was.period), stamp.tick, t);
      Calling(s, t, t);
      Posting(Call(s, t), Start(t, Later(stamp, was.period)), t);
    case Stop(_) =>
    case ChangePeriod(_, p) =>
      Placing(s.(timers := s.timers[t := was.(period := p)]), t, Wrapped(s.last.tick + p), s.last.tick, t);
  }

  /** The first half of a pass of prvProcessReceivedCommands: the command received, its timer off its list. */
  function Received(s: Daemon): Daemon
    requires |s.queue| > 0
  {
    var t := s.queue[0].timer;
    s.(queue := s.queue[1..], current := WithoutOwner(s.current, t), overflow := WithoutOwner(s.overflow, t))
  }

  lemma Receiving(s: Daemon, t: nat)
    requires |s.queue| > 0
    requires s.queue[0].timer == t ==> |ShareOf(s, t).current| <= 1 && |ShareOf(s, t).overflow| <= 1
    ensures var m := ShareOf(s, t);
      ShareOf(Received(s), t) ==
        if s.queue[0].timer == t then m.(current := [], overflow := [], commands := CommandsOf(s.queue[1..], t)) else m
    ensures s.queue[0].timer == t ==> ShareOf(s, t).commands == [s.queue[0]] + CommandsOf(s.queue[1..], t)
    ensures s.current == [] && s.overflow == [] ==> Received(s).current == [] && Received(s).overflow == []
  {
    ValuesOfRemoved(s.current, s.queue[0].timer, t);
    ValuesOfRemoved(s.overflow, s.queue[0].timer, t);
  }
}
