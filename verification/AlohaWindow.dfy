/** The windows are exact: runs in which a shorter one loses a key that is declared all along, the latest
    beacon and the latest memory after the last drop, and a run in which two publishing tasks share one flag.
    Together with the guarantees, they say exactly when each holds. */
module AlohaWindow {
  import opened Wrappers
  import opened AlohaDeclaration
  import opened AlohaSubscription
  import opened AlohaNetwork
  import opened AlohaGaps

  function Up(sending: bool, monitor: Monitor, counter: nat, tasks: multiset<nat>): Node {
    Node(true, monitor, sending, sending, counter, tasks)
  }

  /** The first two declarations hear each other. */
  predicate Apart(c: Config) { c.session(0) != c.session(1) }

  /** The first declaration is never dropped. */
  ghost predicate FirstStays(r: Run) {
    forall k | 0 <= k < |r.es| :: r.es[k] != Drop(0)
  }

  /** At time d every declaration had been dropped, and none has joined since. */
  ghost predicate Emptied(r: Run, d: nat)
    requires |r.ss| == |r.es| + 1
  {
    exists a :: EmptiedAt(r, a, d)
  }

  ghost predicate EmptiedAt(r: Run, a: nat, d: nat)
    requires |r.ss| == |r.es| + 1
  {
    a < |r.ss| && AllDropped(r.ss[a]) && r.ss[a].now == d && forall k | a <= k < |r.es| :: r.es[k] != Join
  }

  lemma EmptiedExtends(c: Config, r: Run, e: Event, r': Run, d: nat)
    requires |r.ss| == |r.es| + 1 && Emptied(r, d) && e != Join
    requires |r'.ss| == |r'.es| + 1 && Extends(r, r') && r'.es == r.es + [e]
    ensures Emptied(r', d)
  {
    var a :| EmptiedAt(r, a, d);
    assert EmptiedAt(r', a, d);
  }

  lemma {:induction false} FirstStaysStaffed(c: Config, r: Run, b: nat)
    requires IsRun(c, r) && FirstStays(r) && b < |r.ss| && r.ss[b].nodes != []
    ensures r.ss[b].nodes[0].alive
  {
    if b > 0 {
      assert StepAt(c, r, b - 1);
      if r.ss[b - 1].nodes != [] {
        FirstStaysStaffed(c, r, b - 1);
        assert r.ss[b].nodes[0] == NodeNext(c, r.ss[b - 1], r.es[b - 1], 0);
      }
    }
  }

  /** Nothing is due before t. */
  ghost predicate CalmNode(n: Node, t: nat) {
    && (forall w | w in n.tasks :: t <= w)
    && (n.monitor.Done? || t <= n.monitor.until)
  }

  /** One event among two declarations. */
  lemma Do(c: Config, r: Run, e: Event, a: Node, b: Node, us: seq<Sub>) returns (r': Run)
    requires IsRun(c, r) && Enabled(c, Last(r), e) && |Last(r).nodes| == 2 && |Last(r).subs| == |us|
    requires !e.Tick? && !e.Join? && !e.Subscribe?
    requires a == NodeNext(c, Last(r), e, 0) && b == NodeNext(c, Last(r), e, 1)
    requires forall k | 0 <= k < |us| :: us[k] == SubNext(c, Last(r), e, k)
    ensures IsRun(c, r') && Last(r') == Sys(Last(r).now, [a, b], us)
    ensures NoDrops(r) && !e.Drop? ==> NoDrops(r')
    ensures FirstStays(r) && e != Drop(0) ==> FirstStays(r')
    ensures forall d: nat | Emptied(r, d) :: Emptied(r', d)
  {
    r' := Extend(c, r, e);
    assert Last(r').nodes == [a, b] && Last(r').subs == us;
    forall d: nat | Emptied(r, d) ensures Emptied(r', d) {
      EmptiedExtends(c, r, e, r', d);
    }
  }

  lemma {:induction false} WaitUntil(c: Config, r: Run, t: nat, a: Node, b: Node, us: seq<Sub>) returns (r': Run)
    requires IsRun(c, r) && Last(r) == Sys(Last(r).now, [a, b], us) && Last(r).now <= t
    requires CalmNode(a, t) && CalmNode(b, t)
    requires forall k | 0 <= k < |us| :: us[k].phase.Sleeping? && t <= us[k].phase.until
    ensures IsRun(c, r') && Last(r') == Sys(t, [a, b], us)
    ensures NoDrops(r) ==> NoDrops(r')
    ensures FirstStays(r) ==> FirstStays(r')
    ensures forall d: nat | Emptied(r, d) :: Emptied(r', d)
    decreases t - Last(r).now
  {
    r' := r;
    if Last(r).now < t {
      r' := Extend(c, r, Tick);
      forall d: nat | Emptied(r, d) ensures Emptied(r', d) {
        EmptiedExtends(c, r, Tick, r', d);
      }
      assert Last(r').nodes == [a, b] && Last(r').subs == us;
      r' := WaitUntil(c, r', t, a, b, us);
    }
  }

  function Deaf(home: Option<nat>, until: nat): Sub {
    Sub(home, Sleeping(until), Some(false), [Declared])
  }

  /** The scan comes while the key is marked inactive: the subscription reports it lost. */
  lemma Lost(c: Config, r: Run, a: Node, b: Node, home: Option<nat>, until: nat) returns (r': Run)
    requires IsRun(c, r) && Last(r) == Sys(Last(r).now, [a, b], [Deaf(home, until)]) && Last(r).now <= until
    requires CalmNode(a, until) && CalmNode(b, until)
    ensures IsRun(c, r') && |Last(r').subs| == 1
    ensures Last(r').subs[0].home == home && Undeclared in Last(r').subs[0].log
    ensures NoDrops(r) ==> NoDrops(r')
    ensures FirstStays(r) ==> FirstStays(r')
  {
    var u := Deaf(home, until);
    r' := WaitUntil(c, r, until, a, b, [u]);
    r' := Do(c, r', Scan(0), a, b, [u.(log := [Declared, Undeclared], phase := Retaining)]);
    assert Last(r').subs[0].log[1] == Undeclared;
  }

  /** Two declarations join at once, and a subscription, when `home` says so, right after them. */
  lemma Opening(c: Config) returns (r: Run)
    ensures IsRun(c, r) && NoDrops(r) && FirstStays(r) && Last(r) == Sys(0, [Fresh(0), Fresh(0)], [])
  {
    r := Run([EMPTY], []);
    r := Extend(c, r, Join);
    assert Last(r) == Sys(0, [Fresh(0)], []);
    r := Extend(c, r, Join);
    assert Last(r).nodes == [Fresh(0), Fresh(0)];
  }

  lemma Listening(c: Config, r: Run, home: Option<nat>, a: Node, b: Node) returns (r': Run)
    requires IsRun(c, r) && Last(r) == Sys(Last(r).now, [a, b], [])
    ensures IsRun(c, r') && Last(r') == Sys(Last(r).now, [a, b], [Sub(home, Resetting, None, [])])
    ensures NoDrops(r) ==> NoDrops(r')
    ensures FirstStays(r) ==> FirstStays(r')
  {
    r' := Extend(c, r, Subscribe(home));
    assert Last(r').nodes == [a, b] && Last(r').subs == [Sub(home, Resetting, None, [])];
  }

  // ------------------------------------------------------------------ no drops: three periods

  /** At time 0 both put a beacon after their first look, and the subscription resets after both. */
  lemma BothBeacon(c: Config) returns (r: Run)
    requires Apart(c)
    ensures IsRun(c, r) && NoDrops(r)
    ensures var busy := Up(true, Sleep(c.period), 1, multiset{c.period});
      Last(r) == Sys(0, [busy, busy], [Deaf(None, c.window)])
  {
    var p := c.period;
    r := Opening(c);
    r := Listening(c, r, None, Fresh(0), Fresh(0));
    var u0 := Sub(None, Resetting, None, []);
    var u1 := Sub(None, Resetting, Some(true), [Declared]);
    var looked := Up(true, Sleep(p), 0, multiset{0});
    r := Do(c, r, Head(0, false, 0), looked, Fresh(0), [u0]);
    r := Do(c, r, Head(1, false, 0), looked, looked, [u0]);
    r := Do(c, r, Publish(0), Up(true, Sleep(p), 0, multiset{p}), Up(true, Sleep(p), 1, multiset{0}), [u1]);
    var busy := Up(true, Sleep(p), 1, multiset{p});
    r := Do(c, r, Publish(1), busy, busy, [u1]);
    r := Do(c, r, Reset(0), busy, busy, [Deaf(None, c.window)]);
  }

  /** At P both stop, before their tasks put another beacon. */
  lemma BothStop(c: Config, r: Run) returns (r': Run)
    requires Apart(c) && IsRun(c, r) && NoDrops(r) && c.window > c.period
    requires var busy := Up(true, Sleep(c.period), 1, multiset{c.period});
      Last(r) == Sys(0, [busy, busy], [Deaf(None, c.window)])
    ensures IsRun(c, r') && NoDrops(r')
    ensures var ended := Up(false, Sleep(2 * c.period), 0, multiset{});
      Last(r') == Sys(c.period, [ended, ended], [Deaf(None, c.window)])
  {
    var p := c.period;
    var u := Deaf(None, c.window);
    var busy := Up(true, Sleep(p), 1, multiset{p});
    r' := WaitUntil(c, r, p, busy, busy, [u]);
    var stopped := Up(false, Sleep(2 * p), 0, multiset{p});
    r' := Do(c, r', Head(0, true, 0), stopped, busy, [u]);
    r' := Do(c, r', Head(1, true, 0), stopped, stopped, [u]);
    var ended := Up(false, Sleep(2 * p), 0, multiset{});
    r' := Do(c, r', Publish(0), ended, stopped, [u]);
    r' := Do(c, r', Publish(1), ended, ended, [u]);
  }

  /** Both begin to wait at 2P, and nothing is heard before 3P - 1. */
  lemma ShortWindowLoses(c: Config) returns (r: Run)
    requires Apart(c) && c.window < 3 * c.period
    ensures IsRun(c, r) && NoDrops(r) && !NoLoss(c, Last(r))
  {
    var p := c.period;
    var u := Deaf(None, c.window);
    var busy, ended := Up(true, Sleep(p), 1, multiset{p}), Up(false, Sleep(2 * p), 0, multiset{});
    r := BothBeacon(c);
    if c.window <= p {
      r := Lost(c, r, busy, busy, None, c.window);
    } else {
      r := BothStop(c, r);
      if c.window <= 2 * p {
        r := Lost(c, r, ended, ended, None, c.window);
      } else {
        r := WaitUntil(c, r, 2 * p, ended, ended, [u]);
        var waiting := Up(false, Wait(3 * p - 1), 0, multiset{});
        r := Do(c, r, Head(0, false, p - 1), waiting, ended, [u]);
        r := Do(c, r, Head(1, false, p - 1), waiting, waiting, [u]);
        r := Lost(c, r, waiting, waiting, None, c.window);
      }
    }
  }

  ghost predicate SafeWithoutDrops(c: Config) {
    forall r | IsRun(c, r) && NoDrops(r) :: NoLoss(c, Last(r))
  }

  /** Three periods is the least window that never loses a declared key when nothing is dropped. */
  lemma WindowIsThreePeriods(c: Config)
    requires Apart(c)
    ensures SafeWithoutDrops(c) <==> c.window >= 3 * c.period
  {
    if c.window >= 3 * c.period {
      forall r | IsRun(c, r) && NoDrops(r) ensures NoLoss(c, Last(r)) {
        NeverLostWithoutDrops(c, r, |r.es|);
      }
    } else {
      var r := ShortWindowLoses(c);
    }
  }

  // ------------------------------------------------------------------ with drops: four, less a nanosecond

  /** The first declaration hears the second's beacon and stops; at P both are due again. */
  lemma FirstStops(c: Config) returns (r: Run)
    requires Apart(c)
    ensures IsRun(c, r) && NoDrops(r) && FirstStays(r)
    ensures var p := c.period;
      Last(r) == Sys(p, [Up(false, Sleep(p), 0, multiset{p}), Up(true, Sleep(p), 0, multiset{p})], [])
  {
    var p := c.period;
    r := Opening(c);
    var a, b := Fresh(0).(tasks := multiset{p}), Fresh(0).(counter := 1);
    r := Do(c, r, Publish(0), a, b, []);
    b := Up(true, Sleep(p), 0, multiset{0});
    r := Do(c, r, Head(1, false, 0), a, b, []);
    a, b := a.(counter := 1), b.(tasks := multiset{p});
    r := Do(c, r, Publish(1), a, b, []);
    a := Up(false, Sleep(p), 0, multiset{p});
    r := Do(c, r, Head(0, true, 0), a, b, []);
    r := WaitUntil(c, r, p, a, b, []);
  }

  /** The second declaration puts a beacon just after the first began its back-off, and is dropped: the
      first finds that beacon after the wait, clears it only a period later, and then starts over. */
  lemma HandOver(c: Config) returns (r: Run)
    requires Apart(c)
    ensures IsRun(c, r) && FirstStays(r)
    ensures var p := c.period; Last(r) == Sys(p,
      [Up(false, Wait(2 * p - 1), 1, multiset{}), Node(false, Done, true, false, 0, multiset{2 * p})],
      [Deaf(None, p + c.window)])
  {
    var p := c.period;
    r := FirstStops(c);
    var a, b := Up(false, Sleep(p), 0, multiset{p}), Up(true, Sleep(p), 0, multiset{p});
    r := Listening(c, r, None, a, b);
    var u0 := Sub(None, Resetting, None, []);
    a := Up(false, Wait(2 * p - 1), 0, multiset{p});
    r := Do(c, r, Head(0, false, p - 1), a, b, [u0]);
    a := Up(false, Wait(2 * p - 1), 0, multiset{});
    r := Do(c, r, Publish(0), a, b, [u0]);
    a, b := Up(false, Wait(2 * p - 1), 1, multiset{}), Up(true, Sleep(p), 0, multiset{2 * p});
    r := Do(c, r, Publish(1), a, b, [u0.(entry := Some(true), log := [Declared])]);
    r := Do(c, r, Reset(0), a, b, [Deaf(None, p + c.window)]);
    r := Do(c, r, Drop(1), a, b.(alive := false), [Deaf(None, p + c.window)]);
    b := Node(false, Done, true, false, 0, multiset{2 * p});
    r := Do(c, r, Head(1, false, 0), a, b, [Deaf(None, p + c.window)]);
  }

  lemma ShortWindowLosesWhileStaffed(c: Config) returns (r: Run)
    requires Apart(c) && c.window < 4 * c.period - 1
    ensures IsRun(c, r) && AlwaysStaffed(r) && !NoLoss(c, Last(r))
  {
    var p := c.period;
    var until := p + c.window;
    var u := Deaf(None, until);
    r := HandOver(c);
    var a := Up(false, Wait(2 * p - 1), 1, multiset{});
    var gone := Node(false, Done, true, false, 0, multiset{2 * p});
    var quit := gone.(tasks := multiset{});
    if until <= 2 * p - 1 {
      r := Lost(c, r, a, gone, None, until);
    } else {
      r := WaitUntil(c, r, 2 * p - 1, a, gone, [u]);
      a := Up(false, Sleep(3 * p - 1), 1, multiset{});
      r := Do(c, r, Backoff(0), a, gone, [u]);
      if until <= 2 * p {
        r := Lost(c, r, a, gone, None, until);
      } else {
        r := WaitUntil(c, r, 2 * p, a, gone, [u]);
        r := Do(c, r, Publish(1), a, quit, [u]);
        r := LateRestart(c, r);
      }
    }
    forall k | 0 <= k < |r.ss| && r.ss[k].nodes != [] ensures Staffed(r.ss[k]) {
      FirstStaysStaffed(c, r, k);
    }
  }

  lemma LateRestart(c: Config, r: Run) returns (r': Run)
    requires 2 * c.period < c.period + c.window < 5 * c.period - 1 && IsRun(c, r) && FirstStays(r)
    requires var p := c.period; Last(r) == Sys(2 * p,
      [Up(false, Sleep(3 * p - 1), 1, multiset{}), Node(false, Done, true, false, 0, multiset{})],
      [Deaf(None, p + c.window)])
    ensures IsRun(c, r') && FirstStays(r') && !NoLoss(c, Last(r'))
  {
    var p := c.period;
    var until := p + c.window;
    var u := Deaf(None, until);
    var a := Up(false, Sleep(3 * p - 1), 1, multiset{});
    var quit := Node(false, Done, true, false, 0, multiset{});
    if until <= 3 * p - 1 {
      r' := Lost(c, r, a, quit, None, until);
    } else {
      r' := WaitUntil(c, r, 3 * p - 1, a, quit, [u]);
      a := Up(false, Sleep(4 * p - 1), 0, multiset{});
      r' := Do(c, r', Head(0, false, 0), a, quit, [u]);
      if until <= 4 * p - 1 {
        r' := Lost(c, r', a, quit, None, until);
      } else {
        r' := WaitUntil(c, r', 4 * p - 1, a, quit, [u]);
        a := Up(false, Wait(5 * p - 2), 0, multiset{});
        r' := Do(c, r', Head(0, false, p - 1), a, quit, [u]);
        r' := Lost(c, r', a, quit, None, until);
      }
    }
  }

  ghost predicate SafeWhileStaffed(c: Config) {
    forall r | IsRun(c, r) && AlwaysStaffed(r) :: NoLoss(c, Last(r))
  }

  /** When declarations may be dropped, though somebody is always alive, the least window that never
      loses the key is four periods less a nanosecond. */
  lemma WindowWithDropsIsFourPeriods(c: Config)
    requires Apart(c)
    ensures SafeWhileStaffed(c) <==> c.window >= 4 * c.period - 1
  {
    if c.window >= 4 * c.period - 1 {
      forall r | IsRun(c, r) && AlwaysStaffed(r) ensures NoLoss(c, Last(r)) {
        NeverLostWhileStaffed(c, r, |r.es|);
      }
    } else {
      var r := ShortWindowLosesWhileStaffed(c);
    }
  }

  /** So the source's window covers drops only for a period of one nanosecond. */
  lemma SourceWindowUnderDrops(c: Config)
    requires Apart(c) && c.window == 3 * c.period
    ensures SafeWithoutDrops(c)
    ensures SafeWhileStaffed(c) <==> c.period == 1
  {
    WindowIsThreePeriods(c);
    WindowWithDropsIsFourPeriods(c);
  }

  // ------------------------------------------------------------------ after the last drop: two and eight periods

  /** Both are dropped at P, the first just after it began a back-off. */
  lemma BothDropped(c: Config) returns (r: Run)
    requires Apart(c)
    ensures var p, gone := c.period, Node(false, Done, true, false, 0, multiset{});
      && IsRun(c, r) && Emptied(r, p)
      && Last(r) == Sys(p, [Node(false, Wait(2 * p - 1), false, false, 0, multiset{}), gone], [])
  {
    var p: nat := c.period;
    r := FirstStops(c);
    var a, b := Up(false, Sleep(p), 0, multiset{}), Up(true, Sleep(p), 0, multiset{p});
    r := Do(c, r, Publish(0), a, b, []);
    a := Up(false, Wait(2 * p - 1), 0, multiset{});
    r := Do(c, r, Head(0, false, p - 1), a, b, []);
    r := Do(c, r, Drop(1), a, b.(alive := false), []);
    var gone := Node(false, Done, true, false, 0, multiset{});
    r := Do(c, r, Head(1, false, 0), a, gone.(tasks := multiset{p}), []);
    r := Do(c, r, Publish(1), a, gone, []);
    r := Do(c, r, Drop(0), a.(alive := false), gone, []);
    assert EmptiedAt(r, |r.es|, p);
  }

  /** It restarts at 2P - 1 and puts a second beacon a period later. */
  lemma LastRestart(c: Config) returns (r: Run)
    requires Apart(c)
    ensures var p, gone := c.period, Node(false, Done, true, false, 0, multiset{});
      && IsRun(c, r) && Emptied(r, p)
      && Last(r) == Sys(3 * p - 1, [Node(false, Sleep(3 * p - 1), true, true, 0, multiset{3 * p - 1}), gone], [])
  {
    var p := c.period;
    r := BothDropped(c);
    var a, gone := Node(false, Wait(2 * p - 1), false, false, 0, multiset{}), Node(false, Done, true, false, 0, multiset{});
    r := WaitUntil(c, r, 2 * p - 1, a, gone, []);
    a := Node(false, Sleep(3 * p - 1), true, true, 0, multiset{2 * p - 1});
    r := Do(c, r, Backoff(0), a, gone, []);
    a := a.(tasks := multiset{3 * p - 1});
    r := Do(c, r, Publish(0), a, gone, []);
    r := WaitUntil(c, r, 3 * p - 1, a, gone, []);
  }

  /** No beacon is put `x` or more after the last drop. */
  ghost predicate SilentAfter(c: Config, x: nat) {
    forall r, d: nat, e | IsRun(c, r) && Emptied(r, d) && Enabled(c, Last(r), e) && Beacon(Last(r), e) :: Last(r).now < d + x
  }

  lemma SilenceIsTwoPeriods(c: Config, x: nat)
    requires Apart(c)
    ensures SilentAfter(c, x) <==> x >= 2 * c.period
  {
    if x >= 2 * c.period {
      forall r, d: nat, e | IsRun(c, r) && Emptied(r, d) && Enabled(c, Last(r), e) && Beacon(Last(r), e)
        ensures Last(r).now < d + x
      {
        var a :| EmptiedAt(r, a, d);
        AbandonedRun(c, r, a, |r.es|);
        RunSound(c, r, |r.es|);
        LastBeacon(c, Last(r), e, d);
      }
    } else {
      var r := LastRestart(c);
      var s := Last(r);
      assert s.nodes[0].flag && s.now in s.nodes[0].tasks;
      assert Enabled(c, s, Publish(0)) && Beacon(s, Publish(0));
    }
  }

  lemma LastBeacon(c: Config, s: Sys, e: Event, d: nat)
    requires Sound(c, s) && Abandoned(c, s, d) && Enabled(c, s, e) && Beacon(s, e)
    ensures s.now < d + 2 * c.period
  {
    AbandonedStep(c, s, e, d);
  }

  /** A subscription resets just before the last beacon, 2P - 1 after the drops, and keeps the key that round. */
  lemma LastHeard(c: Config) returns (r: Run)
    requires Apart(c) && c.window == 3 * c.period
    ensures var p, gone := c.period, Node(false, Done, true, false, 0, multiset{});
      && IsRun(c, r) && Emptied(r, p)
      && Last(r) == Sys(6 * p - 1, [gone, gone], [Sub(None, Sleeping(6 * p - 1), Some(true), [Declared])])
  {
    var p := c.period;
    var t: nat := 3 * p - 1;
    r := LastRestart(c);
    var a, gone := Node(false, Sleep(t), true, true, 0, multiset{t}), Node(false, Done, true, false, 0, multiset{});
    var u := Sub(None, Resetting, None, []);
    r := Arrives(c, r, a, gone, p);
    u := u.(phase := Sleeping(t + 3 * p));
    r := Do(c, r, Reset(0), a, gone, [u]);
    u := u.(entry := Some(true), log := [Declared]);
    a := a.(tasks := multiset{t + p});
    r := Do(c, r, Publish(0), a, gone, [u]);
    a := Node(false, Done, true, false, 0, multiset{t + p});
    r := Do(c, r, Head(0, false, 0), a, gone, [u]);
    r := WaitUntil(c, r, t + p, a, gone, [u]);
    r := Do(c, r, Publish(0), gone, gone, [u]);
    r := WaitUntil(c, r, t + 3 * p, gone, gone, [u]);
  }

  /** It has to sleep once more before it drops the key. */
  lemma LastRemembered(c: Config) returns (r: Run)
    requires Apart(c) && c.window == 3 * c.period
    ensures IsRun(c, r) && Emptied(r, c.period) && Last(r).now == 9 * c.period - 1
    ensures |Last(r).subs| == 1 && Last(r).subs[0].entry.Some?
  {
    var t: nat := 6 * c.period - 1;
    var gone, u := Node(false, Done, true, false, 0, multiset{}), Sub(None, Sleeping(t), Some(true), [Declared]);
    r := LastHeard(c);
    r := Do(c, r, Scan(0), gone, gone, [u.(phase := Retaining)]);
    r := Do(c, r, Retain(0), gone, gone, [u.(phase := Resetting)]);
    r := Do(c, r, Reset(0), gone, gone, [Deaf(None, t + c.window)]);
    r := WaitUntil(c, r, t + c.window, gone, gone, [Deaf(None, t + c.window)]);
  }

  lemma Arrives(c: Config, r: Run, a: Node, b: Node, d: nat) returns (r': Run)
    requires IsRun(c, r) && Last(r) == Sys(Last(r).now, [a, b], []) && Emptied(r, d)
    ensures IsRun(c, r') && Emptied(r', d)
    ensures Last(r') == Sys(Last(r).now, [a, b], [Sub(None, Resetting, None, [])])
  {
    r' := Extend(c, r, Subscribe(None));
    EmptiedExtends(c, r, Subscribe(None), r', d);
    assert Last(r').nodes == [a, b] && Last(r').subs == [Sub(None, Resetting, None, [])];
  }

  /** `x` after the last drop, or later, no table has the key. */
  ghost predicate ForgottenAfter(c: Config, x: nat) {
    forall r, d: nat, k | IsRun(c, r) && Emptied(r, d) && Last(r).now >= d + x && 0 <= k < |Last(r).subs| ::
      Last(r).subs[k].entry == None
  }

  lemma ForgettingIsEightPeriods(c: Config, x: nat)
    requires Apart(c) && c.window == 3 * c.period
    ensures ForgottenAfter(c, x) <==> x >= 8 * c.period
  {
    if x >= 8 * c.period {
      forall r, d: nat, k | IsRun(c, r) && Emptied(r, d) && Last(r).now >= d + x && 0 <= k < |Last(r).subs|
        ensures Last(r).subs[k].entry == None
      {
        var a :| EmptiedAt(r, a, d);
        ForgottenAfterLastDrop(c, r, a, |r.es|, k);
      }
    } else {
      var r := LastRemembered(c);
    }
  }

  // ------------------------------------------------------------------ ties matter

  /** If a monitor may run before a publishing task due at the same instant, a stopped task can find the
      flag up again: two publishing tasks then go on for one declaration. */
  lemma TwoPublishingTasks(c: Config) returns (r: Run)
    requires Apart(c)
    ensures IsRun(c, r) && NoDrops(r) && |Last(r).nodes| == 2
    ensures Last(r).nodes[0].flag && |Last(r).nodes[0].tasks| == 2
  {
    var p := c.period;
    r := FirstStops(c);
    var a, b := Up(false, Wait(p), 0, multiset{p}), Up(true, Sleep(p), 0, multiset{p});
    r := Do(c, r, Head(0, false, 0), a, b, []);
    a := Up(true, Sleep(2 * p), 0, multiset{p, p});
    r := Do(c, r, Backoff(0), a, b, []);
    b := b.(counter := 1);
    r := Do(c, r, Publish(0), a.(tasks := multiset{p, 2 * p}), b, []);
    r := Do(c, r, Publish(0), a.(tasks := multiset{2 * p, 2 * p}), b.(counter := 2), []);
  }
}
