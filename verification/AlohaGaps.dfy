/** How long the network can stay silent, and what that means for a subscription's window. */
module AlohaGaps {
  import opened Wrappers
  import opened AlohaDeclaration
  import opened AlohaSubscription
  import opened AlohaNetwork

  /** If no beacon reaches it, this declaration puts one no later than `d`. */
  ghost predicate Owes(p: Period, n: Node, d: int) {
    && n.alive
    && if n.sending then
         exists w | w in n.tasks ::
           || w + 2 * p - 1 <= d
           || (w <= d && (n.counter == 0 || (n.monitor.Sleep? && w < n.monitor.until)))
       else
         match n.monitor
         case Sleep(u) => u + (if n.counter == 0 then p - 1 else 2 * p - 1) <= d
         case Wait(u) => u + (if n.counter == 0 then 0 else 3 * p - 1) <= d
         case Done => false
  }

  lemma OwesInTime(p: Period, now: nat, n: Node, d: int)
    requires Timely(p, now, n) && Owes(p, n, d)
    ensures now <= d
  {
  }

  /** As long as the network is silent, a declaration that stays alive keeps owing its beacon. */
  lemma OwesStep(c: Config, s: Sys, e: Event, j: nat, d: int)
    requires Enabled(c, s, e) && j < |s.nodes| && !Beacon(s, e) && e != Drop(j)
    requires Timely(c.period, s.now, s.nodes[j]) && Owes(c.period, s.nodes[j], d)
    ensures Owes(c.period, NodeNext(c, s, e, j), d)
  {
    var n, n' := s.nodes[j], NodeNext(c, s, e, j);
    if e == Backoff(j) && n.counter == 0 {
      assert s.now in n'.tasks;
    } else if n.sending {
      var w :| w in n.tasks && (w + 2 * c.period - 1 <= d ||
        (w <= d && (n.counter == 0 || (n.monitor.Sleep? && w < n.monitor.until))));
      assert w in n'.tasks;
    }
  }

  /** Whatever an alive declaration is doing, it owes a beacon within four periods. */
  lemma AliveOwes(p: Period, now: nat, n: Node)
    requires Timely(p, now, n) && n.alive
    ensures Owes(p, n, now + 4 * p - 2)
  {
  }

  lemma SenderOwes(c: Config, s: Sys, e: Event)
    requires Enabled(c, s, e) && Beacon(s, e) && s.nodes[e.i].alive && Timely(c.period, s.now, s.nodes[e.i])
    ensures Owes(c.period, NodeNext(c, s, e, e.i), s.now + 3 * c.period - 1)
  {
    assert s.now + c.period in NodeNext(c, s, e, e.i).tasks;
  }

  /** Some declaration is alive, and each of them owes a beacon by `d`. */
  ghost predicate Pledged(p: Period, s: Sys, d: int) {
    && Staffed(s)
    && forall j | 0 <= j < |s.nodes| && s.nodes[j].alive :: Owes(p, s.nodes[j], d)
  }

  lemma PledgedInTime(c: Config, s: Sys, d: int)
    requires Sound(c, s) && Pledged(c.period, s, d)
    ensures s.now <= d
  {
    var j :| 0 <= j < |s.nodes| && s.nodes[j].alive;
    OwesInTime(c.period, s.now, s.nodes[j], d);
  }

  lemma PledgedStep(c: Config, s: Sys, e: Event, d: int)
    requires Sound(c, s) && Enabled(c, s, e) && !Beacon(s, e)
    requires Pledged(c.period, s, d) && Staffed(Next(c, s, e))
    ensures Pledged(c.period, Next(c, s, e), d)
  {
    var s' := Next(c, s, e);
    PledgedInTime(c, s, d);
    forall j | 0 <= j < |s'.nodes| && s'.nodes[j].alive
      ensures Owes(c.period, s'.nodes[j], d)
    {
      if j < |s.nodes| {
        OwesStep(c, s, e, j, d);
      } else {
        assert s.now in Fresh(s.now).tasks;
      }
    }
  }

  lemma PledgedAtBeacon(c: Config, s: Sys, e: Event)
    requires Sound(c, s) && Enabled(c, s, e) && Beacon(s, e) && Staffed(Next(c, s, e))
    ensures Pledged(c.period, Next(c, s, e), s.now + 4 * c.period - 2)
  {
    var s' := Next(c, s, e);
    SoundStep(c, s, e);
    forall j | 0 <= j < |s'.nodes| && s'.nodes[j].alive
      ensures Owes(c.period, s'.nodes[j], s.now + 4 * c.period - 2)
    {
      AliveOwes(c.period, s.now, s'.nodes[j]);
    }
  }

  // ------------------------------------------------------------------ gaps between beacons

  /** A declaration that beacons and is not dropped is followed by another beacon, its own or somebody
      else's, strictly less than three periods later: in particular whenever nothing is ever dropped. */
  lemma {:induction false} GapAfterLivingSender(c: Config, r: Run, a: nat, b: nat)
    requires IsRun(c, r) && a < b < |r.ss| && Beacon(r.ss[a], r.es[a]) && r.ss[a].nodes[r.es[a].i].alive
    requires Quiet(r, a + 1, b) && forall k | a < k < b :: r.es[k] != Drop(r.es[a].i)
    ensures r.es[a].i < |r.ss[b].nodes|
    ensures Owes(c.period, r.ss[b].nodes[r.es[a].i], r.ss[a].now + 3 * c.period - 1)
    ensures r.ss[b].now < r.ss[a].now + 3 * c.period
  {
    var d := r.ss[a].now + 3 * c.period - 1;
    RunSound(c, r, a);
    RunSound(c, r, b);
    if b == a + 1 {
      SenderOwes(c, r.ss[a], r.es[a]);
    } else {
      GapAfterLivingSender(c, r, a, b - 1);
      RunSound(c, r, b - 1);
      OwesStep(c, r.ss[b - 1], r.es[b - 1], r.es[a].i, d);
    }
    OwesInTime(c.period, r.ss[b].now, r.ss[b].nodes[r.es[a].i], d);
  }

  /** With arbitrary joins and drops, as long as somebody is alive (not always the same one), a beacon
      is followed by another strictly less than four periods later. */
  lemma {:induction false} GapWhileStaffed(c: Config, r: Run, a: nat, b: nat)
    requires IsRun(c, r) && a < b < |r.ss| && Beacon(r.ss[a], r.es[a])
    requires Quiet(r, a + 1, b) && forall k | a < k <= b :: Staffed(r.ss[k])
    ensures Pledged(c.period, r.ss[b], r.ss[a].now + 4 * c.period - 2)
    ensures r.ss[b].now <= r.ss[a].now + 4 * c.period - 2
  {
    RunSound(c, r, a);
    RunSound(c, r, b);
    if b == a + 1 {
      PledgedAtBeacon(c, r.ss[a], r.es[a]);
    } else {
      GapWhileStaffed(c, r, a, b - 1);
      RunSound(c, r, b - 1);
      PledgedStep(c, r.ss[b - 1], r.es[b - 1], r.ss[a].now + 4 * c.period - 2);
    }
    PledgedInTime(c, r.ss[b], r.ss[a].now + 4 * c.period - 2);
  }

  /** The first declaration to join an unstaffed network is heard, or succeeded by one that is, at the
      very instant it joins. */
  lemma {:induction false} FirstBeaconAtOnce(c: Config, r: Run, a: nat, b: nat)
    requires IsRun(c, r) && a < b < |r.ss| && r.es[a] == Join && !Staffed(r.ss[a])
    requires Quiet(r, a, b) && forall k | a < k <= b :: Staffed(r.ss[k])
    ensures Pledged(c.period, r.ss[b], r.ss[a].now)
    ensures r.ss[b].now == r.ss[a].now
  {
    RunSound(c, r, b);
    if b == a + 1 {
      var s, s' := r.ss[a], r.ss[b];
      RunSound(c, r, a);
      assert s' == Next(c, s, Join) && s.now in Fresh(s.now).tasks;
      forall j | 0 <= j < |s'.nodes| && s'.nodes[j].alive ensures Owes(c.period, s'.nodes[j], s.now) {
        assert j == |s.nodes|;
      }
    } else {
      FirstBeaconAtOnce(c, r, a, b - 1);
      RunSound(c, r, b - 1);
      PledgedStep(c, r.ss[b - 1], r.es[b - 1], r.ss[a].now);
    }
    PledgedInTime(c, r.ss[b], r.ss[a].now);
    TimeGrows(c, r, a, b);
  }

  lemma {:induction false} TimeGrows(c: Config, r: Run, a: nat, b: nat)
    requires IsRun(c, r) && a <= b < |r.ss|
    ensures r.ss[a].now <= r.ss[b].now
  {
    if a < b {
      TimeGrows(c, r, a, b - 1);
      assert StepAt(c, r, b - 1);
    }
  }

  // ------------------------------------------------------------------ subscriptions

  /** The subscription is on a session without any declaration of the key, so it hears them all. */
  ghost predicate HearsAll(c: Config, u: Sub) {
    u.home == None || forall i: nat :: c.session(i) != u.home.value
  }

  /** No such subscription has ever reported the key lost. */
  ghost predicate NoLoss(c: Config, s: Sys) {
    forall k | 0 <= k < |s.subs| && HearsAll(c, s.subs[k]) :: Undeclared !in s.subs[k].log
  }

  /** No such subscription has heard the key yet. */
  ghost predicate Unheard(c: Config, s: Sys) {
    forall k | 0 <= k < |s.subs| && HearsAll(c, s.subs[k]) :: s.subs[k].entry == None
  }

  /** The last beacon was at `last`: a key marked inactive was so marked no earlier. */
  ghost predicate Fed(c: Config, s: Sys, last: nat) {
    && last <= s.now
    && forall k | 0 <= k < |s.subs| && HearsAll(c, s.subs[k]) :: FedSub(c, s.subs[k], last)
  }

  predicate FedSub(c: Config, u: Sub, last: nat) {
    u.phase.Sleeping? && Inactive(u.entry) ==> last + c.window <= u.phase.until
  }

  /** A silence that is always shorter than the window never costs a key. */
  lemma NoLossStep(c: Config, s: Sys, e: Event, last: nat)
    requires Enabled(c, s, e) && NoLoss(c, s)
    requires Unheard(c, s) || (Fed(c, s, last) && s.now < last + c.window)
    ensures NoLoss(c, Next(c, s, e))
    ensures Beacon(s, e) ==> Fed(c, Next(c, s, e), s.now)
    ensures !Beacon(s, e) && Unheard(c, s) ==> Unheard(c, Next(c, s, e))
    ensures !Beacon(s, e) && Fed(c, s, last) ==> Fed(c, Next(c, s, e), last)
  {
    var s' := Next(c, s, e);
    forall k | 0 <= k < |s'.subs| && HearsAll(c, s'.subs[k])
      ensures Undeclared !in s'.subs[k].log
    {
      if k < |s.subs| && e == Scan(k) {
        assert !Inactive(s.subs[k].entry);
      }
    }
  }

  /** The last beacon was at `last` and its sender, or an earlier one, owes the next. */
  ghost predicate Awaited(c: Config, s: Sys, last: nat, j: nat) {
    j < |s.nodes| && Owes(c.period, s.nodes[j], last + 3 * c.period - 1) && Fed(c, s, last)
  }

  ghost predicate CoveredBySender(c: Config, s: Sys) {
    && (forall j | 0 <= j < |s.nodes| :: s.nodes[j].alive)
    && NoLoss(c, s)
    && (Unheard(c, s) || exists last, j :: Awaited(c, s, last, j))
  }

  lemma AwaitedStep(c: Config, s: Sys, e: Event, last: nat, j: nat)
    requires c.window >= 3 * c.period && Sound(c, s) && Enabled(c, s, e) && !e.Drop? && NoLoss(c, s)
    requires Awaited(c, s, last, j)
    ensures NoLoss(c, Next(c, s, e))
    ensures !Beacon(s, e) ==> Awaited(c, Next(c, s, e), last, j)
  {
    OwesInTime(c.period, s.now, s.nodes[j], last + 3 * c.period - 1);
    NoLossStep(c, s, e, last);
    if !Beacon(s, e) {
      OwesStep(c, s, e, j, last + 3 * c.period - 1);
    }
  }

  lemma AwaitedAtBeacon(c: Config, s: Sys, e: Event)
    requires Sound(c, s) && Enabled(c, s, e) && Beacon(s, e) && s.nodes[e.i].alive
    ensures Awaited(c, Next(c, s, e), s.now, e.i)
  {
    SenderOwes(c, s, e);
  }

  lemma CoveredBySenderStep(c: Config, s: Sys, e: Event)
    requires c.window >= 3 * c.period && Sound(c, s) && Enabled(c, s, e) && !e.Drop? && CoveredBySender(c, s)
    ensures CoveredBySender(c, Next(c, s, e))
  {
    if Beacon(s, e) {
      AwaitedAtBeacon(c, s, e);
    }
    if Unheard(c, s) {
      NoLossStep(c, s, e, 0);
    } else {
      var last, j :| Awaited(c, s, last, j);
      AwaitedStep(c, s, e, last, j);
    }
    AllAliveStep(c, s, e);
  }

  lemma AllAliveStep(c: Config, s: Sys, e: Event)
    requires Enabled(c, s, e) && !e.Drop? && forall j | 0 <= j < |s.nodes| :: s.nodes[j].alive
    ensures forall j | 0 <= j < |Next(c, s, e).nodes| :: Next(c, s, e).nodes[j].alive
  {
    forall j | 0 <= j < |s.nodes| ensures NodeNext(c, s, e, j).alive { }
  }

  /** With the source's window, or any longer one, and no drops, no subscription on a session without
      a declaration ever reports the key lost. */
  lemma {:induction false} NeverLostWithoutDrops(c: Config, r: Run, b: nat)
    requires c.window >= 3 * c.period && IsRun(c, r) && NoDrops(r) && b < |r.ss|
    ensures CoveredBySender(c, r.ss[b])
  {
    if b > 0 {
      NeverLostWithoutDrops(c, r, b - 1);
      RunSound(c, r, b - 1);
      CoveredBySenderStep(c, r.ss[b - 1], r.es[b - 1]);
    }
  }

  ghost predicate CoveredByStaff(c: Config, s: Sys) {
    && NoLoss(c, s)
    && (Unheard(c, s) || exists last: nat :: Pledged(c.period, s, last + 4 * c.period - 2) && Fed(c, s, last))
  }

  lemma PledgedFedStep(c: Config, s: Sys, e: Event, last: nat)
    requires c.window >= 4 * c.period - 1 && Sound(c, s) && Enabled(c, s, e) && NoLoss(c, s)
    requires Pledged(c.period, s, last + 4 * c.period - 2) && Fed(c, s, last) && Staffed(Next(c, s, e))
    ensures NoLoss(c, Next(c, s, e))
    ensures !Beacon(s, e) ==> Pledged(c.period, Next(c, s, e), last + 4 * c.period - 2) && Fed(c, Next(c, s, e), last)
  {
    PledgedInTime(c, s, last + 4 * c.period - 2);
    NoLossStep(c, s, e, last);
    if !Beacon(s, e) {
      PledgedStep(c, s, e, last + 4 * c.period - 2);
    }
  }

  lemma PledgedFedAtBeacon(c: Config, s: Sys, e: Event)
    requires Sound(c, s) && Enabled(c, s, e) && Beacon(s, e) && Staffed(Next(c, s, e))
    ensures Pledged(c.period, Next(c, s, e), s.now + 4 * c.period - 2) && Fed(c, Next(c, s, e), s.now)
  {
    PledgedAtBeacon(c, s, e);
  }

  lemma CoveredByStaffStep(c: Config, s: Sys, e: Event)
    requires c.window >= 4 * c.period - 1 && Sound(c, s) && Enabled(c, s, e) && CoveredByStaff(c, s)
    requires Next(c, s, e).nodes != [] ==> Staffed(Next(c, s, e))
    ensures CoveredByStaff(c, Next(c, s, e))
  {
    if Beacon(s, e) {
      PledgedFedAtBeacon(c, s, e);
    }
    if Unheard(c, s) {
      NoLossStep(c, s, e, 0);
    } else {
      var last: nat :| Pledged(c.period, s, last + 4 * c.period - 2) && Fed(c, s, last);
      PledgedFedStep(c, s, e, last);
    }
  }

  /** Once somebody has joined, somebody is always alive. */
  ghost predicate AlwaysStaffed(r: Run) {
    forall k | 0 <= k < |r.ss| && r.ss[k].nodes != [] :: Staffed(r.ss[k])
  }

  /** With drops, a window of four periods less a nanosecond is enough. */
  lemma {:induction false} NeverLostWhileStaffed(c: Config, r: Run, b: nat)
    requires c.window >= 4 * c.period - 1 && IsRun(c, r) && AlwaysStaffed(r) && b < |r.ss|
    ensures CoveredByStaff(c, r.ss[b])
  {
    if b > 0 {
      NeverLostWhileStaffed(c, r, b - 1);
      RunSound(c, r, b - 1);
      CoveredByStaffStep(c, r.ss[b - 1], r.es[b - 1]);
    }
  }

  // ------------------------------------------------------------------ after the last drop

  /** A declaration dropped by time `d`: a back-off under way may still restart it, but not for long. */
  ghost predicate Fading(p: Period, n: Node, d: nat) {
    && !n.alive
    && match n.monitor
       case Sleep(u) => u <= d + 2 * p - 1
       case Wait(u) => u <= d + p - 1
       case Done => true
  }

  /** What is left of the key in a subscription's table, when the last beacon was no later than `t`. */
  ghost predicate Forgetting(c: Config, now: nat, u: Sub, t: nat) {
    u.entry.Some? ==>
      match u.phase
      case Resetting => now <= t + c.window
      case Sleeping(u') => u' <= t + if u.entry.value then c.window else 2 * c.window
      case Retaining => now <= t + if u.entry.value then c.window else 2 * c.window
  }

  ghost predicate Abandoned(c: Config, s: Sys, d: nat) {
    && (forall j | 0 <= j < |s.nodes| :: Fading(c.period, s.nodes[j], d))
    && (forall k | 0 <= k < |s.subs| :: Forgetting(c, s.now, s.subs[k], d + 2 * c.period - 1))
  }

  lemma AbandonedStep(c: Config, s: Sys, e: Event, d: nat)
    requires Sound(c, s) && Enabled(c, s, e) && e != Join && Abandoned(c, s, d)
    ensures Abandoned(c, Next(c, s, e), d)
    ensures Beacon(s, e) ==> s.now < d + 2 * c.period
  {
    var s' := Next(c, s, e);
    if Beacon(s, e) {
      assert Timely(c.period, s.now, s.nodes[e.i]) && Fading(c.period, s.nodes[e.i], d);
    }
    forall j | 0 <= j < |s'.nodes| ensures Fading(c.period, s'.nodes[j], d) {
      assert s'.nodes[j] == NodeNext(c, s, e, j) && Fading(c.period, s.nodes[j], d);
    }
    forall k | 0 <= k < |s'.subs| ensures Forgetting(c, s'.now, s'.subs[k], d + 2 * c.period - 1) {
      if k < |s.subs| {
        assert SubTimely(c.window, s.now, s.subs[k]) && Forgetting(c, s.now, s.subs[k], d + 2 * c.period - 1);
        assert e.Tick? ==> !SubDue(s.now, s.subs[k]);
      }
    }
  }

  ghost predicate AllDropped(s: Sys) {
    forall j | 0 <= j < |s.nodes| :: !s.nodes[j].alive
  }

  lemma AbandonedBegins(c: Config, s: Sys)
    requires Sound(c, s) && AllDropped(s)
    ensures Abandoned(c, s, s.now)
  {
    forall j | 0 <= j < |s.nodes| ensures Fading(c.period, s.nodes[j], s.now) {
      assert Timely(c.period, s.now, s.nodes[j]);
    }
    forall k | 0 <= k < |s.subs| ensures Forgetting(c, s.now, s.subs[k], s.now + 2 * c.period - 1) {
      assert SubTimely(c.window, s.now, s.subs[k]);
    }
  }

  lemma {:induction false} AbandonedRun(c: Config, r: Run, a: nat, b: nat)
    requires IsRun(c, r) && a <= b < |r.ss| && AllDropped(r.ss[a]) && forall k | a <= k < b :: r.es[k] != Join
    ensures Abandoned(c, r.ss[b], r.ss[a].now)
  {
    if a < b {
      AbandonedRun(c, r, a, b - 1);
      RunSound(c, r, b - 1);
      AbandonedStep(c, r.ss[b - 1], r.es[b - 1], r.ss[a].now);
    } else {
      RunSound(c, r, a);
      AbandonedBegins(c, r.ss[a]);
    }
  }

  /** After the last declaration is dropped, at `d`, no beacon is put at or after `d + 2P`. */
  lemma SilentAfterLastDrop(c: Config, r: Run, a: nat, b: nat)
    requires IsRun(c, r) && a <= b < |r.es| && AllDropped(r.ss[a]) && forall k | a <= k < b :: r.es[k] != Join
    ensures Beacon(r.ss[b], r.es[b]) ==> r.ss[b].now < r.ss[a].now + 2 * c.period
  {
    AbandonedRun(c, r, a, b);
    RunSound(c, r, b);
    if Beacon(r.ss[b], r.es[b]) {
      AbandonedStep(c, r.ss[b], r.es[b], r.ss[a].now);
    }
  }

  /** By `d + 8P`, with the source's window, every table has dropped the key, and the last thing any
      subscription said about it, if anything, is that it is gone. */
  lemma ForgottenAfterLastDrop(c: Config, r: Run, a: nat, b: nat, k: nat)
    requires c.window == 3 * c.period && IsRun(c, r) && a <= b < |r.ss| && AllDropped(r.ss[a])
    requires forall k | a <= k < b :: r.es[k] != Join
    requires k < |r.ss[b].subs| && r.ss[b].now >= r.ss[a].now + 8 * c.period
    ensures r.ss[b].subs[k].entry == None
    ensures var log := r.ss[b].subs[k].log; log == [] || log[|log| - 1] == Undeclared
  {
    AbandonedRun(c, r, a, b);
    RunSound(c, r, b);
    assert SubTimely(c.window, r.ss[b].now, r.ss[b].subs[k]);
    assert Forgetting(c, r.ss[b].now, r.ss[b].subs[k], r.ss[a].now + 2 * c.period - 1);
  }
}
