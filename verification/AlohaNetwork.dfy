/** N declarations of one key and any number of subscriptions to it, as a timed step system. Time
    advances only when no task is due; a put, its delivery and every callback take no time; the coin,
    the back-off and the order of the steps due at one instant are arbitrary. Beacons are put with
    destination Remote: they reach every declaration and every subscription on any other session. */
module AlohaNetwork {
  import opened Wrappers
  import opened AlohaDeclaration
  import opened AlohaSubscription

  /** The beacon period, the accumulation window (the source passes `beacon_period * 3`), and the session
      that each declaration is made on, in the order in which they join. */
  datatype Config = Config(period: Period, window: nat, session: nat -> nat)

  /** Each declaration is on a session of its own. */
  ghost predicate Distinct(c: Config) {
    forall i, j | 0 <= i < j :: c.session(i) != c.session(j)
  }

  /** The accumulating task: about to reset, asleep, or between its scan and its retain. */
  datatype Phase = Resetting | Sleeping(until: nat) | Retaining

  /** One subscription, as seen for the one key: `home` is its session, or nothing for one on which the key
      is never declared, and `log` its callbacks. */
  datatype Sub = Sub(home: Option<nat>, phase: Phase, entry: Option<bool>, log: seq<Callback>)

  datatype Sys = Sys(now: nat, nodes: seq<Node>, subs: seq<Sub>)

  datatype Event =
    | Tick
    | Publish(i: nat)
    | Head(i: nat, coin: bool, wait: nat)
    | Backoff(i: nat)
    | Join
    | Drop(i: nat)
    | Subscribe(home: Option<nat>)
    | Reset(k: nat)
    | Scan(k: nat)
    | Retain(k: nat)

  const EMPTY := Sys(0, [], [])

  predicate NodeDue(now: nat, n: Node) {
    now in n.tasks || n.monitor == Sleep(now) || n.monitor == Wait(now)
  }

  predicate SubDue(now: nat, u: Sub) {
    !u.phase.Sleeping? || u.phase.until == now
  }

  ghost predicate Idle(s: Sys) {
    && (forall j | 0 <= j < |s.nodes| :: !NodeDue(s.now, s.nodes[j]))
    && (forall k | 0 <= k < |s.subs| :: !SubDue(s.now, s.subs[k]))
  }

  ghost predicate Enabled(c: Config, s: Sys, e: Event) {
    match e
    case Tick => Idle(s)
    case Publish(i) => i < |s.nodes| && s.now in s.nodes[i].tasks
    case Head(i, _, wait) => i < |s.nodes| && s.nodes[i].monitor == Sleep(s.now) && wait < c.period
    case Backoff(i) => i < |s.nodes| && s.nodes[i].monitor == Wait(s.now)
    case Join => true
    case Drop(i) => i < |s.nodes|
    case Subscribe(_) => true
    case Reset(k) => k < |s.subs| && s.subs[k].phase == Resetting
    case Scan(k) => k < |s.subs| && s.subs[k].phase == Sleeping(s.now)
    case Retain(k) => k < |s.subs| && s.subs[k].phase == Retaining
  }

  /** The event puts a beacon on the network. */
  ghost predicate Beacon(s: Sys, e: Event) {
    e.Publish? && e.i < |s.nodes| && s.nodes[e.i].flag
  }

  /** What the event does to declaration j. */
  ghost function NodeNext(c: Config, s: Sys, e: Event, j: nat): Node
    requires Enabled(c, s, e) && j < |s.nodes|
  {
    var n := s.nodes[j];
    match e
    case Publish(i) =>
      if i == j then PublisherWake(n, s.now, c.period)
      else if Beacon(s, e) && c.session(i) != c.session(j) then RemoteBeacon(n) else n
    case Head(i, coin, wait) => if i == j then LoopHead(n, s.now, c.period, coin, wait) else n
    case Backoff(i) => if i == j then BackoffOver(n, s.now, c.period) else n
    case Drop(i) => if i == j then n.(alive := false) else n
    case _ => n
  }

  /** What the event does to subscription k. */
  ghost function SubNext(c: Config, s: Sys, e: Event, k: nat): Sub
    requires Enabled(c, s, e) && k < |s.subs|
  {
    var u := s.subs[k];
    match e
    case Publish(i) =>
      if Beacon(s, e) && u.home != Some(c.session(i))
      then u.(entry := Heard(u.entry), log := u.log + ListenerCalls(u.entry)) else u
    case Reset(m) =>
      if m == k then u.(entry := Cleared(u.entry), phase := Sleeping(s.now + c.window)) else u
    case Scan(m) => if m == k then u.(log := u.log + ScanCalls(u.entry), phase := Retaining) else u
    case Retain(m) => if m == k then u.(entry := Kept(u.entry), phase := Resetting) else u
    case _ => u
  }

  ghost function Next(c: Config, s: Sys, e: Event): Sys
    requires Enabled(c, s, e)
  {
    Sys(
      if e.Tick? then s.now + 1 else s.now,
      seq(|s.nodes|, j requires 0 <= j < |s.nodes| => NodeNext(c, s, e, j))
      + (if e.Join? then [Fresh(s.now)] else []),
      seq(|s.subs|, k requires 0 <= k < |s.subs| => SubNext(c, s, e, k))
      + (if e.Subscribe? then [Sub(e.home, Resetting, None, [])] else []))
  }

  /** A run: every state reached from the empty network, and the events between them. */
  datatype Run = Run(ss: seq<Sys>, es: seq<Event>)

  ghost predicate StepAt(c: Config, r: Run, k: nat)
    requires k < |r.es| && |r.ss| == |r.es| + 1
  {
    Enabled(c, r.ss[k], r.es[k]) && r.ss[k + 1] == Next(c, r.ss[k], r.es[k])
  }

  ghost predicate IsRun(c: Config, r: Run) {
    && |r.ss| == |r.es| + 1
    && r.ss[0] == EMPTY
    && forall k | 0 <= k < |r.es| :: StepAt(c, r, k)
  }

  ghost predicate Quiet(r: Run, a: nat, b: nat)
    requires |r.ss| == |r.es| + 1
  {
    forall k | a <= k < b && k < |r.es| :: !Beacon(r.ss[k], r.es[k])
  }

  ghost predicate NoDrops(r: Run) {
    forall k | 0 <= k < |r.es| :: !r.es[k].Drop?
  }

  /** At least one declaration is alive. It need not be the same one from state to state. */
  ghost predicate Staffed(s: Sys) {
    exists j :: 0 <= j < |s.nodes| && s.nodes[j].alive
  }

  // ------------------------------------------------------------------ what every step keeps

  /** Nothing is overdue, nothing is scheduled too far ahead, and the flags agree with the monitor. */
  ghost predicate Timely(p: Period, now: nat, n: Node) {
    && (forall w | w in n.tasks :: now <= w <= now + p)
    && (n.flag ==> exists w :: w in n.tasks)
    && match n.monitor
       case Sleep(u) => now <= u <= now + p && n.flag == n.sending
       case Wait(u) => now <= u < now + p && !n.sending && !n.flag
       case Done => !n.alive && !n.flag
  }

  ghost predicate SubTimely(win: nat, now: nat, u: Sub) {
    && (u.phase.Sleeping? ==> now <= u.phase.until <= now + win)
    && (u.entry == None ==> u.log == [] || u.log[|u.log| - 1] == Undeclared)
    && (u.phase == Retaining && Inactive(u.entry) ==> u.log != [] && u.log[|u.log| - 1] == Undeclared)
  }

  ghost predicate Sound(c: Config, s: Sys) {
    && (forall j | 0 <= j < |s.nodes| :: Timely(c.period, s.now, s.nodes[j]))
    && (forall k | 0 <= k < |s.subs| :: SubTimely(c.window, s.now, s.subs[k]))
  }

  lemma PublisherTimely(p: Period, now: nat, n: Node)
    requires Timely(p, now, n) && now in n.tasks
    ensures Timely(p, now, PublisherWake(n, now, p))
  {
    var n' := PublisherWake(n, now, p);
    if n.flag {
      assert now + p in n'.tasks;
    }
    forall w | w in n'.tasks ensures now <= w <= now + p {
      assert w in n.tasks || w == now + p;
    }
  }

  lemma BackoffTimely(p: Period, now: nat, n: Node)
    requires Timely(p, now, n) && n.monitor == Wait(now)
    ensures Timely(p, now, BackoffOver(n, now, p))
  {
    assert now in multiset{now};
    var n' := BackoffOver(n, now, p);
    forall w | w in n'.tasks ensures now <= w <= now + p {
      assert w in n.tasks || w == now;
    }
    if n'.flag {
      assert now in n'.tasks;
    }
  }

  lemma TimelyStep(c: Config, s: Sys, e: Event, j: nat)
    requires Enabled(c, s, e) && j < |s.nodes| && Timely(c.period, s.now, s.nodes[j])
    ensures Timely(c.period, Next(c, s, e).now, NodeNext(c, s, e, j))
  {
    match e
    case Tick => assert !NodeDue(s.now, s.nodes[j]);
    case Publish(i) => if i == j { PublisherTimely(c.period, s.now, s.nodes[j]); }
    case Backoff(i) => if i == j { BackoffTimely(c.period, s.now, s.nodes[j]); }
    case _ =>
  }

  lemma SoundStep(c: Config, s: Sys, e: Event)
    requires Sound(c, s) && Enabled(c, s, e)
    ensures Sound(c, Next(c, s, e))
  {
    var s' := Next(c, s, e);
    forall j | 0 <= j < |s'.nodes|
      ensures Timely(c.period, s'.now, s'.nodes[j])
    {
      if j < |s.nodes| {
        TimelyStep(c, s, e, j);
      } else {
        assert s.now in Fresh(s.now).tasks;
      }
    }
    forall k | 0 <= k < |s'.subs|
      ensures SubTimely(c.window, s'.now, s'.subs[k])
    {
      if k < |s.subs| {
        assert SubTimely(c.window, s.now, s.subs[k]) && s.subs[k].log + [] == s.subs[k].log;
        if e.Tick? {
          assert !SubDue(s.now, s.subs[k]);
        }
      }
    }
  }

  lemma {:induction false} RunSound(c: Config, r: Run, k: nat)
    requires IsRun(c, r) && k < |r.ss|
    ensures Sound(c, r.ss[k])
    ensures k < |r.es| ==> StepAt(c, r, k)
  {
    if k > 0 {
      RunSound(c, r, k - 1);
      SoundStep(c, r.ss[k - 1], r.es[k - 1]);
    }
  }

  ghost function Last(r: Run): Sys
    requires |r.ss| == |r.es| + 1
  {
    r.ss[|r.es|]
  }

  /** One run goes on from another. */
  ghost predicate Extends(r: Run, r': Run) {
    r.ss <= r'.ss && r.es <= r'.es
  }

  lemma Extend(c: Config, r: Run, e: Event) returns (r': Run)
    requires IsRun(c, r) && Enabled(c, Last(r), e)
    ensures IsRun(c, r') && Extends(r, r') && r'.es == r.es + [e] && Last(r') == Next(c, Last(r), e)
  {
    r' := Run(r.ss + [Next(c, Last(r), e)], r.es + [e]);
    forall k | 0 <= k < |r'.es| ensures StepAt(c, r', k) {
      assert k < |r.es| ==> StepAt(c, r, k);
    }
  }
}
