/** Time never stops: at each instant only boundedly many steps are due, so the deadlines proved about
    the network are met and not merely never passed. */
module AlohaProgress {
  import opened AlohaDeclaration
  import opened AlohaNetwork

  /** Joins, drops and new subscriptions are the environment's; everything else is the protocol's. */
  predicate Environment(e: Event) {
    e.Join? || e.Drop? || e.Subscribe?
  }

  /** How many steps a declaration can still take at this instant. */
  function NodeWork(now: nat, n: Node): nat {
    n.tasks[now] + (if n.monitor == Sleep(now) then 3 else if n.monitor == Wait(now) then 2 else 0)
  }

  function SubWork(now: nat, u: Sub): nat {
    if u.phase == Resetting then 1
    else if u.phase == Retaining then 2
    else if u.phase.until == now then 3
    else 0
  }

  ghost function NodesWork(s: Sys, m: nat): nat
    requires m <= |s.nodes|
  {
    if m == 0 then 0 else NodesWork(s, m - 1) + NodeWork(s.now, s.nodes[m - 1])
  }

  ghost function SubsWork(s: Sys, m: nat): nat
    requires m <= |s.subs|
  {
    if m == 0 then 0 else SubsWork(s, m - 1) + SubWork(s.now, s.subs[m - 1])
  }

  ghost function Work(s: Sys): nat {
    NodesWork(s, |s.nodes|) + SubsWork(s, |s.subs|)
  }

  /** Whether the event is a step of declaration j. */
  predicate StepOf(e: Event, j: nat) {
    (e.Publish? || e.Head? || e.Backoff?) && e.i == j
  }

  lemma PublisherWork(p: Period, now: nat, n: Node)
    requires now in n.tasks
    ensures NodeWork(now, PublisherWake(n, now, p)) < NodeWork(now, n)
  {
  }

  lemma MonitorWork(p: Period, now: nat, n: Node, coin: bool, wait: nat)
    ensures n.monitor == Sleep(now) ==> NodeWork(now, LoopHead(n, now, p, coin, wait)) < NodeWork(now, n)
    ensures n.monitor == Wait(now) ==> NodeWork(now, BackoffOver(n, now, p)) < NodeWork(now, n)
  {
    assert (n.tasks + multiset{now})[now] == n.tasks[now] + 1;
  }

  lemma NodeWorkStep(c: Config, s: Sys, e: Event, j: nat)
    requires Enabled(c, s, e) && !Environment(e) && !e.Tick? && j < |s.nodes|
    ensures NodeWork(s.now, NodeNext(c, s, e, j)) + (if StepOf(e, j) then 1 else 0) <= NodeWork(s.now, s.nodes[j])
  {
    var n := s.nodes[j];
    match e
    case Publish(i) => if i == j { PublisherWork(c.period, s.now, n); }
    case Head(i, coin, wait) => if i == j { MonitorWork(c.period, s.now, n, coin, wait); }
    case Backoff(i) => if i == j { MonitorWork(c.period, s.now, n, false, 0); }
    case _ =>
  }

  lemma {:induction false} NodesWorkStep(c: Config, s: Sys, e: Event, m: nat)
    requires Sound(c, s) && Enabled(c, s, e) && !Environment(e) && !e.Tick? && m <= |s.nodes|
    ensures NodesWork(Next(c, s, e), m) +
      (if (e.Publish? || e.Head? || e.Backoff?) && e.i < m then 1 else 0) <= NodesWork(s, m)
  {
    if m > 0 {
      NodesWorkStep(c, s, e, m - 1);
      NodeWorkStep(c, s, e, m - 1);
    }
  }

  lemma {:induction false} SubsWorkStep(c: Config, s: Sys, e: Event, m: nat)
    requires c.window >= 1 && Enabled(c, s, e) && !Environment(e) && !e.Tick? && m <= |s.subs|
    ensures SubsWork(Next(c, s, e), m) +
      (if (e.Reset? || e.Scan? || e.Retain?) && e.k < m then 1 else 0) <= SubsWork(s, m)
  {
    if m > 0 {
      SubsWorkStep(c, s, e, m - 1);
    }
  }

  /** Every protocol step at an instant uses up some of the work due at it. */
  lemma WorkDecreases(c: Config, s: Sys, e: Event)
    requires c.window >= 1 && Sound(c, s) && Enabled(c, s, e) && !Environment(e) && !e.Tick?
    ensures Work(Next(c, s, e)) < Work(s)
  {
    NodesWorkStep(c, s, e, |s.nodes|);
    SubsWorkStep(c, s, e, |s.subs|);
  }

  /** Either time can advance or some protocol step is due. */
  lemma SomethingEnabled(c: Config, s: Sys) returns (e: Event)
    ensures Enabled(c, s, e) && !Environment(e)
  {
    if Idle(s) {
      e := Tick;
    } else if j: nat :| j < |s.nodes| && NodeDue(s.now, s.nodes[j]) {
      e := if s.now in s.nodes[j].tasks then Publish(j)
           else if s.nodes[j].monitor == Sleep(s.now) then Head(j, false, 0) else Backoff(j);
    } else {
      var k: nat :| k < |s.subs| && SubDue(s.now, s.subs[k]);
      match s.subs[k].phase
      case Resetting => e := Reset(k);
      case Sleeping(_) => e := Scan(k);
      case Retaining => e := Retain(k);
    }
  }

  /** From every reachable state, by protocol steps alone, time goes on. */
  lemma {:induction false} TimeGoesOn(c: Config, r: Run) returns (r': Run)
    requires c.window >= 1 && IsRun(c, r)
    ensures IsRun(c, r') && Extends(r, r') && Last(r').now == Last(r).now + 1
    ensures forall k | |r.es| <= k < |r'.es| :: !Environment(r'.es[k])
    decreases Work(Last(r))
  {
    var e := SomethingEnabled(c, Last(r));
    r' := Extend(c, r, e);
    if !e.Tick? {
      RunSound(c, r, |r.es|);
      WorkDecreases(c, Last(r), e);
      r' := TimeGoesOn(c, r');
    }
  }
}
