/** What the protocol can be counted on to reach: the next beacon, and, with some coins and back-offs, a
    lone sender. */
module AlohaLiveness {
  import opened AlohaDeclaration
  import opened AlohaNetwork
  import opened AlohaGaps
  import opened AlohaTies
  import opened AlohaProgress

  /** One run goes on from another by the protocol's own steps. */
  ghost predicate GoesOn(r: Run, r': Run) {
    Extends(r, r') && forall k | |r.es| <= k < |r'.es| :: !Environment(r'.es[k])
  }

  /** A step that is due, publishing tasks first; declaration i keeps sending and all others stop. */
  lemma Choose(c: Config, s: Sys, i: nat) returns (e: Event)
    ensures Enabled(c, s, e) && !Environment(e) && PublisherFirst(s, e)
    ensures e.Head? ==> (e.coin <==> e.i != i)
  {
    if j: nat :| j < |s.nodes| && s.now in s.nodes[j].tasks {
      e := Publish(j);
    } else {
      e := SomethingEnabled(c, s);
      match e
      case Head(j, _, wait) => e := Head(j, j != i, wait);
      case _ =>
    }
  }

  lemma OneStepOn(c: Config, r: Run, e: Event) returns (r': Run)
    requires c.window >= 1 && IsRun(c, r) && Enabled(c, Last(r), e) && !Environment(e)
    ensures IsRun(c, r') && GoesOn(r, r') && r'.es == r.es + [e] && Last(r') == Next(c, Last(r), e)
    ensures Last(r).now <= Last(r').now <= Last(r).now + 1
    ensures Last(r').now == Last(r).now ==> Work(Last(r')) < Work(Last(r))
    ensures PublishersFirst(r) && PublisherFirst(Last(r), e) ==> PublishersFirst(r')
    ensures Sound(c, Last(r)) && Sound(c, Last(r'))
  {
    r' := Extend(c, r, e);
    RunSound(c, r, |r.es|);
    SoundStep(c, Last(r), e);
    if !e.Tick? {
      WorkDecreases(c, Last(r), e);
    }
    if PublishersFirst(r) && PublisherFirst(Last(r), e) {
      forall k | 0 <= k < |r'.es| ensures PublisherFirst(r'.ss[k], r'.es[k]) {
        assert k < |r.es| ==> r'.ss[k] == r.ss[k] && r'.es[k] == r.es[k];
        assert k == |r.es| ==> r'.ss[k] == Last(r);
      }
    }
  }

  // ------------------------------------------------------------------ the next beacon comes

  /** Where somebody owes a beacon, the protocol's own steps lead to one, and in time. */
  lemma {:induction false} BeaconComes(c: Config, r: Run, j: nat, d: int) returns (r': Run, e: Event)
    requires c.window >= 1 && IsRun(c, r) && j < |Last(r).nodes| && Owes(c.period, Last(r).nodes[j], d)
    ensures IsRun(c, r') && GoesOn(r, r') && Quiet(r', |r.es|, |r'.es|)
    ensures Enabled(c, Last(r'), e) && Beacon(Last(r'), e) && Last(r').now <= d
    decreases d - Last(r).now, Work(Last(r))
  {
    hide Owes, PublisherFirst;
    r' := r;
    RunSound(c, r, |r.es|);
    OwesInTime(c.period, Last(r).now, Last(r).nodes[j], d);
    e := Choose(c, Last(r), j);
    if !Beacon(Last(r), e) {
      var r1 := OneStepOn(c, r, e);
      OwesStep(c, Last(r), e, j, d);
      OwesInTime(c.period, Last(r1).now, Last(r1).nodes[j], d);
      r', e := BeaconComes(c, r1, j, d);
      assert r'.ss[|r.es|] == r1.ss[|r.es|] == Last(r) && r'.es[|r.es|] == r1.es[|r.es|];
    }
  }

  /** When a living declaration has just put a beacon, another comes strictly less than three periods later. */
  lemma SuccessorComes(c: Config, r: Run) returns (r': Run, e: Event)
    requires c.window >= 1 && IsRun(c, r) && r.es != []
    requires var a := |r.es| - 1; Beacon(r.ss[a], r.es[a]) && r.ss[a].nodes[r.es[a].i].alive
    ensures IsRun(c, r') && GoesOn(r, r') && Quiet(r', |r.es|, |r'.es|)
    ensures Enabled(c, Last(r'), e) && Beacon(Last(r'), e) && Last(r').now < Last(r).now + 3 * c.period
  {
    var a := |r.es| - 1;
    RunSound(c, r, a);
    SenderOwes(c, r.ss[a], r.es[a]);
    r', e := BeaconComes(c, r, r.es[a].i, Last(r).now + 3 * c.period - 1);
  }

  // ------------------------------------------------------------------ a beacon from a living declaration

  /** Declaration j is alive, and whoever was dropped was so by `d`. */
  ghost predicate Waiting(c: Config, s: Sys, d: nat, j: nat) {
    && j < |s.nodes| && s.nodes[j].alive && d <= s.now
    && (forall k | 0 <= k < |s.nodes| && !s.nodes[k].alive :: Fading(c.period, s.nodes[k], d))
    && (s.now <= d + 2 * c.period || Owes(c.period, s.nodes[j], d + 6 * c.period - 2))
  }

  ghost predicate LivingBeacon(s: Sys, e: Event) {
    Beacon(s, e) && s.nodes[e.i].alive
  }

  lemma DeadEndSoon(c: Config, s: Sys, e: Event, d: nat)
    requires Sound(c, s) && Beacon(s, e) && !s.nodes[e.i].alive && Fading(c.period, s.nodes[e.i], d)
    ensures s.now < d + 2 * c.period
  {
    assert Timely(c.period, s.now, s.nodes[e.i]);
  }

  lemma FadingNode(c: Config, s: Sys, e: Event, d: nat, k: nat)
    requires Enabled(c, s, e) && k < |s.nodes| && Fading(c.period, s.nodes[k], d)
    ensures Fading(c.period, NodeNext(c, s, e, k), d)
  {
  }

  lemma StillOwes(c: Config, s: Sys, e: Event, d: nat, j: nat)
    requires Sound(c, s) && Enabled(c, s, e) && !Environment(e) && !LivingBeacon(s, e) && Waiting(c, s, d, j)
    requires Next(c, s, e).now > d + 2 * c.period
    ensures Owes(c.period, NodeNext(c, s, e, j), d + 6 * c.period - 2)
  {
    hide Sound;
    if s.now <= d + 2 * c.period {
      AliveNodeOwes(c, s, j);
    }
    if Beacon(s, e) {
      DeadEndSoon(c, s, e, d);
    }
    SoundNode(c, s, j);
    OwesStep(c, s, e, j, d + 6 * c.period - 2);
  }

  lemma SoundNode(c: Config, s: Sys, j: nat)
    requires Sound(c, s) && j < |s.nodes|
    ensures Timely(c.period, s.now, s.nodes[j])
  {
  }

  lemma AliveNodeOwes(c: Config, s: Sys, j: nat)
    requires Sound(c, s) && j < |s.nodes| && s.nodes[j].alive
    ensures Owes(c.period, s.nodes[j], s.now + 4 * c.period - 2)
  {
    AliveOwes(c.period, s.now, s.nodes[j]);
  }

  lemma StaysAlive(c: Config, s: Sys, e: Event, k: nat)
    requires Enabled(c, s, e) && k < |s.nodes| && !Environment(e)
    ensures NodeNext(c, s, e, k).alive == s.nodes[k].alive
  {
  }

  lemma WaitingStep(c: Config, s: Sys, e: Event, d: nat, j: nat)
    requires Sound(c, s) && Enabled(c, s, e) && !Environment(e) && !LivingBeacon(s, e) && Waiting(c, s, d, j)
    ensures Waiting(c, Next(c, s, e), d, j) && Next(c, s, e).now < d + 6 * c.period
  {
    var s' := Next(c, s, e);
    SoundStep(c, s, e);
    hide Sound, Owes, LivingBeacon, Fading;
    NodeOf(c, s, e, j);
    assert s'.nodes[j].alive && s.now <= s'.now;
    hide Next;
    forall k | 0 <= k < |s'.nodes| && !s'.nodes[k].alive ensures Fading(c.period, s'.nodes[k], d) {
      NodeOf(c, s, e, k);
      assert !s.nodes[k].alive by {
        StaysAlive(c, s, e, k);
      }
      FadingNode(c, s, e, d, k);
    }
    if s'.now > d + 2 * c.period {
      StillOwes(c, s, e, d, j);
      SoundNode(c, s', j);
      OwesInTime(c.period, s'.now, s'.nodes[j], d + 6 * c.period - 2);
    }
  }

  lemma WaitingBegins(c: Config, s: Sys) returns (j: nat)
    requires Sound(c, s) && Staffed(s)
    ensures Waiting(c, s, s.now, j)
  {
    j :| j < |s.nodes| && s.nodes[j].alive;
    forall k | 0 <= k < |s.nodes| && !s.nodes[k].alive ensures Fading(c.period, s.nodes[k], s.now) {
      SoundNode(c, s, k);
    }
  }

  lemma {:induction false} LivingBeaconComes(c: Config, r: Run, d: nat, j: nat) returns (r': Run, i: nat)
    requires c.window >= 1 && IsRun(c, r) && PublishersFirst(r) && Waiting(c, Last(r), d, j)
    requires Last(r).now < d + 6 * c.period
    ensures IsRun(c, r') && GoesOn(r, r') && PublishersFirst(r') && Last(r').now < d + 6 * c.period
    ensures Enabled(c, Last(r'), Publish(i)) && LivingBeacon(Last(r'), Publish(i))
    decreases d + 6 * c.period - Last(r).now, Work(Last(r))
  {
    r' := r;
    var e := Choose(c, Last(r), j);
    if LivingBeacon(Last(r), e) {
      i := e.i;
    } else {
      r' := OneStepOn(c, r, e);
      WaitingStep(c, Last(r), e, d, j);
      r', i := LivingBeaconComes(c, r', d, j);
    }
  }

  // ------------------------------------------------------------------ and everybody else falls silent

  /** A sender that has been heard by now and will stop at its next look. */
  ghost predicate Doomed(n: Node, latest: nat) {
    n.sending && n.counter >= 1 && n.monitor.Sleep? && n.monitor.until <= latest
  }

  ghost predicate Leader(n: Node, due: nat) {
    n.alive && n.flag && n.sending && n.monitor.Sleep? && n.tasks == multiset{due}
  }

  ghost predicate AllSubdued(s: Sys, i: nat, due: nat) {
    forall j | 0 <= j < |s.nodes| && j != i :: Subdued(s.nodes[j], due)
  }

  /** Since declaration i put its beacon at `t`, each other has been heard to be silent or will soon be. */
  ghost predicate Settling(c: Config, s: Sys, i: nat, due: nat, t: nat) {
    && i < |s.nodes| && Leader(s.nodes[i], due)
    && (forall j | 0 <= j < |s.nodes| && j != i :: Subdued(s.nodes[j], due) || Doomed(s.nodes[j], t + c.period))
    && (s.nodes[i].monitor.until <= t + 2 * c.period || (s.nodes[i].counter == 0 && AllSubdued(s, i, due)))
  }

  lemma SettlingBegins(c: Config, s: Sys, i: nat)
    requires Distinct(c) && Sound(c, s) && Enabled(c, s, Publish(i)) && LivingBeacon(s, Publish(i)) && Solo(s.nodes[i])
    ensures Settling(c, Next(c, s, Publish(i)), i, s.now + c.period, s.now)
  {
    var e := Publish(i);
    var s' := Next(c, s, e);
    assert Timely(c.period, s.now, s.nodes[i]);
    NodeOf(c, s, e, i);
    assert s.nodes[i].tasks == multiset{s.now} by {
      var rest := s.nodes[i].tasks - multiset{s.now};
      assert |rest| == 0 && s.nodes[i].tasks == rest + multiset{s.now};
    }
    forall j | 0 <= j < |s'.nodes| && j != i
      ensures Subdued(s'.nodes[j], s.now + c.period) || Doomed(s'.nodes[j], s.now + c.period)
    {
      NodeOf(c, s, e, j);
      assert Timely(c.period, s.now, s.nodes[j]) && c.session(i) != c.session(j);
    }
  }

  lemma DoomedStep(c: Config, s: Sys, e: Event, i: nat, j: nat, due: nat, latest: nat)
    requires Enabled(c, s, e) && j < |s.nodes| && j != i && Doomed(s.nodes[j], latest) && s.now <= due <= s.now + c.period
    requires !Environment(e) && (e.Head? ==> (e.coin <==> e.i != i))
    ensures Doomed(NodeNext(c, s, e, j), latest) || Subdued(NodeNext(c, s, e, j), due)
  {
  }

  lemma LeaderStep(c: Config, s: Sys, e: Event, i: nat, due: nat)
    requires Sound(c, s) && Enabled(c, s, e) && !Environment(e) && (e.Head? ==> (e.coin <==> e.i != i))
    requires i < |s.nodes| && Leader(s.nodes[i], due)
    ensures s.now <= due <= s.now + c.period
    ensures var n' := NodeNext(c, s, e, i);
      && Leader(n', if e == Publish(i) then due + c.period else due)
      && (e.Head? && e.i == i ==> n'.counter == 0 && n'.monitor.until == s.now + c.period)
      && (!(e.Head? && e.i == i) ==> n'.monitor == s.nodes[i].monitor)
      && (!Beacon(s, e) || e.i == i ==> n'.counter == 0 || n'.counter == s.nodes[i].counter)
  {
    assert Timely(c.period, s.now, s.nodes[i]) && due in s.nodes[i].tasks;
  }

  lemma SettlingStep(c: Config, s: Sys, e: Event, i: nat, due: nat, t: nat)
    requires Distinct(c) && Sound(c, s) && Enabled(c, s, e) && !Environment(e) && PublisherFirst(s, e)
    requires e.Head? ==> (e.coin <==> e.i != i)
    requires Settling(c, s, i, due, t)
    ensures Settling(c, Next(c, s, e), i, if e == Publish(i) then due + c.period else due, t)
  {
    var s' := Next(c, s, e);
    var due' := if e == Publish(i) then due + c.period else due;
    LeaderStep(c, s, e, i, due);
    NodeOf(c, s, e, i);
    var gone := s.now > t + c.period || AllSubdued(s, i, due);
    forall j | 0 <= j < |s'.nodes| && j != i
      ensures Subdued(s'.nodes[j], due') || (Doomed(s'.nodes[j], t + c.period) && !gone)
    {
      NodeOf(c, s, e, j);
      assert Timely(c.period, s.now, s.nodes[j]) && c.session(j) != c.session(i);
      if Subdued(s.nodes[j], due) {
        SubduedStep(c, s, e, i, j, due);
      } else {
        DoomedStep(c, s, e, i, j, due, t + c.period);
        assert e == Publish(i) ==> s'.nodes[j].counter >= 1;
      }
    }
    if AllSubdued(s, i, due) {
      assert Beacon(s, e) ==> e.i == i;
    }
  }

  lemma Settled(c: Config, s: Sys, i: nat, due: nat, t: nat)
    requires Distinct(c) && Sound(c, s) && Settling(c, s, i, due, t) && s.now > t + 2 * c.period
    ensures LoneSender(c, s, i, due)
  {
    assert Timely(c.period, s.now, s.nodes[i]);
  }

  lemma {:induction false} Settle(c: Config, r: Run, i: nat, due: nat, t: nat) returns (r': Run, due': nat)
    requires Distinct(c) && c.window >= 1 && IsRun(c, r) && PublishersFirst(r) && Settling(c, Last(r), i, due, t)
    requires Last(r).now <= t + 2 * c.period + 1
    ensures IsRun(c, r') && GoesOn(r, r') && PublishersFirst(r')
    ensures LoneSender(c, Last(r'), i, due') && Last(r').now <= t + 2 * c.period + 1
    decreases t + 2 * c.period + 1 - Last(r).now, Work(Last(r))
  {
    hide Settling, Sound, LoneSender, Distinct, PublishersFirst, Next;
    r', due' := r, due;
    RunSound(c, r, |r.es|);
    if Last(r).now <= t + 2 * c.period {
      var e := Choose(c, Last(r), i);
      r' := OneStepOn(c, r, e);
      SettlingStep(c, Last(r), e, i, due, t);
      r', due' := Settle(c, r', i, if e == Publish(i) then due + c.period else due, t);
    } else {
      Settled(c, Last(r), i, due, t);
    }
  }

  /** From every reachable state with somebody alive, some coins and back-offs lead, by protocol steps alone
      and in less than eight periods, to a lone sender. */
  lemma LoneSenderCanCome(c: Config, r: Run) returns (r': Run, i: nat, due: nat)
    requires Distinct(c) && c.window >= 1 && IsRun(c, r) && PublishersFirst(r) && Staffed(Last(r))
    ensures IsRun(c, r') && GoesOn(r, r') && PublishersFirst(r')
    ensures LoneSender(c, Last(r'), i, due) && Last(r').now <= Last(r).now + 8 * c.period
  {
    hide Waiting, Settling, LoneSender, Sound, Solo;
    RunSound(c, r, |r.es|);
    var j := WaitingBegins(c, Last(r));
    r', i := LivingBeaconComes(c, r, Last(r).now, j);
    var t := Last(r').now;
    OnePublishingTask(c, r', |r'.es|);
    RunSound(c, r', |r'.es|);
    SettlingBegins(c, Last(r'), i);
    r' := OneStepOn(c, r', Publish(i));
    r', due := Settle(c, r', i, t + c.period, t);
  }
}
