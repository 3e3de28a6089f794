/** What holds when, at equal deadlines, publishing tasks run before monitors: one publishing task per
    declaration, and a lone sender that keeps the network to itself at one beacon a period. */
module AlohaTies {
  import opened AlohaDeclaration
  import opened AlohaNetwork

  ghost predicate PublisherFirst(s: Sys, e: Event) {
    e.Head? || e.Backoff? ==> forall j | 0 <= j < |s.nodes| :: s.now !in s.nodes[j].tasks
  }

  ghost predicate PublishersFirst(r: Run)
    requires |r.ss| == |r.es| + 1
  {
    forall k | 0 <= k < |r.es| :: PublisherFirst(r.ss[k], r.es[k])
  }

  // ------------------------------------------------------------------ one publishing task

  /** The back-off of declaration j ends with a restart while one of its publishing tasks is still there. */
  ghost predicate Overlaps(r: Run, k: nat, j: nat)
    requires |r.ss| == |r.es| + 1
  {
    && k < |r.es| && r.es[k] == Backoff(j) && j < |r.ss[k].nodes|
    && r.ss[k].nodes[j].counter == 0 && |r.ss[k].nodes[j].tasks| > 0
  }

  ghost predicate AtMostOneTask(s: Sys, j: nat) {
    j < |s.nodes| ==> |s.nodes[j].tasks| <= 1
  }

  lemma TasksStep(c: Config, s: Sys, e: Event, j: nat)
    requires Enabled(c, s, e) && j < |s.nodes|
    ensures var n, n' := s.nodes[j], NodeNext(c, s, e, j);
      if e == Backoff(j) && n.counter == 0 then |n'.tasks| == |n.tasks| + 1 else |n'.tasks| <= |n.tasks|
  {
    if e == Publish(j) {
      assert |s.nodes[j].tasks - multiset{s.now}| == |s.nodes[j].tasks| - 1;
    }
  }

  /** Exactly when does a declaration, all of whose restarts share one flag, have one publishing task? As
      long as no restart overlaps with a task that was stopped before. */
  lemma {:induction false} OneTaskIff(c: Config, r: Run, b: nat, j: nat)
    requires IsRun(c, r) && b < |r.ss|
    ensures (forall k | 0 <= k <= b :: AtMostOneTask(r.ss[k], j)) <==> (forall k | 0 <= k < b :: !Overlaps(r, k, j))
  {
    if b > 0 {
      OneTaskIff(c, r, b - 1, j);
      assert StepAt(c, r, b - 1);
      var s, s' := r.ss[b - 1], r.ss[b];
      if j < |s.nodes| {
        TasksStep(c, s, r.es[b - 1], j);
        assert s'.nodes[j] == NodeNext(c, s, r.es[b - 1], j);
        assert AtMostOneTask(s, j) ==> (AtMostOneTask(s', j) <==> !Overlaps(r, b - 1, j));
      } else {
        assert AtMostOneTask(s', j) && !Overlaps(r, b - 1, j);
      }
    }
  }

  /** A stopped task is due no later than the monitor's next look. */
  ghost predicate Leftover(n: Node) {
    n.monitor.Sleep? && !n.sending ==> forall w | w in n.tasks :: w <= n.monitor.until
  }

  lemma LeftoverStep(c: Config, s: Sys, e: Event, j: nat)
    requires Enabled(c, s, e) && j < |s.nodes| && Timely(c.period, s.now, s.nodes[j]) && Leftover(s.nodes[j])
    ensures Leftover(NodeNext(c, s, e, j))
  {
  }

  lemma {:induction false} LeftoverAlways(c: Config, r: Run, b: nat, j: nat)
    requires IsRun(c, r) && b < |r.ss| && j < |r.ss[b].nodes|
    ensures Leftover(r.ss[b].nodes[j])
  {
    if b > 0 {
      RunSound(c, r, b - 1);
      var s := r.ss[b - 1];
      if j < |s.nodes| {
        LeftoverAlways(c, r, b - 1, j);
        LeftoverStep(c, s, r.es[b - 1], j);
        assert r.ss[b].nodes[j] == NodeNext(c, s, r.es[b - 1], j);
      }
    }
  }

  lemma WaitStep(c: Config, s: Sys, e: Event, j: nat)
    requires Enabled(c, s, e) && j < |s.nodes| && Timely(c.period, s.now, s.nodes[j]) && Leftover(s.nodes[j])
    requires NodeNext(c, s, e, j).monitor.Wait?
    ensures var n, n' := s.nodes[j], NodeNext(c, s, e, j);
      && n'.tasks <= n.tasks
      && if e.Head? && e.i == j
         then n'.monitor == Wait(s.now + e.wait) && (forall w | w in n'.tasks :: w <= s.now)
         else n'.monitor == n.monitor
  {
    match e
    case Publish(i) => if i == j { assert s.nodes[j].tasks - multiset{s.now} <= s.nodes[j].tasks; }
    case _ =>
  }

  /** The look that began a back-off, and what it left: tasks that were due by then. */
  lemma {:induction false} WaitBegan(c: Config, r: Run, b: nat, j: nat) returns (a: nat)
    requires IsRun(c, r) && b < |r.ss| && j < |r.ss[b].nodes| && r.ss[b].nodes[j].monitor.Wait?
    ensures a < b && r.es[a].Head? && r.es[a].i == j && j < |r.ss[a].nodes|
    ensures var n, n' := r.ss[a].nodes[j], r.ss[b].nodes[j];
      && n'.monitor == Wait(r.ss[a].now + r.es[a].wait) && n'.tasks <= n.tasks
      && forall w | w in n'.tasks :: w <= r.ss[a].now
  {
    a := b - 1;
    RunSound(c, r, a);
    var s, e := r.ss[a], r.es[a];
    assert j < |s.nodes| && r.ss[b].nodes[j] == NodeNext(c, s, e, j);
    hide IsRun, Next, NodeNext;
    LeftoverAlways(c, r, a, j);
    WaitStep(c, s, e, j);
    if !e.Head? || e.i != j {
      a := WaitBegan(c, r, b - 1, j);
    }
  }

  /** A restart can only overlap with a task that is due at that very instant, and only if the back-off
      drew nought. */
  lemma OverlapIsATie(c: Config, r: Run, k: nat, j: nat) returns (a: nat)
    requires IsRun(c, r) && Overlaps(r, k, j)
    ensures a < k && r.es[a].Head? && r.es[a].i == j && r.es[a].wait == 0 && r.ss[a].now == r.ss[k].now
    ensures j < |r.ss[a].nodes| && r.ss[k].nodes[j].tasks <= r.ss[a].nodes[j].tasks
    ensures forall w | w in r.ss[k].nodes[j].tasks :: w == r.ss[k].now
  {
    RunSound(c, r, k);
    a := WaitBegan(c, r, k, j);
    var w :| w in r.ss[k].nodes[j].tasks;
    assert Timely(c.period, r.ss[k].now, r.ss[k].nodes[j]);
  }

  /** One task while the flag is up; after a stop the old task is gone before the monitor looks again. */
  ghost predicate Solo(n: Node) {
    && |n.tasks| <= 1
    && (n.flag ==> |n.tasks| == 1)
    && (n.monitor.Wait? ==> |n.tasks| == 0)
    && (n.monitor.Sleep? && !n.sending ==> forall w | w in n.tasks :: w <= n.monitor.until)
  }

  /** So publishing tasks that run first at equal deadlines never overlap. */
  lemma OnePublishingTask(c: Config, r: Run, b: nat)
    requires IsRun(c, r) && PublishersFirst(r) && b < |r.ss|
    ensures forall j | 0 <= j < |r.ss[b].nodes| :: Solo(r.ss[b].nodes[j])
  {
    forall j | 0 <= j < |r.ss[b].nodes| ensures Solo(r.ss[b].nodes[j]) {
      forall k | 0 <= k < b ensures !Overlaps(r, k, j) {
        if Overlaps(r, k, j) {
          var a := OverlapIsATie(c, r, k, j);
        }
      }
      OneTaskIff(c, r, b, j);
      assert AtMostOneTask(r.ss[b], j);
      RunSound(c, r, b);
      LeftoverAlways(c, r, b, j);
      var n := r.ss[b].nodes[j];
      assert Timely(c.period, r.ss[b].now, n);
      if n.monitor.Wait? && |n.tasks| > 0 {
        NoneLeftWaiting(c, r, b, j);
      }
    }
  }

  lemma NoneLeftWaiting(c: Config, r: Run, b: nat, j: nat)
    requires IsRun(c, r) && PublishersFirst(r) && b < |r.ss| && j < |r.ss[b].nodes| && r.ss[b].nodes[j].monitor.Wait?
    ensures r.ss[b].nodes[j].tasks == multiset{}
  {
    var a := WaitBegan(c, r, b, j);
    RunSound(c, r, a);
    var n, n' := r.ss[a].nodes[j], r.ss[b].nodes[j];
    assert PublisherFirst(r.ss[a], r.es[a]) && Timely(c.period, r.ss[a].now, n);
    forall w | w in n'.tasks ensures false {
    }
  }

  // ------------------------------------------------------------------ a lone sender

  /** Declaration i is the only sender and next puts at `due`; everybody else has heard it, or will not
      look before it has been heard again. */
  ghost predicate LoneSender(c: Config, s: Sys, i: nat, due: nat) {
    && i < |s.nodes|
    && s.nodes[i].alive && s.nodes[i].flag && s.nodes[i].sending && s.nodes[i].monitor.Sleep?
    && s.nodes[i].counter == 0 && s.nodes[i].tasks == multiset{due}
    && forall j | 0 <= j < |s.nodes| && j != i :: Subdued(s.nodes[j], due) && c.session(j) != c.session(i)
  }

  ghost predicate Subdued(n: Node, due: nat) {
    && !n.flag
    && (n.monitor.Done? || (!n.sending && (n.counter >= 1 || n.monitor.until >= due)))
  }

  lemma SubduedStep(c: Config, s: Sys, e: Event, i: nat, j: nat, due: nat)
    requires Enabled(c, s, e) && i < |s.nodes| && j < |s.nodes| && i != j && c.session(j) != c.session(i)
    requires Timely(c.period, s.now, s.nodes[j]) && Subdued(s.nodes[j], due)
    requires PublisherFirst(s, e) && s.nodes[i].tasks == multiset{due} && s.now <= due <= s.now + c.period
    ensures Subdued(NodeNext(c, s, e, j), if Beacon(s, e) && e.i == i then due + c.period else due)
  {
    assert due in s.nodes[i].tasks;
  }

  lemma OthersStaySubdued(c: Config, s: Sys, e: Event, i: nat, due: nat)
    requires Sound(c, s) && Enabled(c, s, e) && PublisherFirst(s, e) && LoneSender(c, s, i, due) && e != Join
    ensures Beacon(s, e) ==> e.i == i && s.now == due
    ensures forall j | 0 <= j < |Next(c, s, e).nodes| && j != i ::
              Subdued(Next(c, s, e).nodes[j], if Beacon(s, e) then due + c.period else due) && c.session(j) != c.session(i)
  {
    var s' := Next(c, s, e);
    assert due in s.nodes[i].tasks && Timely(c.period, s.now, s.nodes[i]);
    assert Beacon(s, e) ==> e.i == i;
    hide Next;
    forall j | 0 <= j < |s'.nodes| && j != i
      ensures Subdued(s'.nodes[j], if Beacon(s, e) then due + c.period else due) && c.session(j) != c.session(i)
    {
      NodeOf(c, s, e, j);
      SubduedStep(c, s, e, i, j, due);
    }
  }

  lemma NodeOf(c: Config, s: Sys, e: Event, j: nat)
    requires Enabled(c, s, e) && !e.Join?
    ensures |Next(c, s, e).nodes| == |s.nodes|
    ensures j < |s.nodes| ==> Next(c, s, e).nodes[j] == NodeNext(c, s, e, j)
  {
  }

  lemma LoneSenderStep(c: Config, s: Sys, e: Event, i: nat, due: nat)
    requires Sound(c, s) && Enabled(c, s, e) && PublisherFirst(s, e) && LoneSender(c, s, i, due)
    requires e != Join && e != Drop(i)
    ensures Beacon(s, e) ==> e.i == i && s.now == due
    ensures LoneSender(c, Next(c, s, e), i, if Beacon(s, e) then due + c.period else due)
  {
    OthersStaySubdued(c, s, e, i, due);
    hide Next;
    NodeOf(c, s, e, i);
    assert due in s.nodes[i].tasks && Timely(c.period, s.now, s.nodes[i]);
    if Beacon(s, e) {
      assert NodeNext(c, s, e, i).tasks == multiset{due + c.period};
    }
  }

  ghost function Beacons(r: Run, a: nat, b: nat): nat
    requires a <= b <= |r.es| && |r.ss| == |r.es| + 1
  {
    if a == b then 0 else Beacons(r, a, b - 1) + if Beacon(r.ss[b - 1], r.es[b - 1]) then 1 else 0
  }

  /** When the lone sender's next beacon is due: one period later for each one put. */
  ghost function DueAfter(p: Period, r: Run, a: nat, b: nat, due: nat): nat
    requires a <= b <= |r.es| && |r.ss| == |r.es| + 1
  {
    if a == b then due else DueAfter(p, r, a, b - 1, due) + if Beacon(r.ss[b - 1], r.es[b - 1]) then p else 0
  }

  lemma {:induction false} DueIsRegular(p: Period, r: Run, a: nat, b: nat, due: nat)
    requires a <= b <= |r.es| && |r.ss| == |r.es| + 1
    ensures DueAfter(p, r, a, b, due) == due + Beacons(r, a, b) * p
  {
    if a < b {
      DueIsRegular(p, r, a, b - 1, due);
      var m := Beacons(r, a, b - 1);
      assert (m + 1) * p == m * p + p;
    }
  }

  /** A lone sender stays the only one for ever (no joins; anybody else may be dropped). */
  lemma {:induction false} LoneSenderForever(c: Config, r: Run, a: nat, b: nat, i: nat, due: nat)
    requires IsRun(c, r) && PublishersFirst(r) && a <= b < |r.ss| && LoneSender(c, r.ss[a], i, due)
    requires forall k | a <= k < b :: r.es[k] != Join && r.es[k] != Drop(i)
    ensures LoneSender(c, r.ss[b], i, DueAfter(c.period, r, a, b, due))
  {
    if a < b {
      hide LoneSender, Sound;
      LoneSenderForever(c, r, a, b - 1, i, due);
      RunSound(c, r, b - 1);
      LoneSenderStep(c, r.ss[b - 1], r.es[b - 1], i, DueAfter(c.period, r, a, b - 1, due));
    }
  }

  /** It alone puts beacons, one each period to the nanosecond. */
  lemma OneBeaconPerPeriod(c: Config, r: Run, a: nat, b: nat, i: nat, due: nat)
    requires IsRun(c, r) && PublishersFirst(r) && a <= b < |r.es| && LoneSender(c, r.ss[a], i, due)
    requires forall k | a <= k <= b :: r.es[k] != Join && r.es[k] != Drop(i)
    requires Beacon(r.ss[b], r.es[b])
    ensures r.es[b].i == i && r.ss[b].now == due + Beacons(r, a, b) * c.period
  {
    LoneSenderForever(c, r, a, b, i, due);
    RunSound(c, r, b);
    LoneSenderStep(c, r.ss[b], r.es[b], i, DueAfter(c.period, r, a, b, due));
    DueIsRegular(c.period, r, a, b, due);
  }
}
