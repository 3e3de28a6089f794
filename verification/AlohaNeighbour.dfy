/** Subscriptions beside a declaration: which sessions keep a key that is declared all along. */
module AlohaNeighbour {
  import opened Wrappers
  import opened AlohaDeclaration
  import opened AlohaSubscription
  import opened AlohaNetwork
  import opened AlohaGaps
  import opened AlohaTies
  import opened AlohaProgress
  import opened AlohaLiveness
  import opened AlohaWindow

  /** No subscription on session h ever loses the key while nothing is dropped. */
  ghost predicate SafeHome(c: Config, h: nat) {
    forall r, k: nat | IsRun(c, r) && NoDrops(r) && k < |Last(r).subs| && Last(r).subs[k].home == Some(h) ::
      Undeclared !in Last(r).subs[k].log
  }

  // ------------------------------------------------------------------ a run in which only neighbours send

  lemma {:induction false} JoinAll(c: Config, n: nat) returns (r: Run)
    ensures IsRun(c, r) && NoDrops(r) && Last(r).now == 0 && Last(r).subs == [] && |Last(r).nodes| == n
    ensures forall j | 0 <= j < n :: Last(r).nodes[j] == Fresh(0)
  {
    if n == 0 {
      r := Run([EMPTY], []);
    } else {
      var r0 := JoinAll(c, n - 1);
      r := Extend(c, r0, Join);
    }
  }

  /** Declaration d, on the subscription's session, leads; of the declarations on other sessions the first m
      have stopped, and the others have been heard and will stop. */
  ghost predicate Stopping(c: Config, s: Sys, h: nat, d: nat, m: nat) {
    && s.now == 0 && d < |s.nodes| && c.session(d) == h && Leader(s.nodes[d], c.period)
    && s.subs == [Deaf(Some(h), c.window)]
    && forall j | 0 <= j < |s.nodes| && c.session(j) != h ::
         if j < m then Subdued(s.nodes[j], c.period) else Doomed(s.nodes[j], 0)
  }

  /** At time 0 all have joined, the subscription has not yet reset, and d has put its beacon. */
  ghost predicate FirstPut(c: Config, s: Sys, h: nat, d: nat) {
    && s.now == 0 && d < |s.nodes| && c.session(d) == h
    && s.nodes[d] == Fresh(0).(tasks := multiset{c.period}) && s.subs == [Sub(Some(h), Resetting, None, [])]
    && forall j | 0 <= j < |s.nodes| && c.session(j) != h :: s.nodes[j] == Fresh(0).(counter := 1)
  }

  lemma FirstPuts(c: Config, s: Sys, h: nat, d: nat)
    requires s.now == 0 && s.subs == [Sub(Some(h), Resetting, None, [])] && d < |s.nodes| && c.session(d) == h
    requires forall j | 0 <= j < |s.nodes| :: s.nodes[j] == Fresh(0)
    ensures Enabled(c, s, Publish(d)) && FirstPut(c, Next(c, s, Publish(d)), h, d)
    ensures |Next(c, s, Publish(d)).nodes| == |s.nodes|
  {
    var s' := Next(c, s, Publish(d));
    assert s'.subs == s.subs by {
      assert SubNext(c, s, Publish(d), 0) == s.subs[0];
    }
    hide Next;
    NodeOf(c, s, Publish(d), d);
    forall j | 0 <= j < |s'.nodes| && c.session(j) != h ensures s'.nodes[j] == Fresh(0).(counter := 1) {
      NodeOf(c, s, Publish(d), j);
    }
  }

  /** Then f, on another session, does, and the subscription resets. */
  lemma SecondPuts(c: Config, s: Sys, h: nat, d: nat, f: nat)
    requires FirstPut(c, s, h, d) && f < |s.nodes| && c.session(f) != h
    ensures Enabled(c, s, Publish(f)) && Enabled(c, Next(c, s, Publish(f)), Reset(0))
    ensures Stopping(c, Next(c, Next(c, s, Publish(f)), Reset(0)), h, d, 0)
  {
    var s1 := Next(c, s, Publish(f));
    assert s1.subs == [Sub(Some(h), Resetting, Some(true), [Declared])] by {
      assert SubNext(c, s, Publish(f), 0) == Sub(Some(h), Resetting, Some(true), [Declared]);
    }
    var s2 := Next(c, s1, Reset(0));
    assert s2.subs == [Deaf(Some(h), c.window)] by {
      assert SubNext(c, s1, Reset(0), 0) == Deaf(Some(h), c.window);
    }
    assert s1.now == 0 && s2.now == 0;
    hide Next;
    forall j | 0 <= j < |s.nodes|
      ensures |s2.nodes| == |s.nodes| && s2.nodes[j] == NodeNext(c, s, Publish(f), j)
    {
      NodeOf(c, s, Publish(f), j);
      NodeOf(c, s1, Reset(0), j);
    }
  }

  lemma On(c: Config, r: Run, e: Event) returns (r': Run)
    requires IsRun(c, r) && NoDrops(r) && Enabled(c, Last(r), e) && !e.Drop?
    ensures IsRun(c, r') && NoDrops(r') && Last(r') == Next(c, Last(r), e)
  {
    r' := Extend(c, r, e);
  }

  lemma BothHeard(c: Config, h: nat, d: nat, f: nat) returns (r: Run)
    requires c.session(d) == h && c.session(f) != h
    ensures IsRun(c, r) && NoDrops(r) && Stopping(c, Last(r), h, d, 0)
  {
    r := JoinAll(c, if d < f then f + 1 else d + 1);
    var s := Last(r);
    r := On(c, r, Subscribe(Some(h)));
    assert Last(r).nodes == s.nodes && Last(r).subs == [Sub(Some(h), Resetting, None, [])];
    FirstPuts(c, Last(r), h, d);
    hide Next, Stopping, FirstPut, NoDrops, Enabled;
    r := On(c, r, Publish(d));
    SecondPuts(c, Last(r), h, d, f);
    r := On(c, r, Publish(f));
    r := On(c, r, Reset(0));
  }

  lemma {:induction false} AllStop(c: Config, r: Run, h: nat, d: nat, m: nat) returns (r': Run)
    requires c.window >= 1 && IsRun(c, r) && NoDrops(r) && Stopping(c, Last(r), h, d, m) && m <= |Last(r).nodes|
    ensures IsRun(c, r') && NoDrops(r') && |Last(r').nodes| == |Last(r).nodes|
    ensures Stopping(c, Last(r'), h, d, |Last(r').nodes|)
    decreases |Last(r).nodes| - m
  {
    r' := r;
    var s := Last(r);
    if m < |s.nodes| {
      if c.session(m) != h {
        RunSound(c, r, |r.es|);
        assert Timely(c.period, s.now, s.nodes[m]);
        r' := Extend(c, r, Head(m, true, 0));
        StoppingStep(c, s, h, d, m);
      }
      r' := AllStop(c, r', h, d, m + 1);
    }
  }

  lemma StoppingStep(c: Config, s: Sys, h: nat, d: nat, m: nat)
    requires Stopping(c, s, h, d, m) && m < |s.nodes| && c.session(m) != h && Timely(c.period, s.now, s.nodes[m])
    ensures Enabled(c, s, Head(m, true, 0)) && Stopping(c, Next(c, s, Head(m, true, 0)), h, d, m + 1)
    ensures |Next(c, s, Head(m, true, 0)).nodes| == |s.nodes|
  {
    var e := Head(m, true, 0);
    var s' := Next(c, s, e);
    assert s'.subs == s.subs;
    forall j | 0 <= j < |s.nodes|
      ensures s'.nodes[j] == if j == m then LoopHead(s.nodes[m], 0, c.period, true, 0) else s.nodes[j]
    {
      NodeOf(c, s, e, j);
    }
  }

  /** Nobody but neighbours sends, and the subscription sleeps, the key marked inactive. */
  ghost predicate OnlyNeighbours(c: Config, s: Sys, h: nat, d: nat, due: nat) {
    && d < |s.nodes| && c.session(d) == h && Leader(s.nodes[d], due)
    && s.subs == [Deaf(Some(h), c.window)]
    && forall j | 0 <= j < |s.nodes| && c.session(j) != h :: Subdued(s.nodes[j], due)
  }

  lemma OnlyNeighboursStep(c: Config, s: Sys, e: Event, h: nat, d: nat, due: nat)
    requires Sound(c, s) && Enabled(c, s, e) && !Environment(e) && PublisherFirst(s, e) && e != Scan(0)
    requires e.Head? ==> (e.coin <==> e.i != d)
    requires OnlyNeighbours(c, s, h, d, due)
    ensures OnlyNeighbours(c, Next(c, s, e), h, d, if e == Publish(d) then due + c.period else due)
  {
    var s' := Next(c, s, e);
    LeaderStep(c, s, e, d, due);
    NodeOf(c, s, e, d);
    assert Beacon(s, e) ==> c.session(e.i) == h;
    assert s'.subs == s.subs by {
      assert SubNext(c, s, e, 0) == s.subs[0];
    }
    hide Next;
    forall j | 0 <= j < |s'.nodes| && c.session(j) != h
      ensures Subdued(s'.nodes[j], if e == Publish(d) then due + c.period else due)
    {
      NodeOf(c, s, e, j);
      assert Timely(c.period, s.now, s.nodes[j]);
      SubduedStep(c, s, e, d, j, due);
    }
  }

  lemma {:induction false} TillTheScan(c: Config, r: Run, h: nat, d: nat, due: nat) returns (r': Run)
    requires c.window >= 1 && IsRun(c, r) && NoDrops(r) && OnlyNeighbours(c, Last(r), h, d, due)
    ensures IsRun(c, r') && NoDrops(r') && |Last(r').subs| == 1
    ensures Last(r').subs[0].home == Some(h) && Undeclared in Last(r').subs[0].log
    decreases c.window - Last(r).now, Work(Last(r))
  {
    var s := Last(r);
    var e := Choose(c, s, d);
    r' := OneStepOn(c, r, e);
    assert SubTimely(c.window, s.now, s.subs[0]);
    if e == Scan(0) {
      assert Last(r').subs[0] == SubNext(c, s, e, 0);
      assert Last(r').subs[0].log[1] == Undeclared;
    } else {
      OnlyNeighboursStep(c, s, e, h, d, due);
      assert SubTimely(c.window, Last(r').now, Last(r').subs[0]);
      r' := TillTheScan(c, r', h, d, if e == Publish(d) then due + c.period else due);
    }
  }

  lemma NeighbourLoses(c: Config, h: nat, d: nat) returns (r: Run)
    requires Apart(c) && c.window >= 1 && c.session(d) == h
    ensures IsRun(c, r) && NoDrops(r) && |Last(r).subs| == 1
    ensures Last(r).subs[0].home == Some(h) && Undeclared in Last(r).subs[0].log
  {
    r := BothHeard(c, h, d, if c.session(0) != h then 0 else 1);
    r := AllStop(c, r, h, d, 0);
    r := TillTheScan(c, r, h, d, c.period);
  }

  /** With the source's window, or any longer one, and no drops, the subscriptions on a session keep the key
      if and only if none of its declarations is made on that session. */
  lemma OnlyOnAnotherSession(c: Config, h: nat)
    requires Apart(c) && c.window >= 3 * c.period
    ensures SafeHome(c, h) <==> forall i: nat :: c.session(i) != h
  {
    if d: nat :| c.session(d) == h {
      var r := NeighbourLoses(c, h, d);
    } else {
      forall r, k: nat | IsRun(c, r) && NoDrops(r) && k < |Last(r).subs| && Last(r).subs[k].home == Some(h)
        ensures Undeclared !in Last(r).subs[k].log
      {
        NeverLostWithoutDrops(c, r, |r.es|);
        assert HearsAll(c, Last(r).subs[k]);
      }
    }
  }
}
