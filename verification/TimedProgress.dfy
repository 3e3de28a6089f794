/** Time goes on for many bridges as well: at each instant only boundedly much is due on all the keys of all the
    bridges, so the world in which every storage ends up empty is one that every run can reach. */
module TimedProgress {
  import opened Wrappers
  import opened Topics
  import opened StorageHistory
  import opened TopicBridges
  import opened Discovery
  import R = ResourceCache
  import C = Ros1Client
  import M = TopicMapping
  import opened TimedBridges
  import P = AlohaProgress

  // ------------------------------------------------------------------ finitely many keys

  /** Only these keys have ever been declared, so only they can be in a table. */
  ghost predicate Covers(w: World, keys: set<string>) {
    forall key | key !in keys :: Untouched(w.nets(key))
  }

  ghost predicate Untouched(s: N.Sys) {
    s.nodes == [] && forall k | 0 <= k < |s.subs| :: s.subs[k].entry == None
  }

  function KeyOf(m: B.Member, t: BridgeType, k: TopicDescriptor): string {
    match DiscoveryKey("*", m.bridgeNs, t, k)
    case Some(key) => key
    case None => ""
  }

  function KeysOf(m: B.Member, t: BridgeType): set<string> {
    set k | k in InRos1(m.modes, m.ops, t) :: KeyOf(m, t, k)
  }

  lemma KeyOfDeclared(m: B.Member, t: BridgeType, k: TopicDescriptor, key: string)
    requires DiscoveryKey("*", m.bridgeNs, t, k) == Some(key)
    ensures KeyOf(m, t, k) == key
  {
  }

  lemma FinitelyDeclared(m: B.Member) returns (keys: set<string>)
    ensures forall key | key in B.Declared(m) :: key in keys
  {
    keys := KeysOf(m, Publisher) + KeysOf(m, Subscriber) + KeysOf(m, Service) + KeysOf(m, Client);
    hide InRos1, DiscoveryKey, KeyOf, EntryAfter;
    forall key | key in B.Declared(m) ensures key in keys {
      var t, k :| B.Announces(m, t, k) && DiscoveryKey("*", m.bridgeNs, t, k) == Some(key);
      B.AnnouncedIsInRos1(m, t, k);
      KeyOfDeclared(m, t, k, key);
      assert key in KeysOf(m, t) && (t == Publisher || t == Subscriber || t == Service || t == Client);
    }
  }

  lemma UntouchedStep(c: N.Config, s: N.Sys, e: N.Event)
    requires Untouched(s) && N.Enabled(c, s, e) && !e.Join? && !e.Subscribe?
    ensures Untouched(N.Next(c, s, e)) && !e.Publish? && !e.Head? && !e.Backoff? && !e.Drop?
  {
    forall k | 0 <= k < |s.subs| ensures N.SubNext(c, s, e, k).entry == None {
    }
  }

  lemma CoversStep(st: Setting, w: World, e: Event, w': World, keys: set<string>) returns (keys': set<string>)
    requires Step(st, w, e, w') && Covers(w, keys)
    ensures Covers(w', keys')
    ensures !e.Own? && !e.Handle? ==> keys' == keys
  {
    keys' := keys;
    if e.Own? || e.Handle? {
      var declared := FinitelyDeclared(w'.members[e.i]);
      keys' := keys + declared;
    }
    hide B.Declared, B.MemberNext, Untouched, N.Next, N.Enabled;
    forall key | key !in keys' ensures Untouched(w'.nets(key)) {
      match e
      case Tick =>
        assert Moves(Net(st, key), w.nets(key), N.Tick, w'.nets(key));
        UntouchedStep(Net(st, key), w.nets(key), N.Tick);
      case Aloha(k, move) =>
        if k == key {
          UntouchedStep(Net(st, key), w.nets(key), move);
        }
      case Sweep(i, lost) =>
        assert Moves(Net(st, key), w.nets(key), SweepMove(w.phases[i], i), w'.nets(key));
        UntouchedStep(Net(st, key), w.nets(key), SweepMove(w.phases[i], i));
      case Own(i, own) => UntouchedChange(st, w, i, own, w', key);
      case Handle(i, ans) => UntouchedChange(st, w, i, CallEvent(i, w.pending[i][0], ans), w', key);
    }
  }

  lemma UntouchedChange(st: Setting, w: World, i: nat, e: B.Event, w': World, key: string)
    requires MemberStep(st, w, i, e, w') && Untouched(w.nets(key)) && key !in B.Declared(w'.members[i])
    ensures Untouched(w'.nets(key))
  {
    hide B.Declared, B.MemberNext;
    var c, s, s' := Net(st, key), w.nets(key), w'.nets(key);
    assert NetChange(c, i, key in B.Declared(w.members[i]), false, s, s');
  }

  lemma {:induction false} FinitelyManyKeys(st: Setting, r: Run, b: nat) returns (keys: set<string>)
    requires IsRun(st, r) && b < |r.ws|
    ensures Covers(r.ws[b], keys)
  {
    if b == 0 {
      keys := {};
      assert forall key :: r.ws[0].nets(key) == Empty(|r.ws[0].members|);
    } else {
      keys := FinitelyManyKeys(st, r, b - 1);
      assert StepAt(st, r, b - 1);
      keys := CoversStep(st, r.ws[b - 1], r.es[b - 1], r.ws[b], keys);
    }
  }

  lemma {:induction false} Enumerate(keys: set<string>) returns (q: seq<string>)
    ensures forall key :: key in keys <==> key in q
    ensures forall j, k | 0 <= j < k < |q| :: q[j] != q[k]
    decreases |keys|
  {
    if keys == {} {
      q := [];
    } else {
      var key :| key in keys;
      var init := Enumerate(keys - {key});
      q := init + [key];
    }
  }

  // ------------------------------------------------------------------ how much is due

  /** The work due on these keys, of their declarations. */
  ghost function NodeLoad(w: World, q: seq<string>): nat {
    if q == [] then 0
    else
      var s := w.nets(q[|q| - 1]);
      NodeLoad(w, q[..|q| - 1]) + P.NodesWork(s, |s.nodes|)
  }

  /** The work due of the accumulating tasks, seen on any one key. */
  ghost function TaskLoad(w: World): nat {
    P.SubsWork(w.nets(""), |w.nets("").subs|)
  }

  function Waiting(pending: seq<Calls>): nat {
    if pending == [] then 0 else Waiting(pending[..|pending| - 1]) + |pending[|pending| - 1]|
  }

  ghost predicate NoMoreWork(w: World, w': World, key: string) {
    P.NodesWork(w'.nets(key), |w'.nets(key).nodes|) <= P.NodesWork(w.nets(key), |w.nets(key).nodes|)
  }

  ghost predicate LessWork(w: World, w': World, key: string) {
    P.NodesWork(w'.nets(key), |w'.nets(key).nodes|) < P.NodesWork(w.nets(key), |w.nets(key).nodes|)
  }

  lemma {:induction false} NodeLoadShrinks(w: World, w': World, q: seq<string>, busy: string)
    requires forall key :: NoMoreWork(w, w', key)
    ensures NodeLoad(w', q) <= NodeLoad(w, q)
    ensures busy in q && LessWork(w, w', busy) ==> NodeLoad(w', q) < NodeLoad(w, q)
  {
    hide P.NodesWork;
    if q != [] {
      NodeLoadShrinks(w, w', q[..|q| - 1], busy);
      assert NoMoreWork(w, w', q[|q| - 1]);
      assert q == q[..|q| - 1] + [q[|q| - 1]];
    }
  }

  lemma {:induction false} OneLessWaiting(pending: seq<Calls>, i: nat)
    requires i < |pending| && pending[i] != []
    ensures Waiting(pending[i := pending[i][1..]]) < Waiting(pending)
  {
    var pending' := pending[i := pending[i][1..]];
    if i < |pending| - 1 {
      OneLessWaiting(pending[..|pending| - 1], i);
      assert pending'[..|pending| - 1] == pending[..|pending| - 1][i := pending[i][1..]];
    } else {
      assert pending'[..|pending| - 1] == pending[..|pending| - 1];
    }
  }

  /** One key's share of a step. */
  lemma WorkAfter(c: N.Config, s: N.Sys, e: N.Event)
    requires c.window >= 1 && N.Sound(c, s) && N.Enabled(c, s, e) && !P.Environment(e) && !e.Tick?
    ensures var s' := N.Next(c, s, e);
      && |s'.nodes| == |s.nodes| && |s'.subs| == |s.subs|
      && P.NodesWork(s', |s'.nodes|) <= P.NodesWork(s, |s.nodes|) && P.SubsWork(s', |s'.subs|) <= P.SubsWork(s, |s.subs|)
      && (!OfTask(e) ==> P.NodesWork(s', |s'.nodes|) < P.NodesWork(s, |s.nodes|))
      && (OfTask(e) ==> P.SubsWork(s', |s'.subs|) < P.SubsWork(s, |s.subs|))
  {
    P.NodesWorkStep(c, s, e, |s.nodes|);
    P.SubsWorkStep(c, s, e, |s.subs|);
  }

  // ------------------------------------------------------------------ one step more

  ghost function Last(r: Run): World
    requires |r.ws| == |r.es| + 1
  {
    r.ws[|r.es|]
  }

  ghost predicate Extends(r: Run, r': Run) {
    r.ws <= r'.ws && r.es <= r'.es
  }

  lemma Extend(st: Setting, r: Run, e: Event, w': World) returns (r': Run)
    requires IsRun(st, r) && Step(st, Last(r), e, w')
    ensures IsRun(st, r') && Extends(r, r') && r'.es == r.es + [e] && Last(r') == w' && |r'.ws| == |r.ws| + 1
  {
    r' := Run(r.ws + [w'], r.es + [e]);
    hide Step;
    forall k | 0 <= k < |r'.es| ensures StepAt(st, r', k) {
      assert k < |r.es| ==> StepAt(st, r, k);
    }
  }

  /** The same time, no more work of any kind on these keys, and less of something. */
  ghost predicate Lighter(w: World, w': World, q: seq<string>) {
    && w'.now == w.now
    && (NodeLoad(w', q) + TaskLoad(w') < NodeLoad(w, q) + TaskLoad(w) ||
        (NodeLoad(w', q) + TaskLoad(w') == NodeLoad(w, q) + TaskLoad(w) && Waiting(w'.pending) < Waiting(w.pending)))
  }

  function Queued(w: World, key: string, s: N.Sys, s': N.Sys): seq<Calls>
    requires |w.pending| == |w.members| == |s.subs| == |s'.subs|
  {
    seq(|w.pending|, i requires 0 <= i < |w.pending| =>
      w.pending[i] + if Delivered("*", w.members[i].bridgeNs, key) then NewCalls(key, s, s', i) else [])
  }

  ghost function AfterMove(w: World, key: string, s': N.Sys): World
    requires |w.pending| == |w.members| == |w.nets(key).subs| == |s'.subs|
  {
    w.(nets := k => if k == key then s' else w.nets(k), pending := Queued(w, key, w.nets(key), s'))
  }

  lemma MoveIsAStep(st: Setting, w: World, key: string, move: N.Event, s': N.Sys)
    requires |w.pending| == |w.members| == |w.nets(key).subs| == |s'.subs|
    requires Moves(Net(st, key), w.nets(key), move, s') && (move.Publish? || move.Head? || move.Backoff?)
    ensures Step(st, w, Aloha(key, move), AfterMove(w, key, s'))
  {
    hide Moves, Delivered, NewCalls;
    assert Queues(w, key, AfterMove(w, key, s'));
    hide Queues;
  }

  lemma AlohaStep(st: Setting, w: World, key: string, move: N.Event, q: seq<string>) returns (w': World)
    requires Fits(st, w) && key in q && N.Enabled(Net(st, key), w.nets(key), move)
    requires move.Publish? || move.Head? || move.Backoff?
    ensures Step(st, w, Aloha(key, move), w') && Lighter(w, w', q)
  {
    var c, s := Net(st, key), w.nets(key);
    assert NetFits(st, w, key);
    WorkAfter(c, s, move);
    var s' := N.Next(c, s, move);
    hide N.Next, N.Enabled, N.Sound, Manned, P.NodesWork, P.SubsWork, Queued, Step;
    w' := AfterMove(w, key, s');
    MoveIsAStep(st, w, key, move, s');
    hide Fits, NetFits, Moves;
    forall k ensures NoMoreWork(w, w', k) {
    }
    NodeLoadShrinks(w, w', q, key);
  }

  lemma {:induction false} FindLapsed(w: World, i: nat, q: seq<string>) returns (lost: seq<string>)
    requires i < |w.members| && i < |w.phases| && forall j, k | 0 <= j < k < |q| :: q[j] != q[k]
    ensures forall j, k | 0 <= j < k < |lost| :: lost[j] != lost[k]
    ensures forall key :: key in lost <==> key in q && Lapsed(w, i, key)
  {
    if q == [] {
      lost := [];
    } else {
      var init, last := q[..|q| - 1], q[|q| - 1];
      var before := FindLapsed(w, i, init);
      hide Lapsed;
      assert last !in init && forall key :: key in q <==> key in init || key == last;
      lost := if Lapsed(w, i, last) then before + [last] else before;
    }
  }

  lemma SweepEnabled(st: Setting, w: World, i: nat, key: string)
    requires Fits(st, w) && i < |w.phases| && (w.phases[i].Sleeping? ==> w.phases[i].until == w.now)
    ensures N.Enabled(Net(st, key), w.nets(key), SweepMove(w.phases[i], i))
  {
    assert NetFits(st, w, key);
  }

  lemma SweepStep(st: Setting, w: World, i: nat, q: seq<string>) returns (lost: seq<string>, w': World)
    requires Fits(st, w) && i < |w.phases| && (w.phases[i].Sleeping? ==> w.phases[i].until == w.now)
    requires (forall j, k | 0 <= j < k < |q| :: q[j] != q[k]) && Covers(w, set key | key in q)
    ensures Step(st, w, Sweep(i, lost), w') && Lighter(w, w', q)
  {
    lost := FindLapsed(w, i, q);
    assert Finds(w, i, lost) by {
      forall key | Lapsed(w, i, key) ensures key in q {
        assert !Untouched(w.nets(key));
      }
    }
    var move := SweepMove(w.phases[i], i);
    var nets := key =>
      if N.Enabled(Net(st, key), w.nets(key), move) then N.Next(Net(st, key), w.nets(key), move) else w.nets(key);
    w' := w.(nets := nets, phases := w.phases[i := NextPhase(w.phases[i], w.now, 3 * st.period)],
             pending := w.pending[i := w.pending[i] + A.Lose(lost)]);
    hide N.Next, N.Enabled, N.Sound, Manned, P.NodesWork, P.SubsWork, Finds;
    forall key ensures Moves(Net(st, key), w.nets(key), move, w'.nets(key)) && NoMoreWork(w, w', key)
      ensures P.SubsWork(w'.nets(key), |w'.nets(key).subs|) < P.SubsWork(w.nets(key), |w.nets(key).subs|)
    {
      SweepEnabled(st, w, i, key);
      assert NetFits(st, w, key);
      WorkAfter(Net(st, key), w.nets(key), move);
    }
    NodeLoadShrinks(w, w', q, "");
  }

  predicate HasDeclared(e: Option<Bridge>) { e.Some? && e.value.declaration.Some? }

  lemma FailingEvent(modes: Modes, e: Option<Bridge>, op: Op, t: BridgeType, k: TopicDescriptor)
    requires (op.Discovered? || op.Lost?) && op.ans == Answers(None, None)
    requires e.Some? ==> Justified(t, modes(t, k.name), e.value)
    ensures HasDeclared(ApplyOne(modes, e, op, t, k)) <==> HasDeclared(e)
  {
  }

  /** A callback that is handled while the network fails declares nothing and withdraws nothing. */
  lemma HandledDeclaresNothing(text: seq<Byte> -> bool, m: B.Member, i: nat, call: (string, A.Callback),
                               t: BridgeType, k: TopicDescriptor)
    ensures B.Announces(B.MemberNext(text, m, CallEvent(i, call, Answers(None, None))), t, k) <==> B.Announces(m, t, k)
  {
    StorageIsTwoSets(m.modes, m.ops, t, k);
    var ops := B.MemberNext(text, m, CallEvent(i, call, Answers(None, None))).ops;
    hide Decode, ApplyOne, InRos1, InZenoh;
    if ops != m.ops {
      assert ops[..|ops| - 1] == m.ops;
      FailingEvent(m.modes, EntryAfter(m.modes, m.ops, t, k), ops[|m.ops|], t, k);
    }
  }

  lemma SameDeclared(text: seq<Byte> -> bool, m: B.Member, i: nat, call: (string, A.Callback))
    ensures B.Declared(B.MemberNext(text, m, CallEvent(i, call, Answers(None, None)))) == B.Declared(m)
  {
    var m' := B.MemberNext(text, m, CallEvent(i, call, Answers(None, None)));
    assert m'.bridgeNs == m.bridgeNs;
    hide B.MemberNext, B.Announces;
    forall t, k ensures B.Announces(m', t, k) <==> B.Announces(m, t, k) {
      HandledDeclaresNothing(text, m, i, call, t, k);
    }
  }

  lemma HandleStep(st: Setting, w: World, i: nat, q: seq<string>) returns (w': World)
    requires Fits(st, w) && i < |w.pending| && w.pending[i] != []
    ensures Step(st, w, Handle(i, Answers(None, None)), w') && Lighter(w, w', q) && w'.nets == w.nets
  {
    var call := w.pending[i][0];
    var m' := B.MemberNext(st.text, w.members[i], CallEvent(i, call, Answers(None, None)));
    SameDeclared(st.text, w.members[i], i, call);
    w' := w.(members := w.members[i := m'], handled := w.handled[i := w.handled[i] + [call]],
             pending := w.pending[i := w.pending[i][1..]]);
    OneLessWaiting(w.pending, i);
    hide B.MemberNext, B.Declared;
    SameNets(w, w', q);
  }

  lemma {:induction false} SameNets(w: World, w': World, q: seq<string>)
    requires forall key :: w'.nets(key) == w.nets(key)
    ensures NodeLoad(w', q) == NodeLoad(w, q) && TaskLoad(w') == TaskLoad(w)
  {
    if q != [] {
      SameNets(w, w', q[..|q| - 1]);
    }
  }

  ghost predicate AllIdle(w: World) {
    forall key :: N.Idle(w.nets(key))
  }

  lemma TickStep(st: Setting, w: World) returns (w': World)
    requires AllIdle(w) && forall i | 0 <= i < |w.pending| :: w.pending[i] == []
    ensures Step(st, w, Tick, w') && w'.now == w.now + 1
  {
    var nets := key => if N.Idle(w.nets(key)) then N.Next(Net(st, key), w.nets(key), N.Tick) else w.nets(key);
    w' := w.(now := w.now + 1, nets := nets);
    hide N.Next;
    forall key ensures Moves(Net(st, key), w.nets(key), N.Tick, w'.nets(key)) {
      assert N.Idle(w.nets(key));
    }
  }

  /** Either everything is idle, or a declaration of one of the keys or an accumulating task is due. */
  lemma SomethingDue(st: Setting, w: World, q: seq<string>) returns (e: Option<Event>)
    requires Fits(st, w) && Covers(w, set key | key in q)
    ensures match e
            case None => AllIdle(w)
            case Some(Aloha(key, move)) =>
              && key in q && N.Enabled(Net(st, key), w.nets(key), move) && (move.Publish? || move.Head? || move.Backoff?)
            case Some(Sweep(i, _)) => i < |w.phases| && (w.phases[i].Sleeping? ==> w.phases[i].until == w.now)
            case _ => false
  {
    if key, j: nat :| j < |w.nets(key).nodes| && N.NodeDue(w.now, w.nets(key).nodes[j]) {
      assert NetFits(st, w, key);
      var n := w.nets(key).nodes[j];
      assert key !in q ==> Untouched(w.nets(key));
      e := Some(Aloha(key, if w.now in n.tasks then N.Publish(j)
                           else if n.monitor == N.AlohaDeclaration.Sleep(w.now) then N.Head(j, false, 0) else N.Backoff(j)));
    } else if i: nat :| i < |w.phases| && (w.phases[i].Sleeping? ==> w.phases[i].until == w.now) {
      e := Some(Sweep(i, []));
    } else {
      e := None;
      forall key ensures N.Idle(w.nets(key)) {
        assert NetFits(st, w, key);
      }
    }
  }

  // ------------------------------------------------------------------ time goes on

  /** What the bridges do by themselves: no polls and no handshakes. */
  predicate ByItself(e: Event) { !e.Own? }

  ghost predicate GoesOn(r: Run, r': Run) {
    Extends(r, r') && forall k | |r.es| <= k < |r'.es| :: ByItself(r'.es[k])
  }

  /** One step at the same instant, or time itself. */
  lemma StepOn(st: Setting, r: Run, q: seq<string>) returns (r': Run)
    requires IsRun(st, r) && Covers(Last(r), set key | key in q) && forall j, k | 0 <= j < k < |q| :: q[j] != q[k]
    ensures IsRun(st, r') && GoesOn(r, r') && Covers(Last(r'), set key | key in q)
    ensures Lighter(Last(r), Last(r'), q) || Last(r').now == Last(r).now + 1
  {
    AlwaysFits(st, r, |r.es|);
    var w := Last(r);
    var due := SomethingDue(st, w, q);
    var e, w';
    hide Step, Fits, Covers, Lighter;
    match due {
      case Some(Aloha(key, move)) =>
        e := due.value;
        w' := AlohaStep(st, w, key, move, q);
      case Some(Sweep(i, _)) =>
        var lost;
        lost, w' := SweepStep(st, w, i, q);
        e := Sweep(i, lost);
      case None =>
        if i: nat :| i < |w.pending| && w.pending[i] != [] {
          w' := HandleStep(st, w, i, q);
          e := Handle(i, Answers(None, None));
        } else {
          w' := TickStep(st, w);
          e := Tick;
        }
    }
    r' := Extend(st, r, e, w');
    CoversOn(st, w, e, w', q);
  }

  lemma CoversOn(st: Setting, w: World, e: Event, w': World, q: seq<string>)
    requires Step(st, w, e, w') && Covers(w, set key | key in q) && !e.Own?
    requires e.Handle? ==> w'.nets == w.nets
    ensures Covers(w', set key | key in q)
  {
    if !e.Handle? {
      var keys := CoversStep(st, w, e, w', set key | key in q);
    }
  }

  /** From every reachable world, by steps of declarations, accumulating tasks and callbacks alone, time goes on. */
  lemma {:induction false} NextInstant(st: Setting, r: Run, q: seq<string>) returns (r': Run)
    requires IsRun(st, r) && Covers(Last(r), set key | key in q) && forall j, k | 0 <= j < k < |q| :: q[j] != q[k]
    ensures IsRun(st, r') && GoesOn(r, r') && Covers(Last(r'), set key | key in q)
    ensures Last(r').now == Last(r).now + 1
    decreases NodeLoad(Last(r), q) + TaskLoad(Last(r)), Waiting(Last(r).pending)
  {
    r' := StepOn(st, r, q);
    hide IsRun, Covers;
    if Last(r').now == Last(r).now {
      r' := NextInstant(st, r', q);
    }
  }

  lemma TimeGoesOn(st: Setting, r: Run) returns (r': Run)
    requires IsRun(st, r)
    ensures IsRun(st, r') && GoesOn(r, r') && Last(r').now == Last(r).now + 1
  {
    var keys := FinitelyManyKeys(st, r, |r.es|);
    var q := Enumerate(keys);
    assert keys == set key | key in q;
    r' := NextInstant(st, r, q);
  }

  lemma {:induction false} TimeReaches(st: Setting, r: Run, t: nat) returns (r': Run)
    requires IsRun(st, r) && Last(r).now <= t
    ensures IsRun(st, r') && GoesOn(r, r') && Last(r').now == t
    decreases t - Last(r).now
  {
    r' := r;
    if Last(r).now < t {
      r' := TimeGoesOn(st, r);
      r' := TimeReaches(st, r', t);
    }
  }

  // ------------------------------------------------------------------ every run can come to its end

  const NOBODY := C.SystemState([], [], [])

  const NO_ANSWERS: Networks := (t, k) => Answers(None, None)

  const NO_MOMENTS: M.Moments :=
    t => n => M.Moment([], R.Network((topic, node) => None, topic => None, topic => false, topic => []))

  function EmptyPoll(i: nat): Event {
    Own(i, B.Polls(i, NOBODY, NO_MOMENTS, NO_ANSWERS))
  }

  ghost function Withdrawal(c: N.Config, s: N.Sys, i: nat): N.Sys {
    if HasDeclaration(c, s, i) then var j: nat :| IsDeclaration(c, s, i, j); N.Next(c, s, N.Drop(j)) else s
  }

  lemma NobodyIsForeign(m: B.Member)
    ensures forall t, topic, node :: !B.Foreign(m.names, NOBODY, t, topic, node)
  {
  }

  ghost function NetAfter(c: N.Config, s: N.Sys, i: nat, before: bool, after: bool): N.Sys {
    if after && !before then N.Next(c, s, N.Join) else if before && !after then Withdrawal(c, s, i) else s
  }

  /** Any poll, with any outcome, or any handshake can happen to a bridge, if the setting has it make the next
      declaration of each key that it comes to declare. */
  lemma OwnStep(st: Setting, w: World, i: nat, e: B.Event) returns (w': World)
    requires Fits(st, w) && i < |w.members| && (e.Polls? || e.Fails? || e.Greets?) && e.i == i
    requires forall key | key in B.Declared(B.MemberNext(st.text, w.members[i], e)) && key !in B.Declared(w.members[i]) ::
               st.sessions(key)(|w.nets(key).nodes|) == i
    ensures Step(st, w, Own(i, e), w') && w'.now == w.now && |w'.members| == |w.members|
  {
    var m' := B.MemberNext(st.text, w.members[i], e);
    hide B.MemberNext, B.Declared, N.Next;
    var nets := key =>
      NetAfter(Net(st, key), w.nets(key), i, key in B.Declared(w.members[i]), key in B.Declared(m'));
    w' := w.(members := w.members[i := m'], nets := nets);
    hide NetChange, NetAfter;
    forall key
      ensures NetChange(Net(st, key), i, key in B.Declared(w.members[i]), key in B.Declared(m'), w.nets(key), w'.nets(key))
    {
      assert NetFits(st, w, key);
      NetAfterChanges(Net(st, key), w.nets(key), i, key in B.Declared(w.members[i]), key in B.Declared(m'));
    }
  }

  lemma NetAfterChanges(c: N.Config, s: N.Sys, i: nat, before: bool, after: bool)
    requires after && !before ==> c.session(|s.nodes|) == i
    requires before && !after ==> HasDeclaration(c, s, i)
    ensures NetChange(c, i, before, after, s, NetAfter(c, s, i, before, after))
  {
    hide N.Next;
  }

  /** A poll that finds nobody silences the bridge, and its declarations are dropped. */
  lemma PollStep(st: Setting, w: World, i: nat) returns (w': World)
    requires Fits(st, w) && i < |w.members|
    ensures Step(st, w, EmptyPoll(i), w') && w'.now == w.now && |w'.members| == |w.members|
  {
    var e := B.Polls(i, NOBODY, NO_MOMENTS, NO_ANSWERS);
    NobodyIsForeign(w.members[i]);
    B.SilentStep(st.text, w.members[i], e);
    B.SilentDeclaresNothing(B.MemberNext(st.text, w.members[i], e));
    w' := OwnStep(st, w, i, e);
  }

  /** The bridges from the i-th on poll, and find nobody. */
  lemma {:induction false} AllPoll(st: Setting, r: Run, i: nat) returns (r': Run)
    requires IsRun(st, r) && i <= |r.ws[0].members|
    ensures IsRun(st, r') && Extends(r, r') && Last(r').now == Last(r).now && |r'.es| == |r.es| + (|r.ws[0].members| - i)
    ensures forall k | |r.es| <= k < |r'.es| :: r'.es[k] == EmptyPoll(k - |r.es| + i)
    decreases |r.ws[0].members| - i
  {
    r' := r;
    if i < |r.ws[0].members| {
      AlwaysFits(st, r, |r.es|);
      var w' := PollStep(st, Last(r), i);
      hide Step, Fits;
      r' := Extend(st, r, EmptyPoll(i), w');
      r' := AllPoll(st, r', i + 1);
    }
  }

  /** Every run can go on so that all bridges poll and find nobody, and eight periods pass: then every storage
      is empty. */
  lemma EveryRunCanEnd(st: Setting, r: Run) returns (r': Run, b: nat)
    requires IsRun(st, r) && |r.ws[0].members| > 0
    ensures IsRun(st, r') && Extends(r, r') && b < |r'.ws| && Withdrawn(r', |r.es|, b)
    ensures Last(r').now == r'.ws[b].now + 8 * st.period && |Last(r').members| == |r.ws[0].members|
    ensures forall i | 0 <= i < |Last(r').members| :: B.EmptyStorage(Last(r').members[i])
  {
    var a := |r.es|;
    var r1 := AllPoll(st, r, 0);
    b := |r1.es|;
    r' := TimeReaches(st, r1, Last(r1).now + 8 * st.period);
    assert r'.ws[b] == Last(r1) && r'.ws[0] == r.ws[0];
    assert Withdrawn(r', a, b) by {
      forall i | 0 <= i < |r'.ws[0].members| ensures PolledIn(r', a, b, i) {
        assert r'.es[a + i] == r1.es[a + i] == EmptyPoll(i);
        assert PollOf(r'.es[a + i], i);
      }
      forall k | a <= k < |r'.es| && r'.es[k].Own? ensures r'.es[k].own.Polls? && r'.es[k].own.state == NOBODY {
        assert k < b && r'.es[k] == r1.es[k];
      }
    }
    AlwaysFits(st, r', |r'.es|);
    forall i | 0 <= i < |Last(r').members| ensures B.EmptyStorage(Last(r').members[i]) {
      AllStoragesEmptyInTime(st, r', a, b, |r'.es|, i);
    }
  }

  /** And there is a run for any bridges to start from. */
  lemma AnyBridgesCanStart(st: Setting, members: seq<B.Member>) returns (r: Run)
    requires forall i | 0 <= i < |members| :: B.Started(members[i])
    ensures IsRun(st, r) && r.ws[0].members == members && r.es == []
  {
    var n := |members|;
    r := Run([World(0, members, key => Empty(n), seq(n, i => N.Resetting), seq(n, i => []), seq(n, i => []))], []);
  }
}
