/** Many bridges in time: every declaration of a bridge is a declaration of the ALOHA network of its key, and
    every bridge has a subscription to each. Beacons, tables, callbacks and storages are all in the model, so
    the end of all announcements needs no assumption about beacons dying away or losses being delivered. */
module TimedBridges {
  import opened Wrappers
  import opened Topics
  import opened StorageHistory
  import opened TopicBridges
  import opened Discovery
  import opened AlohaDeclaration
  import A = AlohaSubscription
  import N = AlohaNetwork
  import G = AlohaGaps
  import B = ManyBridges

  /** The beacon period; for each key, the bridge that makes its n-th declaration; and which bytes are UTF-8. */
  datatype Setting = Setting(period: Period, sessions: string -> (nat -> nat), text: seq<Byte> -> bool)

  /** The network of one key, with the source's window. A bridge's declarations and subscription share its
      session, which has the bridge's number. */
  ghost function Net(st: Setting, key: string): N.Config {
    N.Config(st.period, 3 * st.period, st.sessions(key))
  }

  type Calls = seq<(string, A.Callback)>

  /** Each bridge has one accumulating task, whose phase is the phase of its subscription to every key.
      `pending` holds each bridge's callbacks that still wait for the storage's lock, `handled` the others. */
  datatype World = World(
    now: nat, members: seq<B.Member>, nets: string -> N.Sys, phases: seq<N.Phase>, handled: seq<Calls>, pending: seq<Calls>)

  /** Time passes; a declaration of a key takes a step; a bridge's accumulating task goes through its whole
      table, `lost` being what a scan finds; something happens to a bridge; or it handles a callback. */
  datatype Event =
    | Tick
    | Aloha(key: string, move: N.Event)
    | Sweep(i: nat, lost: seq<string>)
    | Own(i: nat, own: B.Event)
    | Handle(i: nat, ans: Answers)

  function SweepMove(phase: N.Phase, i: nat): N.Event {
    match phase
    case Resetting => N.Reset(i)
    case Sleeping(_) => N.Scan(i)
    case Retaining => N.Retain(i)
  }

  function NextPhase(phase: N.Phase, now: nat, window: nat): N.Phase {
    match phase
    case Resetting => N.Sleeping(now + window)
    case Sleeping(_) => N.Retaining
    case Retaining => N.Resetting
  }

  /** The keys of the i-th bridge's table that a scan would find inactive. */
  ghost predicate Lapsed(w: World, i: nat, key: string)
    requires i < |w.members| && i < |w.phases|
  {
    && w.phases[i].Sleeping? && Delivered("*", w.members[i].bridgeNs, key)
    && i < |w.nets(key).subs| && A.Inactive(w.nets(key).subs[i].entry)
  }

  /** `lost` lists each of them once. */
  ghost predicate Finds(w: World, i: nat, lost: seq<string>)
    requires i < |w.members| && i < |w.phases|
  {
    && (forall j, k | 0 <= j < k < |lost| :: lost[j] != lost[k])
    && forall key :: key in lost <==> Lapsed(w, i, key)
  }

  /** The callback, if any, that the i-th subscription made. */
  function NewCalls(key: string, s: N.Sys, s': N.Sys, i: nat): Calls
    requires i < |s.subs| && i < |s'.subs|
  {
    if |s'.subs[i].log| > |s.subs[i].log| then [(key, s'.subs[i].log[|s.subs[i].log|])] else []
  }

  function CallEvent(i: nat, call: (string, A.Callback), ans: Answers): B.Event {
    if call.1 == A.Declared then B.Appears(i, call.0, ans) else B.Vanishes(i, call.0, ans)
  }

  /** When the i-th bridge changes its mind about a key, the key's network gets or loses a declaration. */
  ghost predicate NetChange(c: N.Config, i: nat, before: bool, after: bool, s: N.Sys, s': N.Sys) {
    if after && !before then c.session(|s.nodes|) == i && s' == N.Next(c, s, N.Join)
    else if before && !after then
      exists j: nat :: IsDeclaration(c, s, i, j) && s' == N.Next(c, s, N.Drop(j))
    else s' == s
  }

  /** Something happens to the i-th bridge. */
  ghost predicate MemberStep(st: Setting, w: World, i: nat, e: B.Event, w': World) {
    && i < |w.members| && B.OfMember(e) && e.i == i && w'.now == w.now && w'.phases == w.phases
    && var m' := B.MemberNext(st.text, w.members[i], e);
    && w'.members == w.members[i := m']
    && forall key ::
         NetChange(Net(st, key), i, key in B.Declared(w.members[i]), key in B.Declared(m'), w.nets(key), w'.nets(key))
  }

  ghost predicate Step(st: Setting, w: World, e: Event, w': World) {
    match e
    case Tick =>
      && (forall i | 0 <= i < |w.pending| :: w.pending[i] == []) && w'.now == w.now + 1
      && w'.members == w.members && w'.phases == w.phases && w'.handled == w.handled && w'.pending == w.pending
      && forall key :: Moves(Net(st, key), w.nets(key), N.Tick, w'.nets(key))
    case Aloha(key, ev) =>
      && w'.now == w.now && w'.members == w.members && w'.phases == w.phases && w'.handled == w.handled
      && (ev.Publish? || ev.Head? || ev.Backoff?) && Moves(Net(st, key), w.nets(key), ev, w'.nets(key))
      && (forall other | other != key :: w'.nets(other) == w.nets(other))
      && Queues(w, key, w')
    case Sweep(i, lost) =>
      && i < |w.members| == |w.phases| == |w.pending| && Finds(w, i, lost)
      && w'.now == w.now && w'.members == w.members && w'.handled == w.handled
      && w'.phases == w.phases[i := NextPhase(w.phases[i], w.now, 3 * st.period)]
      && w'.pending == w.pending[i := w.pending[i] + A.Lose(lost)]
      && forall key :: Moves(Net(st, key), w.nets(key), SweepMove(w.phases[i], i), w'.nets(key))
    case Own(i, ev) =>
      && (ev.Polls? || ev.Fails? || ev.Greets?) && MemberStep(st, w, i, ev, w')
      && w'.handled == w.handled && w'.pending == w.pending
    case Handle(i, ans) =>
      && i < |w.pending| == |w.handled| && w.pending[i] != []
      && MemberStep(st, w, i, CallEvent(i, w.pending[i][0], ans), w')
      && w'.handled == w.handled[i := w.handled[i] + [w.pending[i][0]]]
      && w'.pending == w.pending[i := w.pending[i][1..]]
  }

  ghost predicate Moves(c: N.Config, s: N.Sys, e: N.Event, s': N.Sys) {
    N.Enabled(c, s, e) && s' == N.Next(c, s, e)
  }

  /** The callbacks of the subscriptions that the key reaches wait for their storages. */
  ghost predicate Queues(w: World, key: string, w': World) {
    && |w'.pending| == |w.pending| == |w.members| == |w.nets(key).subs| == |w'.nets(key).subs|
    && forall i | 0 <= i < |w.pending| ::
         w'.pending[i] == w.pending[i] +
           if Delivered("*", w.members[i].bridgeNs, key) then NewCalls(key, w.nets(key), w'.nets(key), i) else []
  }

  datatype Run = Run(ws: seq<World>, es: seq<Event>)

  ghost predicate StepAt(st: Setting, r: Run, k: nat)
    requires k < |r.es| && |r.ws| == |r.es| + 1
  {
    Step(st, r.ws[k], r.es[k], r.ws[k + 1])
  }

  ghost predicate Starts(w: World) {
    && w.now == 0 && |w.phases| == |w.handled| == |w.pending| == |w.members|
    && (forall i | 0 <= i < |w.members| ::
          B.Started(w.members[i]) && w.phases[i] == N.Resetting && w.handled[i] == [] && w.pending[i] == [])
    && forall key :: w.nets(key) == Empty(|w.members|)
  }

  function Empty(n: nat): N.Sys {
    N.Sys(0, [], seq(n, i requires 0 <= i < n => N.Sub(Some(i), N.Resetting, None, [])))
  }

  ghost predicate IsRun(st: Setting, r: Run) {
    && |r.ws| == |r.es| + 1 && Starts(r.ws[0])
    && forall k | 0 <= k < |r.es| :: StepAt(st, r, k)
  }

  // ------------------------------------------------------------------ declarations and networks agree

  /** The living declarations of a key are those of the bridges that have it declared, one each. */
  ghost predicate Manned(c: N.Config, s: N.Sys, key: string, members: seq<B.Member>) {
    && (forall j | 0 <= j < |s.nodes| && s.nodes[j].alive ::
          c.session(j) < |members| && key in B.Declared(members[c.session(j)]))
    && (forall j, k | 0 <= j < k < |s.nodes| && s.nodes[j].alive && s.nodes[k].alive :: c.session(j) != c.session(k))
    && (forall i | 0 <= i < |members| && key in B.Declared(members[i]) :: HasDeclaration(c, s, i))
  }

  ghost predicate HasDeclaration(c: N.Config, s: N.Sys, i: nat) {
    exists j: nat :: IsDeclaration(c, s, i, j)
  }

  ghost predicate IsDeclaration(c: N.Config, s: N.Sys, i: nat, j: nat) {
    j < |s.nodes| && s.nodes[j].alive && c.session(j) == i
  }

  /** The subscriptions are in the phases of their bridges' tasks. */
  ghost predicate InStep(s: N.Sys, phases: seq<N.Phase>) {
    |s.subs| == |phases| && forall i | 0 <= i < |phases| :: s.subs[i].phase == phases[i]
  }

  ghost predicate NetFits(st: Setting, w: World, key: string) {
    var c, s := Net(st, key), w.nets(key);
    s.now == w.now && InStep(s, w.phases) && N.Sound(c, s) && Manned(c, s, key, w.members)
  }

  ghost predicate Fits(st: Setting, w: World) {
    |w.phases| == |w.handled| == |w.pending| == |w.members| && forall key :: NetFits(st, w, key)
  }

  lemma NextShape(c: N.Config, s: N.Sys, e: N.Event)
    requires N.Enabled(c, s, e) && N.Sound(c, s)
    ensures var s' := N.Next(c, s, e);
      && N.Sound(c, s') && s'.now == (if e.Tick? then s.now + 1 else s.now)
      && |s'.nodes| == |s.nodes| + (if e.Join? then 1 else 0)
      && (forall j | 0 <= j < |s.nodes| :: s'.nodes[j].alive == (s.nodes[j].alive && e != N.Drop(j)))
      && (e.Join? ==> s'.nodes[|s.nodes|].alive)
  {
    N.SoundStep(c, s, e);
    forall j | 0 <= j < |s.nodes| ensures N.NodeNext(c, s, e, j).alive == (s.nodes[j].alive && e != N.Drop(j)) {
    }
  }

  predicate OfTask(e: N.Event) { e.Reset? || e.Scan? || e.Retain? }

  /** Phases change only by the subscription's own task. */
  lemma PhasesAfter(c: N.Config, s: N.Sys, e: N.Event)
    requires N.Enabled(c, s, e) && !e.Subscribe?
    ensures var s' := N.Next(c, s, e);
      |s'.subs| == |s.subs| && forall k | 0 <= k < |s.subs| ::
        s'.subs[k].phase ==
          if OfTask(e) && e.k == k then NextPhase(s.subs[k].phase, s.now, c.window) else s.subs[k].phase
  {
    forall k | 0 <= k < |s.subs| ensures N.Next(c, s, e).subs[k] == N.SubNext(c, s, e, k) {
    }
  }

  lemma NetChangeFits(c: N.Config, i: nat, key: string, members: seq<B.Member>, m': B.Member, s: N.Sys, s': N.Sys,
                      phases: seq<N.Phase>)
    requires i < |members| && N.Sound(c, s) && Manned(c, s, key, members) && InStep(s, phases)
    requires NetChange(c, i, key in B.Declared(members[i]), key in B.Declared(m'), s, s')
    ensures N.Sound(c, s') && Manned(c, s', key, members[i := m']) && s'.now == s.now && InStep(s', phases)
  {
    hide B.Declared, N.Sound, N.Next;
    var before, after := key in B.Declared(members[i]), key in B.Declared(m');
    if after && !before {
      NextShape(c, s, N.Join);
      PhasesAfter(c, s, N.Join);
      JoinManned(c, i, key, members, m', s, s');
    } else if before && !after {
      var j: nat :| IsDeclaration(c, s, i, j) && s' == N.Next(c, s, N.Drop(j));
      NextShape(c, s, N.Drop(j));
      PhasesAfter(c, s, N.Drop(j));
      DropManned(c, i, key, members, m', s, s', j);
    } else {
      assert forall k | 0 <= k < |members| ::
        key in B.Declared(members[i := m'][k]) <==> key in B.Declared(members[k]);
    }
  }

  lemma JoinManned(c: N.Config, i: nat, key: string, members: seq<B.Member>, m': B.Member, s: N.Sys, s': N.Sys)
    requires i < |members| && Manned(c, s, key, members) && key !in B.Declared(members[i]) && key in B.Declared(m')
    requires |s'.nodes| == |s.nodes| + 1 && c.session(|s.nodes|) == i && s'.nodes[|s.nodes|].alive
    requires forall j | 0 <= j < |s.nodes| :: s'.nodes[j].alive == s.nodes[j].alive
    ensures Manned(c, s', key, members[i := m'])
  {
    hide B.Declared;
    forall k | 0 <= k < |members| && key in B.Declared(members[i := m'][k]) ensures HasDeclaration(c, s', k) {
      if k == i {
        assert IsDeclaration(c, s', i, |s.nodes|);
      } else {
        var j: nat :| IsDeclaration(c, s, k, j);
        assert IsDeclaration(c, s', k, j);
      }
    }
  }

  lemma DropManned(c: N.Config, i: nat, key: string, members: seq<B.Member>, m': B.Member, s: N.Sys, s': N.Sys, d: nat)
    requires i < |members| && Manned(c, s, key, members) && key !in B.Declared(m') && IsDeclaration(c, s, i, d)
    requires |s'.nodes| == |s.nodes|
    requires forall j | 0 <= j < |s.nodes| :: s'.nodes[j].alive == (s.nodes[j].alive && j != d)
    ensures Manned(c, s', key, members[i := m'])
  {
    hide B.Declared;
    forall k | 0 <= k < |members| && key in B.Declared(members[i := m'][k]) ensures HasDeclaration(c, s', k) {
      var j: nat :| IsDeclaration(c, s, k, j);
      assert IsDeclaration(c, s', k, j);
    }
  }

  lemma MemberFits(st: Setting, w: World, i: nat, e: B.Event, w': World)
    requires Fits(st, w) && MemberStep(st, w, i, e, w')
    ensures forall key :: NetFits(st, w', key)
  {
    var m' := B.MemberNext(st.text, w.members[i], e);
    hide B.Declared, B.MemberNext, N.Sound, NetChange, Manned, InStep;
    forall key ensures NetFits(st, w', key) {
      assert NetFits(st, w, key);
      NetChangeFits(Net(st, key), i, key, w.members, m', w.nets(key), w'.nets(key), w.phases);
    }
  }

  lemma SameNodesManned(c: N.Config, s: N.Sys, s': N.Sys, key: string, members: seq<B.Member>)
    requires Manned(c, s, key, members) && |s'.nodes| == |s.nodes|
    requires forall j | 0 <= j < |s.nodes| :: s'.nodes[j].alive == s.nodes[j].alive
    ensures Manned(c, s', key, members)
  {
    hide B.Declared;
    forall i | 0 <= i < |members| && key in B.Declared(members[i]) ensures HasDeclaration(c, s', i) {
      var j: nat :| IsDeclaration(c, s, i, j);
      assert IsDeclaration(c, s', i, j);
    }
  }

  /** A network's own step, in the time and the phases that come with it. */
  lemma MoveFits(st: Setting, w: World, key: string, move: N.Event, w': World)
    requires NetFits(st, w, key) && Moves(Net(st, key), w.nets(key), move, w'.nets(key)) && w'.members == w.members
    requires !move.Join? && !move.Drop? && !move.Subscribe? && w'.now == if move.Tick? then w.now + 1 else w.now
    requires OfTask(move) ==>
               move.k < |w.phases| &&
               w'.phases == w.phases[move.k := NextPhase(w.phases[move.k], w.now, 3 * st.period)]
    requires !OfTask(move) ==> w'.phases == w.phases
    ensures NetFits(st, w', key)
  {
    hide N.Sound, N.Next, N.Enabled, Manned, NextPhase;
    NextShape(Net(st, key), w.nets(key), move);
    PhasesAfter(Net(st, key), w.nets(key), move);
    SameNodesManned(Net(st, key), w.nets(key), w'.nets(key), key, w.members);
  }

  lemma FitsStep(st: Setting, w: World, e: Event, w': World)
    requires Fits(st, w) && Step(st, w, e, w')
    ensures Fits(st, w')
  {
    hide NetFits, Moves;
    match e
    case Tick =>
      forall key ensures NetFits(st, w', key) {
        MoveFits(st, w, key, N.Tick, w');
      }
    case Aloha(key, move) =>
      forall other ensures NetFits(st, w', other) {
        if other == key {
          MoveFits(st, w, key, move, w');
        } else {
          NetStays(st, w, other, w');
        }
      }
    case Sweep(i, lost) =>
      forall key ensures NetFits(st, w', key) {
        MoveFits(st, w, key, SweepMove(w.phases[i], i), w');
      }
    case Own(i, own) => MemberFits(st, w, i, own, w');
    case Handle(i, ans) => MemberFits(st, w, i, CallEvent(i, w.pending[i][0], ans), w');
  }

  lemma NetStays(st: Setting, w: World, key: string, w': World)
    requires NetFits(st, w, key) && w'.nets(key) == w.nets(key)
    requires w'.now == w.now && w'.members == w.members && w'.phases == w.phases
    ensures NetFits(st, w', key)
  {
  }

  lemma {:induction false} AlwaysFits(st: Setting, r: Run, b: nat)
    requires IsRun(st, r) && b < |r.ws|
    ensures Fits(st, r.ws[b]) && |r.ws[b].members| == |r.ws[0].members|
  {
    if b > 0 {
      AlwaysFits(st, r, b - 1);
      assert StepAt(st, r, b - 1);
      FitsStep(st, r.ws[b - 1], r.es[b - 1], r.ws[b]);
    }
  }

  // ------------------------------------------------------------------ silence

  /** From the a-th event on no poll finds any node but the bridge's own. */
  ghost predicate Deserted(r: Run, a: nat)
    requires |r.ws| == |r.es| + 1
  {
    forall k | a <= k < |r.es| && r.es[k].Own? && r.es[k].own.Polls? && r.es[k].i < |r.ws[k].members| ::
      forall t, topic, node :: !B.Foreign(r.ws[k].members[r.es[k].i].names, r.es[k].own.state, t, topic, node)
  }

  /** The i-th bridge's poll, successful or not. */
  predicate PollOf(e: Event, i: nat) { e.Own? && e.i == i && (e.own.Polls? || e.own.Fails?) }

  ghost predicate PolledIn(r: Run, a: nat, b: nat, i: nat)
    requires b <= |r.es|
  {
    exists k :: a <= k < b && PollOf(r.es[k], i)
  }

  lemma SilentStep(st: Setting, w: World, e: Event, w': World, i: nat)
    requires Step(st, w, e, w') && i < |w.members| && (B.Silent(w.members[i]) || PollOf(e, i))
    requires e.Own? && e.own.Polls? && e.i == i ==>
      forall t, topic, node :: !B.Foreign(w.members[i].names, e.own.state, t, topic, node)
    ensures |w'.members| == |w.members| && B.Silent(w'.members[i])
  {
    hide B.Silent, B.Foreign, B.MemberNext;
    if e.Own? && e.i == i {
      B.SilentStep(st.text, w.members[i], e.own);
    } else if e.Handle? && e.i == i {
      B.SilentStep(st.text, w.members[i], CallEvent(i, w.pending[i][0], e.ans));
    }
  }

  lemma {:induction false} SilentAfterPoll(st: Setting, r: Run, a: nat, b: nat, i: nat)
    requires IsRun(st, r) && a < b < |r.ws| && Deserted(r, a) && i < |r.ws[0].members| && PolledIn(r, a, b, i)
    ensures |r.ws[b].members| == |r.ws[0].members| && B.Silent(r.ws[b].members[i])
  {
    hide B.Silent, B.Foreign, Step, Fits;
    AlwaysFits(st, r, b - 1);
    assert StepAt(st, r, b - 1);
    if !PollOf(r.es[b - 1], i) {
      var k :| a <= k < b && PollOf(r.es[k], i);
      assert PolledIn(r, a, b - 1, i);
      SilentAfterPoll(st, r, a, b - 1, i);
    }
    SilentStep(st, r.ws[b - 1], r.es[b - 1], r.ws[b], i);
  }

  ghost predicate AllSilent(w: World) {
    forall i | 0 <= i < |w.members| :: B.Silent(w.members[i])
  }

  /** From the a-th event on the masters know no nodes but the bridges' own; each bridge polls before the b-th. */
  ghost predicate Withdrawn(r: Run, a: nat, b: nat) {
    && |r.ws| == |r.es| + 1 && a < b <= |r.es| && Deserted(r, a)
    && forall i | 0 <= i < |r.ws[0].members| :: PolledIn(r, a, b, i)
  }

  lemma SilentFromThen(st: Setting, r: Run, a: nat, b: nat, c: nat)
    requires IsRun(st, r) && Withdrawn(r, a, b) && b <= c < |r.ws|
    ensures AllSilent(r.ws[c]) && |r.ws[c].members| == |r.ws[0].members|
  {
    AlwaysFits(st, r, c);
    hide B.Silent, Fits;
    forall i | 0 <= i < |r.ws[c].members| ensures B.Silent(r.ws[c].members[i]) {
      assert PolledIn(r, a, b, i);
      var k :| a <= k < b && PollOf(r.es[k], i);
      assert PolledIn(r, a, c, i) by {
        assert a <= k < c && PollOf(r.es[k], i);
      }
      SilentAfterPoll(st, r, a, c, i);
    }
  }

  // ------------------------------------------------------------------ each key dies away

  lemma NobodyAlive(st: Setting, w: World, key: string)
    requires Fits(st, w) && AllSilent(w)
    ensures G.AllDropped(w.nets(key))
  {
    assert NetFits(st, w, key);
    var c, s := Net(st, key), w.nets(key);
    hide N.Sound, B.Declared;
    forall j | 0 <= j < |s.nodes| ensures !s.nodes[j].alive {
      if s.nodes[j].alive {
        B.SilentDeclaresNothing(w.members[c.session(j)]);
      }
    }
  }

  /** Among bridges that stay silent a key's network sees no join. */
  lemma DyingStep(st: Setting, w: World, e: Event, w': World, key: string, d: nat)
    requires Fits(st, w) && Step(st, w, e, w') && AllSilent(w') && G.Abandoned(Net(st, key), w.nets(key), d)
    ensures G.Abandoned(Net(st, key), w'.nets(key), d)
  {
    var c, s, s' := Net(st, key), w.nets(key), w'.nets(key);
    assert NetFits(st, w, key);
    hide G.Abandoned, N.Sound, N.Next, B.Declared, B.MemberNext;
    match e
    case Tick =>
      assert Moves(c, s, N.Tick, s');
      G.AbandonedStep(c, s, N.Tick, d);
    case Sweep(i, lost) =>
      assert Moves(c, s, SweepMove(w.phases[i], i), s');
      G.AbandonedStep(c, s, SweepMove(w.phases[i], i), d);
    case Aloha(other, move) =>
      if other == key {
        G.AbandonedStep(c, s, move, d);
      }
    case Own(i, own) => DyingChange(st, w, i, own, w', key, d);
    case Handle(i, ans) => DyingChange(st, w, i, CallEvent(i, w.pending[i][0], ans), w', key, d);
  }

  lemma DyingChange(st: Setting, w: World, i: nat, e: B.Event, w': World, key: string, d: nat)
    requires NetFits(st, w, key) && MemberStep(st, w, i, e, w') && AllSilent(w') && G.Abandoned(Net(st, key), w.nets(key), d)
    ensures G.Abandoned(Net(st, key), w'.nets(key), d)
  {
    var c, s, s' := Net(st, key), w.nets(key), w'.nets(key);
    var m' := B.MemberNext(st.text, w.members[i], e);
    assert w'.members[i] == m';
    B.SilentDeclaresNothing(m');
    assert NetChange(c, i, key in B.Declared(w.members[i]), key in B.Declared(m'), s, s');
  }

  lemma {:induction false} KeyDies(st: Setting, r: Run, a: nat, b: nat, c: nat, key: string)
    requires IsRun(st, r) && Withdrawn(r, a, b) && b <= c < |r.ws|
    ensures Fits(st, r.ws[c]) && G.Abandoned(Net(st, key), r.ws[c].nets(key), r.ws[b].now)
  {
    hide G.Abandoned, NetFits, Step, Withdrawn, AllSilent;
    AlwaysFits(st, r, c);
    SilentFromThen(st, r, a, b, c);
    if b == c {
      NobodyAlive(st, r.ws[b], key);
      assert NetFits(st, r.ws[b], key);
      BeginsAt(st, r.ws[b], key);
    } else {
      KeyDies(st, r, a, b, c - 1, key);
      assert StepAt(st, r, c - 1);
      DyingStep(st, r.ws[c - 1], r.es[c - 1], r.ws[c], key, r.ws[b].now);
    }
  }

  lemma BeginsAt(st: Setting, w: World, key: string)
    requires NetFits(st, w, key) && G.AllDropped(w.nets(key))
    ensures G.Abandoned(Net(st, key), w.nets(key), w.now)
  {
    G.AbandonedBegins(Net(st, key), w.nets(key));
  }

  // ------------------------------------------------------------------ callbacks and storages

  /** The callbacks made for a delivered key are those handled and those waiting. */
  ghost predicate Logged(w: World, i: nat, key: string)
    requires i < |w.members| && |w.handled| == |w.pending| == |w.members|
  {
    Delivered("*", w.members[i].bridgeNs, key) ==>
      i < |w.nets(key).subs| && A.Calls(w.handled[i] + w.pending[i], key) == w.nets(key).subs[i].log
  }

  ghost predicate AllDelivered(m: B.Member, calls: Calls) {
    forall k | 0 <= k < |calls| :: Delivered("*", m.bridgeNs, calls[k].0)
  }

  /** The key's last callback, handled by now, made the bridge want the topic. */
  ghost predicate Because(text: seq<Byte> -> bool, m: B.Member, handled: Calls,
                          t: BridgeType, k: TopicDescriptor, key: string) {
    && Delivered("*", m.bridgeNs, key) && A.EndsDeclared(A.Calls(handled, key))
    && var r := Decode(text, key); r.Decoded? && Complement(r.t) == t && r.d == k
  }

  ghost predicate Told(text: seq<Byte> -> bool, m: B.Member, handled: Calls) {
    forall t, k | B.Wants(m, t, k) :: exists key :: Because(text, m, handled, t, k, key)
  }

  /** What a bridge wants after it has handled one more callback. */
  lemma HandledWants(text: seq<Byte> -> bool, m: B.Member, i: nat, call: (string, A.Callback), ans: Answers,
                     t: BridgeType, k: TopicDescriptor)
    requires B.Wants(B.MemberNext(text, m, CallEvent(i, call, ans)), t, k)
    ensures var r := Decode(text, call.0);
      var about := r.Decoded? && Complement(r.t) == t && r.d == k;
      if about then call.1 == A.Declared else B.Wants(m, t, k)
  {
    var ops := B.MemberNext(text, m, CallEvent(i, call, ans)).ops;
    if ops != m.ops {
      assert ops[..|ops| - 1] == m.ops;
    }
  }

  lemma ToldHandle(text: seq<Byte> -> bool, m: B.Member, i: nat, handled: Calls, call: (string, A.Callback), ans: Answers)
    requires Told(text, m, handled) && Delivered("*", m.bridgeNs, call.0)
    ensures Told(text, B.MemberNext(text, m, CallEvent(i, call, ans)), handled + [call])
  {
    var m' := B.MemberNext(text, m, CallEvent(i, call, ans));
    assert m'.bridgeNs == m.bridgeNs;
    forall t, k | B.Wants(m', t, k) ensures exists key :: Because(text, m', handled + [call], t, k, key) {
      HandledWants(text, m, i, call, ans, t, k);
      hide B.MemberNext, Decode, Delivered, B.Wants, A.Calls, Complement;
      var r := Decode(text, call.0);
      if r.Decoded? && Complement(r.t) == t && r.d == k {
        A.OneMoreCall(handled, call, call.0);
        assert Because(text, m', handled + [call], t, k, call.0);
      } else {
        var key :| Because(text, m, handled, t, k, key);
        A.OneMoreCall(handled, call, key);
        assert A.Calls(handled, key) + [] == A.Calls(handled, key);
        assert Because(text, m', handled + [call], t, k, key);
      }
    }
  }

  lemma ToldOwn(text: seq<Byte> -> bool, m: B.Member, e: B.Event, handled: Calls)
    requires Told(text, m, handled) && (e.Polls? || e.Fails? || e.Greets?)
    ensures Told(text, B.MemberNext(text, m, e), handled)
  {
    var m' := B.MemberNext(text, m, e);
    forall t, k | B.Wants(m', t, k) ensures exists key :: Because(text, m', handled, t, k, key) {
      assert B.Wants(m, t, k) by {
        if m'.ops != m.ops {
          assert m'.ops[..|m'.ops| - 1] == m.ops;
        }
      }
      var key :| Because(text, m, handled, t, k, key);
      assert Because(text, m', handled, t, k, key);
    }
  }

  ghost predicate Keeps(st: Setting, w: World, i: nat)
    requires i < |w.members| && |w.handled| == |w.pending| == |w.members|
  {
    && Told(st.text, w.members[i], w.handled[i]) && AllDelivered(w.members[i], w.pending[i])
    && forall key :: Logged(w, i, key)
  }

  /** A subscription makes at most one callback for a key at a time. */
  lemma LogStep(c: N.Config, s: N.Sys, e: N.Event, k: nat)
    requires N.Enabled(c, s, e) && k < |s.subs| && !e.Subscribe?
    ensures k < |N.Next(c, s, e).subs|
    ensures var log, log' := s.subs[k].log, N.Next(c, s, e).subs[k].log;
      && |log| <= |log'| <= |log| + 1 && log' == log + log'[|log|..]
      && (e.Tick? || e.Join? || e.Drop? ==> log' == log)
      && (OfTask(e) ==> log' == log + if e == N.Scan(k) then A.ScanCalls(s.subs[k].entry) else [])
  {
    assert N.Next(c, s, e).subs[k] == N.SubNext(c, s, e, k);
  }

  lemma NetChangeLogs(c: N.Config, i: nat, before: bool, after: bool, s: N.Sys, s': N.Sys, k: nat)
    requires NetChange(c, i, before, after, s, s') && k < |s.subs|
    ensures k < |s'.subs| && s'.subs[k].log == s.subs[k].log
  {
    hide N.Next;
    if after && !before {
      LogStep(c, s, N.Join, k);
    } else if before && !after {
      var j: nat :| IsDeclaration(c, s, i, j) && s' == N.Next(c, s, N.Drop(j));
      LogStep(c, s, N.Drop(j), k);
    }
  }

  /** The new callbacks join those waiting. */
  lemma QueuedIsLogged(st: Setting, w: World, key: string, move: N.Event, w': World, i: nat)
    requires Fits(st, w) && Step(st, w, Aloha(key, move), w') && i < |w.members| && Keeps(st, w, i)
    ensures |w'.handled| == |w'.pending| == |w'.members| == |w.members|
    ensures AllDelivered(w'.members[i], w'.pending[i]) && Logged(w', i, key)
  {
    var c, s, s' := Net(st, key), w.nets(key), w'.nets(key);
    assert Logged(w, i, key) && NetFits(st, w, key);
    hide N.Enabled, N.Sound, Manned, Delivered, Told;
    if Delivered("*", w.members[i].bridgeNs, key) {
      LogStep(c, s, move, i);
      hide N.Next;
      var added := NewCalls(key, s, s', i);
      assert w'.handled[i] + w'.pending[i] == (w.handled[i] + w.pending[i]) + added;
      assert added == [] ==> w'.handled[i] + w'.pending[i] == w.handled[i] + w.pending[i];
      if added != [] {
        A.OneMoreCall(w.handled[i] + w.pending[i], added[0], key);
        assert s'.subs[i].log[|s.subs[i].log|..] == [added[0].1];
      }
    }
  }

  lemma OtherIsLogged(w: World, key: string, w': World, other: string, i: nat)
    requires i < |w.members| && |w.handled| == |w.pending| == |w.members| && Logged(w, i, other) && other != key
    requires w'.members == w.members && w'.handled == w.handled && Queues(w, key, w') && w'.nets(other) == w.nets(other)
    ensures Logged(w', i, other)
  {
    hide Delivered;
    var added := w'.pending[i][|w.pending[i]|..];
    assert w'.handled[i] + w'.pending[i] == (w.handled[i] + w.pending[i]) + added;
    A.CallsOfParts(w.handled[i] + w.pending[i], added, other);
    if added != [] {
      assert added == [] + [added[0]];
      A.OneMoreCall([], added[0], other);
    }
    assert A.Calls(added, other) == [];
  }

  lemma MemberKeepsLogs(st: Setting, w: World, i: nat, e: B.Event, w': World, k: nat, key: string)
    requires |w.handled| == |w.pending| == |w.members| && MemberStep(st, w, i, e, w') && k < |w.members|
    requires |w'.handled| == |w'.pending| == |w.members| && Logged(w, k, key)
    requires w'.handled[k] + w'.pending[k] == w.handled[k] + w.pending[k]
    ensures Logged(w', k, key)
  {
    var m' := B.MemberNext(st.text, w.members[i], e);
    assert m'.bridgeNs == w.members[i].bridgeNs;
    hide Delivered, B.MemberNext, B.Declared, NetChange;
    if Delivered("*", w.members[k].bridgeNs, key) {
      NetChangeLogs(Net(st, key), i, key in B.Declared(w.members[i]), key in B.Declared(m'), w.nets(key), w'.nets(key), k);
    }
  }

  lemma KeepsStep(st: Setting, w: World, e: Event, w': World, i: nat)
    requires Fits(st, w) && Step(st, w, e, w') && i < |w.members| && Keeps(st, w, i)
    ensures |w'.handled| == |w'.pending| == |w'.members| == |w.members| && Keeps(st, w', i)
  {
    hide NetFits, NetChange, B.MemberNext, Delivered, B.Declared, N.Next, N.Enabled, Told, Logged;
    match e
    case Tick => TickKeeps(st, w, w', i);
    case Aloha(key, move) =>
      QueuedIsLogged(st, w, key, move, w', i);
      forall other ensures Logged(w', i, other) {
        if other != key {
          OtherIsLogged(w, key, w', other, i);
        }
      }
    case Sweep(j, lost) => SweepKeeps(st, w, j, lost, w', i);
    case Own(j, own) =>
      forall key ensures Logged(w', i, key) {
        MemberKeepsLogs(st, w, j, own, w', i, key);
      }
      SameSpace(st, w.members[j], own);
      if i == j {
        ToldOwn(st.text, w.members[i], own, w.handled[i]);
      }
    case Handle(j, ans) =>
      var call := w.pending[j][0];
      var own := CallEvent(j, call, ans);
      assert w'.handled[j] + w'.pending[j] == w.handled[j] + w.pending[j];
      forall key ensures Logged(w', i, key) {
        MemberKeepsLogs(st, w, j, own, w', i, key);
      }
      SameSpace(st, w.members[j], own);
      if i == j {
        ToldHandle(st.text, w.members[i], i, w.handled[i], call, ans);
      }
  }

  lemma SameSpace(st: Setting, m: B.Member, e: B.Event)
    ensures B.MemberNext(st.text, m, e).bridgeNs == m.bridgeNs
  {
  }

  lemma TickKeeps(st: Setting, w: World, w': World, i: nat)
    requires Fits(st, w) && Step(st, w, Tick, w') && i < |w.members| && Keeps(st, w, i)
    ensures Keeps(st, w', i)
  {
    hide Delivered, Told;
    forall key ensures Logged(w', i, key) {
      assert Logged(w, i, key) && Moves(Net(st, key), w.nets(key), N.Tick, w'.nets(key));
      hide N.Next, N.Enabled;
      if Delivered("*", w.members[i].bridgeNs, key) {
        LogStep(Net(st, key), w.nets(key), N.Tick, i);
      }
    }
  }

  /** What a scan finds joins the callbacks waiting. */
  lemma SweptIsLogged(st: Setting, w: World, j: nat, lost: seq<string>, w': World, i: nat, key: string)
    requires Fits(st, w) && Step(st, w, Sweep(j, lost), w') && i < |w.members| && Logged(w, i, key)
    ensures |w'.handled| == |w'.pending| == |w'.members| == |w.members| && Logged(w', i, key)
  {
    var c, s, s' := Net(st, key), w.nets(key), w'.nets(key);
    var move := SweepMove(w.phases[j], j);
    assert NetFits(st, w, key) && Moves(c, s, move, s');
    hide N.Enabled, N.Next, N.Sound, Manned, Delivered;
    if Delivered("*", w.members[i].bridgeNs, key) {
      LogStep(c, s, move, i);
      if i == j {
        assert key in lost <==> Lapsed(w, j, key);
        A.CallsOfLost(w.handled[i] + w.pending[i], lost, key);
        assert w'.handled[i] + w'.pending[i] == (w.handled[i] + w.pending[i]) + A.Lose(lost);
      }
    }
  }

  lemma SweepKeeps(st: Setting, w: World, j: nat, lost: seq<string>, w': World, i: nat)
    requires Fits(st, w) && Step(st, w, Sweep(j, lost), w') && i < |w.members| && Keeps(st, w, i)
    ensures |w'.handled| == |w'.pending| == |w'.members| == |w.members| && Keeps(st, w', i)
  {
    forall key ensures Logged(w', i, key) {
      SweptIsLogged(st, w, j, lost, w', i, key);
    }
    hide Delivered, Told, Logged, Moves;
    forall k | 0 <= k < |w'.pending[i]| ensures Delivered("*", w'.members[i].bridgeNs, w'.pending[i][k].0) {
      if i == j && k >= |w.pending[i]| {
        var key := lost[k - |w.pending[i]|];
        assert key in lost;
        assert Lapsed(w, j, key);
      }
    }
  }

  lemma {:induction false} AlwaysKeeps(st: Setting, r: Run, b: nat, i: nat)
    requires IsRun(st, r) && b < |r.ws| && i < |r.ws[0].members|
    ensures Fits(st, r.ws[b]) && |r.ws[b].members| == |r.ws[0].members| && Keeps(st, r.ws[b], i)
  {
    AlwaysFits(st, r, b);
    hide Step, Keeps, NetFits;
    if b == 0 {
      KeepsAtStart(st, r.ws[0], i);
    } else {
      AlwaysKeeps(st, r, b - 1, i);
      assert StepAt(st, r, b - 1);
      KeepsStep(st, r.ws[b - 1], r.es[b - 1], r.ws[b], i);
    }
  }

  lemma KeepsAtStart(st: Setting, w: World, i: nat)
    requires Starts(w) && i < |w.members|
    ensures Keeps(st, w, i)
  {
    hide Delivered;
    assert w.members[i].ops == [];
    forall key ensures Logged(w, i, key) {
      assert w.nets(key) == Empty(|w.members|) && w.handled[i] + w.pending[i] == [];
    }
  }

  // ------------------------------------------------------------------ eight periods later

  lemma ForgottenNow(c: N.Config, s: N.Sys, d: nat, k: nat)
    requires c.window == 3 * c.period && N.Sound(c, s) && G.Abandoned(c, s, d) && s.now >= d + 8 * c.period && k < |s.subs|
    ensures s.subs[k].entry == None && !A.EndsDeclared(s.subs[k].log)
  {
    assert N.SubTimely(c.window, s.now, s.subs[k]);
    assert G.Forgetting(c, s.now, s.subs[k], d + 2 * c.period - 1);
  }

  /** A network that has forgotten its key makes no more callbacks. */
  lemma NoMoreCalls(c: N.Config, s: N.Sys, d: nat, e: N.Event, k: nat)
    requires c.window == 3 * c.period && N.Sound(c, s) && G.Abandoned(c, s, d) && s.now >= d + 8 * c.period && k < |s.subs|
    requires N.Enabled(c, s, e) && !e.Join? && !e.Subscribe?
    ensures k < |N.Next(c, s, e).subs| && N.Next(c, s, e).subs[k].log == s.subs[k].log
  {
    G.AbandonedStep(c, s, e, d);
    ForgottenNow(c, s, d, k);
    hide G.Abandoned, N.Sound;
    assert N.Next(c, s, e).subs[k] == N.SubNext(c, s, e, k);
  }

  lemma {:induction false} NothingPending(st: Setting, r: Run, a: nat, b: nat, c: nat)
    requires IsRun(st, r) && Withdrawn(r, a, b) && b <= c < |r.ws| && r.ws[c].now >= r.ws[b].now + 8 * st.period
    ensures forall i | 0 <= i < |r.ws[c].pending| :: r.ws[c].pending[i] == []
    decreases c
  {
    assert c > b;
    assert StepAt(st, r, c - 1);
    var w, e, w' := r.ws[c - 1], r.es[c - 1], r.ws[c];
    AlwaysFits(st, r, c - 1);
    if !e.Tick? {
      NothingPending(st, r, a, b, c - 1);
      if e.Aloha? {
        KeyDies(st, r, a, b, c - 1, e.key);
        assert NetFits(st, w, e.key);
        forall i | 0 <= i < |w'.pending| ensures w'.pending[i] == [] {
          NoMoreCalls(Net(st, e.key), w.nets(e.key), r.ws[b].now, e.move, i);
        }
      } else if e.Sweep? && e.lost != [] {
        var key := e.lost[0];
        KeyDies(st, r, a, b, c - 1, key);
        assert key in e.lost;
        assert Lapsed(w, e.i, key) && NetFits(st, w, key);
        ForgottenNow(Net(st, key), w.nets(key), r.ws[b].now, e.i);
      }
    }
  }

  lemma NothingWanted(st: Setting, r: Run, a: nat, b: nat, c: nat, i: nat, t: BridgeType, k: TopicDescriptor)
    requires IsRun(st, r) && Withdrawn(r, a, b) && b <= c < |r.ws| && r.ws[c].now >= r.ws[b].now + 8 * st.period
    requires i < |r.ws[c].members|
    ensures !B.Wants(r.ws[c].members[i], t, k)
  {
    AlwaysFits(st, r, c);
    hide Withdrawn, Step;
    var w := r.ws[c];
    AlwaysKeeps(st, r, c, i);
    NothingPending(st, r, a, b, c);
    if B.Wants(w.members[i], t, k) {
      var key :| Because(st.text, w.members[i], w.handled[i], t, k, key);
      KeyDies(st, r, a, b, c, key);
      assert NetFits(st, w, key) && Logged(w, i, key);
      assert w.handled[i] + w.pending[i] == w.handled[i];
      ForgottenNow(Net(st, key), w.nets(key), r.ws[b].now, i);
    }
  }

  /** When no master knows any node but the bridges' own and each bridge has polled, eight periods later every
      storage is empty, and stays so: no bridge, no declaration, no data flow and no announcement keeps itself
      alive by going round, whatever the coins, the back-offs and the order of things. */
  lemma AllStoragesEmptyInTime(st: Setting, r: Run, a: nat, b: nat, c: nat, i: nat)
    requires IsRun(st, r) && Withdrawn(r, a, b) && b <= c < |r.ws| && r.ws[c].now >= r.ws[b].now + 8 * st.period
    requires i < |r.ws[c].members|
    ensures B.EmptyStorage(r.ws[c].members[i])
  {
    var m := r.ws[c].members[i];
    SilentFromThen(st, r, a, b, c);
    assert B.Silent(m);
    forall t, k ensures EntryAfter(m.modes, m.ops, t, k) == None {
      NothingWanted(st, r, a, b, c, i, t, k);
      StorageIsTwoSets(m.modes, m.ops, t, k);
    }
  }
}
