/** Many bridges, one per ROS master, that announce to each other what their masters know. The bridges
    register ROS1 topics of their own on behalf of remote peers; nothing of that is ever announced back,
    so no announcement keeps itself alive by going round. */
module ManyBridges {
  import opened Wrappers
  import opened Topics
  import opened TopicBridges
  import opened StorageHistory
  import opened ResourceCache
  import opened Ros1Client
  import opened TopicMapping
  import opened Discovery

  /** The master's state at a bridge's last poll, what happened while its topics were resolved, and the caches
      before. */
  datatype Reading = Reading(state: SystemState, moments: Moments, before: Caches)

  /** One bridge: its nodes' names, its namespace, its caches and storage history, and its last poll (nothing
      when that failed). */
  datatype Member = Member(
    names: Names, modes: Modes, bridgeNs: string, caches: Caches, ops: seq<Op>, seen: Option<Reading>)

  /** All bridges, and the keys in the air: those that somebody declares, and those withdrawn of which beacons
      may still be put, for a back-off or a task may outlive its declaration, or still be remembered. */
  datatype World = World(members: seq<Member>, air: iset<string>)

  datatype Event =
    | Polls(i: nat, state: SystemState, moments: Moments, answers: Networks)
    | Fails(i: nat)
    | Greets(i: nat, topic: TopicName, hs: Handshake)
    | Appears(i: nat, key: string, ans: Answers)
    | Vanishes(i: nat, key: string, ans: Answers)
    | Beacons(sent: string)
    | Fades(gone: string)

  /** The bridge has the topic declared. */
  ghost predicate Announces(m: Member, t: BridgeType, k: TopicDescriptor) {
    var e := EntryAfter(m.modes, m.ops, t, k);
    e.Some? && e.value.declaration.Some?
  }

  /** The keys of what the bridge has declared. */
  ghost function Declared(m: Member): iset<string> {
    iset key | exists t, k :: Announces(m, t, k) && DiscoveryKey("*", m.bridgeNs, t, k) == Some(key)
  }

  function MappingOf(m: Member, state: SystemState, moments: Moments): (Ros1TopicMapping, Caches) {
    Mapped(m.names, moments, m.caches, Filtered(m.names.bridge, state))
  }

  /** What an event makes of the bridge it happens to. */
  function MemberNext(text: seq<Byte> -> bool, m: Member, e: Event): Member {
    match e
    case Polls(_, state, moments, answers) =>
      var (mapping, caches) := MappingOf(m, state, moments);
      m.(caches := caches, ops := m.ops + [Poll(mapping, answers)], seen := Some(Reading(state, moments, m.caches)))
    case Fails(_) => m.(ops := m.ops + [Clear], seen := None)
    case Greets(_, topic, hs) => m.(caches := Greet(m.caches, topic, hs))
    case Appears(_, key, ans) =>
      var r := Decode(text, key);
      if r.Decoded? then m.(ops := m.ops + [Discovered(r.t, r.d, ans)]) else m
    case Vanishes(_, key, ans) =>
      var r := Decode(text, key);
      if r.Decoded? then m.(ops := m.ops + [Lost(r.t, r.d, ans)]) else m
    case _ => m
  }

  predicate OfMember(e: Event) { !e.Beacons? && !e.Fades? }

  /** A bridge's new declarations put their keys into the air, where they stay at least as long as somebody
      declares them; a beacon may be put, and a key appear, as long as it is there. */
  ghost predicate Step(text: seq<Byte> -> bool, w: World, e: Event, w': World) {
    match e
    case Fades(gone) => (forall m | m in w.members :: gone !in Declared(m)) && w' == World(w.members, w.air - iset{gone})
    case Beacons(sent) => sent in w.air && w' == w
    case _ =>
      && e.i < |w.members| && MayHappen(w, e)
      && var m' := MemberNext(text, w.members[e.i], e);
         w' == World(w.members[e.i := m'], w.air + Declared(m'))
  }

  /** A key appears where it is in the air and delivered. */
  ghost predicate MayHappen(w: World, e: Event)
    requires OfMember(e) && e.i < |w.members|
  {
    e.Appears? ==> e.key in w.air && Delivered("*", w.members[e.i].bridgeNs, e.key)
  }

  datatype Run = Run(ws: seq<World>, es: seq<Event>)

  ghost predicate StepAt(text: seq<Byte> -> bool, r: Run, j: nat)
    requires j < |r.es| && |r.ws| == |r.es| + 1
  {
    Step(text, r.ws[j], r.es[j], r.ws[j + 1])
  }

  ghost predicate Started(m: Member) { m.caches == EMPTY && m.ops == [] && m.seen == None }

  ghost predicate IsRun(text: seq<Byte> -> bool, r: Run) {
    && |r.ws| == |r.es| + 1
    && (forall m | m in r.ws[0].members :: Started(m)) && r.ws[0].air == iset{}
    && forall j | 0 <= j < |r.es| :: StepAt(text, r, j)
  }

  lemma {:induction false} NobodyJoins(text: seq<Byte> -> bool, r: Run, b: nat)
    requires IsRun(text, r) && b < |r.ws|
    ensures |r.ws[b].members| == |r.ws[0].members|
  {
    if b > 0 {
      NobodyJoins(text, r, b - 1);
      assert StepAt(text, r, b - 1);
    }
  }

  // ------------------------------------------------------------------ announcements are backed

  /** The master lists, for this topic, a node that is not one of the bridge's own: neither the bridge's
      node nor, as a publisher, the auxiliary node, which publishes in order to discover subscribers. */
  ghost predicate Foreign(names: Names, s: SystemState, t: BridgeType, topic: TopicName, node: NodeName) {
    Lists(TopicsOf(s, t), topic, node) && node != names.bridge && (t == Publisher ==> node != names.aux)
  }

  /** ... and it was just then known to use the topic with this format. */
  ghost predicate BackedBy(m: Member, r: Reading, t: BridgeType, k: TopicDescriptor, node: NodeName, i: nat) {
    && Foreign(m.names, r.state, t, k.name, node)
    && Uses(m.names, r.moments, r.before, Filtered(m.names.bridge, r.state), t, k, node, i)
  }

  ghost predicate Backed(m: Member, t: BridgeType, k: TopicDescriptor) {
    m.seen.Some? && exists node, i: nat :: BackedBy(m, m.seen.value, t, k, node, i)
  }

  ghost predicate AllBacked(m: Member) {
    forall t, k | k in InRos1(m.modes, m.ops, t) :: Backed(m, t, k)
  }

  lemma AnnouncedIsInRos1(m: Member, t: BridgeType, k: TopicDescriptor)
    requires Announces(m, t, k)
    ensures k in InRos1(m.modes, m.ops, t)
  {
    StorageIsTwoSets(m.modes, m.ops, t, k);
  }

  /** The topics that a poll brings are used by nodes other than the bridge's own. */
  lemma PolledIsBacked(text: seq<Byte> -> bool, m: Member, e: Event, t: BridgeType, k: TopicDescriptor)
    requires e.Polls? && k in InRos1(m.modes, MemberNext(text, m, e).ops, t)
    ensures Backed(MemberNext(text, m, e), t, k)
  {
    var s := Filtered(m.names.bridge, e.state);
    var r := Reading(e.state, e.moments, m.caches);
    MappingMeansUsed(m.names, e.moments, m.caches, s, t, k);
    assert k in PartOf(MappingOf(m, e.state, e.moments).0, t);
    var node, i: nat :| Uses(m.names, e.moments, m.caches, s, t, k, node, i);
    UsedIsForeign(m.names, e.moments, m.caches, e.state, t, k, node, i);
    assert BackedBy(MemberNext(text, m, e), r, t, k, node, i);
  }

  lemma UsedIsForeign(names: Names, at: Moments, c: Caches, s: SystemState, t: BridgeType, k: TopicDescriptor,
                      node: NodeName, i: nat)
    requires Uses(names, at, c, Filtered(names.bridge, s), t, k, node, i)
    ensures Foreign(names, s, t, k.name, node)
  {
    var x :| x in TopicsOf(Filtered(names.bridge, s), t) && x.name == k.name && node in x.connections;
    assert x in TopicsOf(s, t);
  }

  lemma OtherOpsKeepRos1(modes: Modes, ops: seq<Op>, op: Op, t: BridgeType)
    requires op.Discovered? || op.Lost?
    ensures InRos1(modes, ops + [op], t) == InRos1(modes, ops, t)
  {
    assert (ops + [op])[..|ops|] == ops;
  }

  lemma BackedStep(text: seq<Byte> -> bool, m: Member, e: Event)
    requires AllBacked(m)
    ensures AllBacked(MemberNext(text, m, e))
  {
    var m' := MemberNext(text, m, e);
    forall t, k | k in InRos1(m.modes, m'.ops, t) ensures Backed(m', t, k) {
      if e.Polls? {
        PolledIsBacked(text, m, e, t, k);
      } else {
        if m'.ops != m.ops && !e.Fails? {
          OtherOpsKeepRos1(m.modes, m.ops, m'.ops[|m.ops|], t);
        }
        var node, i: nat :| BackedBy(m, m.seen.value, t, k, node, i);
        assert BackedBy(m', m.seen.value, t, k, node, i);
      }
    }
  }

  lemma {:induction false} AllBackedAlways(text: seq<Byte> -> bool, r: Run, b: nat, i: nat)
    requires IsRun(text, r) && b < |r.ws| && i < |r.ws[b].members|
    ensures AllBacked(r.ws[b].members[i])
  {
    if b == 0 {
      assert Started(r.ws[0].members[i]);
    } else {
      NobodyJoins(text, r, b);
      NobodyJoins(text, r, b - 1);
      AllBackedAlways(text, r, b - 1, i);
      assert StepAt(text, r, b - 1);
      BackedStep(text, r.ws[b - 1].members[i], r.es[b - 1]);
    }
  }

  /** In every reachable state, whatever is announced by a bridge is backed by a node, other than the
      bridge's own two (the auxiliary one as a publisher), that its master listed at its last poll and that
      was then known to use the topic with just this data type and checksum. */
  lemma AnnouncementsAreBacked(text: seq<Byte> -> bool, r: Run, b: nat, i: nat, t: BridgeType, k: TopicDescriptor)
    requires IsRun(text, r) && b < |r.ws| && i < |r.ws[b].members| && Announces(r.ws[b].members[i], t, k)
    ensures Backed(r.ws[b].members[i], t, k)
  {
    AllBackedAlways(text, r, b, i);
    AnnouncedIsInRos1(r.ws[b].members[i], t, k);
  }

  // ------------------------------------------------------------------ no announcement keeps itself alive

  /** From the a-th event on no poll finds any node but the bridge's own. */
  ghost predicate Deserted(r: Run, a: nat)
    requires |r.ws| == |r.es| + 1
  {
    forall j | a <= j < |r.es| && r.es[j].Polls? && r.es[j].i < |r.ws[j].members| ::
      forall t, topic, node :: !Foreign(r.ws[j].members[r.es[j].i].names, r.es[j].state, t, topic, node)
  }

  /** The bridge knows of nothing in ROS1, so it announces nothing. */
  ghost predicate Silent(m: Member) {
    forall t :: InRos1(m.modes, m.ops, t) == {}
  }

  /** The i-th bridge's poll, successful or not. */
  predicate PollOf(e: Event, i: nat) { (e.Polls? || e.Fails?) && e.i == i }

  lemma SilentStep(text: seq<Byte> -> bool, m: Member, e: Event)
    requires e.Polls? ==> forall t, topic, node :: !Foreign(m.names, e.state, t, topic, node)
    requires Silent(m) || e.Polls? || e.Fails?
    ensures Silent(MemberNext(text, m, e))
  {
    var m' := MemberNext(text, m, e);
    forall t ensures InRos1(m.modes, m'.ops, t) == {} {
      if e.Polls? {
        forall k | k in InRos1(m.modes, m'.ops, t) ensures false {
          PolledIsBacked(text, m, e, t, k);
        }
      } else if m'.ops != m.ops && !e.Fails? {
        OtherOpsKeepRos1(m.modes, m.ops, m'.ops[|m.ops|], t);
      }
    }
  }

  lemma SilentWorldStep(text: seq<Byte> -> bool, w: World, e: Event, w': World, i: nat)
    requires Step(text, w, e, w') && i < |w.members|
    requires e.Polls? && e.i == i ==> forall t, topic, node :: !Foreign(w.members[i].names, e.state, t, topic, node)
    requires Silent(w.members[i]) || PollOf(e, i)
    ensures Silent(w'.members[i])
  {
    if OfMember(e) && e.i == i {
      SilentStep(text, w.members[i], e);
    }
  }

  ghost predicate PolledIn(r: Run, a: nat, b: nat, i: nat)
    requires b <= |r.es|
  {
    exists j :: a <= j < b && PollOf(r.es[j], i)
  }

  /** One poll, and the bridge is silent for good. */
  lemma {:induction false} SilentAfterPoll(text: seq<Byte> -> bool, r: Run, a: nat, b: nat, i: nat)
    requires IsRun(text, r) && a < b < |r.ws| && Deserted(r, a) && i < |r.ws[0].members|
    requires PolledIn(r, a, b, i)
    ensures |r.ws[b].members| == |r.ws[0].members| && Silent(r.ws[b].members[i])
  {
    hide Silent, Foreign, Step;
    NobodyJoins(text, r, b);
    NobodyJoins(text, r, b - 1);
    assert StepAt(text, r, b - 1);
    if !PollOf(r.es[b - 1], i) {
      var j :| a <= j < b && PollOf(r.es[j], i);
      assert PolledIn(r, a, b - 1, i);
      SilentAfterPoll(text, r, a, b - 1, i);
    }
    SilentWorldStep(text, r.ws[b - 1], r.es[b - 1], r.ws[b], i);
  }

  ghost predicate AllSilent(w: World) {
    forall i | 0 <= i < |w.members| :: Silent(w.members[i])
  }

  /** Once no node but the bridges' own is left, one poll of each bridge withdraws all announcements. */
  lemma OnePollWithdrawsAll(text: seq<Byte> -> bool, r: Run, a: nat, b: nat, i: nat, t: BridgeType, k: TopicDescriptor)
    requires IsRun(text, r) && a < b < |r.ws| && Deserted(r, a)
    requires forall n | 0 <= n < |r.ws[0].members| :: PolledIn(r, a, b, n)
    ensures AllSilent(r.ws[b])
    ensures i < |r.ws[b].members| ==> !Announces(r.ws[b].members[i], t, k)
  {
    NobodyJoins(text, r, b);
    forall n | 0 <= n < |r.ws[b].members| ensures Silent(r.ws[b].members[n]) {
      SilentAfterPoll(text, r, a, b, n);
    }
    if i < |r.ws[b].members| && Announces(r.ws[b].members[i], t, k) {
      AnnouncedIsInRos1(r.ws[b].members[i], t, k);
    }
  }

  lemma SilentFromThen(text: seq<Byte> -> bool, r: Run, a: nat, b: nat, c: nat)
    requires IsRun(text, r) && a < b <= c < |r.ws| && Deserted(r, a)
    requires forall n | 0 <= n < |r.ws[0].members| :: PolledIn(r, a, b, n)
    ensures AllSilent(r.ws[c])
  {
    forall n | 0 <= n < |r.ws[0].members| ensures PolledIn(r, a, c, n) {
      assert PolledIn(r, a, b, n);
      var j :| a <= j < b && PollOf(r.es[j], n);
      assert a <= j < c && PollOf(r.es[j], n);
    }
    OnePollWithdrawsAll(text, r, a, c, 0, Client, TopicDescriptor("", [], ""));
  }

  lemma SilentDeclaresNothing(m: Member)
    requires Silent(m)
    ensures Declared(m) == iset{}
  {
    forall t, k ensures !Announces(m, t, k) {
      if Announces(m, t, k) {
        AnnouncedIsInRos1(m, t, k);
      }
    }
  }

  /** Everything declared is in the air. */
  ghost predicate InTheAir(w: World) {
    forall i | 0 <= i < |w.members| :: Declared(w.members[i]) <= w.air
  }

  lemma InTheAirStep(text: seq<Byte> -> bool, w: World, e: Event, w': World)
    requires InTheAir(w) && Step(text, w, e, w')
    ensures InTheAir(w')
  {
    hide Declared, MemberNext;
    if e.Fades? {
      assert forall i | 0 <= i < |w.members| :: w.members[i] in w.members;
    }
  }

  lemma StartedDeclaresNothing(m: Member)
    requires Started(m)
    ensures Declared(m) == iset{}
  {
    SilentDeclaresNothing(m);
  }

  lemma {:induction false} DeclaredIsInTheAir(text: seq<Byte> -> bool, r: Run, b: nat)
    requires IsRun(text, r) && b < |r.ws|
    ensures InTheAir(r.ws[b])
  {
    hide Declared, Step, Started;
    if b == 0 {
      forall i | 0 <= i < |r.ws[0].members| ensures Declared(r.ws[0].members[i]) <= r.ws[0].air {
        assert r.ws[0].members[i] in r.ws[0].members;
        StartedDeclaresNothing(r.ws[0].members[i]);
      }
    } else {
      DeclaredIsInTheAir(text, r, b - 1);
      assert StepAt(text, r, b - 1);
      InTheAirStep(text, r.ws[b - 1], r.es[b - 1], r.ws[b]);
    }
  }

  /** Among bridges that stay silent nothing comes into the air, and what is not there is neither sent nor
      discovered. */
  lemma QuietStep(text: seq<Byte> -> bool, w: World, e: Event, w': World)
    requires AllSilent(w') && Step(text, w, e, w')
    ensures w'.air <= w.air
    ensures w.air == iset{} ==> !e.Appears? && !e.Beacons?
  {
    if OfMember(e) {
      SilentDeclaresNothing(w'.members[e.i]);
    }
  }

  /** After this event the i-th bridge no longer has the topic wanted. */
  predicate Forgets(text: seq<Byte> -> bool, e: Event, i: nat, t: BridgeType, k: TopicDescriptor) {
    || (e.Fails? && e.i == i)
    || (e.Vanishes? && e.i == i &&
        var r := Decode(text, e.key); r.Decoded? && Complement(r.t) == t && r.d == k)
  }

  lemma WantedStep(text: seq<Byte> -> bool, m: Member, e: Event, i: nat, t: BridgeType, k: TopicDescriptor)
    requires OfMember(e) && !e.Appears? && e.i == i && k in InZenoh(m.modes, MemberNext(text, m, e).ops, t)
    ensures k in InZenoh(m.modes, m.ops, t) && !Forgets(text, e, i, t, k)
  {
    var ops := MemberNext(text, m, e).ops;
    if ops != m.ops {
      assert ops[..|ops| - 1] == m.ops;
    }
  }

  /** Nobody comes to be wanted where nothing is in the air. */
  lemma WantedOnlyLess(text: seq<Byte> -> bool, w: World, e: Event, w': World,
                       i: nat, t: BridgeType, k: TopicDescriptor)
    requires AllSilent(w') && w.air == iset{} && Step(text, w, e, w') && i < |w.members|
    ensures w'.air == iset{} && |w'.members| == |w.members|
    ensures k in InZenoh(w'.members[i].modes, w'.members[i].ops, t) ==>
      k in InZenoh(w.members[i].modes, w.members[i].ops, t) && !Forgets(text, e, i, t, k)
  {
    QuietStep(text, w, e, w');
    if OfMember(e) && e.i == i && k in InZenoh(w'.members[i].modes, w'.members[i].ops, t) {
      WantedStep(text, w.members[i], e, i, t, k);
    }
  }

  /** The bridge is told, in these events, that the topic's peers are gone. */
  ghost predicate ToldLost(text: seq<Byte> -> bool, r: Run, c: nat, d: nat, i: nat, t: BridgeType, k: TopicDescriptor)
    requires d <= |r.es|
  {
    exists j :: c <= j < d && Forgets(text, r.es[j], i, t, k)
  }

  lemma {:induction false} StillWanted(text: seq<Byte> -> bool, r: Run, a: nat, b: nat, c: nat, d: nat,
                                       i: nat, t: BridgeType, k: TopicDescriptor)
    requires IsRun(text, r) && a < b <= c <= d < |r.ws| && Deserted(r, a)
    requires forall n | 0 <= n < |r.ws[0].members| :: PolledIn(r, a, b, n)
    requires r.ws[c].air == iset{} && i < |r.ws[0].members|
    ensures r.ws[d].air == iset{} && |r.ws[c].members| == |r.ws[d].members| == |r.ws[0].members|
    ensures var m := r.ws[d].members[i]; k in InZenoh(m.modes, m.ops, t) ==>
      k in InZenoh(r.ws[c].members[i].modes, r.ws[c].members[i].ops, t) && !ToldLost(text, r, c, d, i, t, k)
  {
    NobodyJoins(text, r, c);
    NobodyJoins(text, r, d);
    hide InZenoh, Forgets, AllSilent, Step, Deserted, PolledIn, Started;
    if d > c {
      StillWanted(text, r, a, b, c, d - 1, i, t, k);
      SilentFromThen(text, r, a, b, d);
      assert StepAt(text, r, d - 1);
      WantedOnlyLess(text, r.ws[d - 1], r.es[d - 1], r.ws[d], i, t, k);
    }
  }

  /** Remote peers want the topic, as far as the bridge knows. */
  predicate Wants(m: Member, t: BridgeType, k: TopicDescriptor) {
    k in InZenoh(m.modes, m.ops, t)
  }

  ghost predicate EmptyStorage(m: Member) {
    forall t, k :: EntryAfter(m.modes, m.ops, t, k) == None
  }

  /** And once the last beacons have died away and every bridge has been told of the losses, all storages
      are empty: no bridge, no declaration and no data flow is left, and none comes back. */
  lemma AllStoragesEmpty(text: seq<Byte> -> bool, r: Run, a: nat, b: nat, c: nat, d: nat)
    requires IsRun(text, r) && a < b <= c <= d < |r.ws| && Deserted(r, a)
    requires forall n | 0 <= n < |r.ws[0].members| :: PolledIn(r, a, b, n)
    requires r.ws[c].air == iset{}
    requires forall i, t, k | 0 <= i < |r.ws[c].members| && Wants(r.ws[c].members[i], t, k) ::
      ToldLost(text, r, c, d, i, t, k)
    ensures forall i | 0 <= i < |r.ws[d].members| :: EmptyStorage(r.ws[d].members[i])
  {
    NobodyJoins(text, r, c);
    NobodyJoins(text, r, d);
    SilentFromThen(text, r, a, b, d);
    forall i, t, k | 0 <= i < |r.ws[d].members|
      ensures var m := r.ws[d].members[i]; EntryAfter(m.modes, m.ops, t, k) == None
    {
      var m := r.ws[d].members[i];
      assert Wants(r.ws[c].members[i], t, k) ==> ToldLost(text, r, c, d, i, t, k);
      StillWanted(text, r, a, b, c, d, i, t, k);
      StorageIsTwoSets(m.modes, m.ops, t, k);
      assert Silent(m);
    }
  }

  // ------------------------------------------------------------------ what bridges are for

  /** Nothing failed so far that concerns this topic's bridge of kind `t`. */
  ghost predicate Unfailing(m: Member, t: BridgeType, k: TopicDescriptor) {
    forall i | 0 <= i < |m.ops| :: NoFailure(m.ops[i], t, k)
  }

  /** A name as ROS1 writes it. */
  predicate Proper(name: string) {
    |name| > 1 && name[0] == '/' && name[1] != '/' && name[|name| - 1] != '/'
  }

  /** The topic's key of this class in the bridge's own namespace. */
  ghost predicate KeyIn(text: seq<Byte> -> bool, m: Member, t: BridgeType, k: TopicDescriptor, key: string) {
    DiscoveryKey("*", m.bridgeNs, t, k) == Some(key) && text(k.datatype_) && Proper(k.name)
  }

  /** A topic that is present is announced, its key reaches every bridge in the namespace, and it is decoded
      there to the same class and topic. */
  lemma PresentIsAnnounced(text: seq<Byte> -> bool, m: Member, t: BridgeType, k: TopicDescriptor, key: string)
    requires k in InRos1(m.modes, m.ops, t) && Unfailing(m, t, k) && KeyIn(text, m, t, k, key)
    ensures key in Declared(m) && Delivered("*", m.bridgeNs, key) && Decode(text, key) == Decoded(t, k)
  {
    ModeDecides(m.modes, m.ops, t, k);
    assert Announces(m, t, k);
    ExactRoundTrip(text, "*", m.bridgeNs, t, k);
    RoundTrip(text, "*", m.bridgeNs, t, k);
    DeliveredIff("*", m.bridgeNs, t, k, "*", m.bridgeNs);
  }

  /** A bridge that has the topic present and handles the key of an opposite entity elsewhere has both flags up,
      and, if nothing failed, the data flow. */
  lemma OppositeConnects(text: seq<Byte> -> bool, m: Member, e: Event, entity: BridgeType, t: BridgeType, k: TopicDescriptor)
    requires e.Appears? && Decode(text, e.key) == Decoded(entity, k) && Opposite(entity, t)
    requires k in InRos1(m.modes, m.ops, t)
    ensures var m' := MemberNext(text, m, e);
      var entry := EntryAfter(m.modes, m'.ops, t, k);
      && entry.Some? && entry.value.ros1 && entry.value.zenoh
      && (Unfailing(m', t, k) ==> entry.value.bridge.Some?)
  {
    var m' := MemberNext(text, m, e);
    assert m'.ops == m.ops + [Discovered(entity, k, e.ans)];
    StorageIsTwoSets(m.modes, m.ops, t, k);
    RemoteEntitiesConcern(m.modes, m.ops, entity, t, k, e.ans);
    OtherOpsKeepRos1(m.modes, m.ops, Discovered(entity, k, e.ans), t);
    StorageIsTwoSets(m.modes, m'.ops, t, k);
    if Unfailing(m', t, k) {
      ModeDecides(m.modes, m'.ops, t, k);
    }
  }

  /** The master of one bridge lists a publisher that answers its probe, the master of another a subscriber of
      the same topic and format that has introduced itself. Both bridges poll, and handle each other's key: then
      both have both sides, and, if nothing failed, both were announced to each other and let the data flow. */
  lemma PublisherMeetsSubscriber(text: seq<Byte> -> bool, a: Member, b: Member, pollA: Event, pollB: Event,
                                 net: ResourceCache.Network, net': ResourceCache.Network,
                                 k: TopicDescriptor, node: NodeName, node': NodeName,
                                 keyA: string, keyB: string, ansA: Answers, ansB: Answers)
    requires a.bridgeNs == b.bridgeNs && KeyIn(text, a, Publisher, k, keyA) && KeyIn(text, b, Subscriber, k, keyB)
    requires a.modes(Publisher, k.name) != Disabled && b.modes(Subscriber, k.name) != Disabled
    requires pollA.Polls? && SteadyPoll(pollA.moments, net) && Lists(pollA.state.publishers, k.name, node)
    requires node != a.names.bridge && node != a.names.aux && Lookup(a.caches.publishers, k.name, node) == None
    requires net.publisher(k.name, node) == Some(Params(k.datatype_, k.md5))
    requires pollB.Polls? && SteadyPoll(pollB.moments, net') && Lists(pollB.state.subscribers, k.name, node')
    requires node' != b.names.bridge && Lookup(b.caches.subscribers, k.name, node') == Some(Params(k.datatype_, k.md5))
    ensures var a1, b1 := MemberNext(text, a, pollA), MemberNext(text, b, pollB);
      && (Unfailing(a1, Publisher, k) ==> keyA in Declared(a1) && Delivered("*", b.bridgeNs, keyA))
      && (Unfailing(b1, Subscriber, k) ==> keyB in Declared(b1) && Delivered("*", a.bridgeNs, keyB))
    ensures var a2 := MemberNext(text, MemberNext(text, a, pollA), Appears(pollA.i, keyB, ansA));
      var entry := EntryAfter(a.modes, a2.ops, Publisher, k);
      && entry.Some? && entry.value.ros1 && entry.value.zenoh && (Unfailing(a2, Publisher, k) ==> entry.value.bridge.Some?)
    ensures var b2 := MemberNext(text, MemberNext(text, b, pollB), Appears(pollB.i, keyA, ansB));
      var entry := EntryAfter(b.modes, b2.ops, Subscriber, k);
      && entry.Some? && entry.value.ros1 && entry.value.zenoh && (Unfailing(b2, Subscriber, k) ==> entry.value.bridge.Some?)
  {
    var a1, b1 := MemberNext(text, a, pollA), MemberNext(text, b, pollB);
    PublisherPresent(text, a, pollA, net, k, node);
    SubscriberPresent(text, b, pollB, net', k, node');
    ExactRoundTrip(text, "*", a.bridgeNs, Publisher, k);
    ExactRoundTrip(text, "*", b.bridgeNs, Subscriber, k);
    if Unfailing(a1, Publisher, k) {
      PresentIsAnnounced(text, a1, Publisher, k, keyA);
    }
    if Unfailing(b1, Subscriber, k) {
      PresentIsAnnounced(text, b1, Subscriber, k, keyB);
    }
    OppositeConnects(text, a1, Appears(pollA.i, keyB, ansA), Subscriber, Publisher, k);
    OppositeConnects(text, b1, Appears(pollB.i, keyA, ansB), Publisher, Subscriber, k);
  }

  lemma PublisherPresent(text: seq<Byte> -> bool, m: Member, poll: Event, net: ResourceCache.Network,
                         k: TopicDescriptor, node: NodeName)
    requires poll.Polls? && SteadyPoll(poll.moments, net) && Lists(poll.state.publishers, k.name, node)
    requires node != m.names.bridge && node != m.names.aux && Lookup(m.caches.publishers, k.name, node) == None
    requires net.publisher(k.name, node) == Some(Params(k.datatype_, k.md5)) && m.modes(Publisher, k.name) != Disabled
    ensures var m' := MemberNext(text, m, poll);
      k in InRos1(m.modes, m'.ops, Publisher) && m'.bridgeNs == m.bridgeNs && m'.modes == m.modes
  {
    PublisherIsFound(m.names, poll.moments, net, m.caches, poll.state, k.name, node, Params(k.datatype_, k.md5));
    PollBrings(m.modes, m.ops, MappingOf(m, poll.state, poll.moments).0, poll.answers, k);
  }

  lemma SubscriberPresent(text: seq<Byte> -> bool, m: Member, poll: Event, net: ResourceCache.Network,
                          k: TopicDescriptor, node: NodeName)
    requires poll.Polls? && SteadyPoll(poll.moments, net) && Lists(poll.state.subscribers, k.name, node)
    requires node != m.names.bridge && Lookup(m.caches.subscribers, k.name, node) == Some(Params(k.datatype_, k.md5))
    requires m.modes(Subscriber, k.name) != Disabled
    ensures var m' := MemberNext(text, m, poll);
      k in InRos1(m.modes, m'.ops, Subscriber) && m'.bridgeNs == m.bridgeNs && m'.modes == m.modes
  {
    FilterIsTransparent(m.names, poll.moments, net, m.caches, poll.state);
    KnownIsFound(m.names, poll.moments, net, m.caches, poll.state, k.name, node, Params(k.datatype_, k.md5));
    PollBrings(m.modes, m.ops, MappingOf(m, poll.state, poll.moments).0, poll.answers, k);
  }

  /** A bridge whose master lists a service announces it, and whoever handles its key has a client, with the
      data flow if nothing failed, whether its own side asks for it or not. */
  lemma ServiceIsOffered(text: seq<Byte> -> bool, a: Member, b: Member, poll: Event, net: ResourceCache.Network,
                         k: TopicDescriptor, node: NodeName, key: string, i: nat, ans: Answers)
    requires a.bridgeNs == b.bridgeNs && KeyIn(text, a, Service, k, key)
    requires a.modes(Service, k.name) != Disabled && b.modes(Client, k.name) != Disabled
    requires poll.Polls? && SteadyPoll(poll.moments, net) && Lists(poll.state.services, k.name, node)
    requires node != a.names.bridge && Lookup(a.caches.services, k.name, node) == None
    requires net.service(k.name) == Some(Params(k.datatype_, k.md5))
    ensures var a1 := MemberNext(text, a, poll);
      Unfailing(a1, Service, k) ==> key in Declared(a1) && Delivered("*", b.bridgeNs, key)
    ensures var b1 := MemberNext(text, b, Appears(i, key, ans));
      var entry := EntryAfter(b.modes, b1.ops, Client, k);
      entry.Some? && entry.value.zenoh && (Unfailing(b1, Client, k) ==> entry.value.bridge.Some?)
  {
    ExactRoundTrip(text, "*", a.bridgeNs, Service, k);
    ServicePresent(text, a, poll, net, k, node);
    if Unfailing(MemberNext(text, a, poll), Service, k) {
      PresentIsAnnounced(text, MemberNext(text, a, poll), Service, k, key);
    }
    ClientConnects(text, b, Appears(i, key, ans), k);
  }

  lemma ServicePresent(text: seq<Byte> -> bool, m: Member, poll: Event, net: ResourceCache.Network,
                       k: TopicDescriptor, node: NodeName)
    requires poll.Polls? && SteadyPoll(poll.moments, net) && Lists(poll.state.services, k.name, node)
    requires node != m.names.bridge && Lookup(m.caches.services, k.name, node) == None
    requires net.service(k.name) == Some(Params(k.datatype_, k.md5)) && m.modes(Service, k.name) != Disabled
    ensures var m' := MemberNext(text, m, poll);
      k in InRos1(m.modes, m'.ops, Service) && m'.bridgeNs == m.bridgeNs && m'.modes == m.modes
  {
    ServiceIsFound(m.names, poll.moments, net, m.caches, poll.state, k.name, node, Params(k.datatype_, k.md5));
    PollBrings(m.modes, m.ops, MappingOf(m, poll.state, poll.moments).0, poll.answers, k);
  }

  lemma ClientConnects(text: seq<Byte> -> bool, m: Member, e: Event, k: TopicDescriptor)
    requires e.Appears? && Decode(text, e.key) == Decoded(Service, k) && m.modes(Client, k.name) != Disabled
    ensures var m' := MemberNext(text, m, e);
      var entry := EntryAfter(m.modes, m'.ops, Client, k);
      entry.Some? && entry.value.zenoh && (Unfailing(m', Client, k) ==> entry.value.bridge.Some?)
  {
    var m' := MemberNext(text, m, e);
    assert m'.ops == m.ops + [Discovered(Service, k, e.ans)];
    RemoteEntitiesConcern(m.modes, m.ops, Service, Client, k, e.ans);
    StorageIsTwoSets(m.modes, m'.ops, Client, k);
    if Unfailing(m', Client, k) {
      ModeDecides(m.modes, m'.ops, Client, k);
    }
  }
}
