/** The poll loop (ros1_to_zenoh_bridge_impl.rs): read the ROS master, feed the storage or clear it, and
    report. Remote entities come and go between the polls, under the same lock. */
module PollLoop {
  import opened Wrappers
  import opened Topics
  import opened StorageHistory
  import opened NodeStorage
  import opened ResourceCache
  import opened Ros1Client
  import opened TopicMapping

  datatype RosStatus = Unknown | Ok | Error

  /** One turn of the loop: the remote events handled before it takes the lock, then the poll's outcome
      (nothing if the master cannot be read) and the network's answers meanwhile. */
  datatype Round = Round(remote: seq<Op>, poll: Option<Ros1TopicMapping>, net: Networks)

  predicate Remote(op: Op) { op.Discovered? || op.Lost? }

  function PollOp(r: Round): Op {
    if r.poll.Some? then Poll(r.poll.value, r.net) else Clear
  }

  function Outcome(r: Round): RosStatus {
    if r.poll.Some? then Ok else Error
  }

  /** Everything done to the storage in these rounds. */
  function Ops(rounds: seq<Round>): seq<Op> {
    if rounds == [] then []
    else
      var last := rounds[|rounds| - 1];
      Ops(rounds[..|rounds| - 1]) + last.remote + [PollOp(last)]
  }

  // ------------------------------------------------------------------ what is reported

  const NOTHING := BridgeStatus((0, 0), (0, 0), (0, 0), (0, 0))

  /** The outcomes with consecutive repetitions left out. */
  function Transitions(rounds: seq<Round>): seq<RosStatus> {
    if rounds == [] then []
    else
      var before, outcome := Transitions(rounds[..|rounds| - 1]), Outcome(rounds[|rounds| - 1]);
      if StatusAfter(rounds[..|rounds| - 1]) == outcome then before else before + [outcome]
  }

  function StatusAfter(rounds: seq<Round>): RosStatus {
    if rounds == [] then Unknown else Outcome(rounds[|rounds| - 1])
  }

  /** How long the loop sleeps after its i-th round: half the interval after a poll that changed something. */
  ghost function SleepAfter(modes: Modes, rounds: seq<Round>, i: nat, interval: nat): nat
    requires i < |rounds|
  {
    if rounds[i].poll.Some? && Effective(modes, Ops(rounds[..i]) + rounds[i].remote, PollOp(rounds[i]))
    then interval / 2 else interval
  }

  // ------------------------------------------------------------------ from the master's state to a round

  /** What a turn meets: the handshakes processed since the last poll, the master's state if it can be read,
      what happens while its topics are resolved, the remote events handled before the turn takes the
      storage's lock, and the network's answers to the storage. */
  datatype Meeting = Meeting(
    greets: seq<(TopicName, Handshake)>, state: Option<SystemState>, moments: Moments, remote: seq<Op>, net: Networks)

  predicate ProperMeeting(x: Meeting) { forall i | 0 <= i < |x.remote| :: Remote(x.remote[i]) }

  function PollOf(own: string, names: Names, c: Caches, x: Meeting): (Option<Ros1TopicMapping>, Caches) {
    var greeted := GreetAll(c, x.greets);
    if x.state == None then (None, greeted)
    else
      var (mapping, caches) := Mapped(names, x.moments, greeted, Filtered(own, x.state.value));
      (Some(mapping), caches)
  }

  /** The cache is threaded through the polls. */
  function CachesAfter(own: string, names: Names, c: Caches, met: seq<Meeting>): Caches {
    if met == [] then c
    else PollOf(own, names, CachesAfter(own, names, c, met[..|met| - 1]), met[|met| - 1]).1
  }

  function RoundAfter(own: string, names: Names, c: Caches, x: Meeting): Round {
    Round(x.remote, PollOf(own, names, c, x).0, x.net)
  }

  function RoundsOf(own: string, names: Names, c: Caches, met: seq<Meeting>): seq<Round> {
    if met == [] then []
    else
      var init := met[..|met| - 1];
      RoundsOf(own, names, c, init) + [RoundAfter(own, names, CachesAfter(own, names, c, init), met[|met| - 1])]
  }

  lemma NothingMet(own: string, names: Names, c: Caches)
    ensures CachesAfter(own, names, c, []) == c && RoundsOf(own, names, c, []) == []
  {
  }

  lemma OneMoreMeeting(own: string, names: Names, c: Caches, met: seq<Meeting>, i: nat)
    requires i < |met|
    ensures var before := CachesAfter(own, names, c, met[..i]);
      && CachesAfter(own, names, c, met[..i + 1]) == PollOf(own, names, before, met[i]).1
      && RoundsOf(own, names, c, met[..i + 1]) ==
           RoundsOf(own, names, c, met[..i]) + [RoundAfter(own, names, before, met[i])]
  {
    assert met[..i + 1][..i] == met[..i];
  }

  lemma FilterKeepsOthers(own: string, s: SystemState, topic: TopicName, node: NodeName)
    requires Lists(s.subscribers, topic, node) && node != own
    ensures Lists(Filtered(own, s).subscribers, topic, node)
  {
    var x :| x in s.subscribers && x.name == topic && node in x.connections;
    assert x in Filtered(own, s).subscribers;
  }

  /** The i-th of these handshakes is this node's, for this topic, and complete. */
  predicate Introduces(greets: seq<(TopicName, Handshake)>, i: nat, topic: TopicName, node: NodeName) {
    && i < |greets| && greets[i].0 == topic && greets[i].1.callerid == Some(node)
    && greets[i].1.type_.Some? && greets[i].1.md5sum.Some?
  }

  lemma {:induction false} LatestIsLast(greets: seq<(TopicName, Handshake)>, i: nat, topic: TopicName, node: NodeName)
    requires Introduces(greets, i, topic, node) && forall j: nat | i < j :: !Introduces(greets, j, topic, node)
    ensures LastGreeting(greets, topic, node) == Some(Params(greets[i].1.type_.value, greets[i].1.md5sum.value))
  {
    var init, last := greets[..|greets| - 1], greets[|greets| - 1];
    assert LastOf([last.1][..0], node) == None;
    if i < |greets| - 1 {
      assert !Introduces(greets, |greets| - 1, topic, node);
      assert forall j: nat | j < |greets| - 1 :: Introduces(init, j, topic, node) == Introduces(greets, j, topic, node);
      LatestIsLast(init, i, topic, node);
    }
  }

  /** A subscriber that the master lists at two polls, and that introduces itself in between, is found at the
      second one with the format it named last, whoever else introduces himself before or after. */
  lemma SubscribersAreFound(own: string, names: Names, c: Caches, x: Meeting, y: Meeting, net: Network, net': Network,
                            topic: TopicName, node: NodeName, i: nat)
    requires own == names.bridge && node != own
    requires x.state.Some? && Lists(x.state.value.subscribers, topic, node) && SteadyPoll(x.moments, net) && net.opens(topic)
    requires y.state.Some? && Lists(y.state.value.subscribers, topic, node) && SteadyPoll(y.moments, net')
    requires Introduces(y.greets, i, topic, node) && forall j: nat | i < j :: !Introduces(y.greets, j, topic, node)
    ensures var found, hs := PollOf(own, names, PollOf(own, names, c, x).1, y).0, y.greets[i].1;
      found.Some? && TopicDescriptor(topic, hs.type_.value, hs.md5sum.value) in found.value.subscribed
  {
    LatestIsLast(y.greets, i, topic, node);
    hide Filtered, AskAll, Found, Questions, Lists, SteadyPoll, Introduces, LastGreeting;
    var c1 := PollOf(own, names, c, x).1;
    FilterKeepsOthers(own, x.state.value, topic, node);
    FilterKeepsOthers(own, y.state.value, topic, node);
    var greeted := GreetAll(c1, y.greets);
    assert c1 == Mapped(names, x.moments, GreetAll(c, x.greets), Filtered(own, x.state.value)).1;
    hide Mapped;
    PollOpens(names, x.moments, net, GreetAll(c, x.greets), Filtered(own, x.state.value), topic, node);
    GreetedAll(c1, y.greets, topic, node);
    KnownIsFound(names, y.moments, net', greeted, Filtered(own, y.state.value), topic, node,
                 Params(y.greets[i].1.type_.value, y.greets[i].1.md5sum.value));
  }

  // ------------------------------------------------------------------ the loop

  /** After each round the report matches the storage. */
  ghost predicate Reported(modes: Modes, rounds: seq<Round>, reports: seq<BridgeStatus>) {
    |reports| == |rounds| && forall i | 0 <= i < |rounds| :: reports[i] == ReportAfter(modes, Ops(rounds[..i + 1]))
  }

  ghost predicate Slept(modes: Modes, rounds: seq<Round>, interval: nat, sleeps: seq<nat>) {
    |sleeps| == |rounds| && forall i | 0 <= i < |rounds| :: sleeps[i] == SleepAfter(modes, rounds, i, interval)
  }

  lemma NoRounds(modes: Modes, interval: nat)
    ensures Ops([]) == [] && Transitions([]) == [] && StatusAfter([]) == Unknown
    ensures Reported(modes, [], []) && Slept(modes, [], interval, [])
  {
  }

  lemma OneMoreRound(modes: Modes, rounds: seq<Round>, r: Round, interval: nat, reports: seq<BridgeStatus>, sleeps: seq<nat>)
    requires Reported(modes, rounds, reports) && Slept(modes, rounds, interval, sleeps)
    ensures var rounds', h := rounds + [r], Ops(rounds) + r.remote;
      && Ops(rounds') == h + [PollOp(r)] && StatusAfter(rounds') == Outcome(r)
      && Transitions(rounds') == Transitions(rounds) + (if StatusAfter(rounds) == Outcome(r) then [] else [Outcome(r)])
      && Reported(modes, rounds', reports + [ReportAfter(modes, h + [PollOp(r)])])
      && Slept(modes, rounds', interval,
               sleeps + [if r.poll.Some? && Effective(modes, h, PollOp(r)) then interval / 2 else interval])
  {
    hide ReportAfter, Effective;
    var rounds' := rounds + [r];
    assert rounds'[..|rounds|] == rounds && rounds'[..|rounds'|] == rounds';
    assert forall i | 0 <= i <= |rounds| :: rounds'[..i] == rounds[..i];
  }

  method HandleRemote(s: Storage, op: Op)
    requires s.Valid() && Remote(op)
    modifies s
    ensures s.Valid() && s.history == old(s.history) + [op]
  {
    match op
    case Discovered(entity, topic, ans) => s.EntityDiscovered(entity, topic, ans);
    case Lost(entity, topic, ans) => s.EntityLost(entity, topic, ans);
  }

  method HandleAll(s: Storage, ops: seq<Op>)
    requires s.Valid() && forall i | 0 <= i < |ops| :: Remote(ops[i])
    modifies s
    ensures s.Valid() && s.history == old(s.history) + ops
  {
    for i := 0 to |ops|
      invariant s.Valid() && s.history == old(s.history) + ops[..i]
    {
      HandleRemote(s, ops[i]);
    }
  }

  class RosToZenohBridge {
    var rosStatus: RosStatus
    var statusCalls: seq<RosStatus>
    var reports: seq<BridgeStatus>
    var sleeps: seq<nat>

    constructor ()
      ensures rosStatus == Unknown && statusCalls == [] && reports == [] && sleeps == []
    {
      rosStatus, statusCalls, reports, sleeps := Unknown, [], [], [];
    }

    method TransitRosStatus(status: RosStatus)
      modifies `rosStatus, `statusCalls
      ensures rosStatus == status
      ensures statusCalls == if old(rosStatus) == status then old(statusCalls) else old(statusCalls) + [status]
    {
      if rosStatus != status {
        rosStatus := status;
        statusCalls := statusCalls + [status];
      }
    }

    method ReportBridgeStatistics(s: Storage)
      requires s.Valid()
      modifies `reports
      ensures reports == old(reports) + [ReportAfter(s.modes, s.history)]
    {
      var status := s.Status();
      reports := reports + [status];
    }

    /** What one turn does once the poll's outcome is known, up to its sleep. */
    method Turn(s: Storage, r: Round, interval: nat)
      requires s.Valid()
      modifies this, s
      ensures s.Valid() && s.history == old(s.history) + [if r.poll.Some? then Poll(r.poll.value, r.net) else Clear]
      ensures rosStatus == if r.poll.Some? then Ok else Error
      ensures statusCalls == if old(rosStatus) == rosStatus then old(statusCalls) else old(statusCalls) + [rosStatus]
      ensures reports == old(reports) + [ReportAfter(s.modes, s.history)]
      ensures r.poll == None ==> s.bridges == Bridges(map[], map[], map[], map[]) && reports == old(reports) + [NOTHING]
      ensures var effective := r.poll.Some? && Effective(s.modes, old(s.history), Poll(r.poll.value, r.net));
        sleeps == old(sleeps) + [if effective then interval / 2 else interval]
    {
      match r.poll
      case Some(state) =>
        TransitRosStatus(Ok);
        var changed := s.ReceiveRos1State(state, r.net);
        ReportBridgeStatistics(s);
        sleeps := sleeps + [if changed then interval / 2 else interval];
      case None =>
        TransitRosStatus(Error);
        s.Clear();
        ErrorReportsNothing(s.modes, old(s.history));
        ReportBridgeStatistics(s);
        sleeps := sleeps + [interval];
    }

    /** The loop, for as many turns as the flag stays up. */
    method Run(client: Ros1Client, cache: Ros1ResourceCache, s: Storage, met: seq<Meeting>, interval: nat)
      requires s.Valid() && s.history == []
      requires rosStatus == Unknown && statusCalls == [] && reports == [] && sleeps == []
      requires forall i | 0 <= i < |met| :: ProperMeeting(met[i])
      modifies this, s, cache
      ensures var rounds := RoundsOf(client.name, cache.names, old(cache.State()), met);
        && s.Valid() && s.history == Ops(rounds)
        && cache.State() == CachesAfter(client.name, cache.names, old(cache.State()), met)
        && statusCalls == Transitions(rounds)
        && Reported(s.modes, rounds, reports) && Slept(s.modes, rounds, interval, sleeps)
      ensures rosStatus == if met == [] then Unknown else if met[|met| - 1].state.Some? then Ok else Error
      ensures |reports| == |met| && forall i | 0 <= i < |met| && met[i].state == None :: reports[i] == NOTHING
      ensures met != [] && met[|met| - 1].state == None ==> s.bridges == Bridges(map[], map[], map[], map[])
    {
      hide Reached, ReportAfter, Effective, Ops, Transitions, StatusAfter;
      hide RoundsOf, CachesAfter, GreetAll, Mapped, Filtered, Reported, Slept;
      ghost var own, names, c, rounds := client.name, cache.names, cache.State(), [];
      NoRounds(s.modes, interval);
      NothingMet(own, names, c);
      for i := 0 to |met|
        invariant rounds == RoundsOf(own, names, c, met[..i]) && cache.State() == CachesAfter(own, names, c, met[..i])
        invariant s.Valid() && s.history == Ops(rounds)
        invariant rosStatus == StatusAfter(rounds) && statusCalls == Transitions(rounds)
        invariant Reported(s.modes, rounds, reports) && Slept(s.modes, rounds, interval, sleeps)
        invariant rosStatus == if i == 0 then Unknown else if met[i - 1].state.Some? then Ok else Error
        invariant |reports| == i && forall j | 0 <= j < i && met[j].state == None :: reports[j] == NOTHING
        invariant i > 0 && met[i - 1].state == None ==> s.bridges == Bridges(map[], map[], map[], map[])
      {
        OneMoreMeeting(own, names, c, met, i);
        ghost var round := RoundAfter(own, names, cache.State(), met[i]);
        OneMoreRound(s.modes, rounds, round, interval, reports, sleeps);
        cache.ProcessHandshakes(met[i].greets);
        var poll := ReadMapping(client, met[i].state, cache, met[i].moments);
        HandleAll(s, met[i].remote);
        Turn(s, Round(met[i].remote, poll, met[i].net), interval);
        rounds := rounds + [round];
      }
      assert met[..|met|] == met;
    }
  }

  // ------------------------------------------------------------------ what the reports amount to

  /** The status callback is called with the outcomes, never twice in a row with the same, and last with
      the current one. */
  lemma {:induction false} TransitionsChange(rounds: seq<Round>)
    ensures var calls := Transitions(rounds);
      && (forall i | 0 <= i < |calls| - 1 :: calls[i] != calls[i + 1])
      && (rounds != [] ==> calls != [] && calls[|calls| - 1] == StatusAfter(rounds))
      && (rounds == [] ==> calls == [])
      && Unknown !in calls
  {
    if rounds != [] {
      TransitionsChange(rounds[..|rounds| - 1]);
    }
  }

  /** After an error everything is reported as nought. */
  lemma ErrorReportsNothing(modes: Modes, h: seq<Op>)
    ensures ReportAfter(modes, h + [Clear]) == NOTHING
  {
    forall t ensures CountsAfter(modes, h + [Clear], t) == (0, 0) {
      assert InRos1(modes, h + [Clear], t) == {} && InZenoh(modes, h + [Clear], t) == {};
      assert (set k | k in InRos1(modes, h + [Clear], t) + InZenoh(modes, h + [Clear], t) &&
                      IsLive(EntryAfter(modes, h + [Clear], t, k))) == {};
    }
  }

  /** What the last turn came to, told from whether the master could be read. If it could not, nothing of any
      kind is left. If it could, what remote peers want is as before, and what is present is what was found. */
  lemma LastTurnDecides(own: string, names: Names, c: Caches, met: seq<Meeting>, modes: Modes, k: TopicDescriptor)
    requires met != []
    ensures var init, x := met[..|met| - 1], met[|met| - 1];
      var h, h' := Ops(RoundsOf(own, names, c, init)) + x.remote, Ops(RoundsOf(own, names, c, met));
      if x.state == None then forall t :: EntryAfter(modes, h', t, k) == None
      else
        var found := Mapped(names, x.moments, GreetAll(CachesAfter(own, names, c, init), x.greets),
                            Filtered(own, x.state.value)).0;
        && (k in InRos1(modes, h', Publisher) <==> k in found.published && modes(Publisher, k.name) != Disabled)
        && (k in InRos1(modes, h', Subscriber) <==> k in found.subscribed && modes(Subscriber, k.name) != Disabled)
        && (k in InRos1(modes, h', Service) <==> k in found.serviced && modes(Service, k.name) != Disabled)
        && forall t :: InZenoh(modes, h', t) == InZenoh(modes, h, t)
  {
    var init, x := met[..|met| - 1], met[|met| - 1];
    var rounds := RoundsOf(own, names, c, init);
    var round := RoundAfter(own, names, CachesAfter(own, names, c, init), x);
    assert RoundsOf(own, names, c, met) == rounds + [round];
    assert (rounds + [round])[..|rounds|] == rounds;
    var h := Ops(rounds) + x.remote;
    assert Ops(rounds + [round]) == h + [PollOp(round)];
    hide Mapped, Filtered, GreetAll, CachesAfter, Ops, RoundsOf;
    if x.state.Some? {
      PollBrings(modes, h, round.poll.value, x.net, k);
    }
  }
}
