/** All the bridges of one node (bridges_storage.rs): a map per kind, changed by polls of the ROS master,
    by remote entities discovered and lost, and cleared when the master cannot be read. */
module BridgesStorage {
  import opened Wrappers
  import opened Topics
  import opened TopicBridges

  /** The network's answers during one operation, for each topic it may touch. */
  type Network = TopicDescriptor -> Answers

  /** The map owns its bridges: updating one through the map is updating the map. */
  type Container = map<TopicDescriptor, Bridge>

  function At(c: Container, k: TopicDescriptor): Option<Bridge> {
    if k in c then Some(c[k]) else None
  }

  // ------------------------------------------------------------------ one entry

  /** What a poll does to a topic's entry, `present` saying whether the topic is in the snapshot. */
  function ReceiveOne(t: BridgeType, mode: BridgingMode, e: Option<Bridge>, present: bool, ans: Answers): Option<Bridge> {
    match e
    case Some(b) =>
      var b' := SetRos1(t, mode, b, present, ans);
      if Actual(b') then Some(b') else None
    case None =>
      if present && mode != Disabled then Some(SetRos1(t, mode, NEW, true, ans)) else None
  }

  function LoseOne(t: BridgeType, mode: BridgingMode, e: Option<Bridge>, ans: Answers): Option<Bridge> {
    match e
    case Some(b) =>
      var b' := SetZenoh(t, mode, b, false, ans);
      if b.zenoh && !Actual(b') then None else Some(b')
    case None => None
  }

  function DiscoverOne(t: BridgeType, mode: BridgingMode, e: Option<Bridge>, ans: Answers): Option<Bridge> {
    if mode == Disabled then e
    else Some(SetZenoh(t, mode, if e.Some? then e.value else NEW, true, ans))
  }

  /** An entry's presence and flags. */
  function FlagsOf(e: Option<Bridge>): Option<(bool, bool)> {
    if e.Some? then Some((e.value.ros1, e.value.zenoh)) else None
  }

  /** What a poll leaves of an entry before it creates new ones. */
  function KeepOne(t: BridgeType, mode: BridgingMode, e: Option<Bridge>, present: bool, ans: Answers): Option<Bridge> {
    if e.Some? && Actual(SetRos1(t, mode, e.value, present, ans))
    then Some(SetRos1(t, mode, e.value, present, ans)) else None
  }

  /** The first two signs of change that a poll looks for: a flag set anew, a bridge erased. */
  predicate Stale(t: BridgeType, mode: BridgingMode, e: Option<Bridge>, present: bool, ans: Answers) {
    e.Some? && (e.value.ros1 != present || !Actual(SetRos1(t, mode, e.value, present, ans)))
  }

  lemma ReceiveInTwoSteps(t: BridgeType, mode: BridgingMode, e: Option<Bridge>, present: bool, ans: Answers)
    ensures ReceiveOne(t, mode, e, present, ans) ==
      if e == None && present && mode != Disabled then Some(SetRos1(t, mode, NEW, true, ans))
      else KeepOne(t, mode, e, present, ans)
    ensures FlagsOf(ReceiveOne(t, mode, e, present, ans)) != FlagsOf(e) <==>
      Stale(t, mode, e, present, ans) || (e == None && present && mode != Disabled)
  {
  }

  // ------------------------------------------------------------------ one container

  method ComplementaryEntityLost(t: BridgeType, modes: Modes, c: Container, topic: TopicDescriptor, ans: Answers)
    returns (c': Container)
    ensures forall k :: At(c', k) == if k == topic then LoseOne(t, modes(t, k.name), At(c, k), ans) else At(c, k)
  {
    c' := c;
    if topic in c {
      var bridge := SetZenoh(t, modes(t, topic.name), c[topic], false, ans);
      var changed := c[topic].zenoh;
      c' := c'[topic := bridge];
      if changed && !Actual(bridge) {
        c' := c' - {topic};
      }
    }
  }

  method ComplementaryEntityDiscovered(t: BridgeType, modes: Modes, c: Container, topic: TopicDescriptor, ans: Answers)
    returns (c': Container)
    ensures forall k :: At(c', k) == if k == topic then DiscoverOne(t, modes(t, k.name), At(c, k), ans) else At(c, k)
  {
    c' := c;
    var mode := modes(t, topic.name);
    if mode != Disabled {
      if topic !in c' {
        c' := c'[topic := NEW];
      }
      c' := c'[topic := SetZenoh(t, mode, c'[topic], true, ans)];
    }
  }

  /** First loop: tell every bridge whether its topic is present, taking it out of the snapshot. */
  method ActualizeAll(t: BridgeType, modes: Modes, c: Container, present: set<TopicDescriptor>, net: Network)
    returns (c': Container, rest: set<TopicDescriptor>, changed: bool)
    ensures c'.Keys == c.Keys && rest == present - c.Keys
    ensures forall k | k in c :: c'[k] == SetRos1(t, modes(t, k.name), c[k], k in present, net(k))
    ensures changed <==> exists k :: k in c && c[k].ros1 != (k in present)
  {
    c', rest, changed := c, present, false;
    var todo := c.Keys;
    while todo != {}
      invariant todo <= c.Keys == c'.Keys && rest == present - (c.Keys - todo)
      invariant forall k | k in todo :: c'[k] == c[k]
      invariant forall k | k in c && k !in todo :: c'[k] == SetRos1(t, modes(t, k.name), c[k], k in present, net(k))
      invariant changed <==> exists k :: k in c && k !in todo && c[k].ros1 != (k in present)
    {
      var k :| k in todo;
      changed := changed || c'[k].ros1 != (k in rest);
      c' := c'[k := SetRos1(t, modes(t, k.name), c'[k], k in rest, net(k))];
      rest := rest - {k};
      todo := todo - {k};
    }
  }

  /** The retain between the loops. */
  method EraseNonActual(c: Container) returns (c': Container, changed: bool)
    ensures c' == map k | k in c && Actual(c[k]) :: c[k]
    ensures changed <==> exists k :: k in c && !Actual(c[k])
  {
    c' := map k | k in c && Actual(c[k]) :: c[k];
    changed := |c| != |c'|;
    assert c'.Keys <= c.Keys;
    if |c'| == |c| {
      SameSizeSameSet(c'.Keys, c.Keys);
      assert forall k | k in c :: k in c'.Keys;
    } else {
      assert c'.Keys != c.Keys;
      assert exists k :: k in c.Keys && k !in c'.Keys;
    }
  }

  /** Last loop: create a bridge for every topic left in the snapshot. An occupied entry cannot occur. */
  method CreateNew(t: BridgeType, modes: Modes, c: Container, rest: set<TopicDescriptor>, net: Network)
    returns (c': Container, changed: bool)
    requires rest !! c.Keys
    ensures forall k :: At(c', k) ==
              if k in rest && modes(t, k.name) != Disabled
              then Some(SetRos1(t, modes(t, k.name), NEW, true, net(k))) else At(c, k)
    ensures changed <==> exists k :: k in rest && modes(t, k.name) != Disabled
  {
    c', changed := c, false;
    var todo := rest;
    while todo != {}
      invariant todo <= rest && todo !! c'.Keys
      invariant forall k :: At(c', k) ==
                  if k in rest && k !in todo && modes(t, k.name) != Disabled
                  then Some(SetRos1(t, modes(t, k.name), NEW, true, net(k))) else At(c, k)
      invariant changed <==> exists k :: k in rest && k !in todo && modes(t, k.name) != Disabled
    {
      var topic :| topic in todo;
      var mode := modes(t, topic.name);
      if mode != Disabled {
        if topic in c' {
          assert false;
        } else {
          c' := c'[topic := SetRos1(t, mode, NEW, true, net(topic))];
          changed := true;
        }
      }
      todo := todo - {topic};
    }
  }

  /** One kind's part of a poll: every entry goes its way, and the result tells whether some entry or
      flag has changed. */
  method ReceiveRos1State(t: BridgeType, modes: Modes, c: Container, present: set<TopicDescriptor>, net: Network)
    returns (c': Container, changed: bool)
    ensures forall k :: At(c', k) == ReceiveOne(t, modes(t, k.name), At(c, k), k in present, net(k))
    ensures changed <==> exists k :: FlagsOf(At(c', k)) != FlagsOf(At(c, k))
  {
    var c1, rest, flagged := ActualizeAll(t, modes, c, present, net);
    var c2, erased := EraseNonActual(c1);
    assert forall k :: At(c2, k) == KeepOne(t, modes(t, k.name), At(c, k), k in present, net(k));
    var created;
    c', created := CreateNew(t, modes, c2, rest, net);
    changed := flagged || erased || created;
    forall k
      ensures At(c', k) == ReceiveOne(t, modes(t, k.name), At(c, k), k in present, net(k))
      ensures FlagsOf(At(c', k)) != FlagsOf(At(c, k)) <==>
        Stale(t, modes(t, k.name), At(c, k), k in present, net(k)) || (k in rest && modes(t, k.name) != Disabled)
    {
      ReceiveInTwoSteps(t, modes(t, k.name), At(c, k), k in present, net(k));
    }
    assert flagged ==> exists k: TopicDescriptor :: Stale(t, modes(t, k.name), At(c, k), k in present, net(k)) by {
      if k :| k in c && c[k].ros1 != (k in present) {
        assert Stale(t, modes(t, k.name), At(c, k), k in present, net(k));
      }
    }
    assert erased ==> exists k: TopicDescriptor :: Stale(t, modes(t, k.name), At(c, k), k in present, net(k)) by {
      if k :| k in c1 && !Actual(c1[k]) {
        assert Stale(t, modes(t, k.name), At(c, k), k in present, net(k));
      }
    }
  }

  lemma SameSizeSameSet<T>(a: set<T>, b: set<T>)
    requires a <= b && |a| == |b|
    ensures a == b
  {
    assert |b - a| == |b| - |a|;
    assert b == a + (b - a);
  }

  // ------------------------------------------------------------------ statistics

  /** Entries, and entries with a live data bridge. */
  function Counts(c: Container): (nat, nat) {
    (|c|, |Bridging(c)|)
  }

  function Bridging(c: Container): set<TopicDescriptor> {
    set k | k in c && c[k].bridge.Some?
  }

  method Fill(c: Container) returns (total: nat, live: nat)
    ensures (total, live) == Counts(c)
  {
    total, live := 0, 0;
    ghost var bridging := Bridging(c);
    var todo := c.Keys;
    while todo != {}
      invariant todo <= c.Keys
      invariant total == |c.Keys - todo| && live == |bridging - todo|
    {
      var k :| k in todo;
      OneMore(c.Keys, todo, k);
      OneMore(bridging, todo, k);
      total := total + 1;
      if c[k].bridge.Some? {
        live := live + 1;
      }
      todo := todo - {k};
    }
    assert c.Keys - todo == c.Keys && bridging - todo == bridging;
  }

  lemma OneMore<T>(s: set<T>, todo: set<T>, k: T)
    requires k in todo
    ensures |s - (todo - {k})| == |s - todo| + if k in s then 1 else 0
  {
    if k in s {
      assert s - (todo - {k}) == (s - todo) + {k};
    } else {
      assert s - (todo - {k}) == s - todo;
    }
  }
}
