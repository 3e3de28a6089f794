/** The storage over any history of polls, remote events and clears, and the simple picture it refines:
    per kind of bridge, one set of topics present in ROS1 and one set of topics wanted by remote peers. */
module StorageHistory {
  import opened Wrappers
  import opened Topics
  import opened TopicBridges
  import opened BridgesStorage

  type Networks = (BridgeType, TopicDescriptor) -> Answers

  /** One operation on the storage, and what the network would answer during it. `Discovered` and `Lost`
      name the kind of the remote entity; they concern the complementary kind of bridge. */
  datatype Op =
    | Poll(state: Ros1TopicMapping, net: Networks)
    | Discovered(entity: BridgeType, topic: TopicDescriptor, ans: Answers)
    | Lost(entity: BridgeType, topic: TopicDescriptor, ans: Answers)
    | Clear

  /** The part of a poll that concerns a kind of bridge; the master knows no clients. */
  function Part(m: Ros1TopicMapping, t: BridgeType): Option<set<TopicDescriptor>> {
    match t
    case Publisher => Some(m.published)
    case Subscriber => Some(m.subscribed)
    case Service => Some(m.serviced)
    case Client => None
  }

  function ApplyOne(modes: Modes, e: Option<Bridge>, op: Op, t: BridgeType, k: TopicDescriptor): Option<Bridge> {
    var mode := modes(t, k.name);
    match op
    case Poll(m, net) => if Part(m, t) == None then e else ReceiveOne(t, mode, e, k in Part(m, t).value, net(t, k))
    case Discovered(d, topic, ans) => if Complement(d) == t && topic == k then DiscoverOne(t, mode, e, ans) else e
    case Lost(d, topic, ans) => if Complement(d) == t && topic == k then LoseOne(t, mode, e, ans) else e
    case Clear => None
  }

  /** A topic's entry among the bridges of kind `t` after a history. */
  function EntryAfter(modes: Modes, h: seq<Op>, t: BridgeType, k: TopicDescriptor): Option<Bridge> {
    if h == [] then None
    else ApplyOne(modes, EntryAfter(modes, h[..|h| - 1], t, k), h[|h| - 1], t, k)
  }

  // ------------------------------------------------------------------ the simple picture

  predicate Enabled(modes: Modes, t: BridgeType, k: TopicDescriptor) { modes(t, k.name) != Disabled }

  /** The topics of kind `t` present in ROS1: those of the last poll since the last clear. */
  function InRos1(modes: Modes, h: seq<Op>, t: BridgeType): set<TopicDescriptor> {
    if h == [] then {}
    else
      match h[|h| - 1]
      case Clear => {}
      case Poll(m, _) => if Part(m, t) == None then {} else set k | k in Part(m, t).value && Enabled(modes, t, k)
      case _ => InRos1(modes, h[..|h| - 1], t)
  }

  /** The topics of kind `t` wanted by remote peers: discovered and not lost since the last clear. */
  function InZenoh(modes: Modes, h: seq<Op>, t: BridgeType): set<TopicDescriptor> {
    if h == [] then {}
    else
      var before := InZenoh(modes, h[..|h| - 1], t);
      match h[|h| - 1]
      case Clear => {}
      case Discovered(d, k, _) => if Complement(d) == t && Enabled(modes, t, k) then before + {k} else before
      case Lost(d, k, _) => if Complement(d) == t then before - {k} else before
      case Poll(_, _) => before
  }

  /** The picture of one entry: there is one exactly for the topics of either set, and its flags say which. */
  function Picture(r: set<TopicDescriptor>, z: set<TopicDescriptor>, k: TopicDescriptor): Option<(bool, bool)> {
    if k in r + z then Some((k in r, k in z)) else None
  }

  predicate NoFailure(op: Op, t: BridgeType, k: TopicDescriptor) {
    match op
    case Poll(_, net) => net(t, k).declare.Some? && net(t, k).create.Some?
    case Discovered(_, _, ans) => ans.declare.Some? && ans.create.Some?
    case Lost(_, _, ans) => ans.declare.Some? && ans.create.Some?
    case Clear => true
  }

  /** What the setters need to know of each other, one entry at a time. */
  lemma EntryStep(modes: Modes, e: Option<Bridge>, op: Op, t: BridgeType, k: TopicDescriptor)
    requires e.Some? ==> Justified(t, modes(t, k.name), e.value) && Actual(e.value)
    ensures var e' := ApplyOne(modes, e, op, t, k);
      && (e'.Some? ==> Justified(t, modes(t, k.name), e'.value) && Actual(e'.value))
      && (NoFailure(op, t, k) && (e.Some? ==> Complete(t, modes(t, k.name), e.value)) ==>
            (e'.Some? ==> Complete(t, modes(t, k.name), e'.value)))
  {
  }

  /** Over every history the storage is its picture: an entry for exactly the topics of the two sets, its
      flags telling membership, every entry wanted by somebody, every live bridge required, every
      declaration of a topic present in ROS1; and without failures, the other way round as well. */
  lemma {:induction false} StorageIsTwoSets(modes: Modes, h: seq<Op>, t: BridgeType, k: TopicDescriptor)
    ensures FlagsOf(EntryAfter(modes, h, t, k)) == Picture(InRos1(modes, h, t), InZenoh(modes, h, t), k)
    ensures k in InRos1(modes, h, t) + InZenoh(modes, h, t) ==> Enabled(modes, t, k)
    ensures var e := EntryAfter(modes, h, t, k);
      && (e.Some? ==> Justified(t, modes(t, k.name), e.value) && Actual(e.value))
      && ((forall i | 0 <= i < |h| :: NoFailure(h[i], t, k)) && e.Some? ==> Complete(t, modes(t, k.name), e.value))
    ensures InRos1(modes, h, Client) == {}
  {
    if h != [] {
      var init := h[..|h| - 1];
      StorageIsTwoSets(modes, init, t, k);
      assert forall i | 0 <= i < |init| :: init[i] == h[i];
      EntryStep(modes, EntryAfter(modes, init, t, k), h[|h| - 1], t, k);
      FlagsStep(modes, EntryAfter(modes, init, t, k), h[|h| - 1], t, k);
    }
  }

  /** What one operation does to the presence and the flags of one entry. */
  lemma FlagsStep(modes: Modes, e: Option<Bridge>, op: Op, t: BridgeType, k: TopicDescriptor)
    requires e.Some? ==> Actual(e.value) && Enabled(modes, t, k)
    ensures var r, z := e.Some? && e.value.ros1, e.Some? && e.value.zenoh;
      var r' := match op
                case Clear => false
                case Poll(m, _) => if Part(m, t) == None then r else k in Part(m, t).value && Enabled(modes, t, k)
                case _ => r;
      var z' := match op
                case Clear => false
                case Discovered(d, topic, _) => z || (Complement(d) == t && topic == k && Enabled(modes, t, k))
                case Lost(d, topic, _) => z && !(Complement(d) == t && topic == k)
                case Poll(_, _) => z;
      FlagsOf(ApplyOne(modes, e, op, t, k)) == if r' || z' then Some((r', z')) else None
  {
  }

  // ------------------------------------------------------------------ what the sets depend on

  /** A remote event about a topic's bridges of kind `t`. */
  predicate About(op: Op, t: BridgeType, k: TopicDescriptor) {
    (op.Discovered? || op.Lost?) && Complement(op.entity) == t && op.topic == k
  }

  /** A topic is wanted exactly if its last remote event, since the last clear, was a discovery. */
  lemma {:induction false} LastRemoteEventDecides(modes: Modes, h: seq<Op>, t: BridgeType, k: TopicDescriptor)
    ensures k in InZenoh(modes, h, t) <==>
      Enabled(modes, t, k) &&
      exists i :: 0 <= i < |h| && h[i].Discovered? && About(h[i], t, k) &&
        forall j | i < j < |h| :: h[j] != Clear && !About(h[j], t, k)
  {
    if h != [] {
      var init, last := h[..|h| - 1], |h| - 1;
      LastRemoteEventDecides(modes, init, t, k);
      assert forall i | 0 <= i < last :: init[i] == h[i];
      if h[last] != Clear && !About(h[last], t, k) {
        if k in InZenoh(modes, init, t) {
          var i :| 0 <= i < last && init[i].Discovered? && About(init[i], t, k) &&
            forall j | i < j < last :: init[j] != Clear && !About(init[j], t, k);
          assert h[i].Discovered? && About(h[i], t, k);
        }
      }
    }
  }

  /** A topic is present exactly if the last poll since the last clear contained it. */
  lemma {:induction false} LastPollDecides(modes: Modes, h: seq<Op>, t: BridgeType, k: TopicDescriptor)
    ensures k in InRos1(modes, h, t) <==>
      Enabled(modes, t, k) &&
      exists i :: 0 <= i < |h| && h[i].Poll? && Part(h[i].state, t).Some? && k in Part(h[i].state, t).value &&
        forall j | i < j < |h| :: h[j] != Clear && !h[j].Poll?
  {
    if h != [] {
      var init, last := h[..|h| - 1], |h| - 1;
      LastPollDecides(modes, init, t, k);
      assert forall i | 0 <= i < last :: init[i] == h[i];
      if h[last] != Clear && !h[last].Poll? && k in InRos1(modes, init, t) {
        var i :| 0 <= i < last && init[i].Poll? && Part(init[i].state, t).Some? && k in Part(init[i].state, t).value &&
          forall j | i < j < last :: init[j] != Clear && !init[j].Poll?;
        assert h[i].Poll? && Part(h[i].state, t).Some? && k in Part(h[i].state, t).value;
      }
    }
  }

  /** A poll and a remote event, whatever failed meanwhile, leave the same entries and flags in either order. */
  lemma PollsAndEventsCommute(modes: Modes, h: seq<Op>, p: Op, ev: Op, t: BridgeType, k: TopicDescriptor)
    requires p.Poll? && (ev.Discovered? || ev.Lost?)
    ensures FlagsOf(EntryAfter(modes, h + [p, ev], t, k)) == FlagsOf(EntryAfter(modes, h + [ev, p], t, k))
  {
    var h1, h2 := h + [p, ev], h + [ev, p];
    StorageIsTwoSets(modes, h1, t, k);
    StorageIsTwoSets(modes, h2, t, k);
    StorageIsTwoSets(modes, h, t, k);
    assert h1[..|h1| - 1] == h + [p] && h2[..|h2| - 1] == h + [ev];
    assert (h + [p])[..|h|] == h && (h + [ev])[..|h|] == h;
  }

  /** Repeating a poll changes nothing: no entry, no flag, no declaration and no data bridge. */
  lemma RepeatedPollChangesNothing(modes: Modes, h: seq<Op>, m: Ros1TopicMapping, net: Networks, net': Networks,
                                   t: BridgeType, k: TopicDescriptor)
    ensures EntryAfter(modes, h + [Poll(m, net), Poll(m, net')], t, k) == EntryAfter(modes, h + [Poll(m, net)], t, k)
  {
    var h2 := h + [Poll(m, net), Poll(m, net')];
    assert h2[..|h2| - 1] == h + [Poll(m, net)] && (h + [Poll(m, net)])[..|h|] == h;
  }

  // ------------------------------------------------------------------ what it comes to, kind by kind

  /** A poll decides which topics are present, each part for its kind, and leaves remote wishes alone. */
  lemma PollBrings(modes: Modes, h: seq<Op>, m: Ros1TopicMapping, net: Networks, k: TopicDescriptor)
    ensures var h' := h + [Poll(m, net)];
      && (k in InRos1(modes, h', Publisher) <==> k in m.published && modes(Publisher, k.name) != Disabled)
      && (k in InRos1(modes, h', Subscriber) <==> k in m.subscribed && modes(Subscriber, k.name) != Disabled)
      && (k in InRos1(modes, h', Service) <==> k in m.serviced && modes(Service, k.name) != Disabled)
      && k !in InRos1(modes, h', Client)
      && forall t :: InZenoh(modes, h', t) == InZenoh(modes, h, t)
  {
    assert (h + [Poll(m, net)])[..|h|] == h;
  }

  /** Which kind of bridge a remote entity concerns. */
  predicate Opposite(entity: BridgeType, t: BridgeType) {
    || (entity == Publisher && t == Subscriber) || (entity == Subscriber && t == Publisher)
    || (entity == Service && t == Client) || (entity == Client && t == Service)
  }

  /** A discovered entity gives its topic an entry of the opposite kind, wanted by a remote peer, unless the
      topic is disabled; a lost one takes the wish back. No other entry changes. */
  lemma RemoteEntitiesConcern(modes: Modes, h: seq<Op>, entity: BridgeType, t: BridgeType, k: TopicDescriptor, ans: Answers)
    requires Opposite(entity, t)
    ensures var found := EntryAfter(modes, h + [Discovered(entity, k, ans)], t, k);
      if modes(t, k.name) != Disabled then found.Some? && found.value.zenoh else found == None
    ensures var left := EntryAfter(modes, h + [Lost(entity, k, ans)], t, k);
      if k in InRos1(modes, h, t) then left.Some? && !left.value.zenoh else left == None
    ensures forall u, x | u != t || x != k ::
              EntryAfter(modes, h + [Discovered(entity, k, ans)], u, x) == EntryAfter(modes, h, u, x) &&
              EntryAfter(modes, h + [Lost(entity, k, ans)], u, x) == EntryAfter(modes, h, u, x)
  {
    var found, left := h + [Discovered(entity, k, ans)], h + [Lost(entity, k, ans)];
    assert found[..|h|] == h && left[..|h|] == h;
    StorageIsTwoSets(modes, h, t, k);
  }

  predicate IsLive(e: Option<Bridge>) { e.Some? && e.value.bridge.Some? }

  /** When do data flow? Whatever has failed, only for a topic present or wanted, and in lazy mode, a client
      excepted, only for one that is both. */
  lemma DataFlowsOnlyFor(modes: Modes, h: seq<Op>, t: BridgeType, k: TopicDescriptor)
    requires IsLive(EntryAfter(modes, h, t, k))
    ensures k in InRos1(modes, h, t) || k in InZenoh(modes, h, t)
    ensures modes(t, k.name) == LazyAuto && t != Client ==> k in InRos1(modes, h, t) && k in InZenoh(modes, h, t)
  {
    StorageIsTwoSets(modes, h, t, k);
  }

  /** And if nothing has failed: in automatic mode for every topic present or wanted, in lazy mode for those
      that are both, for a client always when it is wanted, and for a disabled topic never. A topic is declared
      exactly if it is present. */
  lemma ModeDecides(modes: Modes, h: seq<Op>, t: BridgeType, k: TopicDescriptor)
    requires forall i | 0 <= i < |h| :: NoFailure(h[i], t, k)
    ensures var e, r, z := EntryAfter(modes, h, t, k), k in InRos1(modes, h, t), k in InZenoh(modes, h, t);
      && (e.Some? <==> r || z)
      && (e.Some? ==> (e.value.ros1 <==> r) && (e.value.zenoh <==> z) && (e.value.declaration.Some? <==> r))
      && (r && z ==> IsLive(e))
      && (modes(t, k.name) == Auto ==> (IsLive(e) <==> r || z))
      && (modes(t, k.name) == LazyAuto && t != Client ==> (IsLive(e) <==> r && z))
      && (t == Client ==> !r && (IsLive(e) <==> z))
      && (modes(t, k.name) == Disabled ==> e == None)
  {
    StorageIsTwoSets(modes, h, t, k);
  }
}
