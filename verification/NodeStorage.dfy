/** The storage object (bridges_storage.rs): four maps, one per kind, updated in place. After any calls,
    every entry of every kind is where the history of those calls leads. */
module NodeStorage {
  import opened Topics
  import opened TopicBridges
  import opened BridgesStorage
  import opened StorageHistory

  /** Per kind: entries and live data bridges. */
  datatype BridgeStatus = BridgeStatus(
    publishers: (nat, nat), subscribers: (nat, nat), services: (nat, nat), clients: (nat, nat))

  /** The four maps, by kind. */
  datatype Bridges = Bridges(publishers: Container, subscribers: Container, services: Container, clients: Container) {
    function Of(t: BridgeType): Container {
      match t
      case Publisher => publishers
      case Subscriber => subscribers
      case Service => services
      case Client => clients
    }

    function With(t: BridgeType, c: Container): (b: Bridges)
      ensures forall u :: b.Of(u) == if u == t then c else Of(u)
    {
      match t
      case Publisher => this.(publishers := c)
      case Subscriber => this.(subscribers := c)
      case Service => this.(services := c)
      case Client => this.(clients := c)
    }
  }

  /** Every entry is where the history leads. */
  ghost predicate Reached(modes: Modes, b: Bridges, h: seq<Op>) {
    forall t, k :: At(b.Of(t), k) == EntryAfter(modes, h, t, k)
  }

  lemma ReachedByOne(modes: Modes, b: Bridges, b': Bridges, h: seq<Op>, op: Op)
    requires Reached(modes, b, h)
    requires forall t, k :: At(b'.Of(t), k) == ApplyOne(modes, At(b.Of(t), k), op, t, k)
    ensures Reached(modes, b', h + [op])
  {
    assert (h + [op])[..|h|] == h;
  }

  /** Some entry or flag is not the same. */
  ghost predicate Differ(b: Bridges, b': Bridges) {
    exists t, k :: FlagsOf(At(b'.Of(t), k)) != FlagsOf(At(b.Of(t), k))
  }

  ghost predicate KindDiffers(c: Container, c': Container) {
    exists k :: FlagsOf(At(c', k)) != FlagsOf(At(c, k))
  }

  lemma KindsDiffer(b: Bridges, b': Bridges)
    ensures Differ(b, b') <==>
      || KindDiffers(b.publishers, b'.publishers) || KindDiffers(b.subscribers, b'.subscribers)
      || KindDiffers(b.services, b'.services) || KindDiffers(b.clients, b'.clients)
  {
    if t, k :| FlagsOf(At(b'.Of(t), k)) != FlagsOf(At(b.Of(t), k)) {
      assert KindDiffers(b.Of(t), b'.Of(t));
    }
    forall t | KindDiffers(b.Of(t), b'.Of(t)) ensures Differ(b, b') {
    }
    assert b.Of(Publisher) == b.publishers && b.Of(Subscriber) == b.subscribers;
    assert b.Of(Service) == b.services && b.Of(Client) == b.clients;
  }

  /** Remote publishers concern subscriber bridges and the other way round; services and clients likewise. */
  predicate OnlyOppositeChanged(entity: BridgeType, b: Bridges, b': Bridges) {
    match entity
    case Publisher => b' == b.(subscribers := b'.subscribers)
    case Subscriber => b' == b.(publishers := b'.publishers)
    case Service => b' == b.(clients := b'.clients)
    case Client => b' == b.(services := b'.services)
  }

  lemma CountsMean(c: Container)
    ensures Counts(c) == (|c|, |set k | k in c && c[k].bridge.Some?|)
  {
  }

  class Storage {
    const modes: Modes
    var bridges: Bridges
    ghost var history: seq<Op>

    ghost predicate Valid()
      reads this
    {
      Reached(modes, bridges, history)
    }

    constructor (modes: Modes)
      ensures Valid() && history == [] && this.modes == modes
    {
      this.modes := modes;
      bridges := Bridges(map[], map[], map[], map[]);
      history := [];
    }

    /** `complementary_for(entity)` and then `complementary_entity_discovered(topic)`. */
    method EntityDiscovered(entity: BridgeType, topic: TopicDescriptor, ans: Answers)
      requires Valid()
      modifies this
      ensures Valid() && history == old(history) + [Discovered(entity, topic, ans)]
      ensures OnlyOppositeChanged(entity, old(bridges), bridges)
    {
      hide Reached, DiscoverOne;
      var t := Complement(entity);
      var c := ComplementaryEntityDiscovered(t, modes, bridges.Of(t), topic, ans);
      ReachedByOne(modes, bridges, bridges.With(t, c), history, Discovered(entity, topic, ans));
      bridges := bridges.With(t, c);
      history := history + [Discovered(entity, topic, ans)];
    }

    /** `complementary_for(entity)` and then `complementary_entity_lost(topic)`. */
    method EntityLost(entity: BridgeType, topic: TopicDescriptor, ans: Answers)
      requires Valid()
      modifies this
      ensures Valid() && history == old(history) + [Lost(entity, topic, ans)]
      ensures OnlyOppositeChanged(entity, old(bridges), bridges)
    {
      hide Reached, LoseOne;
      var t := Complement(entity);
      var c := ComplementaryEntityLost(t, modes, bridges.Of(t), topic, ans);
      ReachedByOne(modes, bridges, bridges.With(t, c), history, Lost(entity, topic, ans));
      bridges := bridges.With(t, c);
      history := history + [Lost(entity, topic, ans)];
    }

    /** A poll of the master; the result says whether some entry or flag has changed. */
    method ReceiveRos1State(m: Ros1TopicMapping, net: Networks) returns (changed: bool)
      requires Valid()
      modifies this
      ensures Valid() && history == old(history) + [Poll(m, net)]
      ensures changed <==> Differ(old(bridges), bridges)
    {
      hide Reached, ReceiveOne, FlagsOf;
      var p, published :=
        BridgesStorage.ReceiveRos1State(Publisher, modes, bridges.publishers, m.published, k => net(Publisher, k));
      var v, serviced :=
        BridgesStorage.ReceiveRos1State(Service, modes, bridges.services, m.serviced, k => net(Service, k));
      var s, subscribed :=
        BridgesStorage.ReceiveRos1State(Subscriber, modes, bridges.subscribers, m.subscribed, k => net(Subscriber, k));
      changed := published || serviced || subscribed;
      ReachedByOne(modes, bridges, Bridges(p, s, v, bridges.clients), history, Poll(m, net));
      bridges := Bridges(p, s, v, bridges.clients);
      history := history + [Poll(m, net)];
      KindsDiffer(old(bridges), bridges);
    }

    method Clear()
      requires Valid()
      modifies this
      ensures Valid() && history == old(history) + [StorageHistory.Clear]
      ensures bridges == Bridges(map[], map[], map[], map[])
    {
      ReachedByOne(modes, bridges, Bridges(map[], map[], map[], map[]), history, StorageHistory.Clear);
      bridges := Bridges(map[], map[], map[], map[]);
      history := history + [StorageHistory.Clear];
    }

    method Status() returns (status: BridgeStatus)
      requires Valid()
      ensures status == ReportAfter(modes, history)
      ensures status.publishers.0 == |bridges.publishers|
      ensures status.publishers.1 == |set k | k in bridges.publishers && bridges.publishers[k].bridge.Some?|
      ensures status.subscribers.0 == |bridges.subscribers|
      ensures status.subscribers.1 == |set k | k in bridges.subscribers && bridges.subscribers[k].bridge.Some?|
      ensures status.services.0 == |bridges.services|
      ensures status.services.1 == |set k | k in bridges.services && bridges.services[k].bridge.Some?|
      ensures status.clients.0 == |bridges.clients|
      ensures status.clients.1 == |set k | k in bridges.clients && bridges.clients[k].bridge.Some?|
    {
      hide Counts, CountsAfter, EntryAfter;
      var c0, c1 := Fill(bridges.clients);
      var p0, p1 := Fill(bridges.publishers);
      var s0, s1 := Fill(bridges.services);
      var u0, u1 := Fill(bridges.subscribers);
      status := BridgeStatus((p0, p1), (u0, u1), (s0, s1), (c0, c1));
      CountsMean(bridges.publishers);
      CountsMean(bridges.subscribers);
      CountsMean(bridges.services);
      CountsMean(bridges.clients);
      CountsAgree(modes, history, Publisher, bridges);
      CountsAgree(modes, history, Subscriber, bridges);
      CountsAgree(modes, history, Service, bridges);
      CountsAgree(modes, history, Client, bridges);
    }
  }

  // ------------------------------------------------------------------ what a history leads to

  /** Entries and live bridges of one kind after a history, read off the two sets. */
  ghost function CountsAfter(modes: Modes, h: seq<Op>, t: BridgeType): (nat, nat) {
    var known := InRos1(modes, h, t) + InZenoh(modes, h, t);
    (|known|, |set k | k in known && IsLive(EntryAfter(modes, h, t, k))|)
  }

  ghost function ReportAfter(modes: Modes, h: seq<Op>): BridgeStatus {
    BridgeStatus(CountsAfter(modes, h, Publisher), CountsAfter(modes, h, Subscriber),
                 CountsAfter(modes, h, Service), CountsAfter(modes, h, Client))
  }

  /** Some entry or flag of the storage is changed by the operation. */
  ghost predicate Effective(modes: Modes, h: seq<Op>, op: Op) {
    exists t, k :: FlagsOf(EntryAfter(modes, h + [op], t, k)) != FlagsOf(EntryAfter(modes, h, t, k))
  }

  lemma CountsAgree(modes: Modes, h: seq<Op>, t: BridgeType, b: Bridges)
    requires Reached(modes, b, h)
    ensures Counts(b.Of(t)) == CountsAfter(modes, h, t)
  {
    var c := b.Of(t);
    var known := InRos1(modes, h, t) + InZenoh(modes, h, t);
    forall k ensures k in c <==> k in known
      ensures k in Bridging(c) <==> k in known && IsLive(EntryAfter(modes, h, t, k))
    {
      StorageIsTwoSets(modes, h, t, k);
      assert At(c, k) == EntryAfter(modes, h, t, k);
    }
    assert c.Keys == known;
    assert Bridging(c) == set k | k in known && IsLive(EntryAfter(modes, h, t, k));
  }
}
