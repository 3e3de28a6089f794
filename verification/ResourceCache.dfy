/** The caching resolver (resource_cache.rs): which data type and checksum a ROS1 node uses for a topic.
    Publishers and services are asked over the network until they answer once; subscribers introduce
    themselves to a publisher that the cache opens for their topic. */
module ResourceCache {
  import opened Wrappers
  import opened Topics

  type TopicName = string

  type NodeName = string

  datatype Params = Params(datatype_: seq<Byte>, md5: string)

  type Cache = map<TopicName, map<NodeName, Params>>

  /** The bridge's own two ROS1 nodes. */
  datatype Names = Names(bridge: NodeName, aux: NodeName)

  /** The fields read from a subscriber's connection header. */
  datatype Handshake = Handshake(type_: Option<seq<Byte>>, md5sum: Option<string>, callerid: Option<NodeName>)

  /** What the network answers at one moment: to a probe of a publisher, to a probe of a service, and to the
      attempt to open a publisher that discovers a topic's subscribers; and the handshakes that come in
      between a successful such attempt and the query that follows it. */
  datatype Network = Network(
    publisher: (TopicName, NodeName) -> Option<Params>, service: TopicName -> Option<Params>,
    opens: TopicName -> bool, early: TopicName -> seq<Handshake>)

  /** `subscribers` has a topic exactly if the topic's discovering publisher is open. */
  datatype Caches = Caches(publishers: Cache, subscribers: Cache, services: Cache)

  const EMPTY := Caches(map[], map[], map[])

  /** How does a node publish, subscribe to or serve a topic? The master knows no clients. */
  datatype Question = Question(kind: BridgeType, topic: TopicName, node: NodeName)

  predicate Ignored(names: Names, q: Question) {
    q.node == names.bridge || (q.kind == Publisher && q.node == names.aux) || q.kind == Client
  }

  function Lookup(c: Cache, topic: TopicName, node: NodeName): Option<Params> {
    if topic in c && node in c[topic] then Some(c[topic][node]) else None
  }

  function Store(c: Cache, topic: TopicName, node: NodeName, p: Params): Cache {
    c[topic := (if topic in c then c[topic] else map[])[node := p]]
  }

  function Cached(c: Caches, q: Question): Option<Params> {
    match q.kind
    case Publisher => Lookup(c.publishers, q.topic, q.node)
    case Subscriber => Lookup(c.subscribers, q.topic, q.node)
    case Service => Lookup(c.services, q.topic, q.node)
    case Client => None
  }

  /** The network's own answer; a service is found by its name alone, and subscribers cannot be asked. */
  function Directly(net: Network, q: Question): Option<Params> {
    match q.kind
    case Publisher => net.publisher(q.topic, q.node)
    case Service => net.service(q.topic)
    case _ => None
  }

  predicate Complete(hs: Handshake) { hs.type_.Some? && hs.md5sum.Some? && hs.callerid.Some? }

  /** The caches after a subscriber of the topic has introduced itself, if anyone is listening. */
  function Greet(c: Caches, topic: TopicName, hs: Handshake): Caches {
    if topic in c.subscribers && Complete(hs)
    then c.(subscribers := Store(c.subscribers, topic, hs.callerid.value, Params(hs.type_.value, hs.md5sum.value)))
    else c
  }

  function GreetEach(c: Caches, topic: TopicName, hss: seq<Handshake>): Caches {
    if hss == [] then c else Greet(GreetEach(c, topic, hss[..|hss| - 1]), topic, hss[|hss| - 1])
  }

  /** Handshakes of subscribers of several topics. */
  function GreetAll(c: Caches, greets: seq<(TopicName, Handshake)>): Caches {
    if greets == [] then c
    else Greet(GreetAll(c, greets[..|greets| - 1]), greets[|greets| - 1].0, greets[|greets| - 1].1)
  }

  /** Discovery of the topic's subscribers, opened now. */
  function Opened(net: Network, c: Caches, topic: TopicName): Caches {
    GreetEach(c.(subscribers := c.subscribers[topic := map[]]), topic, net.early(topic))
  }

  /** The caches after a question. */
  function Ask(names: Names, net: Network, c: Caches, q: Question): Caches {
    if Ignored(names, q) then c
    else
      match q.kind
      case Subscriber => if q.topic !in c.subscribers && net.opens(q.topic) then Opened(net, c, q.topic) else c
      case Publisher =>
        if Cached(c, q) == None && Directly(net, q).Some?
        then c.(publishers := Store(c.publishers, q.topic, q.node, Directly(net, q).value)) else c
      case Service =>
        if Cached(c, q) == None && Directly(net, q).Some?
        then c.(services := Store(c.services, q.topic, q.node, Directly(net, q).value)) else c
      case Client => c
  }

  /** The cache's answer to a question: what is known once it has been put. */
  function Resolved(names: Names, net: Network, c: Caches, q: Question): Option<Params> {
    if Ignored(names, q) then None else Cached(Ask(names, net, c, q), q)
  }

  class Ros1ResourceCache {
    const names: Names
    var serviceCache: Cache
    var publisherCache: Cache
    var subscriberCache: Cache

    function State(): Caches
      reads this
    {
      Caches(publisherCache, subscriberCache, serviceCache)
    }

    constructor (names: Names)
      ensures State() == EMPTY && this.names == names
    {
      this.names := names;
      serviceCache, publisherCache, subscriberCache := map[], map[], map[];
    }

    method ResolveSubscriberParameters(topic: TopicName, node: NodeName, net: Network) returns (r: Option<Params>)
      modifies this
      ensures r == Resolved(names, net, old(State()), Question(Subscriber, topic, node))
      ensures State() == Ask(names, net, old(State()), Question(Subscriber, topic, node))
    {
      if node == names.bridge {
        return None;
      }
      if topic !in subscriberCache {
        if !net.opens(topic) {
          return None;
        }
        subscriberCache := subscriberCache[topic := map[]];
        ProcessEarlyHandshakes(topic, net.early(topic));
      }
      r := Query(topic, node);
    }

    method Query(topic: TopicName, node: NodeName) returns (r: Option<Params>)
      requires topic in subscriberCache
      ensures r == Lookup(subscriberCache, topic, node)
    {
      if node in subscriberCache[topic] {
        r := Some(subscriberCache[topic][node]);
      } else {
        r := None;
      }
    }

    method ResolvePublisherParameters(topic: TopicName, node: NodeName, net: Network) returns (r: Option<Params>)
      modifies this
      ensures r == Resolved(names, net, old(State()), Question(Publisher, topic, node))
      ensures State() == Ask(names, net, old(State()), Question(Publisher, topic, node))
    {
      if node == names.aux || node == names.bridge {
        return None;
      }
      if topic in publisherCache && node in publisherCache[topic] {
        return Some(publisherCache[topic][node]);
      }
      r := net.publisher(topic, node);
      if r.Some? {
        publisherCache := Remember(publisherCache, topic, node, r.value);
      }
    }

    method ResolveServiceParameters(service: TopicName, node: NodeName, net: Network) returns (r: Option<Params>)
      modifies this
      ensures r == Resolved(names, net, old(State()), Question(Service, service, node))
      ensures State() == Ask(names, net, old(State()), Question(Service, service, node))
    {
      if node == names.bridge {
        return None;
      }
      if service in serviceCache && node in serviceCache[service] {
        return Some(serviceCache[service][node]);
      }
      r := net.service(service);
      if r.Some? {
        serviceCache := Remember(serviceCache, service, node, r.value);
      }
    }

    /** What both branches do with a new answer. */
    static method Remember(c: Cache, topic: TopicName, node: NodeName, p: Params) returns (c': Cache)
      ensures c' == Store(c, topic, node, p)
    {
      if topic in c {
        c' := c[topic := c[topic][node := p]];
      } else {
        c' := c[topic := map[node := p]];
      }
    }

    /** Other threads' calls, one after the other; without a discovering publisher there is nobody to call. */
    method ProcessHandshakes(greets: seq<(TopicName, Handshake)>)
      modifies this
      ensures State() == GreetAll(old(State()), greets)
    {
      for i := 0 to |greets|
        invariant State() == GreetAll(old(State()), greets[..i])
      {
        assert greets[..i + 1][..i] == greets[..i];
        if greets[i].0 in subscriberCache {
          ProcessHandshake(greets[i].0, greets[i].1);
        }
      }
      assert greets[..|greets|] == greets;
    }

    /** The same for one topic, just opened. */
    method ProcessEarlyHandshakes(topic: TopicName, hss: seq<Handshake>)
      requires topic in subscriberCache
      modifies this
      ensures topic in subscriberCache && State() == GreetEach(old(State()), topic, hss)
    {
      for i := 0 to |hss|
        invariant topic in subscriberCache && State() == GreetEach(old(State()), topic, hss[..i])
      {
        assert hss[..i + 1][..i] == hss[..i];
        ProcessHandshake(topic, hss[i]);
      }
      assert hss[..|hss|] == hss;
    }

    method ProcessHandshake(topic: TopicName, fields: Handshake)
      requires topic in subscriberCache
      modifies this
      ensures topic in subscriberCache && State() == Greet(old(State()), topic, fields)
    {
      if fields.type_ == None || fields.md5sum == None || fields.callerid == None {
        return;
      }
      var discovered := subscriberCache[topic][fields.callerid.value := Params(fields.type_.value, fields.md5sum.value)];
      subscriberCache := subscriberCache[topic := discovered];
    }
  }

  // ------------------------------------------------------------------ over any history

  /** One call, and what the network answers during it. */
  datatype Call = Asked(q: Question, net: Network) | Greeted(topic: TopicName, hs: Handshake)

  function CallStep(names: Names, c: Caches, call: Call): Caches {
    match call
    case Asked(q, net) => Ask(names, net, c, q)
    case Greeted(topic, hs) => Greet(c, topic, hs)
  }

  function After(names: Names, h: seq<Call>): Caches {
    if h == [] then EMPTY else CallStep(names, After(names, h[..|h| - 1]), h[|h| - 1])
  }

  /** A publisher or a service of a node that is not one of the bridge's own. */
  predicate OfOthers(names: Names, q: Question) {
    q.node != names.bridge && ((q.kind == Publisher && q.node != names.aux) || q.kind == Service)
  }

  /** What the network says of it. */
  function Says(net: Network, q: Question): Option<Params> {
    if q.kind == Publisher then net.publisher(q.topic, q.node) else net.service(q.topic)
  }

  /** What the cache knows of it. */
  function Knows(c: Caches, q: Question): Option<Params> {
    Lookup(if q.kind == Publisher then c.publishers else c.services, q.topic, q.node)
  }

  /** Of the publishers and services the cache knows what they first answered. */
  ghost predicate FirstAnswer(h: seq<Call>, q: Question, i: int, p: Params) {
    && 0 <= i < |h| && h[i].Asked? && h[i].q == q && Says(h[i].net, q) == Some(p)
    && forall j | 0 <= j < i && h[j].Asked? && h[j].q == q :: Says(h[j].net, q) == None
  }

  /** A question is put to the network only until it is answered. */
  lemma OneMoreQuestion(names: Names, h: seq<Call>, q: Question)
    requires h != [] && OfOthers(names, q)
    ensures var known := Knows(After(names, h[..|h| - 1]), q);
      Knows(After(names, h), q) ==
        if known == None && h[|h| - 1].Asked? && h[|h| - 1].q == q then Says(h[|h| - 1].net, q) else known
  {
    var c, last := After(names, h[..|h| - 1]), h[|h| - 1];
    assert After(names, h) == CallStep(names, c, last);
    hide After, Lookup, Store, GreetEach;
    if last.Asked? {
      if last.q.kind == Subscriber {
        var topic := last.q.topic;
        GreetedEach(c.(subscribers := c.subscribers[topic := map[]]), topic, last.net.early(topic), topic);
      } else if Says(last.net, last.q).Some? {
        var p := Says(last.net, last.q).value;
        StoreThenLookup(c.publishers, last.q.topic, last.q.node, p, q.topic, q.node);
        StoreThenLookup(c.services, last.q.topic, last.q.node, p, q.topic, q.node);
      }
    }
  }

  lemma StoreThenLookup(c: Cache, topic: TopicName, node: NodeName, p: Params, topic': TopicName, node': NodeName)
    ensures Lookup(Store(c, topic, node, p), topic', node') ==
      if topic == topic' && node == node' then Some(p) else Lookup(c, topic', node')
  {
  }

  lemma {:induction false} CacheKeepsFirstAnswer(names: Names, h: seq<Call>, q: Question, p: Params)
    requires OfOthers(names, q)
    ensures Knows(After(names, h), q) == Some(p) <==> exists i :: FirstAnswer(h, q, i, p)
    ensures Knows(After(names, h), q) == None <==>
      forall i | 0 <= i < |h| && h[i].Asked? && h[i].q == q :: Says(h[i].net, q) == None
  {
    if h != [] {
      hide After, Knows, Says;
      var init, last := h[..|h| - 1], |h| - 1;
      CacheKeepsFirstAnswer(names, init, q, p);
      OneMoreQuestion(names, h, q);
      assert forall i | 0 <= i < last :: init[i] == h[i];
      assert forall i :: FirstAnswer(init, q, i, p) <==> FirstAnswer(h, q, i, p) && i < last;
      assert FirstAnswer(h, q, last, p) <==>
        Knows(After(names, init), q) == None && h[last].Asked? && h[last].q == q && Says(h[last].net, q) == Some(p);
    }
  }

  /** The call asks for the topic's subscribers, and their discovery could be opened. */
  predicate Opening(names: Names, call: Call, topic: TopicName) {
    && call.Asked? && call.q.kind == Subscriber && call.q.topic == topic
    && call.q.node != names.bridge && call.net.opens(topic)
  }

  ghost predicate OpenBefore(names: Names, h: seq<Call>, topic: TopicName, i: int) {
    exists o :: 0 <= o < i && o < |h| && Opening(names, h[o], topic)
  }

  lemma {:induction false} DiscoveryStaysOpen(names: Names, h: seq<Call>, topic: TopicName)
    ensures topic in After(names, h).subscribers <==> OpenBefore(names, h, topic, |h|)
  {
    if h != [] {
      var init, last := h[..|h| - 1], |h| - 1;
      DiscoveryStaysOpen(names, init, topic);
      assert forall i | 0 <= i < last :: init[i] == h[i];
      OpenStep(names, After(names, init), h[last], topic);
    }
  }

  lemma {:induction false} GreetedEach(c: Caches, topic: TopicName, hss: seq<Handshake>, other: TopicName)
    ensures var c' := GreetEach(c, topic, hss);
      && c'.publishers == c.publishers && c'.services == c.services
      && (other in c'.subscribers <==> other in c.subscribers)
      && (other != topic && other in c.subscribers ==> c'.subscribers[other] == c.subscribers[other])
  {
    if hss != [] {
      GreetedEach(c, topic, hss[..|hss| - 1], other);
    }
  }

  lemma OpenStep(names: Names, c: Caches, call: Call, topic: TopicName)
    ensures topic in CallStep(names, c, call).subscribers <==> topic in c.subscribers || Opening(names, call, topic)
  {
    if call.Asked? && call.q.kind == Subscriber {
      var begun := c.(subscribers := c.subscribers[call.q.topic := map[]]);
      GreetedEach(begun, call.q.topic, call.net.early(call.q.topic), topic);
    }
  }

  /** What the node says of itself in these handshakes, last of all. */
  function LastOf(hss: seq<Handshake>, node: NodeName): Option<Params> {
    if hss == [] then None
    else
      var last := hss[|hss| - 1];
      if Complete(last) && last.callerid.value == node then Some(Params(last.type_.value, last.md5sum.value))
      else LastOf(hss[..|hss| - 1], node)
  }

  /** What the node says of itself as a subscriber of the topic in these handshakes, last of all. */
  function LastGreeting(greets: seq<(TopicName, Handshake)>, topic: TopicName, node: NodeName): Option<Params> {
    if greets == [] then None
    else
      var said := if greets[|greets| - 1].0 == topic then LastOf([greets[|greets| - 1].1], node) else None;
      if said.Some? then said else LastGreeting(greets[..|greets| - 1], topic, node)
  }

  lemma {:induction false} GreetedAll(c: Caches, greets: seq<(TopicName, Handshake)>, topic: TopicName, node: NodeName)
    ensures topic in GreetAll(c, greets).subscribers <==> topic in c.subscribers
    ensures topic in c.subscribers ==>
      Lookup(GreetAll(c, greets).subscribers, topic, node) ==
        if LastGreeting(greets, topic, node).Some? then LastGreeting(greets, topic, node)
        else Lookup(c.subscribers, topic, node)
  {
    if greets != [] {
      var init, last := greets[..|greets| - 1], greets[|greets| - 1];
      GreetedAll(c, init, topic, node);
      assert LastOf([last.1][..0], node) == None;
    }
  }

  lemma {:induction false} GreetedLast(c: Caches, topic: TopicName, hss: seq<Handshake>, node: NodeName)
    requires topic in c.subscribers
    ensures topic in GreetEach(c, topic, hss).subscribers
    ensures Lookup(GreetEach(c, topic, hss).subscribers, topic, node) ==
      if LastOf(hss, node).Some? then LastOf(hss, node) else Lookup(c.subscribers, topic, node)
  {
    if hss != [] {
      GreetedLast(c, topic, hss[..|hss| - 1], node);
    }
  }

  /** What the node says of itself during a call, if anyone listens: in a handshake of its own when discovery
      is open, or in one that comes in while the call opens it. */
  function SaidIn(names: Names, call: Call, topic: TopicName, node: NodeName, listening: bool): Option<Params> {
    match call
    case Greeted(t, hs) => if t == topic && listening then LastOf([hs], node) else None
    case Asked(_, net) => if Opening(names, call, topic) && !listening then LastOf(net.early(topic), node) else None
  }

  ghost function Introduced(names: Names, h: seq<Call>, topic: TopicName, node: NodeName, i: int): Option<Params> {
    if 0 <= i < |h| then SaidIn(names, h[i], topic, node, OpenBefore(names, h, topic, i)) else None
  }

  ghost predicate LatestIntroduction(names: Names, h: seq<Call>, topic: TopicName, node: NodeName, i: int, p: Params) {
    && Introduced(names, h, topic, node, i) == Some(p)
    && forall j :: i < j < |h| ==> Introduced(names, h, topic, node, j) == None
  }

  lemma OpenBeforeInit(names: Names, h: seq<Call>, topic: TopicName, i: int)
    requires h != [] && i < |h|
    ensures OpenBefore(names, h[..|h| - 1], topic, i) <==> OpenBefore(names, h, topic, i)
  {
    assert forall o | 0 <= o < |h| - 1 :: h[..|h| - 1][o] == h[o];
  }

  lemma LookupStep(names: Names, c: Caches, call: Call, topic: TopicName, node: NodeName)
    ensures Lookup(CallStep(names, c, call).subscribers, topic, node) ==
      var said := SaidIn(names, call, topic, node, topic in c.subscribers);
      if said.Some? then said else Lookup(c.subscribers, topic, node)
  {
    match call
    case Greeted(t, hs) =>
      assert LastOf([hs][..0], node) == None;
    case Asked(q, net) =>
      if q.kind == Subscriber {
        var begun := c.(subscribers := c.subscribers[q.topic := map[]]);
        GreetedEach(begun, q.topic, net.early(q.topic), topic);
        GreetedLast(begun, q.topic, net.early(q.topic), node);
      }
  }

  /** One more call changes what is known of a subscriber only by introducing it. */
  lemma OneMoreCall(names: Names, h: seq<Call>, topic: TopicName, node: NodeName)
    requires h != []
    ensures var said := Introduced(names, h, topic, node, |h| - 1);
      Lookup(After(names, h).subscribers, topic, node) ==
        if said.Some? then said else Lookup(After(names, h[..|h| - 1]).subscribers, topic, node)
    ensures forall i | i < |h| - 1 ::
              Introduced(names, h[..|h| - 1], topic, node, i) == Introduced(names, h, topic, node, i)
  {
    var init, last := h[..|h| - 1], |h| - 1;
    assert After(names, h) == CallStep(names, After(names, init), h[last]);
    DiscoveryStaysOpen(names, init, topic);
    OpenBeforeInit(names, h, topic, last);
    LookupStep(names, After(names, init), h[last], topic, node);
    hide After, CallStep, Lookup, SaidIn, OpenBefore;
    forall i | i < last ensures Introduced(names, init, topic, node, i) == Introduced(names, h, topic, node, i) {
      OpenBeforeInit(names, h, topic, i);
    }
  }

  /** Of the subscribers it knows how they last introduced themselves since discovery was opened. */
  lemma {:induction false} CacheKeepsLatestHandshake(names: Names, h: seq<Call>, topic: TopicName, node: NodeName, p: Params)
    ensures Lookup(After(names, h).subscribers, topic, node) == Some(p) <==>
      exists i :: LatestIntroduction(names, h, topic, node, i, p)
  {
    if h != [] {
      var init, last := h[..|h| - 1], |h| - 1;
      CacheKeepsLatestHandshake(names, init, topic, node, p);
      OneMoreCall(names, h, topic, node);
      assert Introduced(names, init, topic, node, last) == None;
      hide After, Lookup, Introduced;
      var said := Introduced(names, h, topic, node, last);
      if said.Some? {
        assert forall i | LatestIntroduction(names, h, topic, node, i, p) && i < last :: false;
        assert LatestIntroduction(names, h, topic, node, last, said.value);
        NoneBeyond(names, h, topic, node);
      } else {
        NoneBeyond(names, h, topic, node);
        NoneBeyond(names, init, topic, node);
        assert forall i :: Introduced(names, init, topic, node, i) == Introduced(names, h, topic, node, i);
        forall i
          ensures LatestIntroduction(names, init, topic, node, i, p) <==> LatestIntroduction(names, h, topic, node, i, p)
        {
        }
      }
    }
  }

  lemma NoneBeyond(names: Names, h: seq<Call>, topic: TopicName, node: NodeName)
    ensures forall i | i >= |h| :: Introduced(names, h, topic, node, i) == None
  {
  }

  /** A failed resolution leaves every known answer as it was, and makes none, but for what other nodes said
      of themselves while it opened their topic's discovery. */
  lemma FailureAddsNothing(names: Names, net: Network, c: Caches, q: Question, other: Question)
    requires Resolved(names, net, c, q) == None
    ensures q.kind != Subscriber ==> Ask(names, net, c, q) == c
    ensures Cached(Ask(names, net, c, q), other) == Cached(c, other) ||
      (Opening(names, Asked(q, net), other.topic) && other.kind == Subscriber && other.topic !in c.subscribers &&
       Cached(Ask(names, net, c, q), other) == LastOf(net.early(q.topic), other.node))
  {
    if q.kind == Subscriber {
      var begun := c.(subscribers := c.subscribers[q.topic := map[]]);
      GreetedEach(begun, q.topic, net.early(q.topic), other.topic);
      GreetedLast(begun, q.topic, net.early(q.topic), other.node);
    }
  }

  /** On a network that answers the same throughout, caching makes no difference to other nodes' publishers
      and services. */
  lemma {:induction false} CachingIsTransparent(names: Names, net: Network, h: seq<Call>, q: Question)
    requires forall i | 0 <= i < |h| && h[i].Asked? :: h[i].net == net
    requires OfOthers(names, q)
    ensures Resolved(names, net, After(names, h), q) == Says(net, q)
  {
    if Knows(After(names, h), q).Some? {
      CacheKeepsFirstAnswer(names, h, q, Knows(After(names, h), q).value);
    }
  }
}
