/** From the ROS master's state to three sets of topics with their data formats (topic_mapping.rs). */
module TopicMapping {
  import opened Wrappers
  import opened Topics
  import opened ResourceCache
  import opened Ros1Client

  /** The questions that the loops put to the cache, in order. */
  function QuestionsOf(t: BridgeType, x: TopicData): seq<Question> {
    seq(|x.connections|, i requires 0 <= i < |x.connections| => Question(t, x.name, x.connections[i]))
  }

  function Questions(t: BridgeType, topics: seq<TopicData>): seq<Question> {
    if topics == [] then []
    else Questions(t, topics[..|topics| - 1]) + QuestionsOf(t, topics[|topics| - 1])
  }

  function Described(q: Question, r: Option<Params>): set<TopicDescriptor> {
    if r == None then {} else {TopicDescriptor(q.topic, r.value.datatype_, r.value.md5)}
  }

  /** What happens around one question: the handshakes that come in since the one before it, and what the
      network answers when it is put. */
  datatype Moment = Moment(greets: seq<(TopicName, Handshake)>, net: Network)

  /** ... for each question of a poll, by kind and number. */
  type Moments = BridgeType -> (nat -> Moment)

  /** The caches as these questions leave them. */
  function AskAll(names: Names, at: nat -> Moment, c: Caches, qs: seq<Question>): Caches {
    if qs == [] then c
    else
      var init, m := qs[..|qs| - 1], at(|qs| - 1);
      Ask(names, m.net, GreetAll(AskAll(names, at, c, init), m.greets), qs[|qs| - 1])
  }

  /** The answer to the i-th of these questions. */
  function Answer(names: Names, at: nat -> Moment, c: Caches, qs: seq<Question>, i: nat): Option<Params>
    requires i < |qs|
  {
    Resolved(names, at(i).net, GreetAll(AskAll(names, at, c, qs[..i]), at(i).greets), qs[i])
  }

  /** The topics described by the answers. */
  function Found(names: Names, at: nat -> Moment, c: Caches, qs: seq<Question>): set<TopicDescriptor> {
    if qs == [] then {}
    else Found(names, at, c, qs[..|qs| - 1]) + Described(qs[|qs| - 1], Answer(names, at, c, qs, |qs| - 1))
  }

  /** The caches when a poll comes to the topics of kind `t`: subscribers first, then publishers, then services. */
  function Reaching(names: Names, at: Moments, c: Caches, s: SystemState, t: BridgeType): Caches
    decreases t == Service
  {
    match t
    case Publisher => AskAll(names, at(Subscriber), c, Questions(Subscriber, s.subscribers))
    case Service =>
      AskAll(names, at(Publisher), Reaching(names, at, c, s, Publisher), Questions(Publisher, s.publishers))
    case _ => c
  }

  function Mapped(names: Names, at: Moments, c: Caches, s: SystemState): (Ros1TopicMapping, Caches) {
    var c1, c2 := Reaching(names, at, c, s, Publisher), Reaching(names, at, c, s, Service);
    (Ros1TopicMapping(
       Found(names, at(Publisher), c1, Questions(Publisher, s.publishers)),
       Found(names, at(Subscriber), c, Questions(Subscriber, s.subscribers)),
       Found(names, at(Service), c2, Questions(Service, s.services))),
     AskAll(names, at(Service), c2, Questions(Service, s.services)))
  }

  lemma OneMoreQuestion(names: Names, at: nat -> Moment, c: Caches, qs: seq<Question>, q: Question)
    ensures var m := at(|qs|);
      var before := GreetAll(AskAll(names, at, c, qs), m.greets);
      && AskAll(names, at, c, qs + [q]) == Ask(names, m.net, before, q)
      && Found(names, at, c, qs + [q]) == Found(names, at, c, qs) + Described(q, Resolved(names, m.net, before, q))
  {
    assert (qs + [q])[..|qs|] == qs;
  }

  lemma NoQuestions(names: Names, at: nat -> Moment, c: Caches)
    ensures AskAll(names, at, c, []) == c && Found(names, at, c, []) == {}
  {
  }

  method Resolve(t: BridgeType, topic: TopicName, node: NodeName, cache: Ros1ResourceCache, net: Network)
    returns (r: Option<Params>)
    requires t != Client
    modifies cache
    ensures r == Resolved(cache.names, net, old(cache.State()), Question(t, topic, node))
    ensures cache.State() == Ask(cache.names, net, old(cache.State()), Question(t, topic, node))
  {
    match t
    case Subscriber => r := cache.ResolveSubscriberParameters(topic, node, net);
    case Publisher => r := cache.ResolvePublisherParameters(topic, node, net);
    case Service => r := cache.ResolveServiceParameters(topic, node, net);
  }

  /** One of the three nested loops. Meanwhile other threads process handshakes. */
  method Collect(t: BridgeType, topics: seq<TopicData>, cache: Ros1ResourceCache, at: nat -> Moment)
    returns (found: set<TopicDescriptor>)
    requires t != Client
    modifies cache
    ensures found == Found(cache.names, at, old(cache.State()), Questions(t, topics))
    ensures cache.State() == AskAll(cache.names, at, old(cache.State()), Questions(t, topics))
  {
    hide AskAll, Found, Ask, Resolved, GreetAll;
    NoQuestions(cache.names, at, cache.State());
    found := {};
    var n := 0;
    ghost var names, c := cache.names, cache.State();
    for i := 0 to |topics|
      invariant n == |Questions(t, topics[..i])|
      invariant found == Found(names, at, c, Questions(t, topics[..i]))
      invariant cache.State() == AskAll(names, at, c, Questions(t, topics[..i]))
    {
      var topic := topics[i];
      ghost var before, these := Questions(t, topics[..i]), QuestionsOf(t, topic);
      assert topics[..i + 1][..i] == topics[..i];
      assert before + these[..0] == before;
      for j := 0 to |topic.connections|
        invariant n == |before| + j
        invariant found == Found(names, at, c, before + these[..j])
        invariant cache.State() == AskAll(names, at, c, before + these[..j])
      {
        var node := topic.connections[j];
        assert before + these[..j + 1] == before + these[..j] + [Question(t, topic.name, node)];
        OneMoreQuestion(names, at, c, before + these[..j], Question(t, topic.name, node));
        cache.ProcessHandshakes(at(n).greets);
        var r := Resolve(t, topic.name, node, cache, at(n).net);
        if r.Some? {
          found := found + {TopicDescriptor(topic.name, r.value.datatype_, r.value.md5)};
        }
        n := n + 1;
      }
      assert these[..|these|] == these;
    }
    assert topics[..|topics|] == topics;
  }

  method New(state: SystemState, cache: Ros1ResourceCache, at: Moments) returns (result: Ros1TopicMapping)
    modifies cache
    ensures (result, cache.State()) == Mapped(cache.names, at, old(cache.State()), state)
  {
    hide AskAll, Found, Questions;
    var subscribed := Collect(Subscriber, state.subscribers, cache, at(Subscriber));
    var published := Collect(Publisher, state.publishers, cache, at(Publisher));
    var serviced := Collect(Service, state.services, cache, at(Service));
    result := Ros1TopicMapping(published, subscribed, serviced);
  }

  /** A poll of the master, from its unfiltered state. */
  method ReadMapping(client: Ros1Client, state: Option<SystemState>, cache: Ros1ResourceCache, at: Moments)
    returns (r: Option<Ros1TopicMapping>)
    modifies cache
    ensures r.Some? <==> state.Some?
    ensures state == None ==> cache.State() == old(cache.State())
    ensures state.Some? ==>
              (r.value, cache.State()) == Mapped(cache.names, at, old(cache.State()), Filtered(client.name, state.value))
  {
    var filtered := client.Filter(state);
    match filtered
    case None => r := None;
    case Some(value) =>
      var result := New(value, cache, at);
      r := Some(result);
  }

  // ------------------------------------------------------------------ what a poll finds

  /** The master lists this node for this topic. */
  ghost predicate Lists(topics: seq<TopicData>, topic: TopicName, node: NodeName) {
    exists x :: x in topics && x.name == topic && node in x.connections
  }

  lemma {:induction false} QuestionsCoverTheState(t: BridgeType, topics: seq<TopicData>, topic: TopicName, node: NodeName)
    ensures Question(t, topic, node) in Questions(t, topics) <==> Lists(topics, topic, node)
    ensures forall q | q in Questions(t, topics) :: q.kind == t
  {
    if topics != [] {
      var init, x := topics[..|topics| - 1], topics[|topics| - 1];
      QuestionsCoverTheState(t, init, topic, node);
      var these := QuestionsOf(t, x);
      if x.name == topic && node in x.connections {
        var i :| 0 <= i < |x.connections| && x.connections[i] == node;
        assert these[i] == Question(t, topic, node);
      }
      assert topics == init + [x];
      assert Lists(topics, topic, node) ==> Lists(init, topic, node) || (x.name == topic && node in x.connections);
    }
  }

  predicate Describes(k: TopicDescriptor, q: Question, r: Option<Params>) {
    q.topic == k.name && r == Some(Params(k.datatype_, k.md5))
  }

  lemma AnswerOfInit(names: Names, at: nat -> Moment, c: Caches, qs: seq<Question>, i: nat)
    requires qs != [] && i < |qs| - 1
    ensures Answer(names, at, c, qs[..|qs| - 1], i) == Answer(names, at, c, qs, i)
  {
    assert qs[..|qs| - 1][..i] == qs[..i];
  }

  /** The i-th question finds the topic. */
  ghost predicate Finds(names: Names, at: nat -> Moment, c: Caches, qs: seq<Question>, k: TopicDescriptor, i: nat) {
    i < |qs| && Describes(k, qs[i], Answer(names, at, c, qs, i))
  }

  lemma FindsInit(names: Names, at: nat -> Moment, c: Caches, qs: seq<Question>, k: TopicDescriptor, i: nat)
    requires qs != []
    ensures Finds(names, at, c, qs[..|qs| - 1], k, i) <==> Finds(names, at, c, qs, k, i) && i < |qs| - 1
  {
    hide Describes, Answer;
    if i < |qs| - 1 {
      AnswerOfInit(names, at, c, qs, i);
    }
  }

  lemma FoundStep(names: Names, at: nat -> Moment, c: Caches, qs: seq<Question>, k: TopicDescriptor)
    requires qs != []
    ensures k in Found(names, at, c, qs) <==>
      k in Found(names, at, c, qs[..|qs| - 1]) || Finds(names, at, c, qs, k, |qs| - 1)
    ensures forall i: nat | Finds(names, at, c, qs, k, i) :: i <= |qs| - 1
  {
    hide Answer;
  }

  lemma {:induction false} FinderOf(names: Names, at: nat -> Moment, c: Caches, qs: seq<Question>, k: TopicDescriptor)
    returns (i: nat)
    requires k in Found(names, at, c, qs)
    ensures Finds(names, at, c, qs, k, i)
  {
    i := |qs| - 1;
    FoundStep(names, at, c, qs, k);
    if !Finds(names, at, c, qs, k, i) {
      i := FinderOf(names, at, c, qs[..i], k);
      FindsInit(names, at, c, qs, k, i);
    }
  }

  lemma {:induction false} FoundBy(names: Names, at: nat -> Moment, c: Caches, qs: seq<Question>, k: TopicDescriptor, i: nat)
    requires Finds(names, at, c, qs, k, i)
    ensures k in Found(names, at, c, qs)
  {
    FoundStep(names, at, c, qs, k);
    if i < |qs| - 1 {
      FindsInit(names, at, c, qs, k, i);
      FoundBy(names, at, c, qs[..|qs| - 1], k, i);
    }
  }

  function TopicsOf(s: SystemState, t: BridgeType): seq<TopicData> {
    match t
    case Publisher => s.publishers
    case Subscriber => s.subscribers
    case Service => s.services
    case Client => []
  }

  function PartOf(m: Ros1TopicMapping, t: BridgeType): set<TopicDescriptor> {
    match t
    case Publisher => m.published
    case Subscriber => m.subscribed
    case Service => m.serviced
    case Client => {}
  }

  /** In answer to the i-th question of its kind, a node that the master lists for this topic is known, from
      before, from the network or by its own handshake, to use it with this format. */
  ghost predicate Uses(names: Names, at: Moments, c: Caches, s: SystemState,
                       t: BridgeType, k: TopicDescriptor, node: NodeName, i: nat) {
    var qs := Questions(t, TopicsOf(s, t));
    && Lists(TopicsOf(s, t), k.name, node) && i < |qs| && qs[i] == Question(t, k.name, node)
    && Answer(names, at(t), Reaching(names, at, c, s, t), qs, i) == Some(Params(k.datatype_, k.md5))
  }

  /** Whatever the network answers from question to question and whoever introduces himself meanwhile, a
      topic is found exactly if a listed node was just then known to use it with this format. */
  lemma MappingMeansUsed(names: Names, at: Moments, c: Caches, s: SystemState, t: BridgeType, k: TopicDescriptor)
    ensures k in PartOf(Mapped(names, at, c, s).0, t) <==> exists node, i: nat :: Uses(names, at, c, s, t, k, node, i)
  {
    var qs := Questions(t, TopicsOf(s, t));
    var c' := Reaching(names, at, c, s, t);
    assert PartOf(Mapped(names, at, c, s).0, t) == Found(names, at(t), c', qs);
    hide AskAll, Found, Resolved, Answer, Mapped, Reaching;
    if k in Found(names, at(t), c', qs) {
      var i := FinderOf(names, at(t), c', qs, k);
      assert qs[i] in qs;
      QuestionsCoverTheState(t, TopicsOf(s, t), qs[i].topic, qs[i].node);
      assert Uses(names, at, c, s, t, k, qs[i].node, i);
    }
    if node, i: nat :| Uses(names, at, c, s, t, k, node, i) {
      assert Finds(names, at(t), c', qs, k, i);
      FoundBy(names, at(t), c', qs, k, i);
    }
  }

  // ------------------------------------------------------------------ while nothing changes

  /** During the poll the network's answers stay the same and nobody introduces himself out of turn. */
  ghost predicate Steady(at: nat -> Moment, net: Network) {
    forall n :: at(n) == Moment([], net)
  }

  /** The later answers of one poll are those of its beginning: what it learns is what it would be told. */
  lemma {:induction false} AnswersDoNotChange(names: Names, at: nat -> Moment, net: Network, c: Caches,
                                              qs: seq<Question>, q: Question)
    requires Steady(at, net)
    ensures Resolved(names, net, AskAll(names, at, c, qs), q) == Resolved(names, net, c, q)
  {
    if qs != [] {
      var init, last := qs[..|qs| - 1], |qs| - 1;
      AnswersDoNotChange(names, at, net, c, init, q);
      assert at(last) == Moment([], net);
      AnswerDoesNotChange(names, net, AskAll(names, at, c, init), qs[last], q);
    }
  }

  lemma AnswerDoesNotChange(names: Names, net: Network, c: Caches, asked: Question, q: Question)
    ensures Resolved(names, net, Ask(names, net, c, asked), q) == Resolved(names, net, c, q)
  {
    if q.kind == Subscriber {
      SubscriberAnswer(names, net, Ask(names, net, c, asked), q);
      SubscriberAnswer(names, net, c, q);
    }
    if asked.kind == Subscriber {
      OpeningOnly(names, net, c, asked, q);
    }
  }

  /** A question about subscribers may open their topic's discovery, and nothing else. */
  lemma OpeningOnly(names: Names, net: Network, c: Caches, asked: Question, q: Question)
    requires asked.kind == Subscriber
    ensures var c' := Ask(names, net, c, asked);
      && c'.publishers == c.publishers && c'.services == c.services
      && (q.topic in c'.subscribers <==>
           q.topic in c.subscribers || (q.topic == asked.topic && net.opens(q.topic) && !Ignored(names, asked)))
      && (q.topic in c.subscribers ==> c'.subscribers[q.topic] == c.subscribers[q.topic])
      && (q.topic !in c.subscribers && q.topic in c'.subscribers ==>
           Lookup(c'.subscribers, q.topic, q.node) == LastOf(net.early(q.topic), q.node))
  {
    var begun := c.(subscribers := c.subscribers[asked.topic := map[]]);
    GreetedEach(begun, asked.topic, net.early(asked.topic), q.topic);
    GreetedLast(begun, asked.topic, net.early(asked.topic), q.node);
  }

  /** What is known of a subscriber, or what it says of itself at once. */
  lemma SubscriberAnswer(names: Names, net: Network, c: Caches, q: Question)
    requires q.kind == Subscriber
    ensures Resolved(names, net, c, q) ==
      if Ignored(names, q) then None
      else if q.topic in c.subscribers || !net.opens(q.topic) then Cached(c, q)
      else LastOf(net.early(q.topic), q.node)
  {
    GreetedLast(c.(subscribers := c.subscribers[q.topic := map[]]), q.topic, net.early(q.topic), q.node);
  }

  ghost predicate SteadyPoll(at: Moments, net: Network) {
    forall t :: Steady(at(t), net)
  }

  /** Whatever the order of the loops, a topic is then found exactly if a listed node is known, from before the
      poll or from the network's answers during it, to use it with this format. */
  lemma SteadyMappingMeansUsed(names: Names, at: Moments, net: Network, c: Caches, s: SystemState,
                               t: BridgeType, k: TopicDescriptor)
    requires SteadyPoll(at, net)
    ensures k in PartOf(Mapped(names, at, c, s).0, t) <==>
      exists node :: Lists(TopicsOf(s, t), k.name, node) &&
        Resolved(names, net, c, Question(t, k.name, node)) == Some(Params(k.datatype_, k.md5))
  {
    var qs, c' := Questions(t, TopicsOf(s, t)), Reaching(names, at, c, s, t);
    MappingMeansUsed(names, at, c, s, t, k);
    hide Mapped, Questions, Lists, Resolved, Reaching, TopicsOf;
    forall node, i: nat | Uses(names, at, c, s, t, k, node, i)
      ensures Resolved(names, net, c, Question(t, k.name, node)) == Some(Params(k.datatype_, k.md5))
    {
      SteadyAnswer(names, at, net, c, s, t, i);
    }
    forall node | Lists(TopicsOf(s, t), k.name, node) &&
                  Resolved(names, net, c, Question(t, k.name, node)) == Some(Params(k.datatype_, k.md5))
      ensures exists i: nat :: Uses(names, at, c, s, t, k, node, i)
    {
      QuestionsCoverTheState(t, TopicsOf(s, t), k.name, node);
      var i: nat :| i < |qs| && qs[i] == Question(t, k.name, node);
      SteadyAnswer(names, at, net, c, s, t, i);
      assert Uses(names, at, c, s, t, k, node, i);
    }
  }

  lemma SteadyAnswer(names: Names, at: Moments, net: Network, c: Caches, s: SystemState, t: BridgeType, i: nat)
    requires SteadyPoll(at, net) && i < |Questions(t, TopicsOf(s, t))|
    ensures var qs := Questions(t, TopicsOf(s, t));
      Answer(names, at(t), Reaching(names, at, c, s, t), qs, i) == Resolved(names, net, c, qs[i])
  {
    var qs := Questions(t, TopicsOf(s, t));
    AnswersDoNotChange(names, at(t), net, Reaching(names, at, c, s, t), qs[..i], qs[i]);
    ReachingChangesNothing(names, at, net, c, s, t, qs[i]);
    hide AskAll, Resolved, Reaching, Questions;
    assert at(t)(i) == Moment([], net);
  }

  lemma ReachingChangesNothing(names: Names, at: Moments, net: Network, c: Caches, s: SystemState,
                               t: BridgeType, q: Question)
    requires SteadyPoll(at, net)
    ensures Resolved(names, net, Reaching(names, at, c, s, t), q) == Resolved(names, net, c, q)
  {
    AnswersDoNotChange(names, at(Subscriber), net, c, Questions(Subscriber, s.subscribers), q);
    var c1 := Reaching(names, at, c, s, Publisher);
    AnswersDoNotChange(names, at(Publisher), net, c1, Questions(Publisher, s.publishers), q);
  }

  // ------------------------------------------------------------------ how subscribers come to be found

  /** What was open stays open, and what is asked for is opened if it can be. */
  lemma {:induction false} AskingOpens(names: Names, at: nat -> Moment, c: Caches, qs: seq<Question>, topic: TopicName)
    ensures topic in c.subscribers ==> topic in AskAll(names, at, c, qs).subscribers
    ensures (exists i: nat :: i < |qs| && Opening(names, Asked(qs[i], at(i).net), topic)) ==>
              topic in AskAll(names, at, c, qs).subscribers
  {
    if qs != [] {
      var init, last := qs[..|qs| - 1], |qs| - 1;
      AskingOpens(names, at, c, init, topic);
      assert forall i | 0 <= i < last :: init[i] == qs[i];
      var before := AskAll(names, at, c, init);
      GreetedAll(before, at(last).greets, topic, "");
      OpenStep(names, GreetAll(before, at(last).greets), Asked(qs[last], at(last).net), topic);
    }
  }

  /** The first poll that lists another node as a subscriber opens the topic's discovery if it can. */
  lemma PollOpens(names: Names, at: Moments, net: Network, c: Caches, s: SystemState, topic: TopicName, node: NodeName)
    requires SteadyPoll(at, net) && net.opens(topic) && Lists(s.subscribers, topic, node) && node != names.bridge
    ensures topic in Mapped(names, at, c, s).1.subscribers
  {
    var qs := Questions(Subscriber, s.subscribers);
    QuestionsCoverTheState(Subscriber, s.subscribers, topic, node);
    var i: nat :| i < |qs| && qs[i] == Question(Subscriber, topic, node);
    assert Steady(at(Subscriber), net) && at(Subscriber)(i) == Moment([], net);
    assert Opening(names, Asked(qs[i], at(Subscriber)(i).net), topic);
    hide AskAll, Questions;
    AskingOpens(names, at(Subscriber), c, qs, topic);
    var c1 := Reaching(names, at, c, s, Publisher);
    AskingOpens(names, at(Publisher), c1, Questions(Publisher, s.publishers), topic);
    AskingOpens(names, at(Service), Reaching(names, at, c, s, Service), Questions(Service, s.services), topic);
  }

  // ------------------------------------------------------------------ the filter makes no difference

  lemma IgnoredQuestion(names: Names, at: nat -> Moment, net: Network, c: Caches, qs: seq<Question>, q: Question)
    requires at(|qs|) == Moment([], net) && Ignored(names, q)
    ensures AskAll(names, at, c, qs + [q]) == AskAll(names, at, c, qs)
    ensures Found(names, at, c, qs + [q]) == Found(names, at, c, qs)
  {
    OneMoreQuestion(names, at, c, qs, q);
    hide AskAll, Found;
  }

  lemma {:induction false} IgnoredQuestions(names: Names, at: nat -> Moment, net: Network, c: Caches,
                                            qs: seq<Question>, own: seq<Question>)
    requires Steady(at, net) && forall q | q in own :: Ignored(names, q)
    ensures AskAll(names, at, c, qs + own) == AskAll(names, at, c, qs)
    ensures Found(names, at, c, qs + own) == Found(names, at, c, qs)
  {
    hide AskAll, Found, Ignored;
    if own == [] {
      assert qs + own == qs;
    } else {
      var init, last := own[..|own| - 1], own[|own| - 1];
      IgnoredQuestions(names, at, net, c, qs, init);
      assert last in own && at(|qs + init|) == Moment([], net);
      assert qs + own == (qs + init) + [last];
      IgnoredQuestion(names, at, net, c, qs + init, last);
    }
  }

  lemma {:induction false} SameAfter(names: Names, at: nat -> Moment, net: Network, c: Caches,
                                     qs: seq<Question>, qs': seq<Question>, more: seq<Question>)
    requires Steady(at, net)
    requires AskAll(names, at, c, qs) == AskAll(names, at, c, qs') && Found(names, at, c, qs) == Found(names, at, c, qs')
    ensures AskAll(names, at, c, qs + more) == AskAll(names, at, c, qs' + more)
    ensures Found(names, at, c, qs + more) == Found(names, at, c, qs' + more)
  {
    hide AskAll, Found, Ask, Resolved;
    if more == [] {
      assert qs + more == qs && qs' + more == qs';
    } else {
      var init, last := more[..|more| - 1], more[|more| - 1];
      SameAfter(names, at, net, c, qs, qs', init);
      assert qs + more == (qs + init) + [last] && qs' + more == (qs' + init) + [last];
      assert at(|qs + init|) == at(|qs' + init|) == Moment([], net);
      OneMoreQuestion(names, at, c, qs + init, last);
      OneMoreQuestion(names, at, c, qs' + init, last);
    }
  }

  lemma {:induction false} RetainedAsksTheSame(names: Names, at: nat -> Moment, net: Network, c: Caches,
                                               t: BridgeType, topics: seq<TopicData>)
    requires Steady(at, net)
    ensures var kept := Retained(names.bridge, topics);
      && AskAll(names, at, c, Questions(t, kept)) == AskAll(names, at, c, Questions(t, topics))
      && Found(names, at, c, Questions(t, kept)) == Found(names, at, c, Questions(t, topics))
  {
    hide AskAll, Found, Ask, Resolved;
    if topics != [] {
      var init, x := topics[..|topics| - 1], topics[|topics| - 1];
      RetainedAsksTheSame(names, at, net, c, t, init);
      var kept := Retained(names.bridge, init);
      if Kept(names.bridge, x) {
        assert (kept + [x])[..|kept|] == kept;
        SameAfter(names, at, net, c, Questions(t, kept), Questions(t, init), QuestionsOf(t, x));
      } else {
        assert Retained(names.bridge, topics) == kept;
        IgnoredQuestions(names, at, net, c, Questions(t, init), QuestionsOf(t, x));
      }
    }
  }

  /** While nothing changes during the poll, filtering the state is transparent: the same three sets and the
      same caches. */
  lemma FilterIsTransparent(names: Names, at: Moments, net: Network, c: Caches, s: SystemState)
    requires SteadyPoll(at, net)
    ensures Mapped(names, at, c, Filtered(names.bridge, s)) == Mapped(names, at, c, s)
  {
    hide AskAll, Found, Questions, Retained;
    RetainedAsksTheSame(names, at(Subscriber), net, c, Subscriber, s.subscribers);
    var c1, c2 := Reaching(names, at, c, s, Publisher), Reaching(names, at, c, s, Service);
    RetainedAsksTheSame(names, at(Publisher), net, c1, Publisher, s.publishers);
    RetainedAsksTheSame(names, at(Service), net, c2, Service, s.services);
  }

  // ------------------------------------------------------------------ how publishers and services come to be found

  /** Another node's publisher that the master lists and that answers a probe is found with its answer. */
  lemma PublisherIsFound(names: Names, at: Moments, net: Network, c: Caches, s: SystemState,
                         topic: TopicName, node: NodeName, p: Params)
    requires SteadyPoll(at, net) && Lists(s.publishers, topic, node) && node != names.bridge && node != names.aux
    requires Lookup(c.publishers, topic, node) == None && net.publisher(topic, node) == Some(p)
    ensures var k := TopicDescriptor(topic, p.datatype_, p.md5);
      k in Mapped(names, at, c, s).0.published && k in Mapped(names, at, c, Filtered(names.bridge, s)).0.published
  {
    var k := TopicDescriptor(topic, p.datatype_, p.md5);
    FilterIsTransparent(names, at, net, c, s);
    SteadyMappingMeansUsed(names, at, net, c, s, Publisher, k);
    hide Mapped, SteadyPoll, Filtered, Lists;
    StoreThenLookup(c.publishers, topic, node, p, topic, node);
    assert Resolved(names, net, c, Question(Publisher, topic, node)) == Some(p);
  }

  /** Likewise a service, which is probed by its name. */
  lemma ServiceIsFound(names: Names, at: Moments, net: Network, c: Caches, s: SystemState,
                       topic: TopicName, node: NodeName, p: Params)
    requires SteadyPoll(at, net) && Lists(s.services, topic, node) && node != names.bridge
    requires Lookup(c.services, topic, node) == None && net.service(topic) == Some(p)
    ensures var k := TopicDescriptor(topic, p.datatype_, p.md5);
      k in Mapped(names, at, c, s).0.serviced && k in Mapped(names, at, c, Filtered(names.bridge, s)).0.serviced
  {
    var k := TopicDescriptor(topic, p.datatype_, p.md5);
    FilterIsTransparent(names, at, net, c, s);
    SteadyMappingMeansUsed(names, at, net, c, s, Service, k);
    hide Mapped, SteadyPoll, Filtered, Lists;
    StoreThenLookup(c.services, topic, node, p, topic, node);
    assert Resolved(names, net, c, Question(Service, topic, node)) == Some(p);
  }

  /** And what is known already is found without asking again, whatever the network would answer now. */
  lemma KnownIsFound(names: Names, at: Moments, net: Network, c: Caches, s: SystemState,
                     topic: TopicName, node: NodeName, p: Params)
    requires SteadyPoll(at, net) && node != names.bridge
    ensures var k, found := TopicDescriptor(topic, p.datatype_, p.md5), Mapped(names, at, c, s).0;
      && (Lists(s.publishers, topic, node) && node != names.aux && Lookup(c.publishers, topic, node) == Some(p) ==>
           k in found.published)
      && (Lists(s.subscribers, topic, node) && Lookup(c.subscribers, topic, node) == Some(p) ==> k in found.subscribed)
      && (Lists(s.services, topic, node) && Lookup(c.services, topic, node) == Some(p) ==> k in found.serviced)
  {
    var k := TopicDescriptor(topic, p.datatype_, p.md5);
    SteadyMappingMeansUsed(names, at, net, c, s, Publisher, k);
    SteadyMappingMeansUsed(names, at, net, c, s, Subscriber, k);
    SteadyMappingMeansUsed(names, at, net, c, s, Service, k);
    SubscriberAnswer(names, net, c, Question(Subscriber, topic, node));
    hide Mapped, SteadyPoll, Lists, GreetEach;
    KnownIsResolved(names, net, c, topic, node, p);
  }

  lemma KnownIsResolved(names: Names, net: Network, c: Caches, topic: TopicName, node: NodeName, p: Params)
    requires node != names.bridge
    ensures node != names.aux && Lookup(c.publishers, topic, node) == Some(p) ==>
      Resolved(names, net, c, Question(Publisher, topic, node)) == Some(p)
    ensures Lookup(c.subscribers, topic, node) == Some(p) ==>
      Resolved(names, net, c, Question(Subscriber, topic, node)) == Some(p)
    ensures Lookup(c.services, topic, node) == Some(p) ==>
      Resolved(names, net, c, Question(Service, topic, node)) == Some(p)
  {
  }
}
