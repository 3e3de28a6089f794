/** The ROS master's state as the bridge reads it (ros1_client.rs): topics of the bridge's own making are
    filtered out first. */
module Ros1Client {
  import opened Wrappers

  datatype TopicData = TopicData(name: string, connections: seq<string>)

  datatype SystemState = SystemState(publishers: seq<TopicData>, subscribers: seq<TopicData>, services: seq<TopicData>)

  /** What the filter keeps: a topic with several nodes, or with one that is not the bridge's own. */
  predicate Kept(name: string, x: TopicData) {
    |x.connections| > 1 || (|x.connections| == 1 && x.connections[0] != name)
  }

  function Retained(name: string, topics: seq<TopicData>): (r: seq<TopicData>)
    ensures forall x :: x in r <==> x in topics && Kept(name, x)
    ensures |r| <= |topics|
  {
    if topics == [] then []
    else
      var last := topics[|topics| - 1];
      Retained(name, topics[..|topics| - 1]) + if Kept(name, last) then [last] else []
  }

  function Filtered(name: string, s: SystemState): SystemState {
    SystemState(Retained(name, s.publishers), Retained(name, s.subscribers), Retained(name, s.services))
  }

  /** The filter drops exactly the topics that nobody, or nobody but this one node, takes part in. */
  lemma OnlyOwnTopicsDropped(name: string, topics: seq<TopicData>, x: TopicData)
    requires x in topics
    ensures x !in Retained(name, topics) <==> x.connections == [] || x.connections == [name]
  {
  }

  class Ros1Client {
    const name: string

    constructor (name: string)
      ensures this.name == name
    {
      this.name := name;
    }

    method Retain(topics: seq<TopicData>) returns (r: seq<TopicData>)
      ensures r == Retained(name, topics)
    {
      r := [];
      for i := 0 to |topics|
        invariant r == Retained(name, topics[..i])
      {
        assert topics[..i + 1][..i] == topics[..i];
        var x := topics[i];
        if |x.connections| > 1 || (|x.connections| == 1 && x.connections[0] != name) {
          r := r + [x];
        }
      }
      assert topics[..|topics|] == topics;
    }

    /** An unreadable master stays unreadable. */
    method Filter(state: Option<SystemState>) returns (r: Option<SystemState>)
      ensures r == if state == None then None else Some(Filtered(name, state.value))
    {
      match state
      case None => r := None;
      case Some(value) =>
        var publishers := Retain(value.publishers);
        var subscribers := Retain(value.subscribers);
        var services := Retain(value.services);
        r := Some(SystemState(publishers, subscribers, services));
    }
  }
}
