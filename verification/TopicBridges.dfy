/** One topic's bridge (topic_bridge.rs): two flags, and a declaration and a data bridge that follow them. */
module TopicBridges {
  import opened Wrappers
  import opened Topics

  /** A declaration or a data bridge, told apart from any other of its kind. */
  type Handle = nat

  /** What the network answers if it is asked, during one call, to declare or to create: nothing on failure. */
  datatype Answers = Answers(declare: Option<Handle>, create: Option<Handle>)

  datatype Bridge = Bridge(ros1: bool, zenoh: bool, declaration: Option<Handle>, bridge: Option<Handle>)

  const NEW := Bridge(false, false, None, None)

  /** What there is, or else what can be had. */
  function Held(h: Option<Handle>, answer: Option<Handle>): Option<Handle> { if h.Some? then h else answer }

  predicate Actual(b: Bridge) { b.ros1 || b.zenoh }

  /** When data has to flow: both sides present, or one of them in automatic mode, or a discovered client. */
  predicate Required(t: BridgeType, mode: BridgingMode, ros1: bool, zenoh: bool) {
    || (t == Client && zenoh)
    || (ros1 && zenoh)
    || ((ros1 || zenoh) && mode == Auto)
  }

  function RecalcDeclaration(b: Bridge, ans: Answers): Bridge {
    if b.ros1 then (if b.declaration == None then b.(declaration := ans.declare) else b)
    else b.(declaration := None)
  }

  function RecalcBridging(t: BridgeType, mode: BridgingMode, b: Bridge, ans: Answers): Bridge {
    if Required(t, mode, b.ros1, b.zenoh) then (if b.bridge == None then b.(bridge := ans.create) else b)
    else b.(bridge := None)
  }

  function Recalc(t: BridgeType, mode: BridgingMode, b: Bridge, ans: Answers): Bridge {
    RecalcBridging(t, mode, RecalcDeclaration(b, ans), ans)
  }

  function SetRos1(t: BridgeType, mode: BridgingMode, b: Bridge, present: bool, ans: Answers): Bridge {
    if b.ros1 == present then b else Recalc(t, mode, b.(ros1 := present), ans)
  }

  function SetZenoh(t: BridgeType, mode: BridgingMode, b: Bridge, present: bool, ans: Answers): Bridge {
    if b.zenoh == present then b else Recalc(t, mode, b.(zenoh := present), ans)
  }

  /** The bridge as the source keeps it. */
  class TopicBridge {
    const topic: TopicDescriptor
    const bType: BridgeType
    const mode: BridgingMode
    var requiredOnRos1Side: bool
    var requiredOnZenohSide: bool
    var declaration: Option<Handle>
    var bridge: Option<Handle>

    function State(): Bridge
      reads this
    {
      Bridge(requiredOnRos1Side, requiredOnZenohSide, declaration, bridge)
    }

    constructor (topic: TopicDescriptor, bType: BridgeType, mode: BridgingMode)
      ensures State() == NEW && this.topic == topic && this.bType == bType && this.mode == mode
    {
      this.topic, this.bType, this.mode := topic, bType, mode;
      requiredOnRos1Side, requiredOnZenohSide, declaration, bridge := false, false, None, None;
    }

    method SetPresentInRos1(present: bool, ans: Answers) returns (recalc: bool)
      modifies this
      ensures State() == SetRos1(bType, mode, old(State()), present, ans)
      ensures recalc == (old(State()).ros1 != present)
    {
      recalc := requiredOnRos1Side != present;
      requiredOnRos1Side := present;
      if recalc {
        RecalcState(ans);
      }
    }

    method SetHasComplementaryInZenoh(present: bool, ans: Answers) returns (recalc: bool)
      modifies this
      ensures State() == SetZenoh(bType, mode, old(State()), present, ans)
      ensures recalc == (old(State()).zenoh != present)
    {
      recalc := requiredOnZenohSide != present;
      requiredOnZenohSide := present;
      if recalc {
        RecalcState(ans);
      }
    }

    predicate IsActual()
      reads this
      ensures IsActual() <==> Actual(State())
    {
      requiredOnRos1Side || requiredOnZenohSide
    }

    method RecalcState(ans: Answers)
      modifies this`declaration, this`bridge
      ensures State() == Recalc(bType, mode, old(State()), ans)
      ensures declaration == if requiredOnRos1Side then Held(old(declaration), ans.declare) else None
      ensures requiredOnRos1Side && requiredOnZenohSide ==> bridge == Held(old(bridge), ans.create)
      ensures !requiredOnRos1Side && !requiredOnZenohSide ==> bridge == None
      ensures requiredOnRos1Side != requiredOnZenohSide && !(bType == Client && requiredOnZenohSide) ==>
        bridge == if mode == Auto then Held(old(bridge), ans.create) else None
      ensures bType == Client && requiredOnZenohSide ==> bridge == Held(old(bridge), ans.create)
    {
      match (requiredOnRos1Side, declaration) {
        case (true, None) => declaration := ans.declare;
        case (false, Some(_)) => declaration := None;
        case _ =>
      }
      var isDiscoveredClient := bType == Client && requiredOnZenohSide;
      var isRequired := isDiscoveredClient ||
        (match (requiredOnZenohSide, requiredOnRos1Side)
         case (true, true) => true
         case (false, false) => false
         case _ => mode == Auto);
      match (isRequired, bridge) {
        case (true, Some(_)) =>
        case (true, None) => bridge := ans.create;
        case (false, _) => bridge := None;
      }
    }
  }

  // ------------------------------------------------------------------ over any history of the two flags

  /** One call of a setter, and what the network would answer during it. */
  datatype Call = Call(ros1Side: bool, present: bool, ans: Answers)

  function Apply(t: BridgeType, mode: BridgingMode, b: Bridge, call: Call): Bridge {
    if call.ros1Side then SetRos1(t, mode, b, call.present, call.ans) else SetZenoh(t, mode, b, call.present, call.ans)
  }

  function After(t: BridgeType, mode: BridgingMode, calls: seq<Call>): Bridge {
    if calls == [] then NEW else Apply(t, mode, After(t, mode, calls[..|calls| - 1]), calls[|calls| - 1])
  }

  predicate Needed(t: BridgeType, mode: BridgingMode, b: Bridge) { Required(t, mode, b.ros1, b.zenoh) }

  predicate NoFailures(calls: seq<Call>) {
    forall i | 0 <= i < |calls| :: calls[i].ans.declare.Some? && calls[i].ans.create.Some?
  }

  /** How often a data bridge was built: there was none before the call and there is one after it. */
  function Creations(t: BridgeType, mode: BridgingMode, calls: seq<Call>): nat {
    if calls == [] then 0
    else
      var init := calls[..|calls| - 1];
      Creations(t, mode, init) +
      if After(t, mode, init).bridge == None && After(t, mode, calls).bridge.Some? then 1 else 0
  }

  /** How often a data bridge came to be required. */
  function RisingEdges(t: BridgeType, mode: BridgingMode, calls: seq<Call>): nat {
    if calls == [] then 0
    else
      var init := calls[..|calls| - 1];
      RisingEdges(t, mode, init) +
      if !Needed(t, mode, After(t, mode, init)) && Needed(t, mode, After(t, mode, calls)) then 1 else 0
  }

  /** A live bridge is required and a declaration is of a topic present in ROS1. */
  predicate Justified(t: BridgeType, mode: BridgingMode, b: Bridge) {
    (b.bridge.Some? ==> Needed(t, mode, b)) && (b.declaration.Some? ==> b.ros1)
  }

  /** ... and the other way round, which failures can spoil. */
  predicate Complete(t: BridgeType, mode: BridgingMode, b: Bridge) {
    (b.bridge.Some? <==> Needed(t, mode, b)) && (b.declaration.Some? <==> b.ros1)
  }

  lemma JustifiedStep(t: BridgeType, mode: BridgingMode, b: Bridge, call: Call)
    requires Justified(t, mode, b)
    ensures Justified(t, mode, Apply(t, mode, b, call))
    ensures b.bridge.Some? && Needed(t, mode, Apply(t, mode, b, call)) ==> Apply(t, mode, b, call).bridge == b.bridge
    ensures b.declaration.Some? && Apply(t, mode, b, call).ros1 ==> Apply(t, mode, b, call).declaration == b.declaration
  {
  }

  lemma CompleteStep(t: BridgeType, mode: BridgingMode, b: Bridge, call: Call)
    requires Complete(t, mode, b) && call.ans.declare.Some? && call.ans.create.Some?
    ensures Complete(t, mode, Apply(t, mode, b, call))
  {
  }

  /** Whatever fails, at most one bridge is built for each time one comes to be required. */
  lemma {:induction false} BridgesFollowFlags(t: BridgeType, mode: BridgingMode, calls: seq<Call>)
    ensures Justified(t, mode, After(t, mode, calls))
    ensures Creations(t, mode, calls) +
      (if Needed(t, mode, After(t, mode, calls)) && After(t, mode, calls).bridge == None then 1 else 0)
      <= RisingEdges(t, mode, calls)
  {
    if calls != [] {
      var init := calls[..|calls| - 1];
      BridgesFollowFlags(t, mode, init);
      JustifiedStep(t, mode, After(t, mode, init), calls[|calls| - 1]);
    }
  }

  /** Without failures it is exactly one, and bridges and declarations exist exactly when they should. */
  lemma {:induction false} OneBridgePerNeed(t: BridgeType, mode: BridgingMode, calls: seq<Call>)
    requires NoFailures(calls)
    ensures Complete(t, mode, After(t, mode, calls))
    ensures var b := After(t, mode, calls);
      && (b.ros1 && b.zenoh ==> b.bridge.Some?) && (b.declaration.Some? <==> b.ros1)
      && (mode == Auto ==> (b.bridge.Some? <==> b.ros1 || b.zenoh))
      && (mode != Auto && t != Client ==> (b.bridge.Some? <==> b.ros1 && b.zenoh))
      && (mode != Auto && t == Client ==> (b.bridge.Some? <==> b.zenoh))
    ensures Creations(t, mode, calls) == RisingEdges(t, mode, calls)
  {
    if calls != [] {
      var init := calls[..|calls| - 1];
      assert forall i | 0 <= i < |init| :: init[i] == calls[i];
      OneBridgePerNeed(t, mode, init);
      CompleteStep(t, mode, After(t, mode, init), calls[|calls| - 1]);
    }
  }

  /** While a bridge stays required, a live one is never rebuilt or lost; nor is a declaration while its
      topic stays present. */
  lemma {:induction false} NeverRebuilt(t: BridgeType, mode: BridgingMode, calls: seq<Call>, call: Call)
    ensures var b, b' := After(t, mode, calls), After(t, mode, calls + [call]);
      && (b.bridge.Some? && Needed(t, mode, b') ==> b'.bridge == b.bridge)
      && (b.declaration.Some? && b'.ros1 ==> b'.declaration == b.declaration)
  {
    assert (calls + [call])[..|calls|] == calls;
    BridgesFollowFlags(t, mode, calls);
    JustifiedStep(t, mode, After(t, mode, calls), call);
  }
}
