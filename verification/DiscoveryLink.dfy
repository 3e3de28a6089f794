/** From beacons to storage (discovery.rs, ros1_to_zenoh_bridge_impl.rs): every callback of the subscription
    is decoded and becomes one operation on the storage, between the polls and clears. */
module DiscoveryLink {
  import opened Wrappers
  import opened Topics
  import opened StorageHistory
  import opened AlohaSubscription
  import opened Discovery

  type Log = seq<(Key, Callback)>

  /** A receiver's namespaces, those of the declarers it may hear (a receiver's wild card meets many), and
      which bytes are UTF-8. */
  datatype Space = Space(ns: string, bridgeNs: string, peers: iset<(string, string)>, text: seq<Byte> -> bool)

  ghost predicate DeclaredAs(sp: Space, p: (string, string), t: BridgeType, d: TopicDescriptor, key: Key) {
    p in sp.peers && DiscoveryKey(p.0, p.1, t, d) == Some(key) && sp.text(d.datatype_)
  }

  /** The key of some topic of some declarer, as far as it reaches the subscription. */
  ghost predicate Peer(sp: Space, key: Key) {
    Delivered(sp.ns, sp.bridgeNs, key) && exists p, t, d :: DeclaredAs(sp, p, t, d, key)
  }

  /** Every key that reaches the subscription is decoded. */
  lemma PeersAreDecoded(sp: Space, key: Key)
    requires Peer(sp, key)
    ensures Decode(sp.text, key).Decoded?
  {
    var p, t, d :| DeclaredAs(sp, p, t, d, key);
    DeliveredIsDecoded(sp.text, p.0, p.1, t, d, sp.ns, sp.bridgeNs);
  }

  /** What a callback does to the storage; a key that cannot be decoded is only reported. */
  function Handled(sp: Space, call: (Key, Callback), net: Networks): seq<Op> {
    match Decode(sp.text, call.0)
    case Failed(_) => []
    case Decoded(t, d) =>
      if call.1 == Declared then [Discovered(t, d, net(Complement(t), d))] else [Lost(t, d, net(Complement(t), d))]
  }

  function AllHandled(sp: Space, calls: Log, net: Networks): seq<Op> {
    if calls == [] then []
    else AllHandled(sp, calls[..|calls| - 1], net) + Handled(sp, calls[|calls| - 1], net)
  }

  /** A subscription, the history of the storage it feeds, and how many callbacks there had been when the
      storage was last cleared. */
  datatype Fed = Fed(shared: Shared, ops: seq<Op>, base: nat)

  const NOTHING := Fed(Shared(map[], BeforeReset, []), [], 0)

  datatype Event = Table(a: Action, net: Networks) | PollNow(m: Ros1TopicMapping, net: Networks) | ClearNow

  ghost predicate Feeds(sp: Space, f: Fed, e: Event, f': Fed) {
    match e
    case Table(a, net) =>
      && (a.Hear? ==> Peer(sp, a.key))
      && Step(f.shared, a, f'.shared) && f.shared.log <= f'.shared.log
      && f'.ops == f.ops + AllHandled(sp, f'.shared.log[|f.shared.log|..], net) && f'.base == f.base
    case PollNow(m, net) => f' == f.(ops := f.ops + [Poll(m, net)])
    case ClearNow => f' == f.(ops := f.ops + [Clear], base := |f.shared.log|)
  }

  datatype Run = Run(fs: seq<Fed>, es: seq<Event>)

  ghost predicate FeedsAt(sp: Space, r: Run, i: nat)
    requires i < |r.es| && |r.fs| == |r.es| + 1
  {
    Feeds(sp, r.fs[i], r.es[i], r.fs[i + 1])
  }

  ghost predicate IsRun(sp: Space, r: Run) {
    && |r.fs| == |r.es| + 1 && r.fs[0] == NOTHING
    && forall i | 0 <= i < |r.es| :: FeedsAt(sp, r, i)
  }

  // ------------------------------------------------------------------ what the storage is told

  /** The callbacks for all the keys that are decoded to the topic. */
  function TopicCalls(sp: Space, log: Log, t: BridgeType, k: TopicDescriptor): seq<Callback> {
    if log == [] then []
    else
      TopicCalls(sp, log[..|log| - 1], t, k) +
      (if Decode(sp.text, log[|log| - 1].0) == Decoded(t, k) then [log[|log| - 1].1] else [])
  }

  /** Some remote peer wants it, as far as these callbacks tell. */
  ghost predicate Tells(sp: Space, modes: Modes, ops: seq<Op>, t: BridgeType, k: TopicDescriptor, log: Log) {
    k in InZenoh(modes, ops, Complement(t)) <==> EndsDeclared(TopicCalls(sp, log, t, k))
  }

  lemma OneMoreTopicCall(sp: Space, log: Log, call: (Key, Callback), t: BridgeType, k: TopicDescriptor)
    ensures TopicCalls(sp, log + [call], t, k) ==
      TopicCalls(sp, log, t, k) + if Decode(sp.text, call.0) == Decoded(t, k) then [call.1] else []
  {
    assert (log + [call])[..|log|] == log;
  }

  lemma HandledIsAbout(sp: Space, t: BridgeType, k: TopicDescriptor, call: (Key, Callback), net: Networks)
    ensures var handled := Handled(sp, call, net);
      if handled == [] then Decode(sp.text, call.0) != Decoded(t, k)
      else
        && |handled| == 1 && (handled[0].Discovered? || handled[0].Lost?)
        && (About(handled[0], Complement(t), k) <==> Decode(sp.text, call.0) == Decoded(t, k))
        && (handled[0].Discovered? <==> call.1 == Declared)
  {
    hide Decode;
  }

  lemma LastCallDecides(calls: seq<Callback>, last: Callback)
    ensures EndsDeclared(calls + [last]) <==> last == Declared
    ensures calls + [] == calls
  {
  }

  lemma OneMoreEvent(modes: Modes, ops: seq<Op>, op: Op, t: BridgeType, k: TopicDescriptor)
    requires (op.Discovered? || op.Lost?) && Enabled(modes, t, k)
    ensures k in InZenoh(modes, ops + [op], t) <==>
      if About(op, t, k) then op.Discovered? else k in InZenoh(modes, ops, t)
  {
    assert (ops + [op])[..|ops|] == ops;
  }

  lemma OneHandled(sp: Space, modes: Modes, ops: seq<Op>, t: BridgeType, k: TopicDescriptor, log: Log,
                   call: (Key, Callback), net: Networks)
    requires Enabled(modes, Complement(t), k) && Tells(sp, modes, ops, t, k, log)
    ensures Tells(sp, modes, ops + Handled(sp, call, net), t, k, log + [call])
  {
    HandledIsAbout(sp, t, k, call, net);
    hide Decode, InZenoh, TopicCalls, Handled, About, EndsDeclared;
    var handled := Handled(sp, call, net);
    OneMoreTopicCall(sp, log, call, t, k);
    LastCallDecides(TopicCalls(sp, log, t, k), call.1);
    if handled == [] {
      assert ops + handled == ops;
    } else {
      assert handled == [handled[0]];
      OneMoreEvent(modes, ops, handled[0], Complement(t), k);
    }
  }

  lemma {:induction false} CallbacksHandled(sp: Space, modes: Modes, ops: seq<Op>, t: BridgeType, k: TopicDescriptor,
                                            log: Log, calls: Log, net: Networks)
    requires Enabled(modes, Complement(t), k) && Tells(sp, modes, ops, t, k, log)
    ensures Tells(sp, modes, ops + AllHandled(sp, calls, net), t, k, log + calls)
  {
    hide Tells, Handled;
    if calls == [] {
      assert ops + AllHandled(sp, calls, net) == ops && log + calls == log;
    } else {
      var init, last := calls[..|calls| - 1], calls[|calls| - 1];
      CallbacksHandled(sp, modes, ops, t, k, log, init, net);
      OneHandled(sp, modes, ops + AllHandled(sp, init, net), t, k, log + init, last, net);
      assert ops + AllHandled(sp, calls, net) == ops + AllHandled(sp, init, net) + Handled(sp, last, net);
      assert log + calls == log + init + [last];
    }
  }

  /** What the storage is told since its last clear: for every receiver, wild card or not, it wants a topic
      exactly if the last callback for any of the topic's keys was a declaration. */
  lemma {:induction false} StorageIsTold(sp: Space, modes: Modes, r: Run, b: nat, t: BridgeType, k: TopicDescriptor)
    requires IsRun(sp, r) && b < |r.fs| && Enabled(modes, Complement(t), k)
    ensures r.fs[b].base <= |r.fs[b].shared.log|
    ensures Tells(sp, modes, r.fs[b].ops, t, k, r.fs[b].shared.log[r.fs[b].base..])
  {
    if b > 0 {
      hide Tells, Enabled, Feeds;
      StorageIsTold(sp, modes, r, b - 1, t, k);
      assert FeedsAt(sp, r, b - 1);
      ToldStep(sp, modes, r.fs[b - 1], r.es[b - 1], r.fs[b], t, k);
    }
  }

  lemma ToldStep(sp: Space, modes: Modes, f: Fed, e: Event, f': Fed, t: BridgeType, k: TopicDescriptor)
    requires Feeds(sp, f, e, f') && Enabled(modes, Complement(t), k)
    requires f.base <= |f.shared.log| && Tells(sp, modes, f.ops, t, k, f.shared.log[f.base..])
    ensures f'.base <= |f'.shared.log| && Tells(sp, modes, f'.ops, t, k, f'.shared.log[f'.base..])
  {
    hide Peer, Step, Enabled;
    match e
    case Table(a, net) =>
      hide Tells;
      var calls := f'.shared.log[|f.shared.log|..];
      CallbacksHandled(sp, modes, f.ops, t, k, f.shared.log[f.base..], calls, net);
      LogGrows(f.shared.log, f'.shared.log, f.base);
    case PollNow(m, net) => PollTellsNothing(modes, f.ops, m, net, Complement(t));
    case ClearNow => ClearForgets(modes, f.ops, Complement(t));
  }

  lemma LogGrows(log: Log, log': Log, base: nat)
    requires log <= log' && base <= |log|
    ensures log'[base..] == log[base..] + log'[|log|..]
  {
    assert log' == log + log'[|log|..];
  }

  lemma PollTellsNothing(modes: Modes, ops: seq<Op>, m: Ros1TopicMapping, net: Networks, t: BridgeType)
    ensures InZenoh(modes, ops + [Poll(m, net)], t) == InZenoh(modes, ops, t)
  {
    assert (ops + [Poll(m, net)])[..|ops|] == ops;
  }

  lemma ClearForgets(modes: Modes, ops: seq<Op>, t: BridgeType)
    ensures InZenoh(modes, ops + [Clear], t) == {}
  {
  }

  lemma {:induction false} TruthfulOverRun(sp: Space, r: Run, b: nat, key: Key)
    requires IsRun(sp, r) && b < |r.fs|
    requires forall i | 0 <= i < b && r.es[i].Table? :: !Resurrects(r.fs[i].shared, r.es[i].a, key)
    ensures Truthful(r.fs[b].shared, key)
    ensures var s := r.fs[b].shared; s.stage == Gap && Inactive(Entry(s.table, key)) ==>
      Calls(s.log, key) != [] && !EndsDeclared(Calls(s.log, key))
  {
    if b > 0 {
      TruthfulOverRun(sp, r, b - 1, key);
      assert FeedsAt(sp, r, b - 1);
      var s, s' := r.fs[b - 1].shared, r.fs[b].shared;
      if r.es[b - 1].Table? {
        GapMeansReported(s, r.es[b - 1].a, s', key);
        TruthfulStep(s, r.es[b - 1].a, s', key);
      }
    }
  }

  /** The storage has the topic marked as wanted by a remote peer. */
  ghost predicate Wanted(modes: Modes, f: Fed, t: BridgeType, k: TopicDescriptor) {
    var e := EntryAfter(modes, f.ops, Complement(t), k);
    e.Some? && e.value.zenoh
  }

  lemma WantedIfTold(modes: Modes, f: Fed, t: BridgeType, k: TopicDescriptor)
    ensures Wanted(modes, f, t, k) <==> k in InZenoh(modes, f.ops, Complement(t))
  {
    StorageIsTwoSets(modes, f.ops, Complement(t), k);
  }

  // ------------------------------------------------------------------ a topic of one key

  /** All declarers share a discovery and a bridge namespace. */
  ghost predicate OneSpace(sp: Space) {
    forall p, q | p in sp.peers && q in sp.peers :: p == q
  }

  /** A topic as the receiver knows it, and a key of it. */
  ghost predicate Named(sp: Space, t: BridgeType, k: TopicDescriptor, key: Key) {
    Peer(sp, key) && Decode(sp.text, key) == Decoded(t, k)
  }

  /** Callbacks for the topic's key, and only those, then concern the topic. */
  lemma OnlyItsKey(sp: Space, t: BridgeType, k: TopicDescriptor, key: Key, other: Key)
    requires OneSpace(sp) && Named(sp, t, k, key) && Peer(sp, other)
    ensures Decode(sp.text, other) == Decoded(t, k) <==> other == key
  {
    var p, t1, d1 :| DeclaredAs(sp, p, t1, d1, key);
    var q, t2, d2 :| DeclaredAs(sp, q, t2, d2, other);
    DeliveredIsDecoded(sp.text, p.0, p.1, t1, d1, sp.ns, sp.bridgeNs);
    DeliveredIsDecoded(sp.text, q.0, q.1, t2, d2, sp.ns, sp.bridgeNs);
    hide Decode, Delivered, DiscoveryKey, Normal;
    SameKey(p.0, p.1, t1, d1, q.0, q.1, t2, d2);
  }

  ghost predicate AllPeers(sp: Space, calls: Log) {
    forall i | 0 <= i < |calls| :: Peer(sp, calls[i].0)
  }

  lemma {:induction false} TopicIsItsKey(sp: Space, log: Log, t: BridgeType, k: TopicDescriptor, key: Key)
    requires OneSpace(sp) && Named(sp, t, k, key) && AllPeers(sp, log)
    ensures TopicCalls(sp, log, t, k) == Calls(log, key)
  {
    hide Named, Peer, OneSpace;
    if log != [] {
      var init, last := log[..|log| - 1], log[|log| - 1];
      assert forall i | 0 <= i < |init| :: init[i] == log[i];
      TopicIsItsKey(sp, init, t, k, key);
      OnlyItsKey(sp, t, k, key, last.0);
    }
  }

  /** Only peers' keys are in the table. */
  ghost predicate Familiar(sp: Space, s: Shared) {
    forall key | Entry(s.table, key).Some? :: Peer(sp, key)
  }

  /** The callbacks that a step makes. */
  lemma NewCallbacks(sp: Space, s: Shared, a: Action, s': Shared)
    requires Step(s, a, s') && Familiar(sp, s) && (a.Hear? ==> Peer(sp, a.key))
    ensures Familiar(sp, s') && s.log <= s'.log && AllPeers(sp, s'.log[|s.log|..])
  {
    var calls := s'.log[|s.log|..];
    match a
    case Hear(key) =>
    case ScanAll(lost) =>
      forall i | 0 <= i < |calls| ensures Peer(sp, calls[i].0) {
        assert calls[i].0 == lost[i] && lost[i] in lost;
        assert Inactive(Entry(s.table, lost[i]));
      }
    case _ =>
      assert calls == [];
  }

  /** Only peers are ever called declared or undeclared. */
  lemma {:induction false} PeersLogged(sp: Space, r: Run, b: nat)
    requires IsRun(sp, r) && b < |r.fs|
    ensures Familiar(sp, r.fs[b].shared) && AllPeers(sp, r.fs[b].shared.log)
  {
    if b > 0 {
      PeersLogged(sp, r, b - 1);
      assert FeedsAt(sp, r, b - 1);
      var s, s' := r.fs[b - 1].shared, r.fs[b].shared;
      if r.es[b - 1].Table? {
        NewCallbacks(sp, s, r.es[b - 1].a, s');
        assert s'.log == s.log + s'.log[|s.log|..];
      }
    }
  }

  /** The storage's flag and the subscription's table agree on a topic, provided no beacon fell into the
      gap on its key, exactly unless the key has been present without a callback since the storage was last
      cleared: what a clear forgets comes back only with a new discovery. */
  lemma StorageAgreesWithTable(sp: Space, modes: Modes, r: Run, b: nat, t: BridgeType, k: TopicDescriptor, key: Key)
    requires OneSpace(sp) && IsRun(sp, r) && b < |r.fs| && Named(sp, t, k, key) && Enabled(modes, Complement(t), k)
    requires forall i | 0 <= i < b && r.es[i].Table? :: !Resurrects(r.fs[i].shared, r.es[i].a, key)
    ensures var f := r.fs[b];
      f.base <= |f.shared.log| &&
      ((Wanted(modes, f, t, k) <==> Present(f.shared, key)) <==>
        (Present(f.shared, key) ==> Calls(f.shared.log[f.base..], key) != []))
  {
    var f := r.fs[b];
    StorageIsTold(sp, modes, r, b, t, k);
    TruthfulOverRun(sp, r, b, key);
    WantedIfTold(modes, f, t, k);
    PeersLogged(sp, r, b);
    hide IsRun, Decode, Entry, Named, Peer, Familiar, OneSpace, Wanted, Present, EndsDeclared, TopicCalls, Calls;
    var before, since := f.shared.log[..f.base], f.shared.log[f.base..];
    TopicIsItsKey(sp, since, t, k, key);
    assert f.shared.log == before + since;
    CallsOfParts(before, since, key);
    LastOfParts(Calls(before, key), Calls(since, key));
  }

  lemma LastOfParts(before: seq<Callback>, since: seq<Callback>)
    ensures EndsDeclared(since) ==> EndsDeclared(before + since)
    ensures since != [] ==> (EndsDeclared(before + since) <==> EndsDeclared(since))
    ensures !EndsDeclared([])
  {
  }

  /** Without clears they agree throughout. */
  lemma {:induction false} NeverCleared(sp: Space, r: Run, b: nat)
    requires IsRun(sp, r) && b < |r.fs| && forall i | 0 <= i < b :: r.es[i] != ClearNow
    ensures r.fs[b].base == 0
  {
    if b > 0 {
      NeverCleared(sp, r, b - 1);
      assert FeedsAt(sp, r, b - 1);
    }
  }

  lemma StorageAgreesUntilCleared(sp: Space, modes: Modes, r: Run, b: nat, t: BridgeType, k: TopicDescriptor, key: Key)
    requires OneSpace(sp) && IsRun(sp, r) && b < |r.fs| && Named(sp, t, k, key) && Enabled(modes, Complement(t), k)
    requires forall i | 0 <= i < b :: r.es[i] != ClearNow
    requires forall i | 0 <= i < b && r.es[i].Table? :: !Resurrects(r.fs[i].shared, r.es[i].a, key)
    ensures Wanted(modes, r.fs[b], t, k) <==> Present(r.fs[b].shared, key)
  {
    NeverCleared(sp, r, b);
    TruthfulOverRun(sp, r, b, key);
    StorageAgreesWithTable(sp, modes, r, b, t, k, key);
    assert r.fs[b].shared.log[0..] == r.fs[b].shared.log;
  }

  /** And a clear does part them: a peer discovered before it, and heard ever since, stays unknown. */
  lemma ClearForgetsPeers(sp: Space, modes: Modes, t: BridgeType, k: TopicDescriptor, key: Key, net: Networks)
    returns (r: Run)
    requires Peer(sp, key)
    ensures IsRun(sp, r) && r.es == [Table(Hear(key), net), ClearNow, Table(Hear(key), net)]
    ensures Present(r.fs[3].shared, key) && !Wanted(modes, r.fs[3], t, k)
  {
    var heard := Shared(map[key := true], BeforeReset, [(key, Declared)]);
    assert Present(heard, key) && Entry(heard.table, key) == Some(true);
    hide Peer, Wanted, AllHandled, Feeds, EntryAfter, IsRun, Present, Entry, Delivered, DeclaredAs;
    var ops := AllHandled(sp, heard.log, net);
    var f1, f2 := Fed(heard, ops, 0), Fed(heard, ops + [Clear], 1);
    r := Run([NOTHING, f1, f2, f2], [Table(Hear(key), net), ClearNow, Table(Hear(key), net)]);
    FirstHeard(sp, key, net, f1);
    ClearedNow(sp, modes, f1, f2, t, k);
    HeardAgain(sp, key, net, f2);
    ThreeSteps(sp, r);
  }

  lemma ThreeSteps(sp: Space, r: Run)
    requires |r.fs| == 4 && |r.es| == 3 && r.fs[0] == NOTHING
    requires Feeds(sp, r.fs[0], r.es[0], r.fs[1]) && Feeds(sp, r.fs[1], r.es[1], r.fs[2])
    requires Feeds(sp, r.fs[2], r.es[2], r.fs[3])
    ensures IsRun(sp, r)
  {
    hide Feeds;
    forall i | 0 <= i < |r.es| ensures FeedsAt(sp, r, i) {
      assert i == 0 || i == 1 || i == 2;
    }
  }

  lemma ClearedNow(sp: Space, modes: Modes, f: Fed, f': Fed, t: BridgeType, k: TopicDescriptor)
    requires f' == Fed(f.shared, f.ops + [Clear], |f.shared.log|)
    ensures Feeds(sp, f, ClearNow, f') && !Wanted(modes, f', t, k)
  {
    WantedIfTold(modes, f', t, k);
  }

  lemma FirstHeard(sp: Space, key: Key, net: Networks, f: Fed)
    requires Peer(sp, key) && f.shared == Shared(map[key := true], BeforeReset, [(key, Declared)])
    requires f.ops == AllHandled(sp, f.shared.log, net) && f.base == 0
    ensures Feeds(sp, NOTHING, Table(Hear(key), net), f)
  {
    assert f.shared.log[0..] == f.shared.log;
  }

  lemma HeardAgain(sp: Space, key: Key, net: Networks, f: Fed)
    requires Peer(sp, key) && Entry(f.shared.table, key) == Some(true)
    ensures Feeds(sp, f, Table(Hear(key), net), f)
  {
    assert f.ops + [] == f.ops;
  }

  // ------------------------------------------------------------------ a topic of several keys

  /** Some key of the topic is present. */
  ghost predicate SomePresent(sp: Space, s: Shared, t: BridgeType, k: TopicDescriptor) {
    exists key :: Decode(sp.text, key) == Decoded(t, k) && Present(s, key)
  }

  /** If the last callback for the topic's keys was a declaration, it was the last one for its own key. */
  lemma {:induction false} LastDeclared(sp: Space, log: Log, t: BridgeType, k: TopicDescriptor) returns (key: Key)
    requires EndsDeclared(TopicCalls(sp, log, t, k))
    ensures Decode(sp.text, key) == Decoded(t, k) && EndsDeclared(Calls(log, key))
  {
    var init, last := log[..|log| - 1], log[|log| - 1];
    hide Decode;
    if Decode(sp.text, last.0) == Decoded(t, k) {
      key := last.0;
    } else {
      key := LastDeclared(sp, init, t, k);
    }
  }

  /** For every receiver, and provided no beacon fell into the gap on a key of the topic: the flag is never up
      without a peer, and it agrees with the table exactly if, where some peer is present, the last callback
      for the topic's keys since the last clear was a declaration. */
  lemma WildcardAgrees(sp: Space, modes: Modes, r: Run, b: nat, t: BridgeType, k: TopicDescriptor)
    requires IsRun(sp, r) && b < |r.fs| && Enabled(modes, Complement(t), k)
    requires forall key, i | Decode(sp.text, key) == Decoded(t, k) && 0 <= i < b && r.es[i].Table? ::
               !Resurrects(r.fs[i].shared, r.es[i].a, key)
    ensures var f := r.fs[b];
      && f.base <= |f.shared.log| && (Wanted(modes, f, t, k) ==> SomePresent(sp, f.shared, t, k))
      && ((Wanted(modes, f, t, k) <==> SomePresent(sp, f.shared, t, k)) <==>
           (SomePresent(sp, f.shared, t, k) ==> EndsDeclared(TopicCalls(sp, f.shared.log[f.base..], t, k))))
  {
    var f := r.fs[b];
    StorageIsTold(sp, modes, r, b, t, k);
    WantedIfTold(modes, f, t, k);
    hide IsRun, Decode, Wanted;
    if EndsDeclared(TopicCalls(sp, f.shared.log[f.base..], t, k)) {
      var before, since := f.shared.log[..f.base], f.shared.log[f.base..];
      var key := LastDeclared(sp, since, t, k);
      TruthfulOverRun(sp, r, b, key);
      CallsOfParts(before, since, key);
      assert f.shared.log == before + since;
    }
  }

  /** Every history of a table that hears peers feeds a storage. */
  lemma {:induction false} Feeding(sp: Space, h: History, net: Networks, n: nat) returns (r: Run)
    requires IsHistory(h) && n <= |h.acts|
    requires forall i | 0 <= i < |h.acts| && h.acts[i].Hear? :: Peer(sp, h.acts[i].key)
    ensures IsRun(sp, r) && |r.es| == n
    ensures forall i | 0 <= i < n :: r.es[i] == Table(h.acts[i], net)
    ensures forall i | 0 <= i <= n :: r.fs[i].shared == h.ss[i] && r.fs[i].base == 0
    decreases n
  {
    if n == 0 {
      r := Run([NOTHING], []);
    } else {
      assert ActAt(h, n - 1);
      r := Feeding(sp, h, net, n - 1);
      hide IsHistory, Step, Peer, Feeds, AllHandled;
      r := OneMoreFeed(sp, r, h.acts[n - 1], h.ss[n], net);
    }
  }

  lemma OneMoreFeed(sp: Space, r: Run, a: Action, s': Shared, net: Networks) returns (r': Run)
    requires IsRun(sp, r) && r.fs[|r.es|].base == 0 && Step(r.fs[|r.es|].shared, a, s') && (a.Hear? ==> Peer(sp, a.key))
    ensures IsRun(sp, r') && r'.es == r.es + [Table(a, net)]
    ensures |r'.fs| == |r.fs| + 1 && r.fs == r'.fs[..|r.fs|] && r'.fs[|r.fs|].shared == s' && r'.fs[|r.fs|].base == 0
  {
    var f := r.fs[|r.es|];
    LogExtends(f.shared, a, s');
    var f' := Fed(s', f.ops + AllHandled(sp, s'.log[|f.shared.log|..], net), 0);
    assert Feeds(sp, f, Table(a, net), f');
    hide Feeds, Step, Peer, AllHandled;
    r' := Run(r.fs + [f'], r.es + [Table(a, net)]);
    forall i | 0 <= i < |r'.es| ensures FeedsAt(sp, r', i) {
      assert i < |r.es| ==> FeedsAt(sp, r, i);
    }
  }

  lemma LogExtends(s: Shared, a: Action, s': Shared)
    requires Step(s, a, s')
    ensures s.log <= s'.log
  {
  }

  /** Two keys are heard, and one of them then falls silent. */
  lemma OneFallsSilent(key: Key, other: Key) returns (h: History)
    requires key != other
    ensures IsHistory(h) && h.acts == [Hear(key), Hear(other), ResetAll, Hear(other), ScanAll([key])]
    ensures Present(h.ss[5], other) && h.ss[5].log == [(key, Declared), (other, Declared), (key, Undeclared)]
  {
    var l1, l2 := [(key, Declared)], [(key, Declared), (other, Declared)];
    var t3, t4 := map[key := false, other := false], map[key := false, other := true];
    h := History(
      [Shared(map[], BeforeReset, []), Shared(map[key := true], BeforeReset, l1),
       Shared(map[key := true, other := true], BeforeReset, l2), Shared(t3, Asleep, l2), Shared(t4, Asleep, l2),
       Shared(t4, Gap, l2 + [(key, Undeclared)])],
      [Hear(key), Hear(other), ResetAll, Hear(other), ScanAll([key])]);
    assert ActAt(h, 0) && ActAt(h, 1) && ActAt(h, 2) && ActAt(h, 3);
    assert ActAt(h, 4) by {
      assert Lose([key]) == [(key, Undeclared)];
    }
  }

  /** So one peer's loss hides another that is still there. */
  lemma LossHidesPeer(sp: Space, modes: Modes, t: BridgeType, k: TopicDescriptor, key: Key, other: Key, net: Networks)
    returns (r: Run)
    requires Named(sp, t, k, key) && Named(sp, t, k, other) && key != other && Enabled(modes, Complement(t), k)
    ensures IsRun(sp, r) && |r.es| == 5
    ensures Present(r.fs[5].shared, other) && !Wanted(modes, r.fs[5], t, k)
  {
    var h := OneFallsSilent(key, other);
    r := Feeding(sp, h, net, 5);
    StorageIsTold(sp, modes, r, 5, t, k);
    WantedIfTold(modes, r.fs[5], t, k);
    hide IsHistory, IsRun, Present, Wanted, Decode, Peer, TopicCalls;
    var log := r.fs[5].shared.log;
    assert log[0..] == log == [(key, Declared), (other, Declared)] + [(key, Undeclared)];
    OneMoreTopicCall(sp, [(key, Declared), (other, Declared)], (key, Undeclared), t, k);
    LastCallDecides(TopicCalls(sp, [(key, Declared), (other, Declared)], t, k), Undeclared);
  }

  /** A receiver with the wild card for a bridge namespace hears one topic under a key for each namespace. */
  lemma WildcardHearsBoth(sp: Space, ns1: string, ns2: string, t: BridgeType, d: TopicDescriptor)
    returns (key: Key, other: Key)
    requires sp.ns == "*" && sp.bridgeNs == "*" && ("*", ns1) in sp.peers && ("*", ns2) in sp.peers && ns1 != ns2
    requires DiscoveryKey("*", ns1, t, d).Some? && DiscoveryKey("*", ns2, t, d).Some?
    requires sp.text(d.datatype_) && TopicKey(d.name) != ""
    ensures var k := d.(name := Normal(d.name)); key != other && Named(sp, t, k, key) && Named(sp, t, k, other)
  {
    key, other := DiscoveryKey("*", ns1, t, d).value, DiscoveryKey("*", ns2, t, d).value;
    DeliveredIff("*", ns1, t, d, "*", "*");
    DeliveredIff("*", ns2, t, d, "*", "*");
    RoundTrip(sp.text, "*", ns1, t, d);
    RoundTrip(sp.text, "*", ns2, t, d);
    SameKey("*", ns1, t, d, "*", ns2, t, d);
    hide Decode, Delivered, DiscoveryKey;
    assert DeclaredAs(sp, ("*", ns1), t, d, key) && DeclaredAs(sp, ("*", ns2), t, d, other);
  }
}
