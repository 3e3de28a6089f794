/** A subscription's shared table (aloha_subscription.rs): the listener inserts and marks keys, the
    accumulating task resets, sleeps, scans and retains. Each of these holds the table's lock on its
    own, so the listener can run between any two of them, in particular between scan and retain. */
module AlohaSubscription {
  import opened Wrappers

  type Key = string

  datatype Callback = Declared | Undeclared

  // ------------------------------------------------------------------ one key of the table

  /** A key's activity flag, or nothing when the key is not in the table. */
  function Entry(table: map<Key, bool>, key: Key): Option<bool> {
    if key in table then Some(table[key]) else None
  }

  /** The listener receives a beacon for the key. */
  function Heard(e: Option<bool>): Option<bool> { Some(true) }

  function ListenerCalls(e: Option<bool>): seq<Callback> {
    if e == None then [Declared] else []
  }

  /** The reset at the start of a round. */
  function Cleared(e: Option<bool>): Option<bool> {
    if e == None then None else Some(false)
  }

  predicate Inactive(e: Option<bool>) { e.Some? && !e.value }

  function ScanCalls(e: Option<bool>): seq<Callback> {
    if Inactive(e) then [Undeclared] else []
  }

  /** The retain at the end of a round. */
  function Kept(e: Option<bool>): Option<bool> {
    if Inactive(e) then None else e
  }

  // ------------------------------------------------------------------ the table, updated in place

  class Accumulator {
    var resources: map<Key, bool>

    constructor ()
      ensures resources == map[]
    {
      resources := map[];
    }

    /** The body of the listening loop; `declared` says whether the declared callback was called. */
    method Listen(key: Key) returns (declared: bool)
      modifies this
      ensures forall k :: Entry(resources, k) ==
                           if k == key then Heard(old(Entry(resources, k))) else old(Entry(resources, k))
      ensures declared <==> ListenerCalls(old(Entry(resources, key))) == [Declared]
    {
      declared := key !in resources;
      resources := resources[key := true];
    }

    method Reset()
      modifies this
      ensures forall k :: Entry(resources, k) == Cleared(old(Entry(resources, k)))
    {
      var todo := resources.Keys;
      while todo != {}
        invariant todo <= resources.Keys == old(resources.Keys)
        invariant forall k | k in resources :: resources[k] == (k in todo && old(resources)[k])
      {
        var k :| k in todo;
        resources := resources[k := false];
        todo := todo - {k};
      }
    }

    /** The scan: calls the undeclared callback once for every inactive key, in the map's order. */
    method Scan() returns (lost: seq<Key>)
      ensures Enumerates(lost, resources)
    {
      lost := [];
      var todo := resources.Keys;
      while todo != {}
        invariant todo <= resources.Keys
        invariant forall i, j | 0 <= i < j < |lost| :: lost[i] != lost[j]
        invariant forall k :: k in lost <==> k in resources && k !in todo && !resources[k]
      {
        var k :| k in todo;
        if !resources[k] {
          lost := lost + [k];
        }
        todo := todo - {k};
      }
    }

    method Retain()
      modifies this
      ensures forall k :: Entry(resources, k) == Kept(old(Entry(resources, k)))
    {
      var todo := resources.Keys;
      while todo != {}
        invariant todo <= resources.Keys <= old(resources.Keys)
        invariant forall k | k in resources :: resources[k] == old(resources)[k]
        invariant forall k | k in old(resources) :: k in resources <==> k in todo || old(resources)[k]
      {
        var k :| k in todo;
        if !resources[k] {
          resources := resources - {k};
        }
        todo := todo - {k};
      }
    }
  }

  /** `lost` lists each inactive key of the table exactly once. */
  ghost predicate Enumerates(lost: seq<Key>, table: map<Key, bool>) {
    && (forall i, j | 0 <= i < j < |lost| :: lost[i] != lost[j])
    && forall k :: k in lost <==> Inactive(Entry(table, k))
  }

  // ------------------------------------------------------------------ every interleaving of the two tasks

  /** The accumulating task is before its reset, asleep, or in the gap between scan and retain. */
  datatype Stage = BeforeReset | Asleep | Gap

  datatype Shared = Shared(table: map<Key, bool>, stage: Stage, log: seq<(Key, Callback)>)

  datatype Action = Hear(key: Key) | ResetAll | ScanAll(lost: seq<Key>) | RetainAll

  function Lose(lost: seq<Key>): seq<(Key, Callback)> {
    seq(|lost|, i requires 0 <= i < |lost| => (lost[i], Undeclared))
  }

  ghost predicate Step(s: Shared, a: Action, s': Shared) {
    match a
    case Hear(key) =>
      && s'.stage == s.stage
      && s'.log == s.log + (if Entry(s.table, key) == None then [(key, Declared)] else [])
      && forall k :: Entry(s'.table, k) == if k == key then Heard(Entry(s.table, k)) else Entry(s.table, k)
    case ResetAll =>
      && s.stage == BeforeReset && s'.stage == Asleep && s'.log == s.log
      && forall k :: Entry(s'.table, k) == Cleared(Entry(s.table, k))
    case ScanAll(lost) =>
      && s.stage == Asleep && s'.stage == Gap && s'.table == s.table
      && Enumerates(lost, s.table) && s'.log == s.log + Lose(lost)
    case RetainAll =>
      && s.stage == Gap && s'.stage == BeforeReset && s'.log == s.log
      && forall k :: Entry(s'.table, k) == Kept(Entry(s.table, k))
  }

  datatype History = History(ss: seq<Shared>, acts: seq<Action>)

  ghost predicate ActAt(h: History, i: nat)
    requires i < |h.acts| && |h.ss| == |h.acts| + 1
  {
    Step(h.ss[i], h.acts[i], h.ss[i + 1])
  }

  ghost predicate IsHistory(h: History) {
    && |h.ss| == |h.acts| + 1
    && h.ss[0] == Shared(map[], BeforeReset, [])
    && forall i | 0 <= i < |h.acts| :: ActAt(h, i)
  }

  /** The callbacks made for one key, in order. */
  function Calls(log: seq<(Key, Callback)>, key: Key): seq<Callback> {
    if log == [] then []
    else Calls(log[..|log| - 1], key) + (if log[|log| - 1].0 == key then [log[|log| - 1].1] else [])
  }

  lemma OneMoreCall(log: seq<(Key, Callback)>, call: (Key, Callback), key: Key)
    ensures Calls(log + [call], key) == Calls(log, key) + if call.0 == key then [call.1] else []
  {
    assert (log + [call])[..|log|] == log;
  }

  lemma {:induction false} CallsOfParts(a: seq<(Key, Callback)>, b: seq<(Key, Callback)>, key: Key)
    ensures Calls(a + b, key) == Calls(a, key) + Calls(b, key)
  {
    if b == [] {
      assert a + b == a;
    } else {
      var init, last := b[..|b| - 1], b[|b| - 1];
      CallsOfParts(a, init, key);
      OneMoreCall(a + init, last, key);
      OneMoreCall(init, last, key);
      assert a + b == (a + init) + [last] && b == init + [last];
    }
  }

  lemma {:induction false} CallsOfLost(log: seq<(Key, Callback)>, lost: seq<Key>, key: Key)
    requires forall i, j | 0 <= i < j < |lost| :: lost[i] != lost[j]
    ensures Calls(log + Lose(lost), key) == Calls(log, key) + (if key in lost then [Undeclared] else [])
  {
    if lost == [] {
      assert log + Lose(lost) == log;
    } else {
      var init, last := lost[..|lost| - 1], lost[|lost| - 1];
      assert forall i | 0 <= i < |init| :: init[i] == lost[i];
      CallsOfLost(log, init, key);
      hide Calls;
      OneMoreCall(log + Lose(init), (last, Undeclared), key);
      assert log + Lose(lost) == log + Lose(init) + [(last, Undeclared)];
      assert key in lost <==> key in init || key == last;
    }
  }

  /** Seen through one key, a step of the two tasks is the one-key step above. */
  lemma CallsStep(s: Shared, a: Action, s': Shared, key: Key)
    requires Step(s, a, s')
    ensures Calls(s'.log, key) == Calls(s.log, key) +
      (match a
       case Hear(k) => if k == key then ListenerCalls(Entry(s.table, key)) else []
       case ScanAll(_) => ScanCalls(Entry(s.table, key))
       case _ => [])
  {
    match a
    case Hear(k) =>
      if Entry(s.table, k) == None {
        assert s'.log[..|s'.log| - 1] == s.log;
      } else {
        assert s'.log == s.log;
      }
    case ScanAll(lost) => CallsOfLost(s.log, lost, key);
    case _ =>
  }

  /** A key that a retain removes was reported by the scan of the same round. */
  lemma {:induction false} RemovedWasReported(h: History, b: nat, key: Key) returns (a: nat)
    requires IsHistory(h) && b < |h.ss| && h.ss[b].stage == Gap && Inactive(Entry(h.ss[b].table, key))
    ensures a < b && h.acts[a].ScanAll? && key in h.acts[a].lost
    ensures forall i | a < i < b :: h.acts[i].Hear?
  {
    a := b - 1;
    assert ActAt(h, a);
    if h.acts[a].Hear? {
      a := RemovedWasReported(h, b - 1, key);
    }
  }

  ghost predicate EndsDeclared(calls: seq<Callback>) {
    calls != [] && calls[|calls| - 1] == Declared
  }

  /** Every declared callback but the first is directly preceded by an undeclared one. */
  ghost predicate NeverDeclaredTwice(calls: seq<Callback>) {
    forall i | 0 <= i < |calls| - 1 && calls[i + 1] == Declared :: calls[i] == Undeclared
  }

  ghost predicate Alternates(calls: seq<Callback>) {
    forall i | 0 <= i < |calls| :: calls[i] == if i % 2 == 0 then Declared else Undeclared
  }

  /** In the gap, a key that the scan reported says so itself: it is still in the table, inactive. */
  lemma GapMeansReported(s: Shared, a: Action, s': Shared, key: Key)
    requires Step(s, a, s')
    requires s.stage == Gap && Inactive(Entry(s.table, key)) ==>
      Calls(s.log, key) != [] && !EndsDeclared(Calls(s.log, key))
    ensures s'.stage == Gap && Inactive(Entry(s'.table, key)) ==>
      Calls(s'.log, key) != [] && !EndsDeclared(Calls(s'.log, key))
  {
    CallsStep(s, a, s', key);
  }

  /** In every interleaving, between two declared callbacks for a key there is an undeclared one. */
  lemma {:induction false} DeclaredOncePerLoss(h: History, b: nat, key: Key)
    requires IsHistory(h) && b < |h.ss|
    ensures NeverDeclaredTwice(Calls(h.ss[b].log, key))
    ensures Entry(h.ss[b].table, key) == None ==> !EndsDeclared(Calls(h.ss[b].log, key))
    ensures h.ss[b].stage == Gap && Inactive(Entry(h.ss[b].table, key)) ==>
      Calls(h.ss[b].log, key) != [] && !EndsDeclared(Calls(h.ss[b].log, key))
  {
    if b > 0 {
      DeclaredOncePerLoss(h, b - 1, key);
      assert ActAt(h, b - 1);
      CallsStep(h.ss[b - 1], h.acts[b - 1], h.ss[b], key);
      GapMeansReported(h.ss[b - 1], h.acts[b - 1], h.ss[b], key);
    }
  }

  // ------------------------------------------------------------------ when the callbacks tell the truth

  /** The key counts as present: in the table and not already condemned by this round's scan. */
  ghost predicate Present(s: Shared, key: Key) {
    Entry(s.table, key) != None && (s.stage == Gap ==> !Inactive(Entry(s.table, key)))
  }

  ghost predicate Truthful(s: Shared, key: Key) {
    Present(s, key) <==> EndsDeclared(Calls(s.log, key))
  }

  /** A beacon that arrives between the scan that reported its key and the retain. */
  ghost predicate Resurrects(s: Shared, a: Action, key: Key) {
    a == Hear(key) && s.stage == Gap && Inactive(Entry(s.table, key))
  }

  lemma TruthfulStep(s: Shared, a: Action, s': Shared, key: Key)
    requires Step(s, a, s') && Truthful(s, key)
    requires s.stage == Gap && Inactive(Entry(s.table, key)) ==>
      Calls(s.log, key) != [] && !EndsDeclared(Calls(s.log, key))
    ensures Truthful(s', key) <==> !Resurrects(s, a, key)
  {
    CallsStep(s, a, s', key);
    var calls, calls' := Calls(s.log, key), Calls(s'.log, key);
    assert calls' != calls ==> calls'[|calls'| - 1] == if a.Hear? then Declared else Undeclared;
  }

  lemma {:induction false} TruthfulWhileClean(h: History, b: nat, key: Key)
    requires IsHistory(h) && b < |h.ss|
    requires forall i | 0 <= i < b :: !Resurrects(h.ss[i], h.acts[i], key)
    ensures Truthful(h.ss[b], key)
  {
    if b > 0 {
      TruthfulWhileClean(h, b - 1, key);
      DeclaredOncePerLoss(h, b - 1, key);
      assert ActAt(h, b - 1);
      TruthfulStep(h.ss[b - 1], h.acts[b - 1], h.ss[b], key);
    }
  }

  /** While no beacon resurrects the key, its callbacks strictly alternate, beginning with a declaration. */
  lemma {:induction false} AlternatesWhileClean(h: History, b: nat, key: Key)
    requires IsHistory(h) && b < |h.ss|
    requires forall i | 0 <= i < b :: !Resurrects(h.ss[i], h.acts[i], key)
    ensures Alternates(Calls(h.ss[b].log, key))
  {
    if b > 0 {
      AlternatesWhileClean(h, b - 1, key);
      TruthfulWhileClean(h, b - 1, key);
      assert ActAt(h, b - 1);
      AlternatesStep(h.ss[b - 1], h.acts[b - 1], h.ss[b], key);
    }
  }

  lemma AlternatesStep(s: Shared, a: Action, s': Shared, key: Key)
    requires Step(s, a, s') && Truthful(s, key) && Alternates(Calls(s.log, key)) && !Resurrects(s, a, key)
    ensures Alternates(Calls(s'.log, key))
  {
    CallsStep(s, a, s', key);
    var calls, calls' := Calls(s.log, key), Calls(s'.log, key);
    if calls' != calls {
      var x := calls'[|calls|];
      assert calls' == calls + [x];
      AlternatesOn(calls, x);
    }
  }

  lemma AlternatesOn(calls: seq<Callback>, x: Callback)
    requires Alternates(calls) && (EndsDeclared(calls) <==> x == Undeclared)
    ensures Alternates(calls + [x])
  {
    assert EndsDeclared(calls) <==> |calls| % 2 == 1;
  }

  /** The table and the last callback agree throughout exactly when no beacon falls in the gap on a key
      that the scan has just reported. */
  lemma TruthfulIffNoResurrection(h: History, key: Key)
    requires IsHistory(h)
    ensures (forall i | 0 <= i < |h.ss| :: Truthful(h.ss[i], key)) <==>
      (forall i | 0 <= i < |h.acts| :: !Resurrects(h.ss[i], h.acts[i], key))
  {
    if forall i | 0 <= i < |h.acts| :: !Resurrects(h.ss[i], h.acts[i], key) {
      forall i | 0 <= i < |h.ss| ensures Truthful(h.ss[i], key) {
        TruthfulWhileClean(h, i, key);
      }
    } else if forall i | 0 <= i < |h.ss| :: Truthful(h.ss[i], key) {
      var i :| 0 <= i < |h.acts| && Resurrects(h.ss[i], h.acts[i], key);
      DeclaredOncePerLoss(h, i, key);
      assert ActAt(h, i);
      TruthfulStep(h.ss[i], h.acts[i], h.ss[i + 1], key);
    }
  }

  /** It can happen. */
  lemma ResurrectionHappens(key: Key) returns (h: History)
    ensures IsHistory(h) && h.acts == [Hear(key), ResetAll, ScanAll([key]), Hear(key)]
    ensures Resurrects(h.ss[3], h.acts[3], key) && !Truthful(h.ss[4], key)
  {
    var heard, cleared := map[key := true], map[key := false];
    var log1, log2 := [(key, Declared)], [(key, Declared), (key, Undeclared)];
    h := History(
      [Shared(map[], BeforeReset, []), Shared(heard, BeforeReset, log1), Shared(cleared, Asleep, log1),
       Shared(cleared, Gap, log2), Shared(heard, Gap, log2)],
      [Hear(key), ResetAll, ScanAll([key]), Hear(key)]);
    assert ActAt(h, 0) && ActAt(h, 1) && ActAt(h, 3);
    assert ActAt(h, 2) by {
      assert Lose([key]) == [(key, Undeclared)];
    }
    DeclaredOncePerLoss(h, 3, key);
    CallsStep(h.ss[3], h.acts[3], h.ss[4], key);
  }

  /** No callback for the key since these: it is in the table, and not condemned. */
  ghost predicate Mistaken(s: Shared, key: Key, calls: seq<Callback>) {
    Calls(s.log, key) == calls && Present(s, key)
  }

  /** The next callback for the key since these was that it is gone. */
  ghost predicate Corrected(s: Shared, key: Key, calls: seq<Callback>) {
    calls + [Undeclared] <= Calls(s.log, key)
  }

  lemma MistakenStep(s: Shared, a: Action, s': Shared, key: Key, calls: seq<Callback>)
    requires Step(s, a, s') && (Mistaken(s, key, calls) || Corrected(s, key, calls))
    ensures Mistaken(s', key, calls) || Corrected(s', key, calls)
  {
    CallsStep(s, a, s', key);
  }

  /** After a beacon has resurrected its key, the key stays in the table without a callback until it is
      called undeclared once more: whoever relies on the callbacks does not know of it meanwhile. */
  lemma {:induction false} ResurrectedIsUnknown(h: History, a: nat, b: nat, key: Key)
    requires IsHistory(h) && a < b < |h.ss| && Resurrects(h.ss[a], h.acts[a], key)
    ensures var calls := Calls(h.ss[a].log, key);
      !EndsDeclared(calls) && (Mistaken(h.ss[b], key, calls) || Corrected(h.ss[b], key, calls))
  {
    DeclaredOncePerLoss(h, a, key);
    assert ActAt(h, b - 1);
    if b == a + 1 {
      CallsStep(h.ss[a], h.acts[a], h.ss[b], key);
    } else {
      ResurrectedIsUnknown(h, a, b - 1, key);
      MistakenStep(h.ss[b - 1], h.acts[b - 1], h.ss[b], key, Calls(h.ss[a].log, key));
    }
  }
}
