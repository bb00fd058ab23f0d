/**
 * `buildTransitionLookup` of src/core/lr0/transitionIndex.ts: for each source state, a
 * map from symbol to target state, the inner maps keeping their insertion order.
 */
module TransitionIndex {
  import opened Wrappers
  import opened Grammars
  import opened LR0Types
  import opened OrderedMaps

  /** One row of the lookup: symbol to target state id, in insertion order. */
  type Row = seq<Entry<Symbol, nat>>

  /** The target of the last transition from k on x. */
  function LastTarget(ts: seq<LR0Transition>, k: nat, x: Symbol): Option<nat> {
    if ts == [] then None
    else
      var t := ts[|ts| - 1];
      if t.fromId == k && t.symbol == x then Some(t.toId) else LastTarget(ts[..|ts| - 1], k, x)
  }

  /** The symbols of the transitions from k, each once, in order of first occurrence. */
  function FirstSymbols(ts: seq<LR0Transition>, k: nat): (r: seq<Symbol>)
    ensures Distinct(r)
  {
    if ts == [] then []
    else
      var s := FirstSymbols(ts[..|ts| - 1], k);
      var t := ts[|ts| - 1];
      if t.fromId == k && t.symbol !in s then s + [t.symbol] else s
  }

  /** Some transition leaves k. */
  predicate HasSource(ts: seq<LR0Transition>, k: nat) {
    exists i :: 0 <= i < |ts| && ts[i].fromId == k
  }

  /** State k has a row exactly when a transition leaves it; the row lists its symbols in order, with the last target. */
  ghost predicate IndexesPrefix(ts: seq<LR0Transition>, lookup: map<nat, Row>) {
    && (forall k :: k in lookup <==> HasSource(ts, k))
    && (forall k :: k in lookup ==> MapKeys(lookup[k]) == FirstSymbols(ts, k))
    && (forall k, x :: k in lookup ==> MapGet(lookup[k], x) == LastTarget(ts, k, x))
  }

  lemma IndexStep(ts: seq<LR0Transition>, lookup: map<nat, Row>, t: LR0Transition, lookup': map<nat, Row>)
    requires IndexesPrefix(ts, lookup)
    requires lookup' == lookup[t.fromId := MapPut(if t.fromId in lookup then lookup[t.fromId] else [], t.symbol, t.toId)]
    ensures IndexesPrefix(ts + [t], lookup')
  {
    var ts1 := ts + [t];
    assert ts1[..|ts|] == ts && ts1[|ts|] == t;
    var row := if t.fromId in lookup then lookup[t.fromId] else [];
    forall k ensures k in lookup' <==> HasSource(ts1, k) {
      if HasSource(ts, k) {
        var i :| 0 <= i < |ts| && ts[i].fromId == k;
        assert ts1[i] == ts[i];
      }
      if HasSource(ts1, k) && k != t.fromId {
        var i :| 0 <= i < |ts1| && ts1[i].fromId == k;
        assert ts[i] == ts1[i];
      }
    }
    forall k | k in lookup' ensures MapKeys(lookup'[k]) == FirstSymbols(ts1, k) {
      if k == t.fromId {
        MapPutKeys(row, t.symbol, t.toId);
        if t.fromId !in lookup {
          NoSourceNoSymbols(ts, k);
        }
      }
    }
    forall k, x | k in lookup' ensures MapGet(lookup'[k], x) == LastTarget(ts1, k, x) {
      if k == t.fromId {
        MapPutGet(row, t.symbol, t.toId, x);
        if t.fromId !in lookup {
          NoSourceNoTarget(ts, k, x);
        }
      }
    }
  }

  lemma {:induction false} NoSourceNoSymbols(ts: seq<LR0Transition>, k: nat)
    requires !HasSource(ts, k)
    ensures FirstSymbols(ts, k) == []
  {
    if ts != [] {
      var init := ts[..|ts| - 1];
      assert !HasSource(init, k) by {
        forall i | 0 <= i < |init| ensures init[i].fromId != k {
          assert init[i] == ts[i];
        }
      }
      NoSourceNoSymbols(init, k);
    }
  }

  lemma {:induction false} NoSourceNoTarget(ts: seq<LR0Transition>, k: nat, x: Symbol)
    requires !HasSource(ts, k)
    ensures LastTarget(ts, k, x) == None
  {
    if ts != [] {
      var init := ts[..|ts| - 1];
      assert !HasSource(init, k) by {
        forall i | 0 <= i < |init| ensures init[i].fromId != k {
          assert init[i] == ts[i];
        }
      }
      NoSourceNoTarget(init, k, x);
    }
  }

  /** `buildTransitionLookup(automaton)`. */
  method BuildTransitionLookup(ts: seq<LR0Transition>) returns (lookup: map<nat, Row>)
    ensures forall k :: k in lookup <==> HasSource(ts, k)
    ensures forall k :: k in lookup ==> MapKeys(lookup[k]) == FirstSymbols(ts, k)
    ensures forall k, x :: k in lookup ==> MapGet(lookup[k], x) == LastTarget(ts, k, x)
  {
    lookup := map[];
    for i := 0 to |ts|
      invariant IndexesPrefix(ts[..i], lookup)
    {
      var t := ts[i];
      var row: Row := if t.fromId in lookup then lookup[t.fromId] else [];
      ghost var old_lookup := lookup;
      lookup := lookup[t.fromId := MapPut(row, t.symbol, t.toId)];
      IndexStep(ts[..i], old_lookup, t, lookup);
      assert ts[..i + 1] == ts[..i] + [t];
    }
    assert ts[..|ts|] == ts;
  }

  /** A target is recorded exactly for the pairs `(fromId, symbol)` some transition has. */
  lemma {:induction false} LastTargetDefined(ts: seq<LR0Transition>, k: nat, x: Symbol)
    ensures LastTarget(ts, k, x).Some? <==> exists i :: 0 <= i < |ts| && ts[i].fromId == k && ts[i].symbol == x
  {
    if ts != [] {
      var init := ts[..|ts| - 1];
      LastTargetDefined(init, k, x);
      if exists i :: 0 <= i < |init| && init[i].fromId == k && init[i].symbol == x {
        var i :| 0 <= i < |init| && init[i].fromId == k && init[i].symbol == x;
        assert ts[i] == init[i];
      }
      if exists i :: 0 <= i < |ts| && ts[i].fromId == k && ts[i].symbol == x {
        var i :| 0 <= i < |ts| && ts[i].fromId == k && ts[i].symbol == x;
        if i < |init| {
          assert init[i] == ts[i];
        }
      }
    }
  }

  /** No transition after index i is on the pair `(k, x)`. */
  predicate NoLaterOn(ts: seq<LR0Transition>, i: nat, k: nat, x: Symbol) {
    forall j :: i < j < |ts| ==> !(ts[j].fromId == k && ts[j].symbol == x)
  }

  /** The recorded target is that of the last transition on the pair: later ones win. */
  lemma {:induction false} LastTargetLatest(ts: seq<LR0Transition>, k: nat, x: Symbol, v: nat)
    requires LastTarget(ts, k, x) == Some(v)
    ensures exists i :: 0 <= i < |ts| && ts[i] == LR0Transition(k, x, v) && NoLaterOn(ts, i, k, x)
  {
    var init := ts[..|ts| - 1];
    var t := ts[|ts| - 1];
    if !(t.fromId == k && t.symbol == x) {
      LastTargetLatest(init, k, x, v);
      var i :| 0 <= i < |init| && init[i] == LR0Transition(k, x, v) && NoLaterOn(init, i, k, x);
      assert ts[i] == init[i];
      forall j | i < j < |ts| ensures !(ts[j].fromId == k && ts[j].symbol == x) {
        if j < |init| {
          assert ts[j] == init[j];
        }
      }
    } else {
      assert ts[|ts| - 1] == LR0Transition(k, x, v);
    }
  }

  /** The symbols of a row are those of the transitions from its state. */
  lemma {:induction false} FirstSymbolsElems(ts: seq<LR0Transition>, k: nat, x: Symbol)
    ensures x in FirstSymbols(ts, k) <==> exists i :: 0 <= i < |ts| && ts[i].fromId == k && ts[i].symbol == x
  {
    if ts != [] {
      var init := ts[..|ts| - 1];
      FirstSymbolsElems(init, k, x);
      if exists i :: 0 <= i < |init| && init[i].fromId == k && init[i].symbol == x {
        var i :| 0 <= i < |init| && init[i].fromId == k && init[i].symbol == x;
        assert ts[i] == init[i];
      }
      if exists i :: 0 <= i < |ts| && ts[i].fromId == k && ts[i].symbol == x {
        var i :| 0 <= i < |ts| && ts[i].fromId == k && ts[i].symbol == x;
        if i < |init| {
          assert init[i] == ts[i];
        }
      }
    }
  }
}
