/**
 * `buildLR0Automaton` of src/core/lr0/canonical.ts: the canonical collection of LR(0) item
 * sets, built breadth first from `closure({S' -> . S})` and deduplicated by signature.
 * The breadth-first loop (`BuildCollection`) is shared with `buildAutomaton` of
 * src/lib/compiler/lr0.ts, which differs only in its key separator and its item functions.
 */
module Canonical {
  import opened Wrappers
  import opened Grammars
  import opened LR0Types
  import opened Items
  import opened ClosureGoto
  import opened Augment
  import opened CompilerItems

  datatype LR0BuildResult = LR0BuildResult(automaton: Option<LR0Automaton>, errors: seq<string>)

  /** Which of the two copies of the pipeline runs: they differ in the key separator of signatures. */
  datatype Flavour = CorePipeline | CompilerPipeline

  function KeySeparator(f: Flavour): char {
    if f.CorePipeline? then '@' else ':'
  }

  /** The symbols that follow a dot (the `symbols` set), in first-occurrence order; `""` is skipped. */
  function NextSymbols(prods: seq<Production>, items: seq<Item>): (r: seq<Symbol>)
    ensures Distinct(r)
  {
    if items == [] then []
    else
      var s := NextSymbols(prods, items[..|items| - 1]);
      match NextSymbol(prods, items[|items| - 1])
      case Some(x) => if x != "" && x !in s then s + [x] else s
      case None => s
  }

  lemma {:induction false} NextSymbolsElems(prods: seq<Production>, items: seq<Item>)
    ensures forall x :: x in NextSymbols(prods, items) <==>
      x != "" && exists k :: 0 <= k < |items| && NextSymbol(prods, items[k]) == Some(x)
  {
    if items != [] {
      var init := items[..|items| - 1];
      NextSymbolsElems(prods, init);
      forall x ensures x in NextSymbols(prods, items) <==>
        x != "" && exists k :: 0 <= k < |items| && NextSymbol(prods, items[k]) == Some(x)
      {
        if x != "" && exists k :: 0 <= k < |items| && NextSymbol(prods, items[k]) == Some(x) {
          var k :| 0 <= k < |items| && NextSymbol(prods, items[k]) == Some(x);
          if k < |init| {
            assert init[k] == items[k];
          }
        }
        if x in NextSymbols(prods, init) {
          var k :| 0 <= k < |init| && NextSymbol(prods, init[k]) == Some(x);
          assert items[k] == init[k];
        }
      }
    }
  }

  /** A symbol that follows a dot always has a non-empty goto. */
  lemma NextSymbolMoves(prods: seq<Production>, items: seq<Item>, x: Symbol)
    requires x in NextSymbols(prods, items)
    ensures Moved(prods, items, x) != []
  {
    NextSymbolsElems(prods, items);
    MovedEmpty(prods, items, x);
  }

  /** The `forEach` that fills `symbols`. */
  method CollectSymbols(prods: seq<Production>, items: seq<Item>) returns (syms: seq<Symbol>)
    ensures syms == NextSymbols(prods, items)
  {
    syms := [];
    for k := 0 to |items|
      invariant syms == NextSymbols(prods, items[..k])
    {
      assert items[..k + 1][..k] == items[..k];
      var sym := NextSymbol(prods, items[k]);
      if sym.Some? && sym.value != "" && sym.value !in syms {
        syms := syms + [sym.value];
      }
    }
    assert items[..|items|] == items;
  }

  /** The symbols of the transitions leaving state k, in list order. */
  function OutSymbols(ts: seq<LR0Transition>, k: nat): seq<Symbol> {
    if ts == [] then []
    else OutSymbols(ts[..|ts| - 1], k) + (if ts[|ts| - 1].fromId == k then [ts[|ts| - 1].symbol] else [])
  }

  lemma OutSymbolsAppend(ts: seq<LR0Transition>, t: LR0Transition, k: nat)
    ensures OutSymbols(ts + [t], k) == OutSymbols(ts, k) + (if t.fromId == k then [t.symbol] else [])
  {
    assert (ts + [t])[..|ts|] == ts;
  }

  lemma {:induction false} OutSymbolsNone(ts: seq<LR0Transition>, k: nat)
    requires forall i :: 0 <= i < |ts| ==> ts[i].fromId != k
    ensures OutSymbols(ts, k) == []
  {
    if ts != [] {
      OutSymbolsNone(ts[..|ts| - 1], k);
    }
  }

  /** The symbols leaving k are exactly those of the transitions from k. */
  lemma {:induction false} OutSymbolsElems(ts: seq<LR0Transition>, k: nat)
    ensures forall x :: x in OutSymbols(ts, k) <==> exists i :: 0 <= i < |ts| && ts[i].fromId == k && ts[i].symbol == x
  {
    if ts != [] {
      var init := ts[..|ts| - 1];
      OutSymbolsElems(init, k);
      forall x ensures x in OutSymbols(ts, k) <==> exists i :: 0 <= i < |ts| && ts[i].fromId == k && ts[i].symbol == x {
        if exists i :: 0 <= i < |ts| && ts[i].fromId == k && ts[i].symbol == x {
          var i :| 0 <= i < |ts| && ts[i].fromId == k && ts[i].symbol == x;
          if i < |init| {
            assert init[i] == ts[i];
          }
        }
        if x in OutSymbols(init, k) {
          var i :| 0 <= i < |init| && init[i].fromId == k && init[i].symbol == x;
          assert ts[i] == init[i];
        }
      }
    }
  }

  /** With duplicate-free out-symbols, a state has at most one transition on each symbol. */
  lemma {:induction false} OutSymbolsUnique(ts: seq<LR0Transition>, k: nat, i: nat, j: nat)
    requires Distinct(OutSymbols(ts, k))
    requires i < j < |ts| && ts[i].fromId == k && ts[j].fromId == k
    ensures ts[i].symbol != ts[j].symbol
  {
    var init := ts[..|ts| - 1];
    var o, oi := OutSymbols(ts, k), OutSymbols(init, k);
    assert o == oi + (if ts[|ts| - 1].fromId == k then [ts[|ts| - 1].symbol] else []);
    assert init[i] == ts[i];
    if j < |ts| - 1 {
      assert init[j] == ts[j];
      assert Distinct(oi) by {
        forall a, b | 0 <= a < b < |oi| ensures oi[a] != oi[b] {
          assert o[a] == oi[a] && o[b] == oi[b];
        }
      }
      OutSymbolsUnique(init, k, i, j);
    } else {
      OutSymbolsElems(init, k);
      assert ts[i].symbol in oi;
      var m :| 0 <= m < |oi| && oi[m] == ts[i].symbol;
      assert o[m] == ts[i].symbol && o[|oi|] == ts[j].symbol;
    }
  }

  /** Every item whose production exists and whose dot lies within the right-hand side. */
  ghost function ValidItems(prods: seq<Production>): set<Item> {
    set p: nat, d: nat | p < |prods| && d <= |prods[p].right| :: Item(p, d)
  }

  ghost function PowerSet(v: set<Item>): set<set<Item>> {
    set s | s <= v
  }

  /** The item sets of the states found so far. */
  ghost function Seen(states: seq<LR0State>): set<set<Item>> {
    set k | 0 <= k < |states| :: Elems(states[k].items)
  }

  lemma ValidItemsClosed(prods: seq<Production>, nts: seq<Symbol>)
    ensures Closed(prods, nts, ValidItems(prods))
  {
    forall a, p | a in ValidItems(prods) && ExpandsTo(prods, nts, a, p) ensures Item(p, 0) in ValidItems(prods) {
    }
  }

  /** A closure of valid items holds only valid items. */
  lemma ClosureValid(prods: seq<Production>, nts: seq<Symbol>, seeds: set<Item>, r: seq<Item>)
    requires IsClosureOf(prods, nts, seeds, r)
    requires forall it :: it in seeds ==> ValidItem(prods, it)
    ensures forall i :: 0 <= i < |r| ==> ValidItem(prods, r[i])
  {
    ValidItemsClosed(prods, nts);
    assert seeds <= ValidItems(prods) by {
      forall it | it in seeds ensures it in ValidItems(prods) {
        assert ValidItem(prods, it);
      }
    }
    assert ClosedSuperset(prods, nts, seeds, ValidItems(prods));
    forall i | 0 <= i < |r| ensures ValidItem(prods, r[i]) {
      assert r[i] in Elems(r);
    }
  }

  /** A state as the builder creates it: state k has id k and a sorted non-empty list of valid items. */
  predicate StateOk(f: Flavour, prods: seq<Production>, st: LR0State, k: nat) {
    && st.id == k
    && st.items != []
    && StrictlySorted(st.items)
    && forall i :: 0 <= i < |st.items| ==> ValidItem(prods, st.items[i])
  }

  /** A state's signature is `getSignature` of its items. */
  predicate SignedState(f: Flavour, st: LR0State) {
    st.signature == SignatureWith(KeySeparator(f), st.items)
  }

  /**
   * Every state is signed, stated from the last state back so that the solver unfolds the
   * signature of one state at a time; `SignedAt` gives the quantified form.
   */
  predicate Signed(f: Flavour, states: seq<LR0State>) {
    states == [] || (Signed(f, states[..|states| - 1]) && SignedState(f, states[|states| - 1]))
  }

  lemma {:induction false} SignedAt(f: Flavour, states: seq<LR0State>, k: nat)
    requires Signed(f, states) && k < |states|
    ensures SignedState(f, states[k])
    decreases |states|
  {
    if k < |states| - 1 {
      SignedAt(f, states[..|states| - 1], k);
    }
  }

  lemma SignedAppend(f: Flavour, states: seq<LR0State>, t: LR0State)
    requires Signed(f, states) && SignedState(f, t)
    ensures Signed(f, states + [t])
  {
    assert (states + [t])[..|states|] == states;
  }

  predicate SignaturesDistinct(states: seq<LR0State>) {
    forall i, j :: 0 <= i < j < |states| ==> states[i].signature != states[j].signature
  }

  /** `stateBySignature` maps each signature to the state that has it, and nothing else. */
  predicate MapOk(states: seq<LR0State>, m: map<string, nat>) {
    && (forall k :: 0 <= k < |states| ==> states[k].signature in m && m[states[k].signature] == k)
    && (forall s :: s in m ==> m[s] < |states| && states[m[s]].signature == s)
  }

  /** A transition joins two listed states, the target being the goto of the source on its symbol. */
  ghost predicate TransitionOk(prods: seq<Production>, nts: seq<Symbol>, states: seq<LR0State>, t: LR0Transition) {
    t.fromId < |states| && t.toId < |states| && IsGoto(prods, nts, states[t.fromId].items, t.symbol, states[t.toId].items)
  }

  /** Some transition from an earlier state leads to state k. */
  predicate ReachedFromEarlier(ts: seq<LR0Transition>, k: nat) {
    exists i :: 0 <= i < |ts| && ts[i].toId == k && ts[i].fromId < k
  }

  /** Every state but the first was reached by a transition from an earlier state. */
  predicate Discovered(states: seq<LR0State>, ts: seq<LR0Transition>) {
    forall k: nat :: 1 <= k < |states| ==> ReachedFromEarlier(ts, k)
  }

  /** Some transition before index `j` enters state k. */
  predicate TargetedBefore(ts: seq<LR0Transition>, j: nat, k: nat) {
    exists i :: 0 <= i < j && i < |ts| && ts[i].toId == k
  }

  /**
   * States are numbered in the order they are first reached: when a transition enters
   * state n, every state 1 .. n-1 has already been entered by an earlier one.
   */
  predicate DiscoveryOrdered(ts: seq<LR0Transition>) {
    forall j, k: nat :: 0 <= j < |ts| && 1 <= k < ts[j].toId ==> TargetedBefore(ts, j, k)
  }

  /** Transitions are grouped by source state, in state order. */
  predicate FromOrdered(ts: seq<LR0Transition>) {
    forall i, j :: 0 <= i < j < |ts| ==> ts[i].fromId <= ts[j].fromId
  }

  predicate StatesOk(f: Flavour, prods: seq<Production>, states: seq<LR0State>) {
    forall k :: 0 <= k < |states| ==> StateOk(f, prods, states[k], k)
  }

  ghost predicate TransitionsOk(prods: seq<Production>, nts: seq<Symbol>, states: seq<LR0State>, ts: seq<LR0Transition>) {
    forall i :: 0 <= i < |ts| ==> TransitionOk(prods, nts, states, ts[i])
  }

  /** States `0 .. n-1` have one transition per symbol after a dot, in first-occurrence order. */
  predicate OutDone(prods: seq<Production>, states: seq<LR0State>, ts: seq<LR0Transition>, n: nat)
    requires n <= |states|
  {
    forall k :: 0 <= k < n ==> OutSymbols(ts, k) == NextSymbols(prods, states[k].items)
  }

  predicate FromBelow(ts: seq<LR0Transition>, n: nat) {
    forall i :: 0 <= i < |ts| ==> ts[i].fromId < n
  }

  /** The canonical collection: what `buildLR0Automaton` returns on a valid grammar. */
  ghost predicate IsCanonicalCollection(f: Flavour, prods: seq<Production>, nts: seq<Symbol>,
                                        states: seq<LR0State>, ts: seq<LR0Transition>) {
    && |states| >= 1
    && StatesOk(f, prods, states)
    && Signed(f, states)
    && IsClosureOf(prods, nts, {Item(0, 0)}, states[0].items)
    && SignaturesDistinct(states)
    && TransitionsOk(prods, nts, states, ts)
    && OutDone(prods, states, ts, |states|)
    && Discovered(states, ts)
    && DiscoveryOrdered(ts)
    && FromOrdered(ts)
  }

  /** The index of the first transition into state k, or `|ts|` when there is none. */
  function FirstInto(ts: seq<LR0Transition>, k: nat): (r: nat)
    ensures r <= |ts|
    ensures r < |ts| ==> ts[r].toId == k
    ensures forall i :: 0 <= i < r ==> ts[i].toId != k
  {
    if ts == [] then 0
    else if ts[0].toId == k then 0
    else 1 + FirstInto(ts[1..], k)
  }

  /**
   * In a canonical collection every state but S0 is first entered after all states with a
   * smaller id: ids 1, 2, ... follow the breadth-first discovery order.
   */
  lemma FirstArrivalsInOrder(f: Flavour, prods: seq<Production>, nts: seq<Symbol>, states: seq<LR0State>,
                             ts: seq<LR0Transition>, k: nat, m: nat)
    requires IsCanonicalCollection(f, prods, nts, states, ts)
    requires 1 <= k < m < |states|
    ensures FirstInto(ts, k) < FirstInto(ts, m) < |ts|
  {
    assert ReachedFromEarlier(ts, m);
    var w :| 0 <= w < |ts| && ts[w].toId == m && ts[w].fromId < m;
    var j := FirstInto(ts, m);
    assert j <= w;
    assert TargetedBefore(ts, j, k);
    var i :| 0 <= i < j && i < |ts| && ts[i].toId == k;
    assert FirstInto(ts, k) <= i;
  }

  /** Each state has a transition on a symbol exactly when that symbol follows a dot in its items. */
  lemma TransitionOnSymbol(f: Flavour, prods: seq<Production>, nts: seq<Symbol>, states: seq<LR0State>,
                           ts: seq<LR0Transition>, k: nat, x: Symbol)
    requires IsCanonicalCollection(f, prods, nts, states, ts) && k < |states|
    ensures (exists i :: 0 <= i < |ts| && ts[i].fromId == k && ts[i].symbol == x) <==> x in NextSymbols(prods, states[k].items)
  {
    OutSymbolsElems(ts, k);
  }

  /** ... and never two transitions on the same symbol from one state. */
  lemma TransitionsDeterministic(f: Flavour, prods: seq<Production>, nts: seq<Symbol>, states: seq<LR0State>,
                                 ts: seq<LR0Transition>, i: nat, j: nat)
    requires IsCanonicalCollection(f, prods, nts, states, ts)
    requires i < j < |ts| && ts[i].fromId == ts[j].fromId
    ensures ts[i].symbol != ts[j].symbol
  {
    var k := ts[i].fromId;
    assert TransitionOk(prods, nts, states, ts[i]);
    OutSymbolsUnique(ts, k, i, j);
  }

  /** No two states of a canonical collection hold the same items. */
  lemma StatesHoldDistinctItemSets(f: Flavour, prods: seq<Production>, nts: seq<Symbol>, states: seq<LR0State>,
                                   ts: seq<LR0Transition>)
    requires IsCanonicalCollection(f, prods, nts, states, ts)
    ensures ItemSetsDistinct(states)
  {
    DistinctItemSets(f, prods, states);
  }

  /** The local variables of the breadth-first loop. */
  datatype Builder = Builder(
    states: seq<LR0State>,
    transitions: seq<LR0Transition>,
    bySignature: map<string, nat>,
    queue: seq<LR0State>,
    nextId: nat)

  function Head(b: Builder): int {
    |b.states| - |b.queue|
  }

  /** What holds of the builder at every point of the loop. */
  ghost predicate BaseInv(f: Flavour, prods: seq<Production>, nts: seq<Symbol>, b: Builder) {
    && b.nextId == |b.states| >= 1
    && StatesOk(f, prods, b.states)
    && Signed(f, b.states)
    && IsClosureOf(prods, nts, {Item(0, 0)}, b.states[0].items)
    && SignaturesDistinct(b.states)
    && MapOk(b.states, b.bySignature)
    && |b.queue| <= |b.states| && b.queue == b.states[Head(b)..]
    && TransitionsOk(prods, nts, b.states, b.transitions)
    && Discovered(b.states, b.transitions)
    && DiscoveryOrdered(b.transitions)
    && FromOrdered(b.transitions)
  }

  /** Between turns of the outer loop: the states before the queue are finished. */
  ghost predicate OuterInv(f: Flavour, prods: seq<Production>, nts: seq<Symbol>, b: Builder) {
    && BaseInv(f, prods, nts, b)
    && FromBelow(b.transitions, Head(b))
    && OutDone(prods, b.states, b.transitions, Head(b))
  }

  /** Inside the turn for state c: the first j of its symbols are done. */
  ghost predicate InnerInv(f: Flavour, prods: seq<Production>, nts: seq<Symbol>, b: Builder, c: nat, syms: seq<Symbol>, j: nat) {
    && BaseInv(f, prods, nts, b)
    && Head(b) == c + 1
    && FromBelow(b.transitions, c + 1)
    && OutDone(prods, b.states, b.transitions, c)
    && syms == NextSymbols(prods, b.states[c].items)
    && j <= |syms| && OutSymbols(b.transitions, c) == syms[..j]
  }

  /** Equal signatures of sorted state lists mean equal lists. */
  lemma SameSignatureSameItems(f: Flavour, a: seq<Item>, b: seq<Item>)
    requires StrictlySorted(a) && StrictlySorted(b)
    requires SignatureWith(KeySeparator(f), a) == SignatureWith(KeySeparator(f), b)
    ensures a == b
  {
    SignatureDeterminesItems(KeySeparator(f), a, b);
    StrictlySortedUnique(a, b);
  }

  // Each of the following lemmas carries one part of the invariant across one update.

  lemma StatesAppend(f: Flavour, prods: seq<Production>, states: seq<LR0State>, t: LR0State)
    requires StatesOk(f, prods, states) && StateOk(f, prods, t, |states|)
    ensures StatesOk(f, prods, states + [t])
  {
  }

  lemma SignaturesAppend(states: seq<LR0State>, m: map<string, nat>, t: LR0State)
    requires SignaturesDistinct(states) && MapOk(states, m) && t.signature !in m
    ensures SignaturesDistinct(states + [t])
    ensures MapOk(states + [t], m[t.signature := |states|])
  {
    var s1 := states + [t];
    forall k | 0 <= k < |states| ensures states[k].signature != t.signature {
      assert states[k].signature in m;
    }
    var m1 := m[t.signature := |states|];
    forall s | s in m1 ensures m1[s] < |s1| && s1[m1[s]].signature == s {
      if s != t.signature {
        assert s1[m[s]] == states[m[s]];
      }
    }
  }

  lemma TransitionsStatesAppend(prods: seq<Production>, nts: seq<Symbol>, states: seq<LR0State>, ts: seq<LR0Transition>, t: LR0State)
    requires TransitionsOk(prods, nts, states, ts)
    ensures TransitionsOk(prods, nts, states + [t], ts)
  {
    forall i | 0 <= i < |ts| ensures TransitionOk(prods, nts, states + [t], ts[i]) {
      assert TransitionOk(prods, nts, states, ts[i]);
      assert (states + [t])[ts[i].fromId] == states[ts[i].fromId];
      assert (states + [t])[ts[i].toId] == states[ts[i].toId];
    }
  }

  lemma TransitionsAppend(prods: seq<Production>, nts: seq<Symbol>, states: seq<LR0State>, ts: seq<LR0Transition>, t: LR0Transition)
    requires TransitionsOk(prods, nts, states, ts) && TransitionOk(prods, nts, states, t)
    ensures TransitionsOk(prods, nts, states, ts + [t])
  {
    forall i | 0 <= i < |ts| + 1 ensures TransitionOk(prods, nts, states, (ts + [t])[i]) {
      if i < |ts| {
        assert (ts + [t])[i] == ts[i];
      }
    }
  }

  lemma DiscoveredAppend(states: seq<LR0State>, ts: seq<LR0Transition>, t: LR0Transition)
    requires Discovered(states, ts)
    ensures Discovered(states, ts + [t])
  {
    forall k: nat | 1 <= k < |states| ensures ReachedFromEarlier(ts + [t], k) {
      assert ReachedFromEarlier(ts, k);
      var i :| 0 <= i < |ts| && ts[i].toId == k && ts[i].fromId < k;
      assert (ts + [t])[i] == ts[i];
    }
  }

  lemma DiscoveredNew(states: seq<LR0State>, ts: seq<LR0Transition>, st: LR0State, t: LR0Transition)
    requires Discovered(states, ts) && t.toId == |states| && t.fromId < |states|
    ensures Discovered(states + [st], ts + [t])
  {
    DiscoveredAppend(states, ts, t);
    assert (ts + [t])[|ts|] == t;
    assert ReachedFromEarlier(ts + [t], |states|);
  }

  /** A transition into an existing state, or into the state appended next, keeps the numbering in discovery order. */
  lemma DiscoveryOrderAppend(states: seq<LR0State>, ts: seq<LR0Transition>, t: LR0Transition)
    requires Discovered(states, ts) && DiscoveryOrdered(ts) && t.toId <= |states|
    ensures DiscoveryOrdered(ts + [t])
  {
    var ts1 := ts + [t];
    forall j, k: nat | 0 <= j < |ts1| && 1 <= k < ts1[j].toId ensures TargetedBefore(ts1, j, k) {
      if j < |ts| {
        assert ts1[j] == ts[j];
        assert TargetedBefore(ts, j, k);
        var i :| 0 <= i < j && i < |ts| && ts[i].toId == k;
        assert ts1[i] == ts[i];
      } else {
        assert ReachedFromEarlier(ts, k);
        var i :| 0 <= i < |ts| && ts[i].toId == k && ts[i].fromId < k;
        assert ts1[i] == ts[i];
      }
    }
  }

  lemma OrderedAppend(ts: seq<LR0Transition>, c: nat, t: LR0Transition)
    requires FromOrdered(ts) && FromBelow(ts, c + 1) && t.fromId == c
    ensures FromOrdered(ts + [t]) && FromBelow(ts + [t], c + 1)
  {
  }

  lemma OutAppend(prods: seq<Production>, states: seq<LR0State>, ts: seq<LR0Transition>, c: nat, t: LR0Transition)
    requires c < |states| && OutDone(prods, states, ts, c) && t.fromId == c
    ensures OutDone(prods, states, ts + [t], c)
    ensures OutSymbols(ts + [t], c) == OutSymbols(ts, c) + [t.symbol]
  {
    forall k | 0 <= k <= c ensures OutSymbols(ts + [t], k) == OutSymbols(ts, k) + (if k == c then [t.symbol] else []) {
      OutSymbolsAppend(ts, t, k);
    }
  }

  lemma OutStatesAppend(prods: seq<Production>, states: seq<LR0State>, ts: seq<LR0Transition>, n: nat, st: LR0State)
    requires n <= |states| && OutDone(prods, states, ts, n)
    ensures OutDone(prods, states + [st], ts, n)
  {
    forall k | 0 <= k < n ensures (states + [st])[k] == states[k] {
    }
  }

  lemma SeenBounded(f: Flavour, prods: seq<Production>, states: seq<LR0State>)
    requires StatesOk(f, prods, states)
    ensures Seen(states) <= PowerSet(ValidItems(prods))
  {
    forall k | 0 <= k < |states| ensures Elems(states[k].items) <= ValidItems(prods) {
      forall it | it in Elems(states[k].items) ensures it in ValidItems(prods) {
        var i :| 0 <= i < |states[k].items| && states[k].items[i] == it;
        assert StateOk(f, prods, states[k], k);
      }
    }
  }

  lemma SeenAppend(states: seq<LR0State>, t: LR0State)
    ensures Seen(states + [t]) == Seen(states) + {Elems(t.items)}
  {
    var s1 := states + [t];
    forall e | e in Seen(s1) ensures e in Seen(states) + {Elems(t.items)} {
      var k :| 0 <= k < |s1| && Elems(s1[k].items) == e;
      if k < |states| {
        assert s1[k] == states[k];
      }
    }
    forall e | e in Seen(states) ensures e in Seen(s1) {
      var k :| 0 <= k < |states| && Elems(states[k].items) == e;
      assert s1[k] == states[k];
    }
    assert s1[|states|] == t;
  }

  /** No two states hold the same set of items. */
  ghost predicate ItemSetsDistinct(states: seq<LR0State>) {
    forall i, j :: 0 <= i < j < |states| ==> Elems(states[i].items) != Elems(states[j].items)
  }

  /** Distinct signatures of sorted item lists mean distinct item sets. */
  lemma DistinctItemSets(f: Flavour, prods: seq<Production>, states: seq<LR0State>)
    requires StatesOk(f, prods, states) && Signed(f, states) && SignaturesDistinct(states)
    ensures ItemSetsDistinct(states)
  {
    forall i, j | 0 <= i < j < |states| ensures Elems(states[i].items) != Elems(states[j].items) {
      assert StateOk(f, prods, states[i], i) && StateOk(f, prods, states[j], j);
      SignedAt(f, states, i);
      SignedAt(f, states, j);
      if Elems(states[i].items) == Elems(states[j].items) {
        StrictlySortedUnique(states[i].items, states[j].items);
      }
    }
  }

  /** Distinct item sets: as many seen sets as there are states. */
  lemma {:induction false} SeenCard(states: seq<LR0State>)
    requires ItemSetsDistinct(states)
    ensures |Seen(states)| == |states|
    decreases |states|
  {
    if states != [] {
      var n := |states| - 1;
      var pre, t := states[..n], states[n];
      assert ItemSetsDistinct(pre) by {
        forall i, j | 0 <= i < j < n ensures Elems(pre[i].items) != Elems(pre[j].items) {
          assert pre[i] == states[i] && pre[j] == states[j];
        }
      }
      SeenCard(pre);
      assert Elems(t.items) !in Seen(pre) by {
        forall k | 0 <= k < n ensures Elems(pre[k].items) != Elems(t.items) {
          assert pre[k] == states[k];
        }
      }
      SeenGrows(pre, t);
      assert states == pre + [t];
    }
  }

  lemma SeenGrows(states: seq<LR0State>, t: LR0State)
    requires |Seen(states)| == |states| && Elems(t.items) !in Seen(states)
    ensures |Seen(states + [t])| == |states| + 1
  {
    SeenAppend(states, t);
  }

  lemma {:induction false} SubsetCard<T>(a: set<T>, b: set<T>)
    requires a <= b
    ensures |a| <= |b|
    decreases |b|
  {
    if a != {} {
      var x :| x in a;
      SubsetCard(a - {x}, b - {x});
    }
  }

  /** The collection never holds more states than there are sets of valid items. */
  lemma StatesBounded(f: Flavour, prods: seq<Production>, states: seq<LR0State>)
    requires StatesOk(f, prods, states) && Signed(f, states) && SignaturesDistinct(states)
    ensures |states| <= |PowerSet(ValidItems(prods))|
  {
    DistinctItemSets(f, prods, states);
    SeenCard(states);
    SeenBounded(f, prods, states);
    SubsetCard(Seen(states), PowerSet(ValidItems(prods)));
  }

  /** The goto of a state's items on one of its symbols, as `gotoSet` computes it. */
  method GotoFor(f: Flavour, aug: AugmentedGrammar, items: seq<Item>, x: Symbol) returns (r: seq<Item>)
    requires WellIndexed(aug.productions)
    requires StrictlySorted(items) && forall i :: 0 <= i < |items| ==> ValidItem(aug.productions, items[i])
    ensures IsGoto(aug.productions, aug.nonTerminals, items, x, r)
  {
    if f.CorePipeline? {
      r := GotoSet(aug, items, x);
    } else {
      StrictlySortedDistinct(items);
      r := CompilerGoto(aug, items, x);
    }
  }

  /** The closure of the start item, as the pipeline's `closure` computes it. */
  method ClosureFor(f: Flavour, aug: AugmentedGrammar, items: seq<Item>) returns (r: seq<Item>)
    requires WellIndexed(aug.productions)
    requires Distinct(items) && forall i :: 0 <= i < |items| ==> items[i].prodId < |aug.productions|
    ensures StrictlySorted(r)
    ensures IsClosureOf(aug.productions, aug.nonTerminals, Elems(items), r)
  {
    if f.CorePipeline? {
      r := Closure(aug, items);
    } else {
      r := CompilerClosure(aug, items);
    }
  }

  /** The goto target of a symbol that follows a dot: a non-empty, sorted list of valid items. */
  lemma GotoTargetOk(prods: seq<Production>, nts: seq<Symbol>, items: seq<Item>, x: Symbol, r: seq<Item>)
    requires IsGoto(prods, nts, items, x, r) && x in NextSymbols(prods, items)
    ensures r != [] && StrictlySorted(r)
    ensures forall i :: 0 <= i < |r| ==> ValidItem(prods, r[i])
  {
    NextSymbolMoves(prods, items, x);
    MovedValid(prods, items, x);
    ClosureValid(prods, nts, Elems(Moved(prods, items, x)), r);
  }

  /** One symbol of the current state: compute the goto, find or create its state, add the transition. */
  method AddTarget(f: Flavour, aug: AugmentedGrammar, b: Builder, c: nat, syms: seq<Symbol>, j: nat) returns (b': Builder)
    requires WellIndexed(aug.productions)
    requires InnerInv(f, aug.productions, aug.nonTerminals, b, c, syms, j) && j < |syms|
    ensures InnerInv(f, aug.productions, aug.nonTerminals, b', c, syms, j + 1)
    ensures |b.states| <= |b'.states|
    ensures |b'.states| == |b.states| ==> b'.queue == b.queue
  {
    var prods, nts := aug.productions, aug.nonTerminals;
    var current := b.states[c];
    var x := syms[j];
    assert StateOk(f, prods, current, c);
    var nextItems := GotoFor(f, aug, current.items, x);
    assert x in syms;
    GotoTargetOk(prods, nts, current.items, x, nextItems);
    var signature := SignatureWith(KeySeparator(f), nextItems);
    if signature in b.bySignature {
      b' := ReuseTarget(f, prods, nts, b, c, syms, j, nextItems, signature);
    } else {
      b' := NewTarget(f, prods, nts, b, c, syms, j, nextItems, signature);
    }
  }

  /** The goto was seen before: add a transition to the state of that signature. */
  method ReuseTarget(f: Flavour, prods: seq<Production>, nts: seq<Symbol>, b: Builder, c: nat, syms: seq<Symbol>, j: nat,
                     nextItems: seq<Item>, signature: string) returns (b': Builder)
    requires InnerInv(f, prods, nts, b, c, syms, j) && j < |syms|
    requires IsGoto(prods, nts, b.states[c].items, syms[j], nextItems) && StrictlySorted(nextItems)
    requires signature == SignatureWith(KeySeparator(f), nextItems) && signature in b.bySignature
    ensures InnerInv(f, prods, nts, b', c, syms, j + 1)
    ensures b' == b.(transitions := b.transitions + [LR0Transition(c, syms[j], b.bySignature[signature])])
  {
    var k := b.bySignature[signature];
    var target := b.states[k];
    assert StateOk(f, prods, target, k);
    SignedAt(f, b.states, k);
    SameSignatureSameItems(f, target.items, nextItems);
    var t := LR0Transition(b.states[c].id, syms[j], target.id);
    assert StateOk(f, prods, b.states[c], c);
    b' := b.(transitions := b.transitions + [t]);
    ExistingTargetKeeps(f, prods, nts, b, c, syms, j, t);
  }

  /** The goto is new: append a state with the next id, queue it and add the transition. */
  method NewTarget(f: Flavour, prods: seq<Production>, nts: seq<Symbol>, b: Builder, c: nat, syms: seq<Symbol>, j: nat,
                   nextItems: seq<Item>, signature: string) returns (b': Builder)
    requires InnerInv(f, prods, nts, b, c, syms, j) && j < |syms|
    requires IsGoto(prods, nts, b.states[c].items, syms[j], nextItems)
    requires nextItems != [] && StrictlySorted(nextItems)
    requires forall i :: 0 <= i < |nextItems| ==> ValidItem(prods, nextItems[i])
    requires signature == SignatureWith(KeySeparator(f), nextItems) && signature !in b.bySignature
    ensures InnerInv(f, prods, nts, b', c, syms, j + 1)
    ensures b' == Grow(b, LR0State(b.nextId, nextItems, signature), LR0Transition(c, syms[j], b.nextId))
  {
    var target := LR0State(b.nextId, nextItems, signature);
    var t := LR0Transition(b.states[c].id, syms[j], target.id);
    assert StateOk(f, prods, b.states[c], c);
    b' := Grow(b, target, t);
    NewTargetKeeps(f, prods, nts, b, c, syms, j, target, t);
  }

  lemma ExistingTargetKeeps(f: Flavour, prods: seq<Production>, nts: seq<Symbol>, b: Builder,
                            c: nat, syms: seq<Symbol>, j: nat, t: LR0Transition)
    requires InnerInv(f, prods, nts, b, c, syms, j) && j < |syms|
    requires t.fromId == c && t.symbol == syms[j] && TransitionOk(prods, nts, b.states, t)
    ensures InnerInv(f, prods, nts, b.(transitions := b.transitions + [t]), c, syms, j + 1)
  {
    TransitionsAppend(prods, nts, b.states, b.transitions, t);
    DiscoveredAppend(b.states, b.transitions, t);
    DiscoveryOrderAppend(b.states, b.transitions, t);
    OrderedAppend(b.transitions, c, t);
    OutAppend(prods, b.states, b.transitions, c, t);
    TakeOneMore(syms, j);
  }

  /** Appending a state to both the list and the queue keeps the queue a suffix of the list. */
  lemma QueueGrows(b: Builder, st: LR0State, t: LR0Transition)
    requires |b.queue| <= |b.states| && b.queue == b.states[Head(b)..]
    ensures |Grow(b, st, t).queue| <= |Grow(b, st, t).states|
    ensures Grow(b, st, t).queue == Grow(b, st, t).states[Head(Grow(b, st, t))..]
  {
    assert Head(Grow(b, st, t)) == Head(b);
  }

  /** The builder after a new state `st`, reached by `t`, is appended and queued. */
  function Grow(b: Builder, st: LR0State, t: LR0Transition): Builder {
    Builder(b.states + [st], b.transitions + [t], b.bySignature[st.signature := b.nextId], b.queue + [st], b.nextId + 1)
  }

  lemma GrowKeepsBase(f: Flavour, prods: seq<Production>, nts: seq<Symbol>, b: Builder, st: LR0State, t: LR0Transition)
    requires BaseInv(f, prods, nts, b)
    requires StateOk(f, prods, st, b.nextId) && SignedState(f, st) && st.signature !in b.bySignature
    requires t.fromId < |b.states| && t.toId == b.nextId && FromBelow(b.transitions, t.fromId + 1)
    requires IsGoto(prods, nts, b.states[t.fromId].items, t.symbol, st.items)
    ensures BaseInv(f, prods, nts, Grow(b, st, t))
  {
    var s1 := b.states + [st];
    StatesAppend(f, prods, b.states, st);
    SignedAppend(f, b.states, st);
    SignaturesAppend(b.states, b.bySignature, st);
    TransitionsStatesAppend(prods, nts, b.states, b.transitions, st);
    assert s1[t.fromId] == b.states[t.fromId] && s1[b.nextId] == st;
    TransitionsAppend(prods, nts, s1, b.transitions, t);
    DiscoveredNew(b.states, b.transitions, st, t);
    DiscoveryOrderAppend(b.states, b.transitions, t);
    assert s1[0] == b.states[0];
    QueueGrows(b, st, t);
    OrderedAppend(b.transitions, t.fromId, t);
  }

  lemma NewTargetKeeps(f: Flavour, prods: seq<Production>, nts: seq<Symbol>, b: Builder,
                       c: nat, syms: seq<Symbol>, j: nat, st: LR0State, t: LR0Transition)
    requires InnerInv(f, prods, nts, b, c, syms, j) && j < |syms|
    requires StateOk(f, prods, st, b.nextId) && SignedState(f, st) && st.signature !in b.bySignature
    requires t.fromId == c && t.symbol == syms[j] && t.toId == b.nextId
    requires IsGoto(prods, nts, b.states[c].items, t.symbol, st.items)
    ensures InnerInv(f, prods, nts, Grow(b, st, t), c, syms, j + 1)
  {
    GrowKeepsBase(f, prods, nts, b, st, t);
    OrderedAppend(b.transitions, c, t);
    OutAppend(prods, b.states, b.transitions, c, t);
    OutStatesAppend(prods, b.states, b.transitions + [t], c, st);
    TakeOneMore(syms, j);
  }

  /** `queue.shift()`: the head state leaves the queue, its transitions are yet to be added. */
  lemma PopKeeps(f: Flavour, prods: seq<Production>, nts: seq<Symbol>, b: Builder, syms: seq<Symbol>)
    requires OuterInv(f, prods, nts, b) && b.queue != []
    requires syms == NextSymbols(prods, b.states[Head(b)].items)
    ensures Head(b) >= 0
    ensures InnerInv(f, prods, nts, Pop(b), Head(b), syms, 0)
  {
    var c := Head(b);
    PopBase(f, prods, nts, b);
    OutSymbolsNone(b.transitions, c);
  }

  /** The builder after `queue.shift()`. */
  function Pop(b: Builder): Builder
    requires b.queue != []
  {
    b.(queue := b.queue[1..])
  }

  lemma PopBase(f: Flavour, prods: seq<Production>, nts: seq<Symbol>, b: Builder)
    requires BaseInv(f, prods, nts, b) && b.queue != []
    ensures BaseInv(f, prods, nts, Pop(b)) && Head(Pop(b)) == Head(b) + 1
    ensures Pop(b).states == b.states && Pop(b).transitions == b.transitions
  {
    var b1 := Pop(b);
    assert b1.states == b.states && b1.transitions == b.transitions;
    assert b1.bySignature == b.bySignature && b1.nextId == b.nextId;
    PopQueue(b);
  }

  lemma PopQueue(b: Builder)
    requires b.queue != [] && |b.queue| <= |b.states| && b.queue == b.states[Head(b)..]
    ensures |Pop(b).queue| <= |Pop(b).states| && Pop(b).queue == Pop(b).states[Head(Pop(b))..]
    ensures Head(Pop(b)) == Head(b) + 1
  {
    DropHead(b.states, b.queue, Head(b));
  }

  /** When every symbol of state c has its transition, state c is finished. */
  lemma FinishKeeps(f: Flavour, prods: seq<Production>, nts: seq<Symbol>, b: Builder, c: nat, syms: seq<Symbol>)
    requires InnerInv(f, prods, nts, b, c, syms, |syms|)
    ensures OuterInv(f, prods, nts, b)
  {
    TakeAll(syms);
  }

  /** The `for (const sym of symbols)` loop over the symbols of state c. */
  method AddTargets(f: Flavour, aug: AugmentedGrammar, b: Builder, c: nat, syms: seq<Symbol>) returns (b': Builder)
    requires WellIndexed(aug.productions)
    requires InnerInv(f, aug.productions, aug.nonTerminals, b, c, syms, 0)
    ensures InnerInv(f, aug.productions, aug.nonTerminals, b', c, syms, |syms|)
    ensures |b.states| <= |b'.states|
    ensures |b'.states| == |b.states| ==> b'.queue == b.queue
  {
    b' := b;
    for j := 0 to |syms|
      invariant InnerInv(f, aug.productions, aug.nonTerminals, b', c, syms, j)
      invariant |b.states| <= |b'.states|
      invariant |b'.states| == |b.states| ==> b'.queue == b.queue
    {
      b' := AddTarget(f, aug, b', c, syms, j);
    }
  }

  /** One turn of the `while`: take the head of the queue and add its transitions. */
  method ProcessState(f: Flavour, aug: AugmentedGrammar, b: Builder) returns (b': Builder)
    requires WellIndexed(aug.productions)
    requires OuterInv(f, aug.productions, aug.nonTerminals, b) && b.queue != []
    ensures OuterInv(f, aug.productions, aug.nonTerminals, b')
    ensures |b.states| < |b'.states| || (|b'.states| == |b.states| && |b'.queue| < |b.queue|)
  {
    var prods, nts := aug.productions, aug.nonTerminals;
    var current := b.queue[0];
    assert current == b.states[Head(b)];
    var c: nat := Head(b);
    var syms := CollectSymbols(prods, current.items);
    PopKeeps(f, prods, nts, b, syms);
    var b1 := Pop(b);
    b' := AddTargets(f, aug, b1, c, syms);
    FinishKeeps(f, prods, nts, b', c, syms);
  }

  /** The start state: `closure({S' -> . S})`, with its signature in the map and the queue. */
  method StartBuilder(f: Flavour, aug: AugmentedGrammar) returns (b: Builder)
    requires WellIndexed(aug.productions) && |aug.productions| >= 1
    ensures OuterInv(f, aug.productions, aug.nonTerminals, b)
    ensures |b.states| == 1 && b.queue == b.states && b.transitions == [] && b.nextId == 1
    ensures b.states[0].id == 0 && b.bySignature == map[b.states[0].signature := 0]
  {
    var prods, nts := aug.productions, aug.nonTerminals;
    var initialItems := ClosureFor(f, aug, [Item(0, 0)]);
    assert ValidItem(prods, Item(0, 0));
    assert Elems([Item(0, 0)]) == {Item(0, 0)};
    ClosureValid(prods, nts, {Item(0, 0)}, initialItems);
    assert Item(0, 0) in Elems(initialItems);
    var initialState := LR0State(0, initialItems, SignatureWith(KeySeparator(f), initialItems));
    b := Builder([initialState], [], map[initialState.signature := 0], [initialState], 1);
    assert Signed(f, b.states) by {
      assert b.states[..0] == [];
    }
  }

  /** The canonical collection, built breadth first; shared by both copies of the pipeline. */
  method BuildCollection(f: Flavour, aug: AugmentedGrammar) returns (states: seq<LR0State>, transitions: seq<LR0Transition>)
    requires WellIndexed(aug.productions) && |aug.productions| >= 1
    ensures IsCanonicalCollection(f, aug.productions, aug.nonTerminals, states, transitions)
  {
    var prods, nts := aug.productions, aug.nonTerminals;
    var b := StartBuilder(f, aug);
    ghost var bound := |PowerSet(ValidItems(prods))|;
    StatesBounded(f, prods, b.states);
    while b.queue != []
      invariant OuterInv(f, prods, nts, b)
      invariant |b.states| <= bound
      decreases bound - |b.states|, |b.queue|
    {
      b := ProcessState(f, aug, b);
      StatesBounded(f, prods, b.states);
    }
    states, transitions := b.states, b.transitions;
  }

  /** `buildLR0Automaton(grammar)`. */
  method BuildLR0Automaton(g: Grammar) returns (res: LR0BuildResult)
    ensures g.startSymbol == "" ==> res == LR0BuildResult(None, ["Grammar has no start symbol"])
    ensures g.startSymbol != "" && g.productions == [] ==> res == LR0BuildResult(None, ["Grammar has no productions"])
    ensures g.startSymbol != "" && g.productions != [] ==>
      && res.errors == [] && res.automaton.Some?
      && var a := res.automaton.value;
         && IsFreshPrime(g.startSymbol, g.nonTerminals, g.terminals, a.grammar.startPrime)
         && AugmentsWith(g, a.grammar.startPrime, a.grammar)
         && a.grammar.nonTerminals == g.nonTerminals + [a.grammar.startPrime]
         && IsCanonicalCollection(CorePipeline, a.grammar.productions, a.grammar.nonTerminals, a.states, a.transitions)
  {
    if g.startSymbol == "" {
      return LR0BuildResult(None, ["Grammar has no start symbol"]);
    }
    if g.productions == [] {
      return LR0BuildResult(None, ["Grammar has no productions"]);
    }
    var aug := AugmentGrammar(g);
    AugmentedWellIndexed(g, aug.startPrime, aug);
    var states, transitions := BuildCollection(CorePipeline, aug);
    res := LR0BuildResult(Some(LR0Automaton(aug, states, transitions)), []);
  }
}
