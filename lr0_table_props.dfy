/**
 * What the attempts of src/core/lr0/buildTable.ts are, and hence what the parse table holds:
 * shifts only on terminals some item waits for, accept only at `"$"` for the completed start
 * item, reduce only for completed items, and every such write attempted.
 */
module TableProps {
  import opened Wrappers
  import opened Grammars
  import opened LR0Types
  import opened Items
  import opened TransitionIndex
  import opened TableCells
  import opened BuildTable

  /** The item names a production and its dot is at the end. */
  predicate Completed(prods: seq<Production>, it: Item) {
    it.prodId < |prods| && it.dot == |prods[it.prodId].right|
  }

  /** The entry is one the loops may write on that symbol for that item. */
  predicate EntryOk(aug: AugmentedGrammar, ts: seq<LR0Transition>, a: Attempt) {
    var prods := aug.productions;
    match a.entry
    case Shift(to) =>
      a.symbol in aug.terminals && LastTarget(ts, a.stateId, a.symbol) == Some(to) && NextSymbol(prods, a.item) == Some(a.symbol)
    case Accept =>
      a.symbol == "$" && Completed(prods, a.item) && prods[a.item.prodId].left == aug.startPrime
    case Reduce(p) =>
      a.symbol in aug.terminals + ["$"] && Completed(prods, a.item) && prods[a.item.prodId].left != aug.startPrime &&
      prods[a.item.prodId].id == p
  }

  /** The attempt is for a listed state, for one of its items, and its entry is justified. */
  predicate AttemptOk(aug: AugmentedGrammar, ts: seq<LR0Transition>, states: seq<LR0State>, a: Attempt) {
    && (exists k :: 0 <= k < |states| && states[k].id == a.stateId && a.item in states[k].items)
    && EntryOk(aug, ts, a)
  }

  lemma {:induction false} ShiftAttemptsOk(aug: AugmentedGrammar, ts: seq<LR0Transition>, st: LR0State, syms: seq<Symbol>)
    ensures forall a :: a in ShiftAttempts(aug, ts, st, syms) ==> a.stateId == st.id && a.item in st.items && EntryOk(aug, ts, a)
  {
    if syms != [] {
      ShiftAttemptsOk(aug, ts, st, syms[..|syms| - 1]);
    }
  }

  lemma {:induction false} ReduceAttemptsIn(id: nat, p: int, it: Item, targets: seq<Symbol>)
    ensures forall a :: a in ReduceAttempts(id, p, it, targets) <==> a.stateId == id && a.symbol in targets && a.entry == Reduce(p) && a.item == it
  {
    if targets != [] {
      var init := targets[..|targets| - 1];
      ReduceAttemptsIn(id, p, it, init);
      assert targets == init + [targets[|targets| - 1]];
    }
  }

  lemma ItemAttemptOk(aug: AugmentedGrammar, ts: seq<LR0Transition>, id: nat, it: Item)
    ensures forall a :: a in ItemAttempt(aug, id, it) ==> a.stateId == id && a.item == it && EntryOk(aug, ts, a)
  {
    if it.prodId < |aug.productions| {
      var prod := aug.productions[it.prodId];
      ReduceAttemptsIn(id, prod.id, it, aug.terminals + ["$"]);
    }
  }

  lemma {:induction false} ItemAttemptsOk(aug: AugmentedGrammar, ts: seq<LR0Transition>, id: nat, items: seq<Item>)
    ensures forall a :: a in ItemAttempts(aug, id, items) ==> a.stateId == id && a.item in items && EntryOk(aug, ts, a)
  {
    if items != [] {
      var init, last := items[..|items| - 1], items[|items| - 1];
      ItemAttemptsOk(aug, ts, id, init);
      ItemAttemptOk(aug, ts, id, last);
      assert items == init + [last];
    }
  }

  /** Every `setAction` call is for a listed state and one of its items, with a justified entry. */
  lemma {:induction false} StateAttemptsOk(aug: AugmentedGrammar, ts: seq<LR0Transition>, states: seq<LR0State>)
    ensures forall a :: a in StateAttempts(aug, ts, states) ==> AttemptOk(aug, ts, states, a)
  {
    if states != [] {
      var init, st := states[..|states| - 1], states[|states| - 1];
      StateAttemptsOk(aug, ts, init);
      ShiftAttemptsOk(aug, ts, st, FirstSymbols(ts, st.id));
      ItemAttemptsOk(aug, ts, st.id, st.items);
      forall a | a in StateAttempts(aug, ts, states) ensures AttemptOk(aug, ts, states, a) {
        if a in StateAttempts(aug, ts, init) {
          var k :| 0 <= k < |init| && init[k].id == a.stateId && a.item in init[k].items;
          assert states[k] == init[k];
        } else {
          assert states[|states| - 1] == st;
        }
      }
    }
  }

  /** The calls made for state k are among all calls. */
  lemma {:induction false} StateAttemptsHas(aug: AugmentedGrammar, ts: seq<LR0Transition>, states: seq<LR0State>, k: nat)
    requires k < |states|
    ensures forall a :: a in ShiftAttempts(aug, ts, states[k], FirstSymbols(ts, states[k].id)) ==> a in StateAttempts(aug, ts, states)
    ensures forall a :: a in ItemAttempts(aug, states[k].id, states[k].items) ==> a in StateAttempts(aug, ts, states)
  {
    var init := states[..|states| - 1];
    if k < |states| - 1 {
      assert init[k] == states[k];
      StateAttemptsHas(aug, ts, init, k);
    }
  }

  lemma {:induction false} ItemAttemptsHas(aug: AugmentedGrammar, id: nat, items: seq<Item>, it: Item)
    requires it in items
    ensures forall a :: a in ItemAttempt(aug, id, it) ==> a in ItemAttempts(aug, id, items)
  {
    var init := items[..|items| - 1];
    assert items == init + [items[|items| - 1]];
    if it != items[|items| - 1] {
      ItemAttemptsHas(aug, id, init, it);
    }
  }

  lemma {:induction false} ShiftAttemptsHas(aug: AugmentedGrammar, ts: seq<LR0Transition>, st: LR0State, syms: seq<Symbol>, x: Symbol)
    requires x in syms
    ensures forall a :: a in ShiftAttempt(aug, ts, st, x) ==> a in ShiftAttempts(aug, ts, st, syms)
  {
    var init := syms[..|syms| - 1];
    assert syms == init + [syms[|syms| - 1]];
    if x != syms[|syms| - 1] {
      ShiftAttemptsHas(aug, ts, st, init, x);
    }
  }

  /** A completed item of a production other than the start one attempts `reduce` on every terminal and on `"$"`. */
  lemma ReduceAttempted(aug: AugmentedGrammar, ts: seq<LR0Transition>, states: seq<LR0State>, k: nat, it: Item, x: Symbol)
    requires k < |states| && it in states[k].items
    requires Completed(aug.productions, it) && aug.productions[it.prodId].left != aug.startPrime
    requires x in aug.terminals + ["$"]
    ensures Attempt(states[k].id, x, Reduce(aug.productions[it.prodId].id), it) in StateAttempts(aug, ts, states)
  {
    var prod := aug.productions[it.prodId];
    ReduceAttemptsIn(states[k].id, prod.id, it, aug.terminals + ["$"]);
    ItemAttemptsHas(aug, states[k].id, states[k].items, it);
    StateAttemptsHas(aug, ts, states, k);
  }

  /** The completed start item attempts accept at `"$"`. */
  lemma AcceptAttempted(aug: AugmentedGrammar, ts: seq<LR0Transition>, states: seq<LR0State>, k: nat, it: Item)
    requires k < |states| && it in states[k].items
    requires Completed(aug.productions, it) && aug.productions[it.prodId].left == aug.startPrime
    ensures Attempt(states[k].id, "$", Accept, it) in StateAttempts(aug, ts, states)
  {
    ItemAttemptsHas(aug, states[k].id, states[k].items, it);
    StateAttemptsHas(aug, ts, states, k);
  }

  /** A transition from a state on a terminal some item of it waits for attempts a shift to the last such target. */
  lemma ShiftAttempted(aug: AugmentedGrammar, ts: seq<LR0Transition>, states: seq<LR0State>, k: nat, i: nat, x: Symbol)
    requires k < |states| && i < |ts| && ts[i].fromId == states[k].id && ts[i].symbol == x && x in aug.terminals
    requires exists j :: 0 <= j < |states[k].items| && NextSymbol(aug.productions, states[k].items[j]) == Some(x)
    ensures LastTarget(ts, states[k].id, x).Some? && FirstCausing(aug.productions, states[k].items, x).Some?
    ensures Attempt(states[k].id, x, Shift(LastTarget(ts, states[k].id, x).value), FirstCausing(aug.productions, states[k].items, x).value)
      in StateAttempts(aug, ts, states)
  {
    var id := states[k].id;
    LastTargetDefined(ts, id, x);
    FirstSymbolsElems(ts, id, x);
    ShiftAttemptsHas(aug, ts, states[k], FirstSymbols(ts, id), x);
    StateAttemptsHas(aug, ts, states, k);
  }

  /** Every `setAction` call `buildLR0ParseTable(a)` makes, in order. */
  function AllAttempts(a: LR0Automaton): seq<Attempt> {
    StateAttempts(a.grammar, a.transitions, a.states)
  }

  /** The table `buildLR0ParseTable(a)` returns, as its contract describes it. */
  predicate BuiltFrom(a: LR0Automaton, table: LR0ParseTable) {
    && Actions(table.action, table.conflicts) == Fill(a.grammar.productions, a.states, Empty, AllAttempts(a))
    && (table.isLR0 <==> table.conflicts == [])
  }

  /** First writer wins: every cell holds the entry of the first call on it, and that call is justified. */
  lemma TableEntriesJustified(a: LR0Automaton, table: LR0ParseTable, s: nat, x: Symbol)
    requires BuiltFrom(a, table)
    ensures Cell(table.action, s, x) == FirstAt(AllAttempts(a), s, x)
    ensures Cell(table.action, s, x).Some? ==>
      exists i :: 0 <= i < |AllAttempts(a)| && At(AllAttempts(a)[i], s, x) && AllAttempts(a)[i].entry == Cell(table.action, s, x).value &&
        AttemptOk(a.grammar, a.transitions, a.states, AllAttempts(a)[i])
  {
    var atts := AllAttempts(a);
    FillFirst(a.grammar.productions, a.states, atts, s, x);
    FirstAtSpec(atts, s, x);
    StateAttemptsOk(a.grammar, a.transitions, a.states);
  }

  /** No call is lost: each left its entry in its cell or a conflict naming it. */
  lemma TableRecordsAll(a: LR0Automaton, table: LR0ParseTable)
    requires BuiltFrom(a, table)
    ensures forall i :: 0 <= i < |AllAttempts(a)| ==> Recorded(Actions(table.action, table.conflicts), AllAttempts(a)[i])
  {
    FillRecordsAll(a.grammar.productions, a.states, Empty, AllAttempts(a));
  }

  /**
   * Every conflict names the entry its cell kept, a different incoming entry from some call,
   * and the canonical kind of the pair; `isLR0` holds exactly when no cell is attempted with
   * two different entries.
   */
  lemma TableConflicts(a: LR0Automaton, table: LR0ParseTable)
    requires BuiltFrom(a, table)
    ensures ConflictsMatch(Actions(table.action, table.conflicts))
    ensures ConflictsFrom(Actions(table.action, table.conflicts), AllAttempts(a))
    ensures table.isLR0 <==> Consistent(AllAttempts(a))
  {
    FillConflictsMatch(a.grammar.productions, a.states, Empty, AllAttempts(a));
    ConflictsFromAttempts(a.grammar.productions, a.states, AllAttempts(a));
    NoConflictsIffConsistent(a.grammar.productions, a.states, AllAttempts(a));
  }
}
