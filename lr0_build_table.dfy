/**
 * `buildLR0ParseTable` of src/core/lr0/buildTable.ts. The loops over states, row entries,
 * items and reduce targets call `setAction` in a fixed order; `StateAttempts` lists those
 * calls, and the table is proved to be their replay (`Fill`) from an empty table.
 */
module BuildTable {
  import opened Wrappers
  import opened Grammars
  import opened LR0Types
  import opened Items
  import opened OrderedMaps
  import opened TransitionIndex
  import opened TableCells

  /** `state.items.find(...)`: the first item waiting for x. */
  function FirstCausing(prods: seq<Production>, items: seq<Item>, x: Symbol): (r: Option<Item>)
    ensures r.Some? ==> r.value in items && NextSymbol(prods, r.value) == Some(x)
    ensures r.None? <==> forall i :: 0 <= i < |items| ==> NextSymbol(prods, items[i]) != Some(x)
  {
    if items == [] then None
    else if NextSymbol(prods, items[0]) == Some(x) then Some(items[0])
    else
      var r := FirstCausing(prods, items[1..], x);
      assert forall i :: 1 <= i < |items| ==> items[i] == items[1..][i - 1];
      r
  }

  /** The call for one entry `(x, target)` of the state's transition row: a shift on a terminal some item waits for. */
  function ShiftAttempt(aug: AugmentedGrammar, ts: seq<LR0Transition>, st: LR0State, x: Symbol): seq<Attempt> {
    if x !in aug.terminals then []
    else
      match (FirstCausing(aug.productions, st.items, x), LastTarget(ts, st.id, x))
      case (Some(it), Some(to)) => [Attempt(st.id, x, Shift(to), it)]
      case _ => []
  }

  function ShiftAttempts(aug: AugmentedGrammar, ts: seq<LR0Transition>, st: LR0State, syms: seq<Symbol>): seq<Attempt> {
    if syms == [] then []
    else ShiftAttempts(aug, ts, st, syms[..|syms| - 1]) + ShiftAttempt(aug, ts, st, syms[|syms| - 1])
  }

  /** `reduce p` on every target, in order. */
  function ReduceAttempts(id: nat, p: int, it: Item, targets: seq<Symbol>): seq<Attempt> {
    if targets == [] then []
    else ReduceAttempts(id, p, it, targets[..|targets| - 1]) + [Attempt(id, targets[|targets| - 1], Reduce(p), it)]
  }

  /** The calls for one item: accept at `"$"` for a completed start item, reduce on every terminal and `"$"` for another completed item. */
  function ItemAttempt(aug: AugmentedGrammar, id: nat, it: Item): seq<Attempt> {
    if it.prodId >= |aug.productions| then []
    else
      var prod := aug.productions[it.prodId];
      if prod.left == aug.startPrime && it.dot == |prod.right| then [Attempt(id, "$", Accept, it)]
      else if it.dot == |prod.right| then ReduceAttempts(id, prod.id, it, aug.terminals + ["$"])
      else []
  }

  function ItemAttempts(aug: AugmentedGrammar, id: nat, items: seq<Item>): seq<Attempt> {
    if items == [] then []
    else ItemAttempts(aug, id, items[..|items| - 1]) + ItemAttempt(aug, id, items[|items| - 1])
  }

  /** Every `setAction` call, in the order the loops make them: per state, its row first, then its items. */
  function StateAttempts(aug: AugmentedGrammar, ts: seq<LR0Transition>, states: seq<LR0State>): seq<Attempt> {
    if states == [] then []
    else
      var st := states[|states| - 1];
      StateAttempts(aug, ts, states[..|states| - 1]) + ShiftAttempts(aug, ts, st, FirstSymbols(ts, st.id)) + ItemAttempts(aug, st.id, st.items)
  }

  predicate HasStateId(states: seq<LR0State>, s: nat) {
    exists k :: 0 <= k < |states| && states[k].id == s
  }

  /** A goto cell: a transition from s on a non-terminal other than the start symbol that is no terminal. */
  predicate GotoCell(aug: AugmentedGrammar, ts: seq<LR0Transition>, s: nat, x: Symbol) {
    x in FirstSymbols(ts, s) && x !in aug.terminals && x in aug.nonTerminals && x != aug.startPrime
  }

  predicate InGoto(goto: GotoTable, s: nat, x: Symbol) {
    s in goto && x in goto[s]
  }

  /** Every goto row is non-empty, and every entry is a goto cell holding the target of the last transition on it. */
  predicate GotoSound(aug: AugmentedGrammar, ts: seq<LR0Transition>, goto: GotoTable) {
    forall s :: s in goto ==>
      goto[s] != map[] && forall x :: x in goto[s] ==> GotoCell(aug, ts, s, x) && LastTarget(ts, s, x) == Some(goto[s][x])
  }

  /** The provenance scan of `setAction`. */
  method CollectCauses(prods: seq<Production>, items: seq<Item>, e: ActionEntry, x: Symbol) returns (r: seq<string>)
    ensures r == Render(prods, Causes(prods, items, e, x))
  {
    r := [];
    for i := 0 to |items|
      invariant r == Render(prods, Causes(prods, items[..i], e, x))
    {
      RenderCausesStep(prods, items, i, e, x);
      if Justifies(prods, items[i], e, x) {
        r := r + [ItemToString(prods, items[i])];
      }
    }
    assert items[..|items|] == items;
  }

  lemma RenderCausesStep(prods: seq<Production>, items: seq<Item>, i: nat, e: ActionEntry, x: Symbol)
    requires i < |items|
    ensures Render(prods, Causes(prods, items[..i + 1], e, x)) ==
      Render(prods, Causes(prods, items[..i], e, x)) + (if Justifies(prods, items[i], e, x) then [ItemToString(prods, items[i])] else [])
  {
    assert items[..i + 1][..i] == items[..i];
    var c := Causes(prods, items[..i], e, x);
    if Justifies(prods, items[i], e, x) {
      RenderAppend(prods, c, items[i]);
    }
  }

  /** `setAction(stateId, symbol, incoming, incomingItem)`; the state must be listed, as `find(...)!` assumes. */
  method SetAction(prods: seq<Production>, states: seq<LR0State>, acts: Actions, stateId: nat, symbol: Symbol,
                   incoming: ActionEntry, incomingItem: Item) returns (acts': Actions)
    requires HasStateId(states, stateId)
    ensures acts' == Write(prods, states, acts, Attempt(stateId, symbol, incoming, incomingItem))
  {
    var row := if stateId in acts.action then acts.action[stateId] else map[];
    if symbol in row {
      var existing := row[symbol];
      if existing == incoming {
        return acts;
      }
      var kind := CoreKind(existing, incoming);
      var state := FindState(states, stateId);
      var existingItems := CollectCauses(prods, state.value.items, existing, symbol);
      var incomingStr := ItemToString(prods, incomingItem);
      acts' := acts.(conflicts := acts.conflicts + [Conflict(stateId, symbol, existing, incoming, kind, existingItems, [incomingStr])]);
    } else {
      acts' := acts.(action := acts.action[stateId := row[symbol := incoming]]);
    }
  }

  lemma ShiftAttemptsStep(aug: AugmentedGrammar, ts: seq<LR0Transition>, st: LR0State, syms: seq<Symbol>, j: nat)
    requires j < |syms|
    ensures ShiftAttempts(aug, ts, st, syms[..j + 1]) == ShiftAttempts(aug, ts, st, syms[..j]) + ShiftAttempt(aug, ts, st, syms[j])
  {
    assert syms[..j + 1][..j] == syms[..j];
  }

  /** `goto.get(s).set(x, to)`, creating the row when missing. */
  lemma GotoPut(aug: AugmentedGrammar, ts: seq<LR0Transition>, goto: GotoTable, s: nat, x: Symbol, to: nat, goto': GotoTable)
    requires GotoSound(aug, ts, goto) && GotoCell(aug, ts, s, x) && LastTarget(ts, s, x) == Some(to)
    requires goto' == goto[s := (if s in goto then goto[s] else map[])[x := to]]
    ensures GotoSound(aug, ts, goto')
    ensures forall s', x' :: InGoto(goto', s', x') <==> InGoto(goto, s', x') || (s' == s && x' == x)
  {
    var row := (if s in goto then goto[s] else map[])[x := to];
    assert x in row;
    forall s' | s' in goto'
      ensures goto'[s'] != map[] && forall x' :: x' in goto'[s'] ==> GotoCell(aug, ts, s', x') && LastTarget(ts, s', x') == Some(goto'[s'][x'])
    {
      if s' == s {
        assert goto'[s'] == row;
        forall x' | x' in row ensures GotoCell(aug, ts, s, x') && LastTarget(ts, s, x') == Some(row[x']) {
          if x' != x {
            assert x' in goto[s] && row[x'] == goto[s][x'];
          }
        }
      }
    }
  }

  /** One entry `(symbol, toStateId)` of the row: a shift on a terminal, or a goto on another non-terminal. */
  method RowEntry(aug: AugmentedGrammar, states: seq<LR0State>, ts: seq<LR0Transition>, acts: Actions, goto: GotoTable,
                  st: LR0State, symbol: Symbol, toStateId: nat) returns (acts': Actions, goto': GotoTable)
    requires st in states
    requires symbol in FirstSymbols(ts, st.id) && LastTarget(ts, st.id, symbol) == Some(toStateId)
    requires GotoSound(aug, ts, goto)
    ensures acts' == Fill(aug.productions, states, acts, ShiftAttempt(aug, ts, st, symbol))
    ensures GotoSound(aug, ts, goto')
    ensures forall s, x :: InGoto(goto', s, x) <==> InGoto(goto, s, x) || (s == st.id && x == symbol && GotoCell(aug, ts, s, x))
  {
    acts', goto' := acts, goto;
    if symbol in aug.terminals {
      var causingItem := FirstCausing(aug.productions, st.items, symbol);
      if causingItem.Some? {
        acts' := SetAction(aug.productions, states, acts, st.id, symbol, Shift(toStateId), causingItem.value);
        assert [Attempt(st.id, symbol, Shift(toStateId), causingItem.value)][..0] == [];
      }
    } else if symbol in aug.nonTerminals && symbol != aug.startPrime {
      var r := if st.id in goto then goto[st.id] else map[];
      goto' := goto[st.id := r[symbol := toStateId]];
      GotoPut(aug, ts, goto, st.id, symbol, toStateId, goto');
    }
  }

  /** The shift and goto part for one state: its transition row, entry by entry. */
  method ProcessRow(aug: AugmentedGrammar, states: seq<LR0State>, ts: seq<LR0Transition>, acts: Actions, goto: GotoTable,
                    st: LR0State, row: Row) returns (acts': Actions, goto': GotoTable)
    requires st in states
    requires MapKeys(row) == FirstSymbols(ts, st.id)
    requires forall x :: MapGet(row, x) == LastTarget(ts, st.id, x)
    requires GotoSound(aug, ts, goto)
    ensures acts' == Fill(aug.productions, states, acts, ShiftAttempts(aug, ts, st, FirstSymbols(ts, st.id)))
    ensures GotoSound(aug, ts, goto')
    ensures forall s, x :: InGoto(goto', s, x) <==> InGoto(goto, s, x) || (s == st.id && GotoCell(aug, ts, s, x))
  {
    ghost var syms := FirstSymbols(ts, st.id);
    acts', goto' := acts, goto;
    for j := 0 to |row|
      invariant acts' == Fill(aug.productions, states, acts, ShiftAttempts(aug, ts, st, syms[..j]))
      invariant GotoSound(aug, ts, goto')
      invariant forall s, x :: InGoto(goto', s, x) <==> InGoto(goto, s, x) || (s == st.id && x in syms[..j] && GotoCell(aug, ts, s, x))
    {
      var symbol, toStateId := row[j].key, row[j].value;
      MapGetEntry(row, j);
      ghost var before, gBefore := acts', goto';
      acts', goto' := RowEntry(aug, states, ts, acts', goto', st, symbol, toStateId);
      ShiftAttemptsStep(aug, ts, st, syms, j);
      FillAppend(aug.productions, states, acts, ShiftAttempts(aug, ts, st, syms[..j]), ShiftAttempt(aug, ts, st, symbol));
      TakeOneMore(syms, j);
    }
    TakeAll(syms);
  }

  lemma ReduceAttemptsStep(id: nat, p: int, it: Item, targets: seq<Symbol>, j: nat)
    requires j < |targets|
    ensures ReduceAttempts(id, p, it, targets[..j + 1]) == ReduceAttempts(id, p, it, targets[..j]) + [Attempt(id, targets[j], Reduce(p), it)]
  {
    assert targets[..j + 1][..j] == targets[..j];
  }

  /** `reduceTargets.forEach(...)`. */
  method ReduceAll(prods: seq<Production>, states: seq<LR0State>, acts: Actions, id: nat, p: int, it: Item,
                   targets: seq<Symbol>) returns (acts': Actions)
    requires HasStateId(states, id)
    ensures acts' == Fill(prods, states, acts, ReduceAttempts(id, p, it, targets))
  {
    acts' := acts;
    for j := 0 to |targets|
      invariant acts' == Fill(prods, states, acts, ReduceAttempts(id, p, it, targets[..j]))
    {
      acts' := SetAction(prods, states, acts', id, targets[j], Reduce(p), it);
      ReduceAttemptsStep(id, p, it, targets, j);
      FillAppend(prods, states, acts, ReduceAttempts(id, p, it, targets[..j]), [Attempt(id, targets[j], Reduce(p), it)]);
    }
    TakeAll(targets);
  }

  lemma ItemAttemptsStep(aug: AugmentedGrammar, id: nat, items: seq<Item>, j: nat)
    requires j < |items|
    ensures ItemAttempts(aug, id, items[..j + 1]) == ItemAttempts(aug, id, items[..j]) + ItemAttempt(aug, id, items[j])
  {
    assert items[..j + 1][..j] == items[..j];
  }

  /** The reduce and accept part for one state: its items, in order. */
  method ProcessItems(aug: AugmentedGrammar, states: seq<LR0State>, acts: Actions, st: LR0State) returns (acts': Actions)
    requires st in states
    requires forall i :: 0 <= i < |st.items| ==> st.items[i].prodId < |aug.productions|
    ensures acts' == Fill(aug.productions, states, acts, ItemAttempts(aug, st.id, st.items))
  {
    acts' := acts;
    for i := 0 to |st.items|
      invariant acts' == Fill(aug.productions, states, acts, ItemAttempts(aug, st.id, st.items[..i]))
    {
      var item := st.items[i];
      var prod := aug.productions[item.prodId];
      if prod.left == aug.startPrime && item.dot == |prod.right| {
        acts' := SetAction(aug.productions, states, acts', st.id, "$", Accept, item);
      } else if item.dot == |prod.right| {
        var reduceTargets := aug.terminals + ["$"];
        acts' := ReduceAll(aug.productions, states, acts', st.id, prod.id, item, reduceTargets);
      }
      ItemAttemptsStep(aug, st.id, st.items, i);
      FillAppend(aug.productions, states, acts, ItemAttempts(aug, st.id, st.items[..i]), ItemAttempt(aug, st.id, item));
    }
    TakeAll(st.items);
  }

  lemma StateAttemptsStep(aug: AugmentedGrammar, ts: seq<LR0Transition>, states: seq<LR0State>, k: nat)
    requires k < |states|
    ensures StateAttempts(aug, ts, states[..k + 1]) ==
      StateAttempts(aug, ts, states[..k]) + ShiftAttempts(aug, ts, states[k], FirstSymbols(ts, states[k].id)) +
      ItemAttempts(aug, states[k].id, states[k].items)
  {
    assert states[..k + 1][..k] == states[..k];
  }

  lemma HasStateIdStep(states: seq<LR0State>, k: nat, s: nat)
    requires k < |states|
    ensures HasStateId(states[..k + 1], s) <==> HasStateId(states[..k], s) || states[k].id == s
  {
    if HasStateId(states[..k + 1], s) && states[k].id != s {
      var m :| 0 <= m < k + 1 && states[..k + 1][m].id == s;
      assert states[..k][m] == states[m];
    }
    if HasStateId(states[..k], s) {
      var m :| 0 <= m < k && states[..k][m].id == s;
      assert states[..k + 1][m] == states[m];
    }
    assert states[..k + 1][k] == states[k];
  }

  /** The inner loops of one state, with the invariant of the outer loop carried across them. */
  method ProcessState(aug: AugmentedGrammar, states: seq<LR0State>, ts: seq<LR0Transition>, lookup: map<nat, Row>,
                      acts: Actions, goto: GotoTable, k: nat) returns (acts': Actions, goto': GotoTable)
    requires k < |states|
    requires forall i :: 0 <= i < |states[k].items| ==> states[k].items[i].prodId < |aug.productions|
    requires forall s :: s in lookup <==> HasSource(ts, s)
    requires forall s :: s in lookup ==> MapKeys(lookup[s]) == FirstSymbols(ts, s)
    requires forall s, x :: s in lookup ==> MapGet(lookup[s], x) == LastTarget(ts, s, x)
    requires acts == Fill(aug.productions, states, Empty, StateAttempts(aug, ts, states[..k]))
    requires GotoSound(aug, ts, goto)
    requires forall s, x :: InGoto(goto, s, x) <==> HasStateId(states[..k], s) && GotoCell(aug, ts, s, x)
    ensures acts' == Fill(aug.productions, states, Empty, StateAttempts(aug, ts, states[..k + 1]))
    ensures GotoSound(aug, ts, goto')
    ensures forall s, x :: InGoto(goto', s, x) <==> HasStateId(states[..k + 1], s) && GotoCell(aug, ts, s, x)
  {
    var state := states[k];
    ghost var shifts := ShiftAttempts(aug, ts, state, FirstSymbols(ts, state.id));
    if state.id in lookup {
      acts', goto' := ProcessRow(aug, states, ts, acts, goto, state, lookup[state.id]);
    } else {
      NoSourceNoSymbols(ts, state.id);
      acts', goto' := acts, goto;
    }
    ghost var mid := acts';
    acts' := ProcessItems(aug, states, acts', state);
    StateAttemptsStep(aug, ts, states, k);
    FillAppend(aug.productions, states, Empty, StateAttempts(aug, ts, states[..k]), shifts);
    FillAppend(aug.productions, states, Empty, StateAttempts(aug, ts, states[..k]) + shifts, ItemAttempts(aug, state.id, state.items));
    forall s, x ensures InGoto(goto', s, x) <==> HasStateId(states[..k + 1], s) && GotoCell(aug, ts, s, x) {
      HasStateIdStep(states, k, s);
    }
  }

  /**
   * `buildLR0ParseTable(automaton)`. The action table and the conflicts are the replay of
   * every `setAction` call in order; the goto table has exactly the goto cells of listed
   * states, each holding the target of the last transition on it; `isLR0` says there are
   * no conflicts. Every item must name a production, as the lookups `productions[prodId]` assume.
   */
  method BuildLR0ParseTable(a: LR0Automaton) returns (table: LR0ParseTable)
    requires forall k, i :: 0 <= k < |a.states| && 0 <= i < |a.states[k].items| ==> a.states[k].items[i].prodId < |a.grammar.productions|
    ensures Actions(table.action, table.conflicts) == Fill(a.grammar.productions, a.states, Empty, StateAttempts(a.grammar, a.transitions, a.states))
    ensures table.isLR0 <==> table.conflicts == []
    ensures GotoSound(a.grammar, a.transitions, table.goto)
    ensures forall s, x :: InGoto(table.goto, s, x) <==> HasStateId(a.states, s) && GotoCell(a.grammar, a.transitions, s, x)
  {
    var aug, states, ts := a.grammar, a.states, a.transitions;
    var transitions := BuildTransitionLookup(ts);
    var acts := Empty;
    var goto: GotoTable := map[];
    for k := 0 to |states|
      invariant acts == Fill(aug.productions, states, Empty, StateAttempts(aug, ts, states[..k]))
      invariant GotoSound(aug, ts, goto)
      invariant forall s, x :: InGoto(goto, s, x) <==> HasStateId(states[..k], s) && GotoCell(aug, ts, s, x)
    {
      acts, goto := ProcessState(aug, states, ts, transitions, acts, goto, k);
    }
    TakeAll(states);
    table := LR0ParseTable(acts.action, goto, acts.conflicts, |acts.conflicts| == 0);
  }
}
