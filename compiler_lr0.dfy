/**
 * `buildAutomaton` and `buildTable` of src/lib/compiler/lr0.ts. The automaton is the shared
 * breadth-first construction over the compiler's augmentation; the table is filled by
 * `addAction` calls, shifts from the transition list first, then accepts and reduces from
 * the states. Its action table is the one the canonical `setAction` would build from the same
 * calls; only the conflict records differ (a message, and a different kind rule).
 */
module CompilerLR0 {
  import opened Wrappers
  import opened Grammars
  import opened LR0Types
  import opened Items
  import opened TransitionIndex
  import opened TableCells
  import opened BuildTable
  import opened Canonical
  import opened CompilerItems

  /** `buildAutomaton(rawGrammar)`: no validation; augment with `start + "'"`, then the breadth-first loop. */
  method CompilerBuildAutomaton(g: Grammar) returns (a: LR0Automaton)
    ensures a.grammar == CompilerAugment(g)
    ensures IsCanonicalCollection(CompilerPipeline, a.grammar.productions, a.grammar.nonTerminals, a.states, a.transitions)
  {
    var grammar := CompilerAugment(g);
    CompilerAugmentWellIndexed(g);
    var states, transitions := BuildCollection(CompilerPipeline, grammar);
    a := LR0Automaton(grammar, states, transitions);
  }

  datatype CompilerConflict = CompilerConflict(stateId: nat, symbol: Symbol, kind: ConflictKind, msg: string)

  datatype ParseTable = ParseTable(actions: ActionTable, goto: GotoTable, conflicts: seq<CompilerConflict>)

  datatype CompilerActions = CompilerActions(action: ActionTable, conflicts: seq<CompilerConflict>)

  /** One call `addAction(state, sym, act)`. */
  datatype Call = Call(stateId: nat, symbol: Symbol, entry: ActionEntry)

  function TypeName(e: ActionEntry): string {
    match e
    case Shift(_) => "shift"
    case Reduce(_) => "reduce"
    case Accept => "accept"
  }

  /** The compiler's kind rule: shift/reduce whenever either side is a shift. */
  function CompilerKind(existing: ActionEntry, incoming: ActionEntry): (k: ConflictKind)
    ensures k != Other
    ensures k == ShiftReduce <==> existing.Shift? || incoming.Shift?
  {
    if existing.Shift? || incoming.Shift? then ShiftReduce else ReduceReduce
  }

  /** The record of a refused call. */
  function Refusal(s: nat, x: Symbol, existing: ActionEntry, incoming: ActionEntry): CompilerConflict {
    CompilerConflict(s, x, CompilerKind(existing, incoming), "Conflict between " + TypeName(existing) + " and " + TypeName(incoming))
  }

  /** `addAction`: a free cell takes the entry; an occupied one keeps it and a different entry is recorded. */
  function AddAction(acts: CompilerActions, c: Call): (r: CompilerActions)
    ensures forall s, x ::
      Cell(r.action, s, x) == if Cell(acts.action, s, x).None? && c.stateId == s && c.symbol == x then Some(c.entry) else Cell(acts.action, s, x)
    ensures r.conflicts == acts.conflicts +
      (match Cell(acts.action, c.stateId, c.symbol)
       case Some(e) => if e == c.entry then [] else [Refusal(c.stateId, c.symbol, e, c.entry)]
       case None => [])
  {
    var row := if c.stateId in acts.action then acts.action[c.stateId] else map[];
    if c.symbol in row then
      var e := row[c.symbol];
      if e == c.entry then acts else acts.(conflicts := acts.conflicts + [Refusal(c.stateId, c.symbol, e, c.entry)])
    else acts.(action := acts.action[c.stateId := row[c.symbol := c.entry]])
  }

  function Replay(acts: CompilerActions, calls: seq<Call>): CompilerActions {
    if calls == [] then acts else AddAction(Replay(acts, calls[..|calls| - 1]), calls[|calls| - 1])
  }

  const NoActions: CompilerActions := CompilerActions(map[], [])

  lemma {:induction false} ReplayAppend(acts: CompilerActions, xs: seq<Call>, ys: seq<Call>)
    ensures Replay(acts, xs + ys) == Replay(Replay(acts, xs), ys)
    decreases |ys|
  {
    if ys == [] {
      assert xs + ys == xs;
    } else {
      var ys' := ys[..|ys| - 1];
      assert (xs + ys)[..|xs + ys| - 1] == xs + ys';
      assert (xs + ys)[|xs + ys| - 1] == ys[|ys| - 1];
      ReplayAppend(acts, xs, ys');
    }
  }

  /** The calls as canonical attempts; the item only feeds the canonical `causedBy` texts, which the compiler has none of. */
  function AsAttempts(calls: seq<Call>): (r: seq<Attempt>)
    ensures |r| == |calls| && forall i :: 0 <= i < |calls| ==> r[i] == Attempt(calls[i].stateId, calls[i].symbol, calls[i].entry, Item(0, 0))
  {
    if calls == [] then []
    else
      var c := calls[|calls| - 1];
      AsAttempts(calls[..|calls| - 1]) + [Attempt(c.stateId, c.symbol, c.entry, Item(0, 0))]
  }

  function Relabel(c: Conflict): CompilerConflict {
    Refusal(c.stateId, c.symbol, c.existing, c.incoming)
  }

  function RelabelAll(cs: seq<Conflict>): (r: seq<CompilerConflict>)
    ensures |r| == |cs| && forall i :: 0 <= i < |cs| ==> r[i] == Relabel(cs[i])
  {
    if cs == [] then [] else RelabelAll(cs[..|cs| - 1]) + [Relabel(cs[|cs| - 1])]
  }

  lemma RelabelAllAppend(cs: seq<Conflict>, c: Conflict)
    ensures RelabelAll(cs + [c]) == RelabelAll(cs) + [Relabel(c)]
  {
    assert (cs + [c])[..|cs|] == cs;
  }

  /** One `addAction` call makes the move `setAction` makes on the same cell. */
  lemma AddActionIsWrite(prods: seq<Production>, states: seq<LR0State>, r: CompilerActions, f: Actions, c: Call)
    requires r.action == f.action && r.conflicts == RelabelAll(f.conflicts)
    ensures AddAction(r, c).action == Write(prods, states, f, Attempt(c.stateId, c.symbol, c.entry, Item(0, 0))).action
    ensures AddAction(r, c).conflicts == RelabelAll(Write(prods, states, f, Attempt(c.stateId, c.symbol, c.entry, Item(0, 0))).conflicts)
  {
    var a := Attempt(c.stateId, c.symbol, c.entry, Item(0, 0));
    var row := if c.stateId in f.action then f.action[c.stateId] else map[];
    if c.symbol in row && row[c.symbol] != c.entry {
      RelabelAllAppend(f.conflicts, Clash(prods, states, a, row[c.symbol]));
    }
  }

  /**
   * `addAction` and the canonical `setAction` fill the same cells from the same calls; each
   * compiler conflict is the canonical one at the same position, relabelled.
   */
  lemma {:induction false} ReplayIsRelabelledFill(prods: seq<Production>, states: seq<LR0State>, calls: seq<Call>)
    ensures Replay(NoActions, calls).action == Fill(prods, states, Empty, AsAttempts(calls)).action
    ensures Replay(NoActions, calls).conflicts == RelabelAll(Fill(prods, states, Empty, AsAttempts(calls)).conflicts)
  {
    if calls != [] {
      var init := calls[..|calls| - 1];
      ReplayIsRelabelledFill(prods, states, init);
      var atts := AsAttempts(calls);
      assert atts[..|atts| - 1] == AsAttempts(init);
      AddActionIsWrite(prods, states, Replay(NoActions, init), Fill(prods, states, Empty, AsAttempts(init)), calls[|calls| - 1]);
    }
  }

  /** The calls for one item: accept at `"$"` for a completed start item, reduce on every terminal and `"$"` otherwise. */
  function ItemCall(aug: AugmentedGrammar, id: nat, it: Item): seq<Call> {
    if it.prodId >= |aug.productions| then []
    else
      var prod := aug.productions[it.prodId];
      if it.dot != |prod.right| then []
      else if prod.left == aug.startPrime then [Call(id, "$", Accept)]
      else ReduceCalls(id, prod.id, aug.terminals + ["$"])
  }

  function ReduceCalls(id: nat, p: int, targets: seq<Symbol>): seq<Call> {
    if targets == [] then [] else ReduceCalls(id, p, targets[..|targets| - 1]) + [Call(id, targets[|targets| - 1], Reduce(p))]
  }

  function ItemCalls(aug: AugmentedGrammar, id: nat, items: seq<Item>): seq<Call> {
    if items == [] then [] else ItemCalls(aug, id, items[..|items| - 1]) + ItemCall(aug, id, items[|items| - 1])
  }

  function StatesCalls(aug: AugmentedGrammar, states: seq<LR0State>): seq<Call> {
    if states == [] then []
    else
      var st := states[|states| - 1];
      StatesCalls(aug, states[..|states| - 1]) + ItemCalls(aug, st.id, st.items)
  }

  /** A shift for every transition on a terminal, in list order. */
  function TransitionCalls(aug: AugmentedGrammar, ts: seq<LR0Transition>): seq<Call> {
    if ts == [] then []
    else
      var t := ts[|ts| - 1];
      TransitionCalls(aug, ts[..|ts| - 1]) + (if t.symbol in aug.terminals then [Call(t.fromId, t.symbol, Shift(t.toId))] else [])
  }

  /** One shift call per transition on a terminal, to that transition's target. */
  lemma {:induction false} TransitionCallsIn(aug: AugmentedGrammar, ts: seq<LR0Transition>, c: Call)
    ensures c in TransitionCalls(aug, ts) <==>
      exists i :: 0 <= i < |ts| && ts[i].symbol in aug.terminals && c == Call(ts[i].fromId, ts[i].symbol, Shift(ts[i].toId))
  {
    if ts != [] {
      var init := ts[..|ts| - 1];
      TransitionCallsIn(aug, init, c);
      if exists i :: 0 <= i < |init| && init[i].symbol in aug.terminals && c == Call(init[i].fromId, init[i].symbol, Shift(init[i].toId)) {
        var i :| 0 <= i < |init| && init[i].symbol in aug.terminals && c == Call(init[i].fromId, init[i].symbol, Shift(init[i].toId));
        assert ts[i] == init[i];
      }
      if exists i :: 0 <= i < |ts| && ts[i].symbol in aug.terminals && c == Call(ts[i].fromId, ts[i].symbol, Shift(ts[i].toId)) {
        var i :| 0 <= i < |ts| && ts[i].symbol in aug.terminals && c == Call(ts[i].fromId, ts[i].symbol, Shift(ts[i].toId));
        if i < |init| {
          assert init[i] == ts[i];
        }
      }
    }
  }

  /** Every `addAction` call of `buildTable`, in order. */
  function AllCalls(aug: AugmentedGrammar, states: seq<LR0State>, ts: seq<LR0Transition>): seq<Call> {
    TransitionCalls(aug, ts) + StatesCalls(aug, states)
  }

  /** Every goto row is non-empty, and every entry is on a non-terminal and holds the target of the last transition on it. */
  predicate CompilerGotoSound(aug: AugmentedGrammar, ts: seq<LR0Transition>, goto: GotoTable) {
    forall s :: s in goto ==>
      goto[s] != map[] && forall x :: x in goto[s] ==> x !in aug.terminals && LastTarget(ts, s, x) == Some(goto[s][x])
  }

  /** Appending one transition: its pair joins the symbols of its source and becomes the last target there. */
  lemma PrefixStep(ts: seq<LR0Transition>, i: nat, s: nat, x: Symbol)
    requires i < |ts|
    ensures x in FirstSymbols(ts[..i + 1], s) <==> x in FirstSymbols(ts[..i], s) || (ts[i].fromId == s && ts[i].symbol == x)
    ensures LastTarget(ts[..i + 1], s, x) == if ts[i].fromId == s && ts[i].symbol == x then Some(ts[i].toId) else LastTarget(ts[..i], s, x)
  {
    assert ts[..i + 1][..i] == ts[..i];
  }

  /** The goto half of the transition loop after `ts[i]`: an entry for anything but a terminal. */
  lemma TransitionStep(aug: AugmentedGrammar, ts: seq<LR0Transition>, i: nat, goto: GotoTable, goto': GotoTable)
    requires i < |ts|
    requires CompilerGotoSound(aug, ts[..i], goto)
    requires forall s, x :: InGoto(goto, s, x) <==> x in FirstSymbols(ts[..i], s) && x !in aug.terminals
    requires goto' == if ts[i].symbol in aug.terminals then goto
                      else goto[ts[i].fromId := (if ts[i].fromId in goto then goto[ts[i].fromId] else map[])[ts[i].symbol := ts[i].toId]]
    ensures CompilerGotoSound(aug, ts[..i + 1], goto')
    ensures forall s, x :: InGoto(goto', s, x) <==> x in FirstSymbols(ts[..i + 1], s) && x !in aug.terminals
  {
    var t := ts[i];
    forall s, x ensures InGoto(goto', s, x) <==> x in FirstSymbols(ts[..i + 1], s) && x !in aug.terminals {
      PrefixStep(ts, i, s, x);
    }
    forall s | s in goto'
      ensures goto'[s] != map[] && forall x :: x in goto'[s] ==> x !in aug.terminals && LastTarget(ts[..i + 1], s, x) == Some(goto'[s][x])
    {
      if t.symbol !in aug.terminals && s == t.fromId {
        assert t.symbol in goto'[s];
      }
      forall x | x in goto'[s] ensures x !in aug.terminals && LastTarget(ts[..i + 1], s, x) == Some(goto'[s][x]) {
        PrefixStep(ts, i, s, x);
      }
    }
  }

  /** `transitions.forEach(...)`. */
  method TransitionsPass(aug: AugmentedGrammar, ts: seq<LR0Transition>) returns (acts: CompilerActions, goto: GotoTable)
    ensures acts == Replay(NoActions, TransitionCalls(aug, ts))
    ensures CompilerGotoSound(aug, ts, goto)
    ensures forall s, x :: InGoto(goto, s, x) <==> x in FirstSymbols(ts, s) && x !in aug.terminals
  {
    acts, goto := NoActions, map[];
    for i := 0 to |ts|
      invariant acts == Replay(NoActions, TransitionCalls(aug, ts[..i]))
      invariant CompilerGotoSound(aug, ts[..i], goto)
      invariant forall s, x :: InGoto(goto, s, x) <==> x in FirstSymbols(ts[..i], s) && x !in aug.terminals
    {
      var t := ts[i];
      ghost var before := goto;
      if t.symbol in aug.terminals {
        acts := AddAction(acts, Call(t.fromId, t.symbol, Shift(t.toId)));
      } else {
        var row := if t.fromId in goto then goto[t.fromId] else map[];
        goto := goto[t.fromId := row[t.symbol := t.toId]];
      }
      TransitionStep(aug, ts, i, before, goto);
      assert ts[..i + 1][..i] == ts[..i];
      ReplayAppend(NoActions, TransitionCalls(aug, ts[..i]), if t.symbol in aug.terminals then [Call(t.fromId, t.symbol, Shift(t.toId))] else []);
    }
    TakeAll(ts);
  }

  /** `targets.forEach(...)`. */
  method ReduceEach(acts: CompilerActions, id: nat, p: int, targets: seq<Symbol>) returns (acts': CompilerActions)
    ensures acts' == Replay(acts, ReduceCalls(id, p, targets))
  {
    acts' := acts;
    for j := 0 to |targets|
      invariant acts' == Replay(acts, ReduceCalls(id, p, targets[..j]))
    {
      acts' := AddAction(acts', Call(id, targets[j], Reduce(p)));
      assert targets[..j + 1][..j] == targets[..j];
      ReplayAppend(acts, ReduceCalls(id, p, targets[..j]), [Call(id, targets[j], Reduce(p))]);
    }
    TakeAll(targets);
  }

  /** `state.items.forEach(...)`. */
  method ItemsPass(aug: AugmentedGrammar, acts: CompilerActions, st: LR0State) returns (acts': CompilerActions)
    requires forall i :: 0 <= i < |st.items| ==> st.items[i].prodId < |aug.productions|
    ensures acts' == Replay(acts, ItemCalls(aug, st.id, st.items))
  {
    acts' := acts;
    for i := 0 to |st.items|
      invariant acts' == Replay(acts, ItemCalls(aug, st.id, st.items[..i]))
    {
      var item := st.items[i];
      var prod := aug.productions[item.prodId];
      if item.dot == |prod.right| {
        if prod.left == aug.startPrime {
          acts' := AddAction(acts', Call(st.id, "$", Accept));
          assert [Call(st.id, "$", Accept)][..0] == [];
        } else {
          var targets := aug.terminals + ["$"];
          acts' := ReduceEach(acts', st.id, prod.id, targets);
        }
      }
      assert st.items[..i + 1][..i] == st.items[..i];
      ReplayAppend(acts, ItemCalls(aug, st.id, st.items[..i]), ItemCall(aug, st.id, item));
    }
    TakeAll(st.items);
  }

  /**
   * `buildTable(grammar, states, transitions)`: the action table and conflicts are the replay
   * of every `addAction` call; the goto table holds, for every transition on a symbol that is
   * no terminal, the target of the last such transition. Every item must name a production.
   */
  method CompilerBuildTable(aug: AugmentedGrammar, states: seq<LR0State>, ts: seq<LR0Transition>) returns (table: ParseTable)
    requires forall k, i :: 0 <= k < |states| && 0 <= i < |states[k].items| ==> states[k].items[i].prodId < |aug.productions|
    ensures CompilerActions(table.actions, table.conflicts) == Replay(NoActions, AllCalls(aug, states, ts))
    ensures CompilerGotoSound(aug, ts, table.goto)
    ensures forall s, x :: InGoto(table.goto, s, x) <==> x in FirstSymbols(ts, s) && x !in aug.terminals
  {
    var acts, gotoTable := TransitionsPass(aug, ts);
    ghost var shifted := acts;
    for k := 0 to |states|
      invariant acts == Replay(shifted, StatesCalls(aug, states[..k]))
    {
      acts := ItemsPass(aug, acts, states[k]);
      assert states[..k + 1][..k] == states[..k];
      ReplayAppend(shifted, StatesCalls(aug, states[..k]), ItemCalls(aug, states[k].id, states[k].items));
    }
    TakeAll(states);
    ReplayAppend(NoActions, TransitionCalls(aug, ts), StatesCalls(aug, states));
    table := ParseTable(acts.action, gotoTable, acts.conflicts);
  }

  /** The two kind rules disagree exactly on shift against shift, and on shift against accept in either order. */
  lemma KindRulesDiffer(existing: ActionEntry, incoming: ActionEntry)
    ensures CompilerKind(existing, incoming) != CoreKind(existing, incoming) <==>
      (existing.Shift? && (incoming.Shift? || incoming.Accept?)) || (existing.Accept? && incoming.Shift?)
  {
  }

  /** First writer wins in the compiler table too, and it has no conflicts exactly when no cell gets two different entries. */
  lemma CompilerTableCells(prods: seq<Production>, states: seq<LR0State>, calls: seq<Call>, s: nat, x: Symbol)
    ensures Cell(Replay(NoActions, calls).action, s, x) == FirstAt(AsAttempts(calls), s, x)
    ensures Replay(NoActions, calls).conflicts == [] <==> Consistent(AsAttempts(calls))
  {
    ReplayIsRelabelledFill(prods, states, calls);
    FillFirst(prods, states, AsAttempts(calls), s, x);
    NoConflictsIffConsistent(prods, states, AsAttempts(calls));
  }
}
