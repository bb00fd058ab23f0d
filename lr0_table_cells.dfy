/**
 * The parse-table values of src/core/lr0/tableTypes.ts and the `setAction` helper of
 * src/core/lr0/buildTable.ts, as a function on the action table and the conflict list.
 * A table is written by a sequence of attempts; `Fill` replays them in order.
 */
module TableCells {
  import opened Wrappers
  import opened Grammars
  import opened LR0Types
  import opened Items

  datatype ActionEntry = Shift(to: nat) | Reduce(prodId: int) | Accept

  datatype ConflictKind = ShiftReduce | ReduceReduce | Other

  /** A refused write: the cell kept `existing`; the `causedBy` texts are the last two fields. */
  datatype Conflict = Conflict(
    stateId: nat,
    symbol: Symbol,
    existing: ActionEntry,
    incoming: ActionEntry,
    kind: ConflictKind,
    existingItems: seq<string>,
    incomingItems: seq<string>)

  type ActionTable = map<nat, map<Symbol, ActionEntry>>

  type GotoTable = map<nat, map<Symbol, nat>>

  datatype LR0ParseTable = LR0ParseTable(action: ActionTable, goto: GotoTable, conflicts: seq<Conflict>, isLR0: bool)

  /** What `setAction` updates: the action table and the conflict list. */
  datatype Actions = Actions(action: ActionTable, conflicts: seq<Conflict>)

  /** One call `setAction(stateId, symbol, entry, item)`. */
  datatype Attempt = Attempt(stateId: nat, symbol: Symbol, entry: ActionEntry, item: Item)

  function Cell(action: ActionTable, s: nat, x: Symbol): Option<ActionEntry> {
    if s in action && x in action[s] then Some(action[s][x]) else None
  }

  /** The attempt writes the cell `(s, x)`. */
  predicate At(a: Attempt, s: nat, x: Symbol) {
    a.stateId == s && a.symbol == x
  }

  /** The kind rule of the canonical pipeline: shift against reduce, in either order, or else reduce/reduce. */
  function CoreKind(existing: ActionEntry, incoming: ActionEntry): (k: ConflictKind)
    ensures k != Other
    ensures k == ShiftReduce <==> (existing.Shift? && incoming.Reduce?) || (existing.Reduce? && incoming.Shift?)
  {
    if (existing.Shift? && incoming.Reduce?) || (existing.Reduce? && incoming.Shift?) then ShiftReduce else ReduceReduce
  }

  /** The item is one the provenance scan lists as a cause of entry e on x. */
  predicate Justifies(prods: seq<Production>, it: Item, e: ActionEntry, x: Symbol) {
    match e
    case Shift(_) => NextSymbol(prods, it) == Some(x)
    case Reduce(p) => it.prodId < |prods| && it.prodId == p && it.dot == |prods[it.prodId].right|
    case Accept => it.prodId == 0 && it.dot == 1
  }

  /** The items, in order, that could have caused entry e on x. */
  function Causes(prods: seq<Production>, items: seq<Item>, e: ActionEntry, x: Symbol): (r: seq<Item>)
    ensures forall it :: it in r <==> it in items && Justifies(prods, it, e, x)
  {
    if items == [] then []
    else
      var init, last := items[..|items| - 1], items[|items| - 1];
      assert items == init + [last];
      Causes(prods, init, e, x) + (if Justifies(prods, last, e, x) then [last] else [])
  }

  /** `itemToString` of every item. */
  function Render(prods: seq<Production>, items: seq<Item>): (r: seq<string>)
    ensures |r| == |items| && forall i :: 0 <= i < |items| ==> r[i] == ItemToString(prods, items[i])
  {
    if items == [] then [] else [ItemToString(prods, items[0])] + Render(prods, items[1..])
  }

  /** Rendering one more item appends its string. */
  lemma RenderAppend(prods: seq<Production>, items: seq<Item>, it: Item)
    ensures Render(prods, items + [it]) == Render(prods, items) + [ItemToString(prods, it)]
  {
    var a, b := Render(prods, items + [it]), Render(prods, items) + [ItemToString(prods, it)];
    forall i | 0 <= i < |a| ensures a[i] == b[i] {
      assert (items + [it])[i] == if i < |items| then items[i] else it;
    }
  }

  /** `states.find(s => s.id === id)`. */
  function FindState(states: seq<LR0State>, id: nat): (r: Option<LR0State>)
    ensures r.Some? ==> r.value in states && r.value.id == id
    ensures r.None? <==> forall k :: 0 <= k < |states| ==> states[k].id != id
  {
    if states == [] then None
    else if states[0].id == id then Some(states[0])
    else FindState(states[1..], id)
  }

  function StateItems(states: seq<LR0State>, id: nat): seq<Item> {
    var st := FindState(states, id);
    if st.Some? then st.value.items else []
  }

  /** The conflict `setAction` records when the cell holds `existing` and a different entry comes in. */
  function Clash(prods: seq<Production>, states: seq<LR0State>, a: Attempt, existing: ActionEntry): Conflict {
    Conflict(a.stateId, a.symbol, existing, a.entry, CoreKind(existing, a.entry),
             Render(prods, Causes(prods, StateItems(states, a.stateId), existing, a.symbol)),
             [ItemToString(prods, a.item)])
  }

  /**
   * `setAction`: a free cell takes the entry; an occupied cell keeps what it holds, and a
   * different entry is recorded as a conflict. The row of the state exists afterwards.
   */
  function Write(prods: seq<Production>, states: seq<LR0State>, acts: Actions, a: Attempt): (r: Actions)
    ensures forall s, x ::
      Cell(r.action, s, x) == if Cell(acts.action, s, x).None? && At(a, s, x) then Some(a.entry) else Cell(acts.action, s, x)
    ensures forall s :: s in r.action <==> s in acts.action || s == a.stateId
    ensures r.conflicts == acts.conflicts +
      (match Cell(acts.action, a.stateId, a.symbol)
       case Some(e) => if e == a.entry then [] else [Clash(prods, states, a, e)]
       case None => [])
  {
    var row := if a.stateId in acts.action then acts.action[a.stateId] else map[];
    if a.symbol in row then
      var e := row[a.symbol];
      if e == a.entry then acts
      else acts.(conflicts := acts.conflicts + [Clash(prods, states, a, e)])
    else acts.(action := acts.action[a.stateId := row[a.symbol := a.entry]])
  }

  /** The attempts replayed in order. */
  function Fill(prods: seq<Production>, states: seq<LR0State>, acts: Actions, atts: seq<Attempt>): Actions {
    if atts == [] then acts
    else Write(prods, states, Fill(prods, states, acts, atts[..|atts| - 1]), atts[|atts| - 1])
  }

  const Empty: Actions := Actions(map[], [])

  lemma {:induction false} FillAppend(prods: seq<Production>, states: seq<LR0State>, acts: Actions, xs: seq<Attempt>, ys: seq<Attempt>)
    ensures Fill(prods, states, acts, xs + ys) == Fill(prods, states, Fill(prods, states, acts, xs), ys)
    decreases |ys|
  {
    if ys == [] {
      assert xs + ys == xs;
    } else {
      var ys' := ys[..|ys| - 1];
      assert (xs + ys)[..|xs + ys| - 1] == xs + ys';
      assert (xs + ys)[|xs + ys| - 1] == ys[|ys| - 1];
      FillAppend(prods, states, acts, xs, ys');
    }
  }

  /** The entry of the first attempt on the cell `(s, x)`. */
  function FirstAt(atts: seq<Attempt>, s: nat, x: Symbol): Option<ActionEntry> {
    if atts == [] then None
    else
      var f := FirstAt(atts[..|atts| - 1], s, x);
      if f.Some? then f else if At(atts[|atts| - 1], s, x) then Some(atts[|atts| - 1].entry) else None
  }

  /** No attempt before index i writes the cell `(s, x)`. */
  predicate NoneBefore(atts: seq<Attempt>, i: nat, s: nat, x: Symbol) {
    forall j :: 0 <= j < i && j < |atts| ==> !At(atts[j], s, x)
  }

  /** `FirstAt` is the entry of the earliest attempt on the cell, and there is one exactly when some attempt writes it. */
  lemma {:induction false} FirstAtSpec(atts: seq<Attempt>, s: nat, x: Symbol)
    ensures FirstAt(atts, s, x).None? <==> forall i :: 0 <= i < |atts| ==> !At(atts[i], s, x)
    ensures FirstAt(atts, s, x).Some? ==>
      exists i :: 0 <= i < |atts| && At(atts[i], s, x) && atts[i].entry == FirstAt(atts, s, x).value && NoneBefore(atts, i, s, x)
  {
    if atts != [] {
      var init := atts[..|atts| - 1];
      FirstAtSpec(init, s, x);
      forall i | 0 <= i < |init| ensures init[i] == atts[i] {
      }
      if FirstAt(init, s, x).Some? {
        var i :| 0 <= i < |init| && At(init[i], s, x) && init[i].entry == FirstAt(init, s, x).value && NoneBefore(init, i, s, x);
        assert atts[i] == init[i];
      }
    }
  }

  /** First writer wins: replaying the attempts from an empty table leaves each cell with the first entry written there. */
  lemma {:induction false} FillFirst(prods: seq<Production>, states: seq<LR0State>, atts: seq<Attempt>, s: nat, x: Symbol)
    ensures Cell(Fill(prods, states, Empty, atts).action, s, x) == FirstAt(atts, s, x)
  {
    if atts != [] {
      FillFirst(prods, states, atts[..|atts| - 1], s, x);
    }
  }

  /** A cell once written never changes. */
  lemma {:induction false} FillKeepsCell(prods: seq<Production>, states: seq<LR0State>, acts: Actions, atts: seq<Attempt>, s: nat, x: Symbol)
    requires Cell(acts.action, s, x).Some?
    ensures Cell(Fill(prods, states, acts, atts).action, s, x) == Cell(acts.action, s, x)
  {
    if atts != [] {
      FillKeepsCell(prods, states, acts, atts[..|atts| - 1], s, x);
    }
  }

  /** Some attempt is on state s. */
  predicate OnState(atts: seq<Attempt>, s: nat) {
    exists i :: 0 <= i < |atts| && atts[i].stateId == s
  }

  /** The action table has a row for exactly the states some attempt names. */
  lemma {:induction false} FillRows(prods: seq<Production>, states: seq<LR0State>, atts: seq<Attempt>, s: nat)
    ensures s in Fill(prods, states, Empty, atts).action <==> OnState(atts, s)
  {
    if atts != [] {
      var init := atts[..|atts| - 1];
      FillRows(prods, states, init, s);
      forall i | 0 <= i < |init| ensures init[i] == atts[i] {
      }
      assert OnState(atts, s) ==> OnState(init, s) || atts[|atts| - 1].stateId == s;
    }
  }

  /** Every conflict names the entry its cell holds, an incoming entry different from it, and the kind of the pair. */
  predicate ConflictsMatch(acts: Actions) {
    forall i :: 0 <= i < |acts.conflicts| ==>
      && Cell(acts.action, acts.conflicts[i].stateId, acts.conflicts[i].symbol) == Some(acts.conflicts[i].existing)
      && acts.conflicts[i].existing != acts.conflicts[i].incoming
      && acts.conflicts[i].kind == CoreKind(acts.conflicts[i].existing, acts.conflicts[i].incoming)
  }

  lemma {:induction false} FillConflictsMatch(prods: seq<Production>, states: seq<LR0State>, acts: Actions, atts: seq<Attempt>)
    requires ConflictsMatch(acts)
    ensures ConflictsMatch(Fill(prods, states, acts, atts))
  {
    if atts != [] {
      var init := atts[..|atts| - 1];
      FillConflictsMatch(prods, states, acts, init);
      var f := Fill(prods, states, acts, init);
      var r := Write(prods, states, f, atts[|atts| - 1]);
      forall i | 0 <= i < |r.conflicts|
        ensures Cell(r.action, r.conflicts[i].stateId, r.conflicts[i].symbol) == Some(r.conflicts[i].existing)
      {
        if i < |f.conflicts| {
          assert r.conflicts[i] == f.conflicts[i];
        }
      }
    }
  }

  /** The conflict is about the attempt's cell and names its entry as incoming. */
  predicate Names(c: Conflict, a: Attempt) {
    c.stateId == a.stateId && c.symbol == a.symbol && c.incoming == a.entry
  }

  /** The attempt left its trace: the cell holds its entry, or a conflict names it. */
  predicate Recorded(acts: Actions, a: Attempt) {
    || Cell(acts.action, a.stateId, a.symbol) == Some(a.entry)
    || exists i :: 0 <= i < |acts.conflicts| && Names(acts.conflicts[i], a)
  }

  lemma WriteKeepsRecorded(prods: seq<Production>, states: seq<LR0State>, acts: Actions, a: Attempt, b: Attempt)
    requires Recorded(acts, b)
    ensures Recorded(Write(prods, states, acts, a), b)
  {
    var r := Write(prods, states, acts, a);
    if Cell(acts.action, b.stateId, b.symbol) != Some(b.entry) {
      var i :| 0 <= i < |acts.conflicts| && Names(acts.conflicts[i], b);
      assert r.conflicts[i] == acts.conflicts[i];
    }
  }

  lemma WriteRecords(prods: seq<Production>, states: seq<LR0State>, acts: Actions, a: Attempt)
    ensures Recorded(Write(prods, states, acts, a), a)
  {
    var r := Write(prods, states, acts, a);
    var c := Cell(acts.action, a.stateId, a.symbol);
    if c.Some? && c.value != a.entry {
      assert r.conflicts[|acts.conflicts|] == Clash(prods, states, a, c.value);
    }
  }

  /** No attempt is lost: each one is in its cell or in the conflict list. */
  lemma {:induction false} FillRecordsAll(prods: seq<Production>, states: seq<LR0State>, acts: Actions, atts: seq<Attempt>)
    ensures forall i :: 0 <= i < |atts| ==> Recorded(Fill(prods, states, acts, atts), atts[i])
  {
    if atts != [] {
      var init, last := atts[..|atts| - 1], atts[|atts| - 1];
      FillRecordsAll(prods, states, acts, init);
      var f := Fill(prods, states, acts, init);
      forall i | 0 <= i < |atts| ensures Recorded(Fill(prods, states, acts, atts), atts[i]) {
        if i < |init| {
          assert atts[i] == init[i];
          WriteKeepsRecorded(prods, states, f, last, atts[i]);
        } else {
          WriteRecords(prods, states, f, last);
        }
      }
    }
  }

  /** Every conflict names some attempt. */
  predicate ConflictsFrom(acts: Actions, atts: seq<Attempt>) {
    forall i :: 0 <= i < |acts.conflicts| ==> exists j :: 0 <= j < |atts| && Names(acts.conflicts[i], atts[j])
  }

  lemma {:induction false} ConflictsFromAttempts(prods: seq<Production>, states: seq<LR0State>, atts: seq<Attempt>)
    ensures ConflictsFrom(Fill(prods, states, Empty, atts), atts)
  {
    if atts != [] {
      var init, last := atts[..|atts| - 1], atts[|atts| - 1];
      ConflictsFromAttempts(prods, states, init);
      var f := Fill(prods, states, Empty, init);
      var r := Fill(prods, states, Empty, atts);
      forall i | 0 <= i < |r.conflicts| ensures exists j :: 0 <= j < |atts| && Names(r.conflicts[i], atts[j]) {
        if i < |f.conflicts| {
          assert r.conflicts[i] == f.conflicts[i];
          var j :| 0 <= j < |init| && Names(f.conflicts[i], init[j]);
          assert atts[j] == init[j];
        } else {
          assert Names(r.conflicts[i], atts[|atts| - 1]);
        }
      }
    }
  }

  /** No cell is attempted with two different entries. */
  predicate Consistent(atts: seq<Attempt>) {
    forall i, j :: 0 <= i < j < |atts| && At(atts[j], atts[i].stateId, atts[i].symbol) ==> atts[i].entry == atts[j].entry
  }

  lemma ConsistentPrefix(atts: seq<Attempt>)
    requires atts != [] && Consistent(atts)
    ensures Consistent(atts[..|atts| - 1])
  {
    var init := atts[..|atts| - 1];
    forall i, j | 0 <= i < j < |init| && At(init[j], init[i].stateId, init[i].symbol) ensures init[i].entry == init[j].entry {
      assert atts[i] == init[i] && atts[j] == init[j];
    }
  }

  /** Without disagreement, the first entry on a cell is that of every attempt on it. */
  lemma FirstOfConsistent(atts: seq<Attempt>, i: nat)
    requires Consistent(atts) && i < |atts|
    ensures FirstAt(atts, atts[i].stateId, atts[i].symbol) == Some(atts[i].entry)
  {
    var s, x := atts[i].stateId, atts[i].symbol;
    FirstAtSpec(atts, s, x);
    var i0 :| 0 <= i0 < |atts| && At(atts[i0], s, x) && atts[i0].entry == FirstAt(atts, s, x).value && NoneBefore(atts, i0, s, x);
    if i0 != i {
      assert i0 < i;
    }
  }

  lemma {:induction false} ConsistentNoConflicts(prods: seq<Production>, states: seq<LR0State>, atts: seq<Attempt>)
    requires Consistent(atts)
    ensures Fill(prods, states, Empty, atts).conflicts == []
  {
    if atts != [] {
      var init, last := atts[..|atts| - 1], atts[|atts| - 1];
      ConsistentPrefix(atts);
      ConsistentNoConflicts(prods, states, init);
      FillFirst(prods, states, init, last.stateId, last.symbol);
      FirstAtSpec(init, last.stateId, last.symbol);
      var first := FirstAt(init, last.stateId, last.symbol);
      if first.Some? {
        var i :| 0 <= i < |init| && At(init[i], last.stateId, last.symbol) && init[i].entry == first.value && NoneBefore(init, i, last.stateId, last.symbol);
        assert atts[i] == init[i];
        assert At(atts[|atts| - 1], atts[i].stateId, atts[i].symbol);
      }
    }
  }

  lemma {:induction false} NoConflictsConsistent(prods: seq<Production>, states: seq<LR0State>, atts: seq<Attempt>)
    requires Fill(prods, states, Empty, atts).conflicts == []
    ensures Consistent(atts)
  {
    if atts != [] {
      var init, last := atts[..|atts| - 1], atts[|atts| - 1];
      NoConflictsConsistent(prods, states, init);
      FillFirst(prods, states, init, last.stateId, last.symbol);
      var first := FirstAt(init, last.stateId, last.symbol);
      assert first.None? || first.value == last.entry;
      forall i, j | 0 <= i < j < |atts| && At(atts[j], atts[i].stateId, atts[i].symbol) ensures atts[i].entry == atts[j].entry {
        assert atts[i] == init[i];
        if j == |atts| - 1 {
          FirstOfConsistent(init, i);
        } else {
          assert atts[j] == init[j];
        }
      }
    }
  }

  /** The conflict list stays empty exactly when no cell is attempted with two different entries. */
  lemma NoConflictsIffConsistent(prods: seq<Production>, states: seq<LR0State>, atts: seq<Attempt>)
    ensures Fill(prods, states, Empty, atts).conflicts == [] <==> Consistent(atts)
  {
    if Consistent(atts) {
      ConsistentNoConflicts(prods, states, atts);
    }
    if Fill(prods, states, Empty, atts).conflicts == [] {
      NoConflictsConsistent(prods, states, atts);
    }
  }
}
