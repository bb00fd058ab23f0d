/**
 * What `buildGrammarFromRows` (src/lib/grammar-utils.ts) promises about its result: which rows
 * are flagged and with what, the non-terminals, the numbering and order of the productions,
 * the inferred terminals, and that any error leaves the grammar undefined.
 */
module GrammarUtilsProps {
  import opened Wrappers
  import opened Strings
  import opened Grammars
  import opened GrammarRows
  import opened GrammarUtils
  import UtilsParse

  function LhsOf(row: GrammarRow): string {
    Trim(row.left)
  }

  /** Row k is the first with trimmed left side x. */
  predicate FirstWith(rows: seq<GrammarRow>, k: nat, x: string) {
    k < |rows| && LhsOf(rows[k]) == x && forall j :: 0 <= j < k ==> LhsOf(rows[j]) != x
  }

  /** Some row has trimmed left side x. */
  predicate SomeLhs(rows: seq<GrammarRow>, x: string) {
    exists k :: 0 <= k < |rows| && LhsOf(rows[k]) == x
  }

  /** `nonTerminals` after the first pass: the distinct non-empty left sides, also the keys of `lhsMap`. */
  ghost predicate ListOk(rows: seq<GrammarRow>, c: Checked) {
    && Distinct(c.nonTerminals)
    && (forall x :: x in c.lhsMap <==> x in c.nonTerminals)
    && (forall x :: x in c.nonTerminals <==> x != [] && SomeLhs(rows, x))
  }

  /** `lhsMap` sends each left side to the id of the first row that has it. */
  ghost predicate IdsOk(rows: seq<GrammarRow>, c: Checked) {
    forall x :: x in c.lhsMap ==> exists k :: 0 <= k < |rows| && FirstWith(rows, k, x) && rows[k].id == c.lhsMap[x]
  }

  /** `lhsMap` and `nonTerminals` after the first pass. */
  ghost predicate MapOk(rows: seq<GrammarRow>, c: Checked) {
    ListOk(rows, c) && IdsOk(rows, c)
  }

  lemma SomeLhsLast(rows: seq<GrammarRow>, x: string)
    requires rows != []
    ensures SomeLhs(rows, x) <==> SomeLhs(rows[..|rows| - 1], x) || LhsOf(rows[|rows| - 1]) == x
  {
    var init := rows[..|rows| - 1];
    if SomeLhs(rows, x) && LhsOf(rows[|rows| - 1]) != x {
      var k :| 0 <= k < |rows| && LhsOf(rows[k]) == x;
      assert init[k] == rows[k];
    }
    if SomeLhs(init, x) {
      var k :| 0 <= k < |init| && LhsOf(init[k]) == x;
      assert rows[k] == init[k];
    }
  }

  lemma FirstWithLast(rows: seq<GrammarRow>, k: nat, x: string)
    requires rows != [] && k < |rows| - 1
    ensures FirstWith(rows, k, x) <==> FirstWith(rows[..|rows| - 1], k, x)
  {
    var init := rows[..|rows| - 1];
    assert forall j :: 0 <= j <= k ==> init[j] == rows[j];
  }

  /** What one row does to `lhsMap` and `nonTerminals`: a new non-empty left side is added, anything else leaves them alone. */
  lemma CheckRowTables(c: Checked, row: GrammarRow, first: bool)
    ensures var r := CheckRow(c, row, first); var lhs := Trim(row.left);
      if lhs != [] && lhs !in c.lhsMap then r.lhsMap == c.lhsMap[lhs := row.id] && r.nonTerminals == c.nonTerminals + [lhs]
      else r.lhsMap == c.lhsMap && r.nonTerminals == c.nonTerminals
  {
  }

  /** What one row does to the tables, as `CheckRowTables` states it. */
  predicate TablesStep(rows: seq<GrammarRow>, c0: Checked, c: Checked)
    requires rows != []
  {
    var lhs := LhsOf(rows[|rows| - 1]);
    if lhs != [] && lhs !in c0.lhsMap then c.lhsMap == c0.lhsMap[lhs := rows[|rows| - 1].id] && c.nonTerminals == c0.nonTerminals + [lhs]
    else c.lhsMap == c0.lhsMap && c.nonTerminals == c0.nonTerminals
  }

  lemma ListStep(rows: seq<GrammarRow>, c0: Checked, c: Checked)
    requires rows != [] && ListOk(rows[..|rows| - 1], c0) && TablesStep(rows, c0, c)
    ensures ListOk(rows, c)
  {
    var init, lhs := rows[..|rows| - 1], LhsOf(rows[|rows| - 1]);
    forall x ensures SomeLhs(rows, x) <==> SomeLhs(init, x) || lhs == x {
      SomeLhsLast(rows, x);
    }
  }

  lemma IdsStep(rows: seq<GrammarRow>, c0: Checked, c: Checked)
    requires rows != [] && MapOk(rows[..|rows| - 1], c0) && TablesStep(rows, c0, c)
    ensures IdsOk(rows, c)
  {
    var init, row := rows[..|rows| - 1], rows[|rows| - 1];
    var lhs := LhsOf(row);
    forall x | x in c.lhsMap ensures exists k :: 0 <= k < |rows| && FirstWith(rows, k, x) && rows[k].id == c.lhsMap[x] {
      if x in c0.lhsMap {
        var k :| 0 <= k < |init| && FirstWith(init, k, x) && init[k].id == c0.lhsMap[x];
        FirstWithLast(rows, k, x);
      } else {
        assert x == lhs && c.lhsMap[x] == row.id;
        forall j | 0 <= j < |rows| - 1 ensures LhsOf(rows[j]) != x {
          assert rows[j] == init[j];
          assert !SomeLhs(init, x);
        }
        assert FirstWith(rows, |rows| - 1, x);
      }
    }
  }

  /** The non-terminals are the distinct non-empty trimmed left sides, and `lhsMap` sends each to its first row's id. */
  lemma {:induction false} ValidateMap(rows: seq<GrammarRow>)
    ensures MapOk(rows, Validate(rows))
  {
    if rows != [] {
      var init := rows[..|rows| - 1];
      ValidateMap(init);
      CheckRowTables(Validate(init), rows[|rows| - 1], |rows| == 1);
      ListStep(rows, Validate(init), Validate(rows));
      IdsStep(rows, Validate(init), Validate(rows));
    }
  }

  /** Every alternative rule is pushed with the next id: the productions are the rules numbered from `first`. */
  lemma {:induction false} AltsNumbered(b: Built, lhs: Symbol, rowId: string, alts: seq<string>, nts: seq<Symbol>, pre: seq<Rule>, first: int)
    requires Numbered(b.productions, pre, first) && b.prodId == first + |b.productions|
    ensures var r := AltsStep(b, lhs, rowId, alts, nts);
      Numbered(r.productions, pre + AltRules(UtilsParse.Tokens, lhs, alts), first) && r.prodId == first + |r.productions|
  {
    if alts != [] {
      var init := alts[..|alts| - 1];
      AltsNumbered(b, lhs, rowId, init, nts, pre, first);
      var m := AltsStep(b, lhs, rowId, init, nts);
      var alt := Trim(alts[|alts| - 1]);
      if alt != [] {
        NumberedAppend(m.productions, pre + AltRules(UtilsParse.Tokens, lhs, init), first, Rule(lhs, UtilsParse.Tokens(alt), lhs + " -> " + alt));
      }
      assert pre + AltRules(UtilsParse.Tokens, lhs, alts) ==
        pre + AltRules(UtilsParse.Tokens, lhs, init) + (if alt == [] then [] else [Rule(lhs, UtilsParse.Tokens(alt), lhs + " -> " + alt)]);
    }
  }

  lemma EpsNumbered(b: Built, lhs: Symbol, hasEpsilon: bool, pre: seq<Rule>, first: int)
    requires Numbered(b.productions, pre, first) && b.prodId == first + |b.productions|
    ensures var r := EpsilonStep(b, lhs, hasEpsilon);
      Numbered(r.productions, pre + (if hasEpsilon then [Rule(lhs, [], lhs + " -> ε")] else []), first) && r.prodId == first + |r.productions|
  {
    if hasEpsilon {
      NumberedAppend(b.productions, pre, first, Rule(lhs, [], lhs + " -> ε"));
    } else {
      assert pre + [] == pre;
    }
  }

  lemma RowNumbered(b: Built, row: GrammarRow, nts: seq<Symbol>, pre: seq<Rule>, first: int)
    requires Numbered(b.productions, pre, first) && b.prodId == first + |b.productions|
    ensures var r := RowStep(b, row, nts);
      Numbered(r.productions, pre + RowRules(UtilsParse.Tokens, row), first) && r.prodId == first + |r.productions|
  {
    var lhs := Trim(row.left);
    if lhs != [] {
      var eps := if row.hasEpsilon then [Rule(lhs, [], lhs + " -> ε")] else [];
      EpsNumbered(b, lhs, row.hasEpsilon, pre, first);
      AltsNumbered(EpsilonStep(b, lhs, row.hasEpsilon), lhs, row.id, row.right, nts, pre + eps, first);
      assert RowRules(UtilsParse.Tokens, row) == eps + AltRules(UtilsParse.Tokens, lhs, row.right);
      ConcatAssoc(pre, eps, AltRules(UtilsParse.Tokens, lhs, row.right));
    } else {
      assert pre + RowRules(UtilsParse.Tokens, row) == pre;
    }
  }

  lemma {:induction false} RowsNumbered(b: Built, rows: seq<GrammarRow>, nts: seq<Symbol>)
    requires b.productions == [] && b.prodId == 0
    ensures var r := BuildRows(b, rows, nts);
      Numbered(r.productions, Rules(UtilsParse.Tokens, rows), 0) && r.prodId == |r.productions|
  {
    if rows != [] {
      var init := rows[..|rows| - 1];
      RowsNumbered(b, init, nts);
      RowNumbered(BuildRows(b, init, nts), rows[|rows| - 1], nts, Rules(UtilsParse.Tokens, init), 0);
    }
  }

  /**
   * Production k is rule k of the rows, with id k: ids run 0, 1, 2, … in row order, a row's
   * epsilon production comes before its alternatives, and blank alternatives and rows with an
   * empty left side give none.
   */
  lemma ProductionsNumbered(rows: seq<GrammarRow>)
    ensures Numbered(Passes(rows).productions, Rules(UtilsParse.Tokens, rows), 0)
  {
    RowsNumbered(Built(Validate(rows).errors, [], [], 0), rows, Validate(rows).nonTerminals);
  }

  /** The terminals so far: distinct, and exactly the right-side symbols of the productions so far that are not non-terminals. */
  ghost predicate TerminalsOk(b: Built, nts: seq<Symbol>) {
    InferredTerminals(b.terminals, b.productions, nts)
  }

  lemma {:induction false} AltsTerminals(b: Built, lhs: Symbol, rowId: string, alts: seq<string>, nts: seq<Symbol>)
    requires TerminalsOk(b, nts)
    ensures TerminalsOk(AltsStep(b, lhs, rowId, alts, nts), nts)
  {
    if alts != [] {
      var init := alts[..|alts| - 1];
      AltsTerminals(b, lhs, rowId, init, nts);
      var m := AltsStep(b, lhs, rowId, init, nts);
      var alt := Trim(alts[|alts| - 1]);
      if alt != [] {
        PushTerminals(m.terminals, m.productions, Production(m.prodId, lhs, UtilsParse.Tokens(alt), lhs + " -> " + alt), nts);
      }
    }
  }

  lemma {:induction false} RowsTerminals(b: Built, rows: seq<GrammarRow>, nts: seq<Symbol>)
    requires TerminalsOk(b, nts)
    ensures TerminalsOk(BuildRows(b, rows, nts), nts)
  {
    if rows != [] {
      var init, row := rows[..|rows| - 1], rows[|rows| - 1];
      RowsTerminals(b, init, nts);
      var m := BuildRows(b, init, nts);
      var lhs := Trim(row.left);
      if lhs != [] {
        if row.hasEpsilon {
          PushEpsilon(m.terminals, m.productions, Production(m.prodId, lhs, [], lhs + " -> ε"), nts);
        }
        AltsTerminals(EpsilonStep(m, lhs, row.hasEpsilon), lhs, row.id, row.right, nts);
      }
    }
  }

  /** The terminals are distinct and are exactly the right-side tokens that are not left sides. */
  lemma TerminalsInferred(rows: seq<GrammarRow>)
    ensures TerminalsOk(Passes(rows), Validate(rows).nonTerminals)
  {
    RowsTerminals(Built(Validate(rows).errors, [], [], 0), rows, Validate(rows).nonTerminals);
  }

  /** The second pass only appends errors. */
  lemma {:induction false} RowsKeepErrors(b: Built, rows: seq<GrammarRow>, nts: seq<Symbol>)
    ensures b.errors <= BuildRows(b, rows, nts).errors
  {
    if rows != [] {
      var init, row := rows[..|rows| - 1], rows[|rows| - 1];
      RowsKeepErrors(b, init, nts);
      var m := BuildRows(b, init, nts);
      var lhs := Trim(row.left);
      if lhs != [] {
        AltsKeepErrors(EpsilonStep(m, lhs, row.hasEpsilon), lhs, row.id, row.right, nts);
      }
    }
  }

  lemma {:induction false} AltsKeepErrors(b: Built, lhs: Symbol, rowId: string, alts: seq<string>, nts: seq<Symbol>)
    ensures b.errors <= AltsStep(b, lhs, rowId, alts, nts).errors
  {
    if alts != [] {
      AltsKeepErrors(b, lhs, rowId, alts[..|alts| - 1], nts);
    }
  }

  /**
   * No rows: no errors and no grammar. Otherwise the errors of both passes are all reported,
   * those of the first pass first, and the grammar is defined exactly when there are none; it
   * then starts at the first row's non-empty trimmed left side, has the first pass's
   * non-terminals and the second pass's productions and terminals.
   */
  lemma BuildOutcome(rows: seq<GrammarRow>)
    ensures rows == [] ==> Build(rows) == BuildResult(None, [])
    ensures rows != [] ==> Build(rows).errors == (if Build(rows).grammar.None? then Passes(rows).errors else [])
    ensures Build(rows).grammar.Some? <==> rows != [] && Passes(rows).errors == []
    ensures Validate(rows).errors <= Passes(rows).errors
    ensures Build(rows).grammar.Some? ==>
      var g := Build(rows).grammar.value;
      && g.startSymbol == LhsOf(rows[0]) && g.startSymbol != []
      && g.nonTerminals == Validate(rows).nonTerminals
      && g.productions == Passes(rows).productions && g.terminals == Passes(rows).terminals
  {
    var c := Validate(rows);
    RowsKeepErrors(Built(c.errors, [], [], 0), rows, c.nonTerminals);
    if rows != [] && LhsOf(rows[0]) == [] {
      FirstRowChecked(rows);
    }
  }

  /** The first row's check is never undone: an empty first left side is always an error. */
  lemma {:induction false} FirstRowChecked(rows: seq<GrammarRow>)
    requires rows != [] && LhsOf(rows[0]) == []
    ensures Validate(rows).errors != []
  {
    if |rows| > 1 {
      var init := rows[..|rows| - 1];
      assert init[0] == rows[0];
      FirstRowChecked(init);
      CheckRowKeepsErrors(Validate(init), rows[|rows| - 1], false);
    }
  }

  lemma CheckRowKeepsErrors(c: Checked, row: GrammarRow, first: bool)
    ensures c.errors <= CheckRow(c, row, first).errors
  {
  }
}
