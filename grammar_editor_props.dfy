/**
 * What the editor's `buildGrammar` promises: it fails exactly at the first row whose left-hand
 * side is empty, holds white space or repeats an earlier one, with that row's error; otherwise the
 * grammar starts at the first row, its non-terminals are the rows' left sides in order, its
 * productions are the rows' rules numbered from 1, and its terminals are inferred from them.
 */
module GrammarEditorProps {
  import opened Wrappers
  import opened Strings
  import opened Grammars
  import opened GrammarRows
  import opened GrammarEditor
  import CompilerTokens

  /** The trimmed left sides, one per row. */
  function Lhss(rows: seq<GrammarRow>): (r: seq<Symbol>)
    ensures |r| == |rows| && forall k :: 0 <= k < |rows| ==> r[k] == Trim(rows[k].left)
  {
    if rows == [] then [] else Lhss(rows[..|rows| - 1]) + [Trim(rows[|rows| - 1].left)]
  }

  /** Row k passes the first pass's three checks. */
  predicate RowOk(rows: seq<GrammarRow>, k: nat)
    requires k < |rows|
  {
    var lhs := Trim(rows[k].left);
    lhs != [] && NoWhitespace(lhs) && lhs !in Lhss(rows[..k])
  }

  /** The error row k throws, the checks taken in the source's order. */
  function ErrorAt(rows: seq<GrammarRow>, k: nat): EditorError
    requires k < |rows|
  {
    var lhs := Trim(rows[k].left);
    if lhs == [] then LhsEmpty else if !NoWhitespace(lhs) then LhsSpaces(lhs) else LhsDuplicate(lhs)
  }

  /** Row k is the first row that fails a check. */
  predicate FirstBad(rows: seq<GrammarRow>, k: nat) {
    k < |rows| && !RowOk(rows, k) && forall j :: 0 <= j < k ==> RowOk(rows, j)
  }

  lemma RowOkPrefix(rows: seq<GrammarRow>, k: nat)
    requires k < |rows| - 1
    ensures RowOk(rows, k) == RowOk(rows[..|rows| - 1], k) && ErrorAt(rows, k) == ErrorAt(rows[..|rows| - 1], k)
  {
    var init := rows[..|rows| - 1];
    assert rows[..k] == init[..k] && rows[k] == init[k];
  }

  /** The first pass succeeds with the left sides exactly when every row passes; otherwise it throws the first bad row's error. */
  lemma {:induction false} FirstPassOutcome(rows: seq<GrammarRow>)
    ensures CollectLhs(rows).Ok? <==> forall k :: 0 <= k < |rows| ==> RowOk(rows, k)
    ensures CollectLhs(rows).Ok? ==> CollectLhs(rows).value == Lhss(rows) && Distinct(Lhss(rows))
    ensures CollectLhs(rows).Err? ==> exists k :: FirstBad(rows, k) && CollectLhs(rows).error == ErrorAt(rows, k)
  {
    if rows != [] {
      var init, row := rows[..|rows| - 1], rows[|rows| - 1];
      var n := |init|;
      FirstPassOutcome(init);
      forall k | 0 <= k < n ensures RowOk(rows, k) == RowOk(init, k) && ErrorAt(rows, k) == ErrorAt(init, k) {
        RowOkPrefix(rows, k);
      }
      assert rows[..n] == init;
      var lhs := Trim(row.left);
      if CollectLhs(init).Err? {
        var k :| FirstBad(init, k) && CollectLhs(init).error == ErrorAt(init, k);
        assert FirstBad(rows, k);
      } else if CheckLhs(Lhss(init), row).Err? {
        assert !RowOk(rows, n);
        assert FirstBad(rows, n);
      } else {
        assert Lhss(rows) == Lhss(init) + [lhs];
        assert RowOk(rows, n);
      }
    }
  }

  lemma {:induction false} AltsNumbered(a: Acc, lhs: Symbol, alts: seq<string>, nts: seq<Symbol>, pre: seq<Rule>, first: int)
    requires Numbered(a.productions, pre, first) && a.pid == first + |a.productions|
    ensures var r := AltsPush(a, lhs, alts, nts);
      Numbered(r.productions, pre + AltRules(CompilerTokens.Tokens, lhs, alts), first) && r.pid == first + |r.productions|
  {
    if alts != [] {
      var init := alts[..|alts| - 1];
      AltsNumbered(a, lhs, init, nts, pre, first);
      var m := AltsPush(a, lhs, init, nts);
      var alt := Trim(alts[|alts| - 1]);
      if alt != [] {
        NumberedAppend(m.productions, pre + AltRules(CompilerTokens.Tokens, lhs, init), first, Rule(lhs, CompilerTokens.Tokens(alt), lhs + " -> " + alt));
      }
      assert pre + AltRules(CompilerTokens.Tokens, lhs, alts) ==
        pre + AltRules(CompilerTokens.Tokens, lhs, init) + (if alt == [] then [] else [Rule(lhs, CompilerTokens.Tokens(alt), lhs + " -> " + alt)]);
    }
  }

  lemma EpsNumbered(a: Acc, lhs: Symbol, hasEpsilon: bool, pre: seq<Rule>, first: int)
    requires Numbered(a.productions, pre, first) && a.pid == first + |a.productions|
    ensures var r := EpsPush(a, lhs, hasEpsilon);
      Numbered(r.productions, pre + (if hasEpsilon then [Rule(lhs, [], lhs + " -> ε")] else []), first) && r.pid == first + |r.productions|
  {
    if hasEpsilon {
      NumberedAppend(a.productions, pre, first, Rule(lhs, [], lhs + " -> ε"));
    } else {
      assert pre + [] == pre;
    }
  }

  lemma RowNumbered(a: Acc, row: GrammarRow, nts: seq<Symbol>, pre: seq<Rule>, first: int)
    requires Trim(row.left) != []
    requires Numbered(a.productions, pre, first) && a.pid == first + |a.productions|
    ensures var r := RowPush(a, row, nts);
      Numbered(r.productions, pre + RowRules(CompilerTokens.Tokens, row), first) && r.pid == first + |r.productions|
  {
    var lhs := Trim(row.left);
    var eps := if row.hasEpsilon then [Rule(lhs, [], lhs + " -> ε")] else [];
    EpsNumbered(a, lhs, row.hasEpsilon, pre, first);
    AltsNumbered(EpsPush(a, lhs, row.hasEpsilon), lhs, row.right, nts, pre + eps, first);
    assert RowRules(CompilerTokens.Tokens, row) == eps + AltRules(CompilerTokens.Tokens, lhs, row.right);
    ConcatAssoc(pre, eps, AltRules(CompilerTokens.Tokens, lhs, row.right));
  }

  lemma {:induction false} RowsNumbered(a: Acc, rows: seq<GrammarRow>, nts: seq<Symbol>, first: int)
    requires a.productions == [] && a.pid == first
    requires forall k :: 0 <= k < |rows| ==> Trim(rows[k].left) != []
    ensures var r := RowsPush(a, rows, nts);
      Numbered(r.productions, Rules(CompilerTokens.Tokens, rows), first) && r.pid == first + |r.productions|
  {
    if rows != [] {
      var init := rows[..|rows| - 1];
      assert forall k :: 0 <= k < |init| ==> init[k] == rows[k];
      RowsNumbered(a, init, nts, first);
      RowNumbered(RowsPush(a, init, nts), rows[|rows| - 1], nts, Rules(CompilerTokens.Tokens, init), first);
    }
  }

  lemma {:induction false} AltsTerminals(a: Acc, lhs: Symbol, alts: seq<string>, nts: seq<Symbol>)
    requires InferredTerminals(a.terminals, a.productions, nts)
    ensures var r := AltsPush(a, lhs, alts, nts); InferredTerminals(r.terminals, r.productions, nts)
  {
    if alts != [] {
      var init := alts[..|alts| - 1];
      AltsTerminals(a, lhs, init, nts);
      var m := AltsPush(a, lhs, init, nts);
      var alt := Trim(alts[|alts| - 1]);
      if alt != [] {
        PushTerminals(m.terminals, m.productions, Production(m.pid, lhs, CompilerTokens.Tokens(alt), lhs + " -> " + alt), nts);
      }
    }
  }

  lemma {:induction false} RowsTerminals(a: Acc, rows: seq<GrammarRow>, nts: seq<Symbol>)
    requires InferredTerminals(a.terminals, a.productions, nts)
    ensures var r := RowsPush(a, rows, nts); InferredTerminals(r.terminals, r.productions, nts)
  {
    if rows != [] {
      var init, row := rows[..|rows| - 1], rows[|rows| - 1];
      RowsTerminals(a, init, nts);
      var m := RowsPush(a, init, nts);
      var lhs := Trim(row.left);
      if row.hasEpsilon {
        PushEpsilon(m.terminals, m.productions, Production(m.pid, lhs, [], lhs + " -> ε"), nts);
      }
      AltsTerminals(EpsPush(m, lhs, row.hasEpsilon), lhs, row.right, nts);
    }
  }

  /**
   * No rows: "Grammar is empty". Otherwise the result is a grammar exactly when every row passes
   * the checks, and else the first bad row's error. The grammar starts at the first row's
   * left side, its non-terminals are the distinct left sides in row order, production k is
   * rule k of the rows with id k + 1, and the terminals are the right-side tokens that are not
   * non-terminals, each once.
   */
  lemma EditorOutcome(rows: seq<GrammarRow>)
    ensures rows == [] ==> Editor(rows) == Err(GrammarEmpty)
    ensures rows != [] ==> (Editor(rows).Ok? <==> forall k :: 0 <= k < |rows| ==> RowOk(rows, k))
    ensures rows != [] && Editor(rows).Err? ==> exists k :: FirstBad(rows, k) && Editor(rows).error == ErrorAt(rows, k)
    ensures Editor(rows).Ok? ==>
      var g := Editor(rows).value;
      && g.startSymbol == Trim(rows[0].left) && g.startSymbol != [] && g.startSymbol in g.nonTerminals
      && g.nonTerminals == Lhss(rows) && Distinct(g.nonTerminals)
      && Numbered(g.productions, Rules(CompilerTokens.Tokens, rows), 1)
      && InferredTerminals(g.terminals, g.productions, g.nonTerminals)
  {
    FirstPassOutcome(rows);
    if rows != [] && CollectLhs(rows).Ok? {
      var nts := CollectLhs(rows).value;
      assert RowOk(rows, 0);
      forall k | 0 <= k < |rows| ensures Trim(rows[k].left) != [] {
        assert RowOk(rows, k);
      }
      RowsNumbered(Acc([], [], 1), rows, nts, 1);
      RowsTerminals(Acc([], [], 1), rows, nts);
    }
  }
}
