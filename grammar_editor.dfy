/**
 * The `buildGrammar` helper of src/components/grammar/GrammarEditor.tsx: the same rows-to-grammar
 * conversion as `buildGrammarFromRows`, but it stops at the first bad left-hand side, numbers the
 * productions from 1 and reads the alternatives with the tokenizer of src/lib/compiler/grammar.ts.
 */
module GrammarEditor {
  import opened Wrappers
  import opened Strings
  import opened Grammars
  import opened GrammarRows
  import CompilerTokens

  /** What `buildGrammar` throws. */
  datatype EditorError = GrammarEmpty | LhsEmpty | LhsSpaces(lhs: string) | LhsDuplicate(lhs: string)

  /** The exception's `message`. */
  function ErrorText(e: EditorError): string {
    match e
    case GrammarEmpty => "Grammar is empty"
    case LhsEmpty => "LHS cannot be empty"
    case LhsSpaces(lhs) => "Invalid LHS '" + lhs + "' (no spaces)"
    case LhsDuplicate(lhs) => "Duplicate LHS '" + lhs + "'"
  }

  /** The first pass's callback: check one left-hand side against those seen so far, in the order of the checks. */
  function CheckLhs(nts: seq<Symbol>, row: GrammarRow): Result<seq<Symbol>, EditorError> {
    var lhs := Trim(row.left);
    if lhs == [] then Err(LhsEmpty)
    else if !NoWhitespace(lhs) then Err(LhsSpaces(lhs))
    else if lhs in nts then Err(LhsDuplicate(lhs))
    else Ok(nts + [lhs])
  }

  /** The first pass: the non-terminals in row order, or the first row's error. */
  function CollectLhs(rows: seq<GrammarRow>): Result<seq<Symbol>, EditorError> {
    if rows == [] then Ok([])
    else
      var r := CollectLhs(rows[..|rows| - 1]);
      if r.Err? then r else CheckLhs(r.value, rows[|rows| - 1])
  }

  /** The second pass's state: `productions`, `terminals` and the `pid` counter. */
  datatype Acc = Acc(productions: seq<Production>, terminals: seq<Symbol>, pid: int)

  /** One alternative: blank ones are skipped, the others add their terminals and then their production. */
  function AltPush(a: Acc, lhs: Symbol, alt: string, nts: seq<Symbol>): Acc {
    var str := Trim(alt);
    if str == [] then a
    else
      var tokens := CompilerTokens.Tokens(str);
      Acc(a.productions + [Production(a.pid, lhs, tokens, lhs + " -> " + str)], AddTerminals(a.terminals, tokens, nts), a.pid + 1)
  }

  function AltsPush(a: Acc, lhs: Symbol, alts: seq<string>, nts: seq<Symbol>): Acc {
    if alts == [] then a else AltPush(AltsPush(a, lhs, alts[..|alts| - 1], nts), lhs, alts[|alts| - 1], nts)
  }

  /** The epsilon production, pushed first when the box is checked. */
  function EpsPush(a: Acc, lhs: Symbol, hasEpsilon: bool): Acc {
    if hasEpsilon then a.(productions := a.productions + [Production(a.pid, lhs, [], lhs + " -> ε")], pid := a.pid + 1) else a
  }

  /** The second pass's callback for one row. */
  function RowPush(a: Acc, row: GrammarRow, nts: seq<Symbol>): Acc {
    var lhs := Trim(row.left);
    AltsPush(EpsPush(a, lhs, row.hasEpsilon), lhs, row.right, nts)
  }

  function RowsPush(a: Acc, rows: seq<GrammarRow>, nts: seq<Symbol>): Acc {
    if rows == [] then a else RowPush(RowsPush(a, rows[..|rows| - 1], nts), rows[|rows| - 1], nts)
  }

  /** `buildGrammar(rows)`: a thrown error is `Err`. */
  function Editor(rows: seq<GrammarRow>): Result<Grammar, EditorError> {
    if rows == [] then Err(GrammarEmpty)
    else
      var c := CollectLhs(rows);
      if c.Err? then Err(c.error)
      else
        var a := RowsPush(Acc([], [], 1), rows, c.value);
        Ok(Grammar(Trim(rows[0].left), c.value, a.terminals, a.productions))
  }

  lemma CollectLhsLast(rows: seq<GrammarRow>, k: nat)
    requires k < |rows|
    ensures CollectLhs(rows[..k + 1]) == var r := CollectLhs(rows[..k]); if r.Err? then r else CheckLhs(r.value, rows[k])
  {
    assert rows[..k + 1][..k] == rows[..k];
  }

  /** Once a prefix has failed, the whole pass fails with the same error. */
  lemma {:induction false} CollectLhsSticky(rows: seq<GrammarRow>, k: nat)
    requires k <= |rows| && CollectLhs(rows[..k]).Err?
    ensures CollectLhs(rows) == CollectLhs(rows[..k])
    decreases |rows| - k
  {
    if k < |rows| {
      CollectLhsLast(rows, k);
      CollectLhsSticky(rows, k + 1);
    } else {
      assert rows[..k] == rows;
    }
  }

  /** The first `rows.forEach`, which throws at the first bad row. */
  method FirstPass(rows: seq<GrammarRow>) returns (r: Result<seq<Symbol>, EditorError>)
    ensures r == CollectLhs(rows)
  {
    var nonTerminals := [];
    for k := 0 to |rows|
      invariant CollectLhs(rows[..k]) == Ok(nonTerminals)
    {
      CollectLhsLast(rows, k);
      var lhs := Trim(rows[k].left);
      if lhs == [] {
        CollectLhsSticky(rows, k + 1);
        return Err(LhsEmpty);
      }
      if !NoWhitespace(lhs) {
        CollectLhsSticky(rows, k + 1);
        return Err(LhsSpaces(lhs));
      }
      if lhs in nonTerminals {
        CollectLhsSticky(rows, k + 1);
        return Err(LhsDuplicate(lhs));
      }
      nonTerminals := nonTerminals + [lhs];
    }
    assert rows[..|rows|] == rows;
    r := Ok(nonTerminals);
  }

  lemma AltsPushLast(a: Acc, lhs: Symbol, alts: seq<string>, k: nat, nts: seq<Symbol>)
    requires k < |alts|
    ensures AltsPush(a, lhs, alts[..k + 1], nts) == AltPush(AltsPush(a, lhs, alts[..k], nts), lhs, alts[k], nts)
  {
    assert alts[..k + 1][..k] == alts[..k];
  }

  lemma RowsPushLast(a: Acc, rows: seq<GrammarRow>, k: nat, nts: seq<Symbol>)
    requires k < |rows|
    ensures RowsPush(a, rows[..k + 1], nts) == RowPush(RowsPush(a, rows[..k], nts), rows[k], nts)
  {
    assert rows[..k + 1][..k] == rows[..k];
  }

  /** The callback for one alternative. */
  method PushAlternative(a: Acc, lhs: Symbol, alt: string, nts: seq<Symbol>) returns (r: Acc)
    ensures r == AltPush(a, lhs, alt, nts)
  {
    r := a;
    var str := Trim(alt);
    if str != [] {
      var tokens := CompilerTokens.GetTokens(str);
      var terminals := AddTerminalsLoop(a.terminals, tokens, nts);
      r := Acc(a.productions + [Production(a.pid, lhs, tokens, lhs + " -> " + str)], terminals, a.pid + 1);
    }
  }

  /** `r.right.forEach(...)` for one row. */
  method PushAlternatives(a: Acc, lhs: Symbol, alts: seq<string>, nts: seq<Symbol>) returns (r: Acc)
    ensures r == AltsPush(a, lhs, alts, nts)
  {
    r := a;
    for k := 0 to |alts|
      invariant r == AltsPush(a, lhs, alts[..k], nts)
    {
      AltsPushLast(a, lhs, alts, k, nts);
      r := PushAlternative(r, lhs, alts[k], nts);
    }
    assert alts[..|alts|] == alts;
  }

  /** The second `rows.forEach`. */
  method SecondPass(rows: seq<GrammarRow>, nts: seq<Symbol>) returns (a: Acc)
    ensures a == RowsPush(Acc([], [], 1), rows, nts)
  {
    a := Acc([], [], 1);
    for k := 0 to |rows|
      invariant a == RowsPush(Acc([], [], 1), rows[..k], nts)
    {
      RowsPushLast(Acc([], [], 1), rows, k, nts);
      var row := rows[k];
      var lhs := Trim(row.left);
      if row.hasEpsilon {
        a := a.(productions := a.productions + [Production(a.pid, lhs, [], lhs + " -> ε")], pid := a.pid + 1);
      }
      a := PushAlternatives(a, lhs, row.right, nts);
    }
    assert rows[..|rows|] == rows;
  }

  /** `buildGrammar(rows)`. */
  method BuildGrammar(rows: seq<GrammarRow>) returns (r: Result<Grammar, EditorError>)
    ensures r == Editor(rows)
  {
    if |rows| == 0 {
      return Err(GrammarEmpty);
    }
    var c := FirstPass(rows);
    if c.Err? {
      return Err(c.error);
    }
    var startSymbol := Trim(rows[0].left);
    var a := SecondPass(rows, c.value);
    r := Ok(Grammar(startSymbol, c.value, a.terminals, a.productions));
  }
}
