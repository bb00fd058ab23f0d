/**
 * `buildGrammarFromRows` of src/lib/grammar-utils.ts: a first pass over the editor rows checks
 * every left-hand side and collects all errors; a second pass numbers the productions from 0
 * and infers the terminals; any error leaves the grammar undefined.
 */
module GrammarUtils {
  import opened Wrappers
  import opened Strings
  import opened Grammars
  import opened GrammarRows
  import UtilsParse

  /** The four messages; `Duplicate LHS: '<lhs>'` is the only one holding the word `Duplicate`. */
  datatype Message = EmptyLhs | LhsSpaces | DuplicateLhs(lhs: string) | InvalidRhs

  function MessageText(m: Message): string {
    match m
    case EmptyLhs => "LHS cannot be empty"
    case LhsSpaces => "LHS cannot contain spaces"
    case DuplicateLhs(lhs) => "Duplicate LHS: '" + lhs + "'"
    case InvalidRhs => "Invalid characters in RHS"
  }

  datatype RowError = RowError(rowId: string, message: Message, field: Field, altIndex: Option<nat>)

  /** The `BuildError` object the source pushes. */
  function Render(e: RowError): BuildError {
    BuildError(e.rowId, MessageText(e.message), Some(e.field), e.altIndex)
  }

  datatype BuildResult = BuildResult(grammar: Option<Grammar>, errors: seq<RowError>)

  /** `row.right.some(r => r.trim().length > 0) || row.hasEpsilon`. */
  predicate HasContent(row: GrammarRow) {
    row.hasEpsilon || exists k :: 0 <= k < |row.right| && Trim(row.right[k]) != []
  }

  /** `errors.some(e => e.rowId === id && e.message.includes("Duplicate"))`. */
  predicate HasDuplicateError(errors: seq<RowError>, id: string) {
    exists k :: 0 <= k < |errors| && errors[k].rowId == id && errors[k].message.DuplicateLhs?
  }

  /** After the first pass has seen some rows: the errors so far, `lhsMap`, and `nonTerminals` in insertion order. */
  datatype Checked = Checked(errors: seq<RowError>, lhsMap: map<string, string>, nonTerminals: seq<Symbol>)

  /** The first pass's callback for one row; `first` is `rows.indexOf(row) === 0`. */
  function CheckRow(c: Checked, row: GrammarRow, first: bool): Checked {
    var lhs := Trim(row.left);
    if lhs == [] then
      if HasContent(row) || first then c.(errors := c.errors + [RowError(row.id, EmptyLhs, Lhs, None)]) else c
    else
      var e1 := if NoWhitespace(lhs) then c.errors else c.errors + [RowError(row.id, LhsSpaces, Lhs, None)];
      if lhs in c.lhsMap then
        var e2 := e1 + [RowError(row.id, DuplicateLhs(lhs), Lhs, None)];
        var original := c.lhsMap[lhs];
        var e3 := if original != "" && !HasDuplicateError(e2, original) then e2 + [RowError(original, DuplicateLhs(lhs), Lhs, None)] else e2;
        c.(errors := e3)
      else
        Checked(e1, c.lhsMap[lhs := row.id], c.nonTerminals + [lhs])
  }

  /** The first pass over `rows`. */
  function Validate(rows: seq<GrammarRow>): Checked {
    if rows == [] then Checked([], map[], [])
    else CheckRow(Validate(rows[..|rows| - 1]), rows[|rows| - 1], |rows| == 1)
  }

  /** The second pass's state: the shared `errors`, `productions`, `terminals` and the `prodId` counter. */
  datatype Built = Built(errors: seq<RowError>, productions: seq<Production>, terminals: seq<Symbol>, prodId: nat)

  /** The callback for alternative `index`, `alt` untrimmed. */
  function AltStep(b: Built, lhs: Symbol, rowId: string, alt: string, index: nat, nts: seq<Symbol>): Built {
    var trimmed := Trim(alt);
    if |trimmed| == 0 then b
    else
      var tokens := UtilsParse.Tokens(trimmed);
      var errors := if |tokens| == 0 && |trimmed| > 0 then b.errors + [RowError(rowId, InvalidRhs, Rhs, Some(index))] else b.errors;
      Built(errors, b.productions + [Production(b.prodId, lhs, tokens, lhs + " -> " + trimmed)],
            AddTerminals(b.terminals, tokens, nts), b.prodId + 1)
  }

  /** `row.right.forEach(...)` over the alternatives `alts`. */
  function AltsStep(b: Built, lhs: Symbol, rowId: string, alts: seq<string>, nts: seq<Symbol>): Built {
    if alts == [] then b
    else AltStep(AltsStep(b, lhs, rowId, alts[..|alts| - 1], nts), lhs, rowId, alts[|alts| - 1], |alts| - 1, nts)
  }

  /** The second pass's callback for one row. */
  function RowStep(b: Built, row: GrammarRow, nts: seq<Symbol>): Built {
    var lhs := Trim(row.left);
    if lhs == [] then b
    else
      AltsStep(EpsilonStep(b, lhs, row.hasEpsilon), lhs, row.id, row.right, nts)
  }

  /** The epsilon production, pushed before the alternatives when the box is checked. */
  function EpsilonStep(b: Built, lhs: Symbol, hasEpsilon: bool): Built {
    if hasEpsilon then b.(productions := b.productions + [Production(b.prodId, lhs, [], lhs + " -> ε")], prodId := b.prodId + 1) else b
  }

  function BuildRows(b: Built, rows: seq<GrammarRow>, nts: seq<Symbol>): Built {
    if rows == [] then b else RowStep(BuildRows(b, rows[..|rows| - 1], nts), rows[|rows| - 1], nts)
  }

  /** Both passes: the errors of the first go on collecting in the second. */
  function Passes(rows: seq<GrammarRow>): Built {
    var c := Validate(rows);
    BuildRows(Built(c.errors, [], [], 0), rows, c.nonTerminals)
  }

  /** `buildGrammarFromRows(rows)`. */
  function Build(rows: seq<GrammarRow>): BuildResult {
    if rows == [] then BuildResult(None, [])
    else
      var b := Passes(rows);
      if |b.errors| > 0 then BuildResult(None, b.errors)
      else BuildResult(Some(Grammar(Trim(rows[0].left), Validate(rows).nonTerminals, b.terminals, b.productions)), [])
  }

  lemma AltsStepLast(b: Built, lhs: Symbol, rowId: string, alts: seq<string>, index: nat, nts: seq<Symbol>)
    requires index < |alts|
    ensures AltsStep(b, lhs, rowId, alts[..index + 1], nts) == AltStep(AltsStep(b, lhs, rowId, alts[..index], nts), lhs, rowId, alts[index], index, nts)
  {
    assert alts[..index + 1][..index] == alts[..index];
  }

  /** The alternatives loop of one row. */
  method AddAlternatives(b: Built, lhs: Symbol, rowId: string, alts: seq<string>, nts: seq<Symbol>) returns (r: Built)
    ensures r == AltsStep(b, lhs, rowId, alts, nts)
  {
    r := b;
    for index := 0 to |alts|
      invariant r == AltsStep(b, lhs, rowId, alts[..index], nts)
    {
      AltsStepLast(b, lhs, rowId, alts, index, nts);
      ghost var prev := r;
      var trimmedAlt := Trim(alts[index]);
      if |trimmedAlt| == 0 {
        continue;
      }
      var tokens := UtilsParse.GetTokens(trimmedAlt);
      var errors := r.errors;
      if |tokens| == 0 && |trimmedAlt| > 0 {
        errors := errors + [RowError(rowId, InvalidRhs, Rhs, Some(index))];
      }
      var productions := r.productions + [Production(r.prodId, lhs, tokens, lhs + " -> " + trimmedAlt)];
      var terminals := AddTerminalsLoop(r.terminals, tokens, nts);
      r := Built(errors, productions, terminals, r.prodId + 1);
      assert r == AltStep(prev, lhs, rowId, alts[index], index, nts);
    }
    assert alts[..|alts|] == alts;
  }

  lemma ValidateLast(rows: seq<GrammarRow>, k: nat)
    requires k < |rows|
    ensures Validate(rows[..k + 1]) == CheckRow(Validate(rows[..k]), rows[k], k == 0)
  {
    assert rows[..k + 1][..k] == rows[..k];
  }

  lemma BuildRowsLast(b: Built, rows: seq<GrammarRow>, k: nat, nts: seq<Symbol>)
    requires k < |rows|
    ensures BuildRows(b, rows[..k + 1], nts) == RowStep(BuildRows(b, rows[..k], nts), rows[k], nts)
  {
    assert rows[..k + 1][..k] == rows[..k];
  }

  /** The first `rows.forEach`: validation of every left-hand side. */
  method FirstPass(rows: seq<GrammarRow>) returns (errors: seq<RowError>, lhsMap: map<string, string>, nonTerminals: seq<Symbol>)
    ensures Checked(errors, lhsMap, nonTerminals) == Validate(rows)
  {
    errors, lhsMap, nonTerminals := [], map[], [];
    for k := 0 to |rows|
      invariant Checked(errors, lhsMap, nonTerminals) == Validate(rows[..k])
    {
      ValidateLast(rows, k);
      ghost var prev := Checked(errors, lhsMap, nonTerminals);
      var row := rows[k];
      var trimmedLhs := Trim(row.left);
      if trimmedLhs == [] {
        if HasContent(row) || k == 0 {
          errors := errors + [RowError(row.id, EmptyLhs, Lhs, None)];
        }
      } else {
        if !NoWhitespace(trimmedLhs) {
          errors := errors + [RowError(row.id, LhsSpaces, Lhs, None)];
        }
        if trimmedLhs in lhsMap {
          errors := errors + [RowError(row.id, DuplicateLhs(trimmedLhs), Lhs, None)];
          var originalId := lhsMap[trimmedLhs];
          if originalId != "" {
            if !HasDuplicateError(errors, originalId) {
              errors := errors + [RowError(originalId, DuplicateLhs(trimmedLhs), Lhs, None)];
            }
          }
        } else {
          lhsMap := lhsMap[trimmedLhs := row.id];
          nonTerminals := nonTerminals + [trimmedLhs];
        }
      }
      assert Checked(errors, lhsMap, nonTerminals) == CheckRow(prev, row, k == 0);
    }
    assert rows[..|rows|] == rows;
  }

  /** The second `rows.forEach`: productions and terminals, adding to the errors of the first. */
  method SecondPass(rows: seq<GrammarRow>, errors: seq<RowError>, nonTerminals: seq<Symbol>) returns (b: Built)
    ensures b == BuildRows(Built(errors, [], [], 0), rows, nonTerminals)
  {
    b := Built(errors, [], [], 0);
    for k := 0 to |rows|
      invariant b == BuildRows(Built(errors, [], [], 0), rows[..k], nonTerminals)
    {
      BuildRowsLast(Built(errors, [], [], 0), rows, k, nonTerminals);
      ghost var prev := b;
      var row := rows[k];
      var lhs := Trim(row.left);
      if lhs == [] {
        continue;
      }
      if row.hasEpsilon {
        b := b.(productions := b.productions + [Production(b.prodId, lhs, [], lhs + " -> ε")], prodId := b.prodId + 1);
      }
      assert b == EpsilonStep(prev, lhs, row.hasEpsilon);
      assert RowStep(prev, row, nonTerminals) == AltsStep(b, lhs, row.id, row.right, nonTerminals);
      b := AddAlternatives(b, lhs, row.id, row.right, nonTerminals);
    }
    assert rows[..|rows|] == rows;
  }

  /** `buildGrammarFromRows(rows)`. */
  method BuildGrammarFromRows(rows: seq<GrammarRow>) returns (result: BuildResult)
    ensures result == Build(rows)
  {
    var errors, lhsMap, nonTerminals := FirstPass(rows);
    if |rows| == 0 {
      return BuildResult(None, []);
    }
    var startSymbol := Trim(rows[0].left);
    var b := SecondPass(rows, errors, nonTerminals);
    if |b.errors| > 0 {
      return BuildResult(None, b.errors);
    }
    return BuildResult(Some(Grammar(startSymbol, nonTerminals, b.terminals, b.productions)), []);
  }
}
