/**
 * The errors `buildGrammarFromRows` (src/lib/grammar-utils.ts) reports for left-hand sides: each
 * bad row is flagged with its error, the first row of a repeated left side is flagged as well,
 * and every error of the first pass is one of these.
 */
module GrammarUtilsErrors {
  import opened Wrappers
  import opened Strings
  import opened Grammars
  import opened GrammarUtils
  import opened GrammarUtilsProps
  import UtilsParse

  lemma InPrefix<T>(x: T, a: seq<T>, b: seq<T>)
    requires a <= b && x in a
    ensures x in b
  {
    var i :| 0 <= i < |a| && a[i] == x;
    assert b[i] == x;
  }

  lemma HasDuplicatePrefix(a: seq<RowError>, b: seq<RowError>, id: string)
    requires a <= b && HasDuplicateError(a, id)
    ensures HasDuplicateError(b, id)
  {
    var i :| 0 <= i < |a| && a[i].rowId == id && a[i].message.DuplicateLhs?;
    assert b[i] == a[i];
  }

  /** The first pass never takes an error back. */
  lemma {:induction false} ValidatePrefixErrors(rows: seq<GrammarRow>, k: nat)
    requires k <= |rows|
    ensures Validate(rows[..k]).errors <= Validate(rows).errors
    decreases |rows| - k
  {
    if k < |rows| {
      ValidateLast(rows, k);
      CheckRowKeepsErrors(Validate(rows[..k]), rows[k], k == 0);
      ValidatePrefixErrors(rows, k + 1);
    } else {
      assert rows[..k] == rows;
    }
  }

  /** The errors one row adds, when it adds them. */
  lemma CheckRowFlags(c: Checked, row: GrammarRow, first: bool)
    ensures var r := CheckRow(c, row, first).errors; var lhs := Trim(row.left);
      && (lhs == [] && (HasContent(row) || first) ==> RowError(row.id, EmptyLhs, Lhs, None) in r)
      && (lhs != [] && !NoWhitespace(lhs) ==> RowError(row.id, LhsSpaces, Lhs, None) in r)
      && (lhs != [] && lhs in c.lhsMap ==> RowError(row.id, DuplicateLhs(lhs), Lhs, None) in r)
      && (lhs != [] && lhs in c.lhsMap && c.lhsMap[lhs] != "" ==> HasDuplicateError(r, c.lhsMap[lhs]))
  {
    var r := CheckRow(c, row, first).errors;
    var lhs := Trim(row.left);
    if lhs != [] && lhs in c.lhsMap && c.lhsMap[lhs] != "" {
      var e1 := if NoWhitespace(lhs) then c.errors else c.errors + [RowError(row.id, LhsSpaces, Lhs, None)];
      var e2 := e1 + [RowError(row.id, DuplicateLhs(lhs), Lhs, None)];
      if !HasDuplicateError(e2, c.lhsMap[lhs]) {
        assert r[|r| - 1] == RowError(c.lhsMap[lhs], DuplicateLhs(lhs), Lhs, None);
      }
    }
  }

  lemma FirstWithUnique(rows: seq<GrammarRow>, i: nat, j: nat, x: string)
    requires FirstWith(rows, i, x) && FirstWith(rows, j, x)
    ensures i == j
  {
  }

  /**
   * Row k is flagged with "LHS cannot be empty" when its left side is blank and it is the first
   * row or has content, with "LHS cannot contain spaces" when its left side holds white space,
   * and with a duplicate error when an earlier row has the same left side.
   */
  lemma RowFlagged(rows: seq<GrammarRow>, k: nat)
    requires k < |rows|
    ensures var row := rows[k]; var lhs := LhsOf(row); var errs := Validate(rows).errors;
      && (lhs == [] && (HasContent(row) || k == 0) ==> RowError(row.id, EmptyLhs, Lhs, None) in errs)
      && (lhs != [] && !NoWhitespace(lhs) ==> RowError(row.id, LhsSpaces, Lhs, None) in errs)
      && (lhs != [] && SomeLhs(rows[..k], lhs) ==> RowError(row.id, DuplicateLhs(lhs), Lhs, None) in errs)
  {
    var row, lhs := rows[k], LhsOf(rows[k]);
    var c0 := Validate(rows[..k]);
    var errs1 := Validate(rows[..k + 1]).errors;
    var errs := Validate(rows).errors;
    ValidateLast(rows, k);
    CheckRowFlags(c0, row, k == 0);
    ValidatePrefixErrors(rows, k + 1);
    if lhs == [] && (HasContent(row) || k == 0) {
      InPrefix(RowError(row.id, EmptyLhs, Lhs, None), errs1, errs);
    }
    if lhs != [] && !NoWhitespace(lhs) {
      InPrefix(RowError(row.id, LhsSpaces, Lhs, None), errs1, errs);
    }
    if lhs != [] && SomeLhs(rows[..k], lhs) {
      ValidateMap(rows[..k]);
      assert lhs in c0.nonTerminals && lhs in c0.lhsMap;
      InPrefix(RowError(row.id, DuplicateLhs(lhs), Lhs, None), errs1, errs);
    }
  }

  lemma FirstWithPrefix(rows: seq<GrammarRow>, k: nat, i: nat, x: string)
    requires k <= |rows| && FirstWith(rows[..k], i, x)
    ensures FirstWith(rows, i, x)
  {
    forall j | 0 <= j < i ensures LhsOf(rows[j]) != x {
      assert rows[..k][j] == rows[j];
    }
    assert rows[..k][i] == rows[i];
  }

  /** After the rows before k, `lhsMap` sends a left side to the id of the first row that has it. */
  lemma MapOriginal(rows: seq<GrammarRow>, k: nat, j: nat, x: string)
    requires k <= |rows| && j < k && x != [] && FirstWith(rows, j, x)
    ensures x in Validate(rows[..k]).lhsMap && Validate(rows[..k]).lhsMap[x] == rows[j].id
  {
    var c0 := Validate(rows[..k]);
    ValidateMap(rows[..k]);
    assert rows[..k][j] == rows[j];
    assert SomeLhs(rows[..k], x);
    assert x in c0.nonTerminals;
    var i :| 0 <= i < k && FirstWith(rows[..k], i, x) && rows[..k][i].id == c0.lhsMap[x];
    FirstWithPrefix(rows, k, i, x);
    FirstWithUnique(rows, i, j, x);
  }

  /** When row k repeats an earlier left side, the first row with that left side carries a duplicate error too, unless its id is empty. */
  lemma OriginalFlagged(rows: seq<GrammarRow>, k: nat, j: nat)
    requires k < |rows| && LhsOf(rows[k]) != [] && SomeLhs(rows[..k], LhsOf(rows[k]))
    requires FirstWith(rows, j, LhsOf(rows[k])) && rows[j].id != ""
    ensures HasDuplicateError(Validate(rows).errors, rows[j].id)
  {
    var lhs := LhsOf(rows[k]);
    var m :| 0 <= m < k && LhsOf(rows[..k][m]) == lhs;
    assert rows[..k][m] == rows[m];
    MapOriginal(rows, k, j, lhs);
    ValidateLast(rows, k);
    CheckRowFlags(Validate(rows[..k]), rows[k], k == 0);
    ValidatePrefixErrors(rows, k + 1);
    HasDuplicatePrefix(Validate(rows[..k + 1]).errors, Validate(rows).errors, rows[j].id);
  }

  /** A blank left side flagged for row k. */
  ghost predicate EmptyJustified(rows: seq<GrammarRow>, id: string) {
    exists k :: 0 <= k < |rows| && rows[k].id == id && LhsOf(rows[k]) == [] && (HasContent(rows[k]) || k == 0)
  }

  ghost predicate SpacesJustified(rows: seq<GrammarRow>, id: string) {
    exists k :: 0 <= k < |rows| && rows[k].id == id && LhsOf(rows[k]) != [] && !NoWhitespace(LhsOf(rows[k]))
  }

  /** Rows i < j share the non-empty left side x, and the error is on one of them. */
  ghost predicate DuplicateJustified(rows: seq<GrammarRow>, id: string, x: string) {
    exists i, j :: 0 <= i < j < |rows| && x != [] && LhsOf(rows[i]) == x && LhsOf(rows[j]) == x && (rows[i].id == id || rows[j].id == id)
  }

  /** Why a first-pass error is there: it is on the left-hand side field and has a cause among the rows. */
  ghost predicate Justified(rows: seq<GrammarRow>, e: RowError) {
    && e.field == Lhs && e.altIndex == None
    && match e.message
       case EmptyLhs => EmptyJustified(rows, e.rowId)
       case LhsSpaces => SpacesJustified(rows, e.rowId)
       case DuplicateLhs(x) => DuplicateJustified(rows, e.rowId, x)
       case InvalidRhs => false
  }

  lemma JustifiedExtend(rows: seq<GrammarRow>, e: RowError)
    requires rows != [] && Justified(rows[..|rows| - 1], e)
    ensures Justified(rows, e)
  {
    var init := rows[..|rows| - 1];
    match e.message
    case EmptyLhs =>
      var k :| 0 <= k < |init| && init[k].id == e.rowId && LhsOf(init[k]) == [] && (HasContent(init[k]) || k == 0);
      assert rows[k] == init[k];
    case LhsSpaces =>
      var k :| 0 <= k < |init| && init[k].id == e.rowId && LhsOf(init[k]) != [] && !NoWhitespace(LhsOf(init[k]));
      assert rows[k] == init[k];
    case DuplicateLhs(x) =>
      var i, j :| 0 <= i < j < |init| && x != [] && LhsOf(init[i]) == x && LhsOf(init[j]) == x && (init[i].id == e.rowId || init[j].id == e.rowId);
      assert rows[i] == init[i] && rows[j] == init[j];
  }

  /** The errors one row can add. */
  lemma CheckRowNew(c: Checked, row: GrammarRow, first: bool, e: RowError)
    requires e in CheckRow(c, row, first).errors && e !in c.errors
    ensures var lhs := Trim(row.left);
      || (e == RowError(row.id, EmptyLhs, Lhs, None) && lhs == [] && (HasContent(row) || first))
      || (e == RowError(row.id, LhsSpaces, Lhs, None) && lhs != [] && !NoWhitespace(lhs))
      || (lhs != [] && lhs in c.lhsMap && (e == RowError(row.id, DuplicateLhs(lhs), Lhs, None) || e == RowError(c.lhsMap[lhs], DuplicateLhs(lhs), Lhs, None)))
  {
  }

  /** Every error of the first pass is on a left-hand side and has its cause among the rows. */
  lemma {:induction false} FirstPassSound(rows: seq<GrammarRow>)
    ensures forall e :: e in Validate(rows).errors ==> Justified(rows, e)
  {
    if rows != [] {
      var init, row := rows[..|rows| - 1], rows[|rows| - 1];
      var n := |init|;
      FirstPassSound(init);
      ValidateMap(init);
      var c0 := Validate(init);
      forall e | e in Validate(rows).errors ensures Justified(rows, e) {
        if e in c0.errors {
          JustifiedExtend(rows, e);
        } else {
          CheckRowNew(c0, row, |rows| == 1, e);
          var lhs := LhsOf(row);
          if e.message.DuplicateLhs? {
            assert lhs in c0.nonTerminals;
            var i :| 0 <= i < n && FirstWith(init, i, lhs) && init[i].id == c0.lhsMap[lhs];
            assert rows[i] == init[i];
            assert DuplicateJustified(rows, e.rowId, lhs);
          }
        }
      }
    }
  }

  /** An alternative that is not blank but has no character the tokenizer turns into a token. */
  predicate Untokenizable(alt: string) {
    Trim(alt) != [] && UtilsParse.NoTokenChar(Trim(alt))
  }

  lemma AltStepError(b: Built, lhs: Symbol, rowId: string, alt: string, index: nat, nts: seq<Symbol>)
    ensures var r := AltStep(b, lhs, rowId, alt, index, nts).errors;
      r == b.errors + (if Untokenizable(alt) then [RowError(rowId, InvalidRhs, Rhs, Some(index))] else [])
  {
    if Trim(alt) != [] {
      UtilsParse.TokensEmpty(Trim(alt));
    }
  }

  lemma {:induction false} AltsPrefixErrors(b: Built, lhs: Symbol, rowId: string, alts: seq<string>, i: nat, nts: seq<Symbol>)
    requires i <= |alts|
    ensures AltsStep(b, lhs, rowId, alts[..i], nts).errors <= AltsStep(b, lhs, rowId, alts, nts).errors
    decreases |alts| - i
  {
    if i < |alts| {
      AltsStepLast(b, lhs, rowId, alts, i, nts);
      AltStepError(AltsStep(b, lhs, rowId, alts[..i], nts), lhs, rowId, alts[i], i, nts);
      AltsPrefixErrors(b, lhs, rowId, alts, i + 1, nts);
    } else {
      assert alts[..i] == alts;
    }
  }

  lemma {:induction false} RowsPrefixErrors(b: Built, rows: seq<GrammarRow>, k: nat, nts: seq<Symbol>)
    requires k <= |rows|
    ensures BuildRows(b, rows[..k], nts).errors <= BuildRows(b, rows, nts).errors
    decreases |rows| - k
  {
    if k < |rows| {
      BuildRowsLast(b, rows, k, nts);
      var m := BuildRows(b, rows[..k], nts);
      var lhs := Trim(rows[k].left);
      if lhs != [] {
        AltsKeepErrors(EpsilonStep(m, lhs, rows[k].hasEpsilon), lhs, rows[k].id, rows[k].right, nts);
      }
      RowsPrefixErrors(b, rows, k + 1, nts);
    } else {
      assert rows[..k] == rows;
    }
  }

  /** Alternative i of row k, when its row has a left side and it has no token, is flagged "Invalid characters in RHS" at index i. */
  lemma AltFlagged(rows: seq<GrammarRow>, k: nat, i: nat)
    requires k < |rows| && LhsOf(rows[k]) != [] && i < |rows[k].right| && Untokenizable(rows[k].right[i])
    ensures RowError(rows[k].id, InvalidRhs, Rhs, Some(i)) in Passes(rows).errors
  {
    var row, lhs := rows[k], LhsOf(rows[k]);
    var c := Validate(rows);
    var b0 := Built(c.errors, [], [], 0);
    var m := BuildRows(b0, rows[..k], c.nonTerminals);
    var e := EpsilonStep(m, lhs, row.hasEpsilon);
    var err := RowError(row.id, InvalidRhs, Rhs, Some(i));
    BuildRowsLast(b0, rows, k, c.nonTerminals);
    AltsStepLast(e, lhs, row.id, row.right, i, c.nonTerminals);
    AltStepError(AltsStep(e, lhs, row.id, row.right[..i], c.nonTerminals), lhs, row.id, row.right[i], i, c.nonTerminals);
    AltsPrefixErrors(e, lhs, row.id, row.right, i + 1, c.nonTerminals);
    InPrefix(err, AltsStep(e, lhs, row.id, row.right[..i + 1], c.nonTerminals).errors, AltsStep(e, lhs, row.id, row.right, c.nonTerminals).errors);
    RowsPrefixErrors(b0, rows, k + 1, c.nonTerminals);
    InPrefix(err, BuildRows(b0, rows[..k + 1], c.nonTerminals).errors, Passes(rows).errors);
  }

  /** An error of the second pass: an untokenizable alternative of a row with a left side. */
  ghost predicate AltJustified(rows: seq<GrammarRow>, e: RowError) {
    && e.message == InvalidRhs && e.field == Rhs && e.altIndex.Some?
    && exists k :: 0 <= k < |rows| && rows[k].id == e.rowId && LhsOf(rows[k]) != []
         && e.altIndex.value < |rows[k].right| && Untokenizable(rows[k].right[e.altIndex.value])
  }

  lemma {:induction false} AltsSound(b: Built, lhs: Symbol, rowId: string, alts: seq<string>, nts: seq<Symbol>, e: RowError)
    requires e in AltsStep(b, lhs, rowId, alts, nts).errors && e !in b.errors
    ensures e.message == InvalidRhs && e.field == Rhs && e.rowId == rowId && e.altIndex.Some?
    ensures e.altIndex.value < |alts| && Untokenizable(alts[e.altIndex.value])
  {
    var init := alts[..|alts| - 1];
    var m := AltsStep(b, lhs, rowId, init, nts);
    AltStepError(m, lhs, rowId, alts[|alts| - 1], |alts| - 1, nts);
    if e in m.errors {
      AltsSound(b, lhs, rowId, init, nts, e);
      assert alts[e.altIndex.value] == init[e.altIndex.value];
    }
  }

  lemma {:induction false} RowsSound(b: Built, rows: seq<GrammarRow>, nts: seq<Symbol>, e: RowError)
    requires e in BuildRows(b, rows, nts).errors && e !in b.errors
    ensures AltJustified(rows, e)
  {
    var init, row := rows[..|rows| - 1], rows[|rows| - 1];
    var m := BuildRows(b, init, nts);
    if e in m.errors {
      RowsSound(b, init, nts, e);
      var k :| 0 <= k < |init| && init[k].id == e.rowId && LhsOf(init[k]) != []
        && e.altIndex.value < |init[k].right| && Untokenizable(init[k].right[e.altIndex.value]);
      assert rows[k] == init[k];
    } else {
      var lhs := Trim(row.left);
      AltsSound(EpsilonStep(m, lhs, row.hasEpsilon), lhs, row.id, row.right, nts, e);
      assert rows[|rows| - 1] == row;
    }
  }

  /**
   * Every reported error is a first-pass error with its cause among the left sides, or an
   * "Invalid characters in RHS" error on an untokenizable alternative.
   */
  lemma ErrorsSound(rows: seq<GrammarRow>)
    ensures forall e :: e in Passes(rows).errors ==> Justified(rows, e) || AltJustified(rows, e)
  {
    FirstPassSound(rows);
    var c := Validate(rows);
    forall e | e in Passes(rows).errors ensures Justified(rows, e) || AltJustified(rows, e) {
      if e !in c.errors {
        RowsSound(Built(c.errors, [], [], 0), rows, c.nonTerminals, e);
      }
    }
  }

  /** The row ids, uuids in the editor, are pairwise different. */
  predicate DistinctIds(rows: seq<GrammarRow>) {
    forall i, j :: 0 <= i < j < |rows| ==> rows[i].id != rows[j].id
  }

  /** No id carries two duplicate errors. */
  predicate DuplicateOnce(errs: seq<RowError>) {
    forall a, b :: 0 <= a < b < |errs| && errs[a].message.DuplicateLhs? && errs[b].message.DuplicateLhs? ==> errs[a].rowId != errs[b].rowId
  }

  lemma HasDuplicateAppend(errs: seq<RowError>, e: RowError, id: string)
    ensures HasDuplicateError(errs + [e], id) <==> HasDuplicateError(errs, id) || (e.rowId == id && e.message.DuplicateLhs?)
  {
    var all := errs + [e];
    if HasDuplicateError(all, id) && !(e.rowId == id && e.message.DuplicateLhs?) {
      var k :| 0 <= k < |all| && all[k].rowId == id && all[k].message.DuplicateLhs?;
      assert all[k] == errs[k];
    }
    if HasDuplicateError(errs, id) {
      var k :| 0 <= k < |errs| && errs[k].rowId == id && errs[k].message.DuplicateLhs?;
      assert all[k] == errs[k];
    }
    assert all[|errs|] == e;
  }

  lemma DuplicateOnceAppend(errs: seq<RowError>, e: RowError)
    requires DuplicateOnce(errs) && (e.message.DuplicateLhs? ==> !HasDuplicateError(errs, e.rowId))
    ensures DuplicateOnce(errs + [e])
  {
    var all := errs + [e];
    forall a, b | 0 <= a < b < |all| && all[a].message.DuplicateLhs? && all[b].message.DuplicateLhs? ensures all[a].rowId != all[b].rowId {
      if b == |errs| {
        assert all[a] == errs[a];
      }
    }
  }

  lemma CheckRowDuplicateOnce(c: Checked, row: GrammarRow, first: bool)
    requires DuplicateOnce(c.errors) && !HasDuplicateError(c.errors, row.id)
    requires Trim(row.left) in c.lhsMap ==> c.lhsMap[Trim(row.left)] != row.id
    ensures DuplicateOnce(CheckRow(c, row, first).errors)
  {
    var lhs := Trim(row.left);
    if lhs != [] {
      var e1 := if NoWhitespace(lhs) then c.errors else c.errors + [RowError(row.id, LhsSpaces, Lhs, None)];
      if !NoWhitespace(lhs) {
        DuplicateOnceAppend(c.errors, RowError(row.id, LhsSpaces, Lhs, None));
        HasDuplicateAppend(c.errors, RowError(row.id, LhsSpaces, Lhs, None), row.id);
      }
      if lhs in c.lhsMap {
        var d := RowError(row.id, DuplicateLhs(lhs), Lhs, None);
        DuplicateOnceAppend(e1, d);
        var original := c.lhsMap[lhs];
        if original != "" && !HasDuplicateError(e1 + [d], original) {
          DuplicateOnceAppend(e1 + [d], RowError(original, DuplicateLhs(lhs), Lhs, None));
        }
      }
    }
  }

  /** With distinct row ids, each row, the first row of a repeated left side included, carries at most one duplicate error. */
  lemma {:induction false} DuplicatesFlaggedOnce(rows: seq<GrammarRow>)
    requires DistinctIds(rows)
    ensures DuplicateOnce(Validate(rows).errors)
  {
    if rows != [] {
      var init, row := rows[..|rows| - 1], rows[|rows| - 1];
      var n := |init|;
      assert forall i :: 0 <= i < n ==> init[i] == rows[i];
      DuplicatesFlaggedOnce(init);
      FirstPassSound(init);
      ValidateMap(init);
      var c0 := Validate(init);
      if HasDuplicateError(c0.errors, row.id) {
        var a :| 0 <= a < |c0.errors| && c0.errors[a].rowId == row.id && c0.errors[a].message.DuplicateLhs?;
        assert Justified(init, c0.errors[a]);
        var i, j :| 0 <= i < j < n && (init[i].id == row.id || init[j].id == row.id);
        assert false;
      }
      var lhs := Trim(row.left);
      if lhs in c0.lhsMap {
        var k :| 0 <= k < n && FirstWith(init, k, lhs) && init[k].id == c0.lhsMap[lhs];
        assert rows[k].id != rows[n].id;
      }
      CheckRowDuplicateOnce(c0, row, |rows| == 1);
    }
  }

  /** With the stepping-over tokenizer, `S -> $` is reported as "Invalid characters in RHS" on its only alternative. */
  lemma DollarFlagged()
    ensures RowError("r", InvalidRhs, Rhs, Some(0)) in Passes([GrammarRow("r", "S", ["$"], false)]).errors
  {
    var rows := [GrammarRow("r", "S", ["$"], false)];
    TrimUnchanged("S");
    TrimUnchanged("$");
    AltFlagged(rows, 0, 0);
  }
}
