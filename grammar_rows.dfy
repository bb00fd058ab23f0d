/**
 * What the two row-to-grammar builders (src/lib/grammar-utils.ts and the `buildGrammar` helper
 * of src/components/grammar/GrammarEditor.tsx) share: the productions a list of rows stands for,
 * given the tokenizer each uses, and the terminal set grown token by token.
 */
module GrammarRows {
  import opened Strings
  import opened Grammars

  /** A production without its id: what the builders push, in order, numbering them as they go. */
  datatype Rule = Rule(left: Symbol, right: seq<Symbol>, raw: string)

  /** The rules of the alternatives: blank ones (after trimming) give none, the others their tokens. */
  function AltRules(tok: string -> seq<Symbol>, lhs: Symbol, alts: seq<string>): seq<Rule> {
    if alts == [] then []
    else
      var alt := Trim(alts[|alts| - 1]);
      AltRules(tok, lhs, alts[..|alts| - 1]) + (if alt == [] then [] else [Rule(lhs, tok(alt), lhs + " -> " + alt)])
  }

  /** A row with an empty trimmed left side gives nothing; otherwise the epsilon rule comes first, then the alternatives. */
  function RowRules(tok: string -> seq<Symbol>, row: GrammarRow): seq<Rule> {
    var lhs := Trim(row.left);
    if lhs == [] then []
    else (if row.hasEpsilon then [Rule(lhs, [], lhs + " -> ε")] else []) + AltRules(tok, lhs, row.right)
  }

  /** All rules of the rows, row by row. */
  function Rules(tok: string -> seq<Symbol>, rows: seq<GrammarRow>): seq<Rule> {
    if rows == [] then [] else Rules(tok, rows[..|rows| - 1]) + RowRules(tok, rows[|rows| - 1])
  }

  /** The rules numbered from `first`. */
  predicate Numbered(prods: seq<Production>, rules: seq<Rule>, first: int) {
    && |prods| == |rules|
    && forall i :: 0 <= i < |prods| ==> prods[i] == Production(first + i, rules[i].left, rules[i].right, rules[i].raw)
  }

  lemma NumberedAppend(prods: seq<Production>, rules: seq<Rule>, first: int, r: Rule)
    requires Numbered(prods, rules, first)
    ensures Numbered(prods + [Production(first + |prods|, r.left, r.right, r.raw)], rules + [r], first)
  {
  }

  /** `tokens.forEach(t => { if (!nonTerminals.has(t)) terminals.add(t); })`. */
  function AddTerminals(terms: seq<Symbol>, tokens: seq<Symbol>, nts: seq<Symbol>): (r: seq<Symbol>)
    ensures forall x :: x in r <==> x in terms || (x in tokens && x !in nts)
    ensures Distinct(terms) ==> Distinct(r)
    ensures |terms| <= |r| && r[..|terms|] == terms
  {
    if tokens == [] then terms
    else
      var t := AddTerminals(terms, tokens[..|tokens| - 1], nts);
      var x := tokens[|tokens| - 1];
      assert tokens == tokens[..|tokens| - 1] + [x];
      if x in nts || x in t then t else t + [x]
  }

  method AddTerminalsLoop(terms: seq<Symbol>, tokens: seq<Symbol>, nts: seq<Symbol>) returns (r: seq<Symbol>)
    ensures r == AddTerminals(terms, tokens, nts)
  {
    r := terms;
    for k := 0 to |tokens|
      invariant r == AddTerminals(terms, tokens[..k], nts)
    {
      assert tokens[..k + 1][..k] == tokens[..k];
      var x := tokens[k];
      if x !in nts && x !in r {
        r := r + [x];
      }
    }
    assert tokens[..|tokens|] == tokens;
  }

  /** The symbols in some production's right side. */
  predicate InSomeRight(prods: seq<Production>, x: Symbol) {
    exists i :: 0 <= i < |prods| && x in prods[i].right
  }

  lemma InSomeRightAppend(prods: seq<Production>, p: Production, x: Symbol)
    ensures InSomeRight(prods + [p], x) <==> InSomeRight(prods, x) || x in p.right
  {
    var all := prods + [p];
    if InSomeRight(all, x) && x !in p.right {
      var i :| 0 <= i < |all| && x in all[i].right;
      assert all[i] == prods[i];
    }
    if InSomeRight(prods, x) {
      var i :| 0 <= i < |prods| && x in prods[i].right;
      assert all[i] == prods[i];
    }
    assert all[|prods|] == p;
  }

  /** The terminal list is duplicate-free and holds exactly the right-side symbols of `prods` that are not non-terminals. */
  ghost predicate InferredTerminals(terms: seq<Symbol>, prods: seq<Production>, nts: seq<Symbol>) {
    && Distinct(terms)
    && forall x :: x in terms <==> x !in nts && InSomeRight(prods, x)
  }

  /** Adding the tokens of a pushed production to the terminals keeps them inferred. */
  lemma PushTerminals(terms: seq<Symbol>, prods: seq<Production>, p: Production, nts: seq<Symbol>)
    requires InferredTerminals(terms, prods, nts)
    ensures InferredTerminals(AddTerminals(terms, p.right, nts), prods + [p], nts)
  {
    forall x ensures InSomeRight(prods + [p], x) <==> InSomeRight(prods, x) || x in p.right {
      InSomeRightAppend(prods, p, x);
    }
  }

  /** An epsilon production adds no terminal. */
  lemma PushEpsilon(terms: seq<Symbol>, prods: seq<Production>, p: Production, nts: seq<Symbol>)
    requires InferredTerminals(terms, prods, nts) && p.right == []
    ensures InferredTerminals(terms, prods + [p], nts)
  {
    forall x ensures InSomeRight(prods + [p], x) <==> InSomeRight(prods, x) {
      InSomeRightAppend(prods, p, x);
    }
  }
}
