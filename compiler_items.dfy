/**
 * The item helpers and the `augment`, `closure` and `goto` steps of the older copy of the
 * pipeline, src/lib/compiler/lr0.ts. Each is stated against the canonical definition it
 * duplicates, and the places where the two copies differ are proved as lemmas.
 */
module CompilerItems {
  import opened Wrappers
  import opened Strings
  import opened Sorting
  import opened Grammars
  import opened LR0Types
  import opened Items
  import opened ClosureGoto
  import opened Augment

  /**
   * `nextSymbol(grammar, item)`: it reads `productions[item.prodId]` unguarded, so the
   * production must exist; on such items it agrees with the canonical `nextSymbol`.
   */
  function CompilerNextSymbol(prods: seq<Production>, it: Item): (r: Option<Symbol>)
    requires it.prodId < |prods|
    ensures r == NextSymbol(prods, it)
    ensures r.Some? <==> it.dot < |prods[it.prodId].right|
  {
    var p := prods[it.prodId];
    if it.dot < |p.right| then Some(p.right[it.dot]) else None
  }

  /** `advance(item)` moves the dot exactly as the canonical `advanceDot` does. */
  function Advance(it: Item): (r: Item)
    ensures r == AdvanceDot(it)
    ensures r.prodId == it.prodId && r.dot == it.dot + 1
  {
    Item(it.prodId, it.dot + 1)
  }

  /** `getSignature(items)`: keys `prodId:dot`, sorted as strings, joined by `|`. */
  /** For duplicate-free lists, equal signatures exactly when the same items, in any order. */
  function CompilerSignature(items: seq<Item>): (r: string)
    ensures forall b :: Distinct(items) && Distinct(b) ==> (SignatureWith(':', b) == r <==> Elems(b) == Elems(items))
  {
    SignatureIffSameItems(':', items);
    SignatureWith(':', items)
  }

  /** The signature does not depend on the order of the list. */
  lemma CompilerSignaturePermutation(a: seq<Item>, b: seq<Item>)
    requires multiset(a) == multiset(b)
    ensures CompilerSignature(a) == CompilerSignature(b)
  {
    SignaturePermutation(':', a, b);
  }

  /**
   * `formatItem(grammar, item)`: `A -> •` for an epsilon production, otherwise the string
   * `A -> pre • post` trimmed as a whole (the production must exist).
   */
  function FormatItem(prods: seq<Production>, it: Item): (r: string)
    requires it.prodId < |prods|
    ensures Bullet[0] in r
  {
    var p := prods[it.prodId];
    if |p.right| == 0 then
      var r := p.left + " -> " + Bullet;
      assert r[|r| - 1] == Bullet[0];
      r
    else
      var a := Before(p.right, it.dot);
      TrimKeepsChar(FormatText(p.left, a, After(p.right, it.dot)), |p.left| + 4 + |Join(a, " ")| + 1);
      Trim(FormatText(p.left, a, After(p.right, it.dot)))
  }

  lemma AllSpace(s: string)
    requires s == " "
    ensures AllWhitespace(s)
  {
  }

  /** The untrimmed text of `formatItem` for a non-empty right-hand side. */
  function FormatText(left: Symbol, a: seq<Symbol>, b: seq<Symbol>): string {
    left + " -> " + Join(a, " ") + " " + Bullet + " " + Join(b, " ")
  }

  lemma FormatDotFirst(left: Symbol, b: seq<Symbol>)
    requires left != [] && !IsWhitespace(left[0]) && b != [] && PlainSymbols(b)
    ensures Trim(FormatText(left, [], b)) == left + " ->  " + Bullet + " " + Join(b, " ")
  {
    JoinEnds(b);
    var s := left + " ->  " + Bullet + " " + Join(b, " ");
    assert FormatText(left, [], b) == s;
    TrimUnchanged(s);
  }

  lemma FormatDotLast(left: Symbol, a: seq<Symbol>)
    requires left != [] && !IsWhitespace(left[0]) && a != [] && PlainSymbols(a)
    ensures Trim(FormatText(left, a, [])) == left + " -> " + Join(a + [Bullet], " ")
  {
    var pre, ja := left + " -> ", Join(a, " ");
    var mid := pre + ja + " " + Bullet;
    assert mid[0] == left[0] && mid[|mid| - 1] == Bullet[0];
    assert FormatText(left, a, []) == "" + mid + " ";
    AllSpace(" ");
    TrimSpaces("", mid, " ");
    JoinAppend(a, [Bullet], " ");
    assert Join([Bullet], " ") == Bullet;
    Associate(pre, ja, " ", Bullet);
  }

  lemma Associate(x: string, y: string, z: string, w: string)
    ensures x + y + z + w == x + (y + z + w)
  {
  }

  lemma FormatDotInside(left: Symbol, a: seq<Symbol>, b: seq<Symbol>)
    requires left != [] && !IsWhitespace(left[0]) && a != [] && b != [] && PlainSymbols(a) && PlainSymbols(b)
    ensures Trim(FormatText(left, a, b)) == left + " -> " + Join(a + [Bullet] + b, " ")
  {
    JoinEnds(b);
    var inner := Join(a, " ") + " " + Bullet + " " + Join(b, " ");
    JoinEnds(a);
    RenderDotInside(a, b);
    TrimUnchanged(inner);
    var s := left + " -> " + inner;
    assert FormatText(left, a, b) == s;
    TrimUnchanged(s);
  }

  /**
   * The rendering of a valid item with plain symbols. Unlike `itemToString`, which trims only
   * the right-hand side, a dot at the start leaves two spaces after the arrow.
   */
  lemma FormatItemShape(prods: seq<Production>, it: Item)
    requires ValidItem(prods, it) && PlainSymbols([prods[it.prodId].left]) && PlainSymbols(prods[it.prodId].right)
    ensures var p := prods[it.prodId];
      FormatItem(prods, it) ==
        if p.right == [] then p.left + " -> " + Bullet
        else if it.dot == 0 then p.left + " ->  " + Bullet + " " + Join(p.right, " ")
        else p.left + " -> " + Join(p.right[..it.dot] + [Bullet] + p.right[it.dot..], " ")
  {
    var p := prods[it.prodId];
    assert p.left != [] && !IsWhitespace(p.left[0]) by {
      assert [p.left][0] == p.left;
    }
    if p.right != [] {
      var a, b := p.right[..it.dot], p.right[it.dot..];
      assert Before(p.right, it.dot) == a && After(p.right, it.dot) == b;
      assert FormatItem(prods, it) == Trim(FormatText(p.left, a, b));
      assert PlainSymbols(a) && PlainSymbols(b);
      if a == [] {
        assert b == p.right;
        FormatDotFirst(p.left, b);
      } else if b == [] {
        FormatDotLast(p.left, a);
        assert a + [Bullet] + b == a + [Bullet];
      } else {
        FormatDotInside(p.left, a, b);
      }
    }
  }

  /** The two renderings agree except at a dot before the first of one or more symbols. */
  lemma FormatItemVersusItemToString(prods: seq<Production>, it: Item)
    requires ValidItem(prods, it) && PlainSymbols([prods[it.prodId].left]) && PlainSymbols(prods[it.prodId].right)
    ensures FormatItem(prods, it) == ItemToString(prods, it) <==> !(it.dot == 0 && prods[it.prodId].right != [])
  {
    var p := prods[it.prodId];
    FormatItemShape(prods, it);
    ItemToStringShape(prods, it);
    if it.dot == 0 && p.right != [] {
      assert p.right[..0] == [] && p.right[0..] == p.right;
      assert [] + [Bullet] + p.right == [Bullet] + p.right;
      JoinBulletFront(p.right);
      assert |FormatItem(prods, it)| == |ItemToString(prods, it)| + 1;
    }
  }

  /** `augment(g)`: one prime, with no collision check. */
  function CompilerAugment(g: Grammar): (a: AugmentedGrammar)
    ensures a.startPrime == g.startSymbol + "'"
    ensures AugmentsWith(g, a.startPrime, a)
    ensures a.nonTerminals == if a.startPrime in g.nonTerminals then g.nonTerminals else g.nonTerminals + [a.startPrime]
  {
    var p := g.startSymbol + "'";
    var start := Production(0, p, [g.startSymbol], p + " -> " + g.startSymbol);
    var reindexed := seq(|g.productions|, i requires 0 <= i < |g.productions| => g.productions[i].(id := i + 1));
    AugmentedGrammar(g.startSymbol, p, [start] + reindexed, g.terminals,
      if p in g.nonTerminals then g.nonTerminals else g.nonTerminals + [p])
  }

  /**
   * Without the collision check, a grammar that already uses `S'` gets its own symbol as the
   * augmented start: the older module then confuses the two, while the canonical one does not.
   */
  lemma CompilerAugmentCollides(g: Grammar)
    requires g.startSymbol + "'" in g.nonTerminals
    ensures CompilerAugment(g).startPrime in g.nonTerminals
    ensures CompilerAugment(g).nonTerminals == g.nonTerminals
  {
  }

  /** Both augmentations number the productions by position. */
  lemma CompilerAugmentWellIndexed(g: Grammar)
    ensures WellIndexed(CompilerAugment(g).productions)
  {
    var a := CompilerAugment(g);
    AugmentedWellIndexed(g, a.startPrime, a);
  }

  /**
   * The inner `g.productions.forEach`: every production whose left side is b contributes
   * `(p.id, 0)`, appended to the result and the queue when its key is new.
   */
  method AddLeftStarts(prods: seq<Production>, b: Symbol, cm: seq<Item>, queue: seq<Item>) returns (cm': seq<Item>, queue': seq<Item>)
    requires WellIndexed(prods)
    ensures DistinctFrom(cm', |cm|) && |cm| <= |cm'| && cm'[..|cm|] == cm
    ensures queue' == queue + cm'[|cm|..]
    ensures forall p: nat :: p < |prods| && prods[p].left == b ==> Item(p, 0) in cm'
    ensures forall j :: |cm| <= j < |cm'| ==> cm'[j].dot == 0 && cm'[j].prodId < |prods| && prods[cm'[j].prodId].left == b
  {
    cm', queue' := cm, queue;
    for i := 0 to |prods|
      invariant DistinctFrom(cm', |cm|) && |cm| <= |cm'| && cm'[..|cm|] == cm
      invariant queue' == queue + cm'[|cm|..]
      invariant forall p: nat :: p < i && prods[p].left == b ==> Item(p, 0) in cm'
      invariant forall j :: |cm| <= j < |cm'| ==> cm'[j].dot == 0 && cm'[j].prodId < i && prods[cm'[j].prodId].left == b
    {
      var p := prods[i];
      if p.left == b {
        var it := Item(p.id as nat, 0);
        if it !in cm' {
          cm' := cm' + [it];
          queue' := queue' + [it];
        }
      }
    }
  }

  /** The scan over all productions asks for the same items as the index by left side. */
  lemma LeftStartsAsIds(prods: seq<Production>, b: Symbol, cm: seq<Item>, cm': seq<Item>)
    requires forall p: nat :: p < |prods| && prods[p].left == b ==> Item(p, 0) in cm'
    requires forall j :: |cm| <= j < |cm'| ==> cm'[j].dot == 0 && cm'[j].prodId < |prods| && prods[cm'[j].prodId].left == b
    ensures var ids := IdsWithLeft(prods, b, |prods|);
      && (forall t :: 0 <= t < |ids| ==> Item(ids[t], 0) in cm')
      && (forall j :: |cm| <= j < |cm'| ==> cm'[j].dot == 0 && cm'[j].prodId in ids)
  {
    var ids := IdsWithLeft(prods, b, |prods|);
    forall t | 0 <= t < |ids| ensures Item(ids[t], 0) in cm' {
      assert ids[t] in ids;
    }
  }

  /** The worklist keeps every seed, duplicates included, ahead of what it appends. */
  ghost predicate CompilerWorklistInv(prods: seq<Production>, nts: seq<Symbol>, items: seq<Item>, U: set<Item>,
                                      cm: seq<Item>, queue: seq<Item>) {
    && WorklistInv(prods, nts, Elems(items), U, |items|, cm, queue)
    && |items| <= |cm| && cm[..|items|] == items
  }

  /** One turn of the `while` of `closure`. */
  method CompilerProcessHead(prods: seq<Production>, nts: seq<Symbol>, ghost items: seq<Item>, ghost U: set<Item>,
                             cm: seq<Item>, queue: seq<Item>) returns (cm': seq<Item>, queue': seq<Item>)
    requires WellIndexed(prods) && U == Elems(items) + StartItems(prods)
    requires forall x :: x in U ==> x.prodId < |prods|
    requires queue != [] && CompilerWorklistInv(prods, nts, items, U, cm, queue)
    ensures CompilerWorklistInv(prods, nts, items, U, cm', queue')
    ensures U - Elems(cm') < U - Elems(cm) || (cm' == cm && |queue'| < |queue|)
  {
    var current := queue[0];
    assert current == cm[|cm| - |queue|] && current in Elems(cm);
    var b := CompilerNextSymbol(prods, current);
    if b.Some? && b.value != "" && b.value in nts {
      cm', queue' := AddLeftStarts(prods, b.value, cm, queue[1..]);
      CompilerExpandKeeps(prods, nts, items, U, cm, queue, cm', queue', b.value);
    } else {
      cm', queue' := cm, queue[1..];
      SkipKeeps(prods, nts, Elems(items), U, |items|, cm, queue);
    }
  }

  lemma CompilerExpandKeeps(prods: seq<Production>, nts: seq<Symbol>, items: seq<Item>, U: set<Item>,
                            cm: seq<Item>, queue: seq<Item>, cm': seq<Item>, queue': seq<Item>, b: Symbol)
    requires U == Elems(items) + StartItems(prods)
    requires queue != [] && CompilerWorklistInv(prods, nts, items, U, cm, queue)
    requires NonTerminalAfterDot(prods, nts, queue[0]) == Some(b)
    requires DistinctFrom(cm', |cm|) && |cm| <= |cm'| && cm'[..|cm|] == cm && queue' == queue[1..] + cm'[|cm|..]
    requires forall p: nat :: p < |prods| && prods[p].left == b ==> Item(p, 0) in cm'
    requires forall j :: |cm| <= j < |cm'| ==> cm'[j].dot == 0 && cm'[j].prodId < |prods| && prods[cm'[j].prodId].left == b
    ensures CompilerWorklistInv(prods, nts, items, U, cm', queue')
    ensures U - Elems(cm') < U - Elems(cm) || (cm' == cm && |queue'| < |queue|)
  {
    LeftStartsAsIds(prods, b, cm, cm');
    ExpandKeeps(prods, nts, Elems(items), U, |items|, cm, queue, cm', queue', b, IdsWithLeft(prods, b, |prods|));
    assert cm'[..|items|] == cm[..|items|];
  }

  /**
   * `closure(g, items)`: it starts from the items as given, duplicates included, appends each
   * new `(p, 0)` once and sorts by `(prodId, dot)`. The production of every item must exist.
   */
  method CompilerClosure(g: AugmentedGrammar, items: seq<Item>) returns (r: seq<Item>)
    requires WellIndexed(g.productions)
    requires forall i :: 0 <= i < |items| ==> items[i].prodId < |g.productions|
    ensures Sorted(r, ItemLe)
    ensures IsClosureOf(g.productions, g.nonTerminals, Elems(items), r)
    ensures Justified(g.productions, g.nonTerminals, Elems(items), r)
    ensures multiset(items) <= multiset(r)
    ensures forall x :: x in r && x !in items ==> multiset(r)[x] == 1
    ensures Distinct(items) ==> StrictlySorted(r)
  {
    var prods, nts := g.productions, g.nonTerminals;
    ghost var U := Elems(items) + StartItems(prods);
    var result, queue := items, items;
    assert ProcessedClosed(prods, nts, result, 0);
    while queue != []
      invariant CompilerWorklistInv(prods, nts, items, U, result, queue)
      decreases U - Elems(result), |queue|
    {
      result, queue := CompilerProcessHead(prods, nts, items, U, result, queue);
    }
    r := SortBy(result, ItemLe);
    CompilerSortedClosure(prods, nts, items, result, r);
  }

  /** Once the worklist is empty, the sorted result list is the closure, seeds counted as given. */
  lemma CompilerSortedClosure(prods: seq<Production>, nts: seq<Symbol>, items: seq<Item>, cm: seq<Item>, r: seq<Item>)
    requires |items| <= |cm| && cm[..|items|] == items && DistinctFrom(cm, |items|)
    requires Elems(items) <= Elems(cm) && Derived(prods, nts, Elems(items), cm)
    requires ProcessedClosed(prods, nts, cm, |cm|)
    requires r == SortBy(cm, ItemLe)
    ensures Sorted(r, ItemLe)
    ensures IsClosureOf(prods, nts, Elems(items), r)
    ensures Justified(prods, nts, Elems(items), r)
    ensures multiset(items) <= multiset(r)
    ensures forall x :: x in r && x !in items ==> multiset(r)[x] == 1
    ensures Distinct(items) ==> StrictlySorted(r)
  {
    ItemLeIsTotalOrder();
    SortBySorted(cm, ItemLe);
    ElemsPermutation(cm, r);
    DerivedLeast(prods, nts, Elems(items), cm);
    ClosedFromProcessed(prods, nts, cm);
    JustifiedFromDerived(prods, nts, Elems(items), cm, r);
    SeedsCounted(items, cm, r);
    if Distinct(items) {
      DistinctExtend(cm, |items|);
      DistinctPermutation(cm, r);
      SortedDistinctStrict(r);
    }
  }

  /** Seeds keep their multiplicity; every appended item occurs once. */
  lemma SeedsCounted(items: seq<Item>, cm: seq<Item>, r: seq<Item>)
    requires |items| <= |cm| && cm[..|items|] == items && DistinctFrom(cm, |items|)
    requires multiset(r) == multiset(cm)
    ensures multiset(items) <= multiset(r)
    ensures forall x :: x in r && x !in items ==> multiset(r)[x] == 1
  {
    var tail := cm[|items|..];
    assert cm == items + tail;
    assert Distinct(tail) by {
      forall i, j | 0 <= i < j < |tail| ensures tail[i] != tail[j] {
        assert tail[i] == cm[|items| + i] && tail[j] == cm[|items| + j];
      }
    }
    forall x | x in r && x !in items ensures multiset(r)[x] == 1 {
      assert x in multiset(r);
      assert multiset(cm)[x] == multiset(items)[x] + multiset(tail)[x];
      DistinctCount(tail, x);
    }
  }

  /** Items with distinct positions advance to distinct items. */
  lemma {:induction false} MovedDistinct(prods: seq<Production>, items: seq<Item>, x: Symbol)
    requires Distinct(items)
    ensures Distinct(Moved(prods, items, x))
  {
    if items != [] {
      var init := items[..|items| - 1];
      var last := items[|items| - 1];
      assert Distinct(init) by {
        forall i, j | 0 <= i < j < |init| ensures init[i] != init[j] {
          assert init[i] == items[i] && init[j] == items[j];
        }
      }
      MovedDistinct(prods, init, x);
      var m := Moved(prods, init, x);
      if NextSymbol(prods, last) == Some(x) {
        MovedElems(prods, init, x);
        forall k | 0 <= k < |init| ensures AdvanceDot(init[k]) != AdvanceDot(last) {
          assert init[k] == items[k];
        }
        assert AdvanceDot(last) !in m;
        forall i, j | 0 <= i < j < |m| + 1 ensures (m + [AdvanceDot(last)])[i] != (m + [AdvanceDot(last)])[j] {
          if j == |m| {
            assert (m + [AdvanceDot(last)])[i] == m[i];
          }
        }
        assert Moved(prods, items, x) == m + [AdvanceDot(last)];
      }
    }
  }

  /** What `goto(g, items, symbol)` returns; on a duplicate-free list it meets the canonical specification. */
  method CompilerGoto(g: AugmentedGrammar, items: seq<Item>, x: Symbol) returns (r: seq<Item>)
    requires WellIndexed(g.productions)
    requires forall i :: 0 <= i < |items| ==> items[i].prodId < |g.productions|
    ensures r == [] <==> Moved(g.productions, items, x) == []
    ensures Moved(g.productions, items, x) != [] ==>
      Sorted(r, ItemLe) && IsClosureOf(g.productions, g.nonTerminals, Elems(Moved(g.productions, items, x)), r)
    ensures Distinct(items) ==> IsGoto(g.productions, g.nonTerminals, items, x, r)
  {
    var toMove: seq<Item> := [];
    for k := 0 to |items|
      invariant toMove == Moved(g.productions, items[..k], x)
    {
      assert items[..k + 1][..k] == items[..k];
      if CompilerNextSymbol(g.productions, items[k]) == Some(x) {
        toMove := toMove + [Advance(items[k])];
      }
    }
    assert items[..|items|] == items;
    if |toMove| == 0 {
      return [];
    }
    MovedValid(g.productions, items, x);
    assert forall i :: 0 <= i < |toMove| ==> toMove[i] in toMove;
    r := CompilerClosure(g, toMove);
    assert toMove[0] in Elems(r);
    if Distinct(items) {
      MovedDistinct(g.productions, items, x);
    }
  }
}
