/**
 * `closure` and `gotoSet` of src/core/lr0/closureGoto.ts.
 *
 * The closure is specified the textbook way: it contains the seeds, it is closed under
 * "a dot before non-terminal B adds `(p, 0)` for every production p of B", and it lies
 * inside every other closed superset of the seeds. The worklist method is proved against
 * that specification, and uniqueness and idempotence follow as lemmas.
 */
module ClosureGoto {
  import opened Wrappers
  import opened Sorting
  import opened Grammars
  import opened LR0Types
  import opened Items

  /** The non-terminal after the dot, if there is one (the source tests `B && nonTerminals.has(B)`). */
  function NonTerminalAfterDot(prods: seq<Production>, nts: seq<Symbol>, a: Item): (r: Option<Symbol>)
    ensures r.Some? <==> NextSymbol(prods, a).Some? && NextSymbol(prods, a).value != "" && NextSymbol(prods, a).value in nts
    ensures r.Some? ==> r == NextSymbol(prods, a)
  {
    match NextSymbol(prods, a)
    case Some(b) => if b != "" && b in nts then Some(b) else None
    case None => None
  }

  /** Item `a` asks for `(p, 0)`: production p has the non-terminal after a's dot as its left side. */
  predicate ExpandsTo(prods: seq<Production>, nts: seq<Symbol>, a: Item, p: nat) {
    p < |prods| && NonTerminalAfterDot(prods, nts, a) == Some(prods[p].left)
  }

  /** Every expansion an item of R asks for is in R. */
  ghost predicate Closed(prods: seq<Production>, nts: seq<Symbol>, R: set<Item>) {
    forall a, p :: a in R && ExpandsTo(prods, nts, a, p) ==> Item(p, 0) in R
  }

  /** L contains the seeds and is closed. */
  ghost predicate ClosedSuperset(prods: seq<Production>, nts: seq<Symbol>, seeds: set<Item>, L: set<Item>) {
    seeds <= L && Closed(prods, nts, L)
  }

  /** `r` holds exactly the closure of `seeds`: the least closed superset. */
  ghost predicate IsClosureOf(prods: seq<Production>, nts: seq<Symbol>, seeds: set<Item>, r: seq<Item>) {
    && ClosedSuperset(prods, nts, seeds, Elems(r))
    && (forall L :: ClosedSuperset(prods, nts, seeds, L) ==> Elems(r) <= L)
  }

  /** Every item beyond the seeds has its dot at 0 and is asked for by an item of `r`. */
  predicate Justified(prods: seq<Production>, nts: seq<Symbol>, seeds: set<Item>, r: seq<Item>) {
    forall j :: 0 <= j < |r| && r[j] !in seeds ==>
      r[j].dot == 0 && exists i :: 0 <= i < |r| && ExpandsTo(prods, nts, r[i], r[j].prodId)
  }

  /** The worklist invariant: each non-seed item was asked for by an item inserted before it. */
  predicate Derived(prods: seq<Production>, nts: seq<Symbol>, seeds: set<Item>, cm: seq<Item>) {
    forall j :: 0 <= j < |cm| && cm[j] !in seeds ==>
      cm[j].dot == 0 && exists i :: 0 <= i < j && ExpandsTo(prods, nts, cm[i], cm[j].prodId)
  }

  /** The comparator of the final sort: by `prodId`, then by `dot`. */
  predicate ItemLe(a: Item, b: Item) {
    a.prodId < b.prodId || (a.prodId == b.prodId && a.dot <= b.dot)
  }

  predicate ItemLess(a: Item, b: Item) {
    a.prodId < b.prodId || (a.prodId == b.prodId && a.dot < b.dot)
  }

  predicate StrictlySorted(s: seq<Item>) {
    forall i, j :: 0 <= i < j < |s| ==> ItemLess(s[i], s[j])
  }

  lemma ItemLeIsTotalOrder()
    ensures IsTotalOrder(ItemLe)
  {
  }

  lemma {:induction false} DerivedIn(prods: seq<Production>, nts: seq<Symbol>, seeds: set<Item>, cm: seq<Item>, L: set<Item>, j: nat)
    requires Derived(prods, nts, seeds, cm) && seeds <= L && Closed(prods, nts, L) && j < |cm|
    ensures cm[j] in L
    decreases j
  {
    if cm[j] !in seeds {
      var i :| 0 <= i < j && ExpandsTo(prods, nts, cm[i], cm[j].prodId);
      DerivedIn(prods, nts, seeds, cm, L, i);
      assert Item(cm[j].prodId, 0) == cm[j];
    }
  }

  /** What the worklist inserted lies inside every closed superset of the seeds. */
  lemma DerivedLeast(prods: seq<Production>, nts: seq<Symbol>, seeds: set<Item>, cm: seq<Item>)
    requires Derived(prods, nts, seeds, cm)
    ensures forall L :: ClosedSuperset(prods, nts, seeds, L) ==> Elems(cm) <= L
  {
    forall L | ClosedSuperset(prods, nts, seeds, L) ensures Elems(cm) <= L {
      forall x | x in Elems(cm) ensures x in L {
        var j :| 0 <= j < |cm| && cm[j] == x;
        DerivedIn(prods, nts, seeds, cm, L, j);
      }
    }
  }

  lemma DistinctPermutation<T>(a: seq<T>, b: seq<T>)
    requires Distinct(a) && multiset(a) == multiset(b)
    ensures Distinct(b)
  {
    forall i, j | 0 <= i < j < |b| ensures b[i] != b[j] {
      if b[i] == b[j] {
        var x := b[i];
        assert b == b[..j] + [b[j]] + b[j + 1..];
        assert x in multiset(b[..j]) by { assert b[..j][i] == x; }
        assert multiset(b)[x] >= 2;
        DistinctCount(a, x);
        assert false;
      }
    }
  }

  lemma SortedDistinctStrict(s: seq<Item>)
    requires Sorted(s, ItemLe) && Distinct(s)
    ensures StrictlySorted(s)
  {
  }

  lemma StrictlySortedDistinct(s: seq<Item>)
    requires StrictlySorted(s)
    ensures Distinct(s) && Sorted(s, ItemLe)
  {
  }

  /** A strictly sorted list is determined by its elements. */
  lemma StrictlySortedUnique(a: seq<Item>, b: seq<Item>)
    requires StrictlySorted(a) && StrictlySorted(b) && Elems(a) == Elems(b)
    ensures a == b
  {
    StrictlySortedDistinct(a);
    StrictlySortedDistinct(b);
    DistinctSameElements(a, b);
    ItemLeIsTotalOrder();
    SortedUnique(a, b, ItemLe);
  }

  /** There is only one sorted closure of a seed set. */
  lemma ClosureUnique(prods: seq<Production>, nts: seq<Symbol>, seeds: set<Item>, r1: seq<Item>, r2: seq<Item>)
    requires IsClosureOf(prods, nts, seeds, r1) && StrictlySorted(r1)
    requires IsClosureOf(prods, nts, seeds, r2) && StrictlySorted(r2)
    ensures r1 == r2
  {
    StrictlySortedUnique(r1, r2);
  }

  /** `closure(closure(I)) == closure(I)`: a closure is its own closure. */
  lemma ClosureIdempotent(prods: seq<Production>, nts: seq<Symbol>, seeds: set<Item>, r: seq<Item>, r2: seq<Item>)
    requires IsClosureOf(prods, nts, seeds, r) && StrictlySorted(r)
    requires IsClosureOf(prods, nts, Elems(r), r2) && StrictlySorted(r2)
    ensures r2 == r
  {
    assert IsClosureOf(prods, nts, Elems(r), r);
    ClosureUnique(prods, nts, Elems(r), r, r2);
  }

  /** The ids of the first n productions whose left side is B, in order. */
  function IdsWithLeft(prods: seq<Production>, b: Symbol, n: nat): (r: seq<nat>)
    requires n <= |prods|
    ensures forall p: nat :: p in r <==> p < n && prods[p].left == b
  {
    if n == 0 then []
    else IdsWithLeft(prods, b, n - 1) + (if prods[n - 1].left == b then [n - 1] else [])
  }

  /** `prodsByLhs.get(b) || []`. */
  function IdsOf(m: map<Symbol, seq<nat>>, b: Symbol): seq<nat> {
    if b in m then m[b] else []
  }

  /** `prodsByLhs`: each left side maps to the ids of its productions, in order. */
  method IndexByLhs(prods: seq<Production>) returns (m: map<Symbol, seq<nat>>)
    requires WellIndexed(prods)
    ensures forall b :: IdsOf(m, b) == IdsWithLeft(prods, b, |prods|)
  {
    m := map[];
    for i := 0 to |prods|
      invariant forall b :: IdsOf(m, b) == IdsWithLeft(prods, b, i)
    {
      var p := prods[i];
      ghost var m0 := m;
      if p.left !in m {
        m := m[p.left := []];
      }
      m := m[p.left := m[p.left] + [p.id as nat]];
      forall b ensures IdsOf(m, b) == IdsWithLeft(prods, b, i + 1) {
        assert IdsWithLeft(prods, b, i + 1) == IdsWithLeft(prods, b, i) + (if p.left == b then [i] else []);
        if b != p.left {
          assert IdsOf(m, b) == IdsOf(m0, b);
        }
      }
    }
  }

  /** The items `(p, 0)` of every production. */
  ghost function StartItems(prods: seq<Production>): set<Item> {
    set p: nat | p < |prods| :: Item(p, 0)
  }

  /** The initial `items.forEach`: each item not yet present goes into the map and the queue. */
  method AddSeeds(items: seq<Item>) returns (cm: seq<Item>, queue: seq<Item>)
    ensures queue == cm && Distinct(cm) && DistinctFrom(cm, 0) && Elems(cm) == Elems(items)
  {
    cm, queue := [], [];
    for k := 0 to |items|
      invariant queue == cm && Distinct(cm)
      invariant Elems(cm) == Elems(items[..k])
    {
      assert items[..k + 1] == items[..k] + [items[k]];
      ElemsAppend(items[..k], items[k]);
      ElemsAppend(cm, items[k]);
      if items[k] !in cm {
        cm := cm + [items[k]];
        queue := queue + [items[k]];
      }
    }
    assert items[..|items|] == items;
  }

  /** From position n on, each element differs from every element before it. */
  predicate DistinctFrom<T(==)>(s: seq<T>, n: nat) {
    forall i, j :: 0 <= i < j < |s| && n <= j ==> s[i] != s[j]
  }

  lemma DistinctExtend<T>(s: seq<T>, n: nat)
    requires n <= |s| && Distinct(s[..n]) && DistinctFrom(s, n)
    ensures Distinct(s)
  {
    forall i, j | 0 <= i < j < |s| ensures s[i] != s[j] {
      if j < n {
        assert s[..n][i] == s[i] && s[..n][j] == s[j];
      }
    }
  }

  /** The inner `prodIds.forEach`: each `(p, 0)` not yet present goes at the end of the map and the queue. */
  method AddStarts(cm: seq<Item>, queue: seq<Item>, ids: seq<nat>) returns (cm': seq<Item>, queue': seq<Item>)
    ensures DistinctFrom(cm', |cm|) && |cm| <= |cm'| && cm'[..|cm|] == cm
    ensures queue' == queue + cm'[|cm|..]
    ensures forall t :: 0 <= t < |ids| ==> Item(ids[t], 0) in cm'
    ensures forall j :: |cm| <= j < |cm'| ==> cm'[j].dot == 0 && cm'[j].prodId in ids
  {
    cm', queue' := cm, queue;
    for j := 0 to |ids|
      invariant DistinctFrom(cm', |cm|) && |cm| <= |cm'| && cm'[..|cm|] == cm
      invariant queue' == queue + cm'[|cm|..]
      invariant forall t :: 0 <= t < j ==> Item(ids[t], 0) in cm'
      invariant forall k :: |cm| <= k < |cm'| ==> cm'[k].dot == 0 && cm'[k].prodId in ids
    {
      var it := Item(ids[j], 0);
      if it !in cm' {
        cm' := cm' + [it];
        queue' := queue' + [it];
      }
    }
  }

  lemma DerivedExtend(prods: seq<Production>, nts: seq<Symbol>, seeds: set<Item>, cm: seq<Item>, cm': seq<Item>, pos: nat)
    requires Derived(prods, nts, seeds, cm) && pos < |cm| <= |cm'| && cm'[..|cm|] == cm
    requires forall j :: |cm| <= j < |cm'| ==> cm'[j].dot == 0 && ExpandsTo(prods, nts, cm[pos], cm'[j].prodId)
    ensures Derived(prods, nts, seeds, cm')
  {
    forall j | 0 <= j < |cm'| && cm'[j] !in seeds
      ensures cm'[j].dot == 0 && exists i :: 0 <= i < j && ExpandsTo(prods, nts, cm'[i], cm'[j].prodId)
    {
      assert cm'[pos] == cm[pos];
      if j < |cm| {
        assert cm'[j] == cm[j];
        var i :| 0 <= i < j && ExpandsTo(prods, nts, cm[i], cm[j].prodId);
        assert cm'[i] == cm[i];
      }
    }
  }

  lemma ProcessedExtend(prods: seq<Production>, nts: seq<Symbol>, cm: seq<Item>, cm': seq<Item>, pos: nat)
    requires ProcessedClosed(prods, nts, cm, pos) && pos < |cm| <= |cm'| && cm'[..|cm|] == cm
    requires forall p :: ExpandsTo(prods, nts, cm[pos], p) ==> Item(p, 0) in cm'
    ensures ProcessedClosed(prods, nts, cm', pos + 1)
  {
    forall i, p | 0 <= i < pos + 1 && i < |cm'| && ExpandsTo(prods, nts, cm'[i], p) ensures Item(p, 0) in cm' {
      assert cm'[i] == cm[i];
      if i < pos {
        assert Item(p, 0) in cm;
        var k :| 0 <= k < |cm| && cm[k] == Item(p, 0);
        assert cm'[k] == cm[k];
      }
    }
  }

  /** One expansion keeps the worklist invariants and shrinks the set of items not yet inserted. */
  lemma ExpandStep(prods: seq<Production>, nts: seq<Symbol>, seeds: set<Item>, U: set<Item>,
                   cm0: seq<Item>, cm: seq<Item>, pos: nat, b: Symbol, ids: seq<nat>)
    requires U == seeds + StartItems(prods) && Elems(cm0) <= U
    requires Derived(prods, nts, seeds, cm0) && ProcessedClosed(prods, nts, cm0, pos)
    requires pos < |cm0| && NonTerminalAfterDot(prods, nts, cm0[pos]) == Some(b)
    requires ids == IdsWithLeft(prods, b, |prods|)
    requires DistinctFrom(cm, |cm0|) && |cm0| <= |cm| && cm[..|cm0|] == cm0
    requires forall t :: 0 <= t < |ids| ==> Item(ids[t], 0) in cm
    requires forall j :: |cm0| <= j < |cm| ==> cm[j].dot == 0 && cm[j].prodId in ids
    ensures Derived(prods, nts, seeds, cm) && ProcessedClosed(prods, nts, cm, pos + 1)
    ensures cm[pos + 1..] == cm0[pos + 1..] + cm[|cm0|..]
    ensures Elems(cm0) <= Elems(cm) <= U
    ensures |cm| > |cm0| ==> U - Elems(cm) < U - Elems(cm0)
  {
    forall j | |cm0| <= j < |cm| ensures cm[j].dot == 0 && ExpandsTo(prods, nts, cm0[pos], cm[j].prodId) {
      assert cm[j].prodId in ids;
    }
    DerivedExtend(prods, nts, seeds, cm0, cm, pos);
    forall p | ExpandsTo(prods, nts, cm0[pos], p) ensures Item(p, 0) in cm {
      assert p in ids;
      var t :| 0 <= t < |ids| && ids[t] == p;
    }
    ProcessedExtend(prods, nts, cm0, cm, pos);
    assert cm == cm0 + cm[|cm0|..];
    forall x | x in cm ensures x in U {
      var k :| 0 <= k < |cm| && cm[k] == x;
      if k >= |cm0| {
        assert x == Item(x.prodId, 0) && x.prodId in ids;
      } else {
        assert x == cm0[k];
      }
    }
    forall x | x in cm0 ensures x in cm {
      var k :| 0 <= k < |cm0| && cm0[k] == x;
      assert cm[k] == x;
    }
    if |cm| > |cm0| {
      assert cm[|cm0|] !in cm0 by {
        forall i | 0 <= i < |cm0| ensures cm0[i] != cm[|cm0|] {
          assert cm[i] == cm0[i];
        }
      }
      assert cm[|cm0|] in U - Elems(cm0);
    }
  }

  /**
   * The worklist invariant: `queue` is the unprocessed tail of the insertion list `cm`, and
   * everything inserted after the first n0 entries was new when it was inserted.
   */
  ghost predicate WorklistInv(prods: seq<Production>, nts: seq<Symbol>, seeds: set<Item>, U: set<Item>,
                              n0: nat, cm: seq<Item>, queue: seq<Item>) {
    && DistinctFrom(cm, n0) && seeds <= Elems(cm) <= U
    && |queue| <= |cm| && queue == cm[|cm| - |queue|..]
    && Derived(prods, nts, seeds, cm)
    && ProcessedClosed(prods, nts, cm, |cm| - |queue|)
  }

  /** The head asked for the items of production list `ids`, which were appended if new. */
  lemma ExpandKeeps(prods: seq<Production>, nts: seq<Symbol>, seeds: set<Item>, U: set<Item>, n0: nat,
                    cm: seq<Item>, queue: seq<Item>, cm': seq<Item>, queue': seq<Item>, b: Symbol, ids: seq<nat>)
    requires U == seeds + StartItems(prods)
    requires queue != [] && WorklistInv(prods, nts, seeds, U, n0, cm, queue)
    requires NonTerminalAfterDot(prods, nts, queue[0]) == Some(b) && ids == IdsWithLeft(prods, b, |prods|)
    requires DistinctFrom(cm', |cm|) && |cm| <= |cm'| && cm'[..|cm|] == cm && queue' == queue[1..] + cm'[|cm|..]
    requires forall t :: 0 <= t < |ids| ==> Item(ids[t], 0) in cm'
    requires forall j :: |cm| <= j < |cm'| ==> cm'[j].dot == 0 && cm'[j].prodId in ids
    ensures WorklistInv(prods, nts, seeds, U, n0, cm', queue')
    ensures U - Elems(cm') < U - Elems(cm) || (cm' == cm && |queue'| < |queue|)
  {
    var pos := |cm| - |queue|;
    assert queue[0] == cm[pos];
    assert queue[1..] == cm[pos + 1..];
    ExpandStep(prods, nts, seeds, U, cm, cm', pos, b, ids);
    forall i, j | 0 <= i < j < |cm'| && n0 <= j ensures cm'[i] != cm'[j] {
      if j < |cm| {
        assert cm'[i] == cm[i] && cm'[j] == cm[j];
      }
    }
    if |cm'| == |cm| {
      assert cm' == cm'[..|cm|];
    }
  }

  /** The head asks for nothing: it is only dropped from the queue. */
  lemma SkipKeeps(prods: seq<Production>, nts: seq<Symbol>, seeds: set<Item>, U: set<Item>, n0: nat,
                  cm: seq<Item>, queue: seq<Item>)
    requires queue != [] && WorklistInv(prods, nts, seeds, U, n0, cm, queue)
    requires NonTerminalAfterDot(prods, nts, queue[0]).None?
    ensures WorklistInv(prods, nts, seeds, U, n0, cm, queue[1..])
  {
    var pos := |cm| - |queue|;
    assert queue[0] == cm[pos];
    assert queue[1..] == cm[pos + 1..];
    assert ProcessedClosed(prods, nts, cm, pos + 1);
  }

  /** One turn of the `while`: take the head of the queue and insert the items its next non-terminal asks for. */
  method ProcessHead(prods: seq<Production>, nts: seq<Symbol>, byLhs: map<Symbol, seq<nat>>,
                     ghost seeds: set<Item>, ghost U: set<Item>, cm: seq<Item>, queue: seq<Item>)
    returns (cm': seq<Item>, queue': seq<Item>)
    requires U == seeds + StartItems(prods)
    requires forall b :: IdsOf(byLhs, b) == IdsWithLeft(prods, b, |prods|)
    requires queue != [] && WorklistInv(prods, nts, seeds, U, 0, cm, queue)
    ensures WorklistInv(prods, nts, seeds, U, 0, cm', queue')
    ensures U - Elems(cm') < U - Elems(cm) || (cm' == cm && |queue'| < |queue|)
  {
    var cur := queue[0];
    var b := NextSymbol(prods, cur);
    if b.Some? && b.value != "" && b.value in nts {
      var ids := IdsOf(byLhs, b.value);
      cm', queue' := AddStarts(cm, queue[1..], ids);
      ExpandKeeps(prods, nts, seeds, U, 0, cm, queue, cm', queue', b.value, ids);
    } else {
      cm', queue' := cm, queue[1..];
      SkipKeeps(prods, nts, seeds, U, 0, cm, queue);
    }
  }

  /** `closure(aug, items)`. */
  method Closure(g: AugmentedGrammar, items: seq<Item>) returns (r: seq<Item>)
    requires WellIndexed(g.productions)
    ensures StrictlySorted(r)
    ensures IsClosureOf(g.productions, g.nonTerminals, Elems(items), r)
    ensures Justified(g.productions, g.nonTerminals, Elems(items), r)
  {
    var prods, nts := g.productions, g.nonTerminals;
    ghost var seeds := Elems(items);
    var cm, queue := AddSeeds(items);
    var byLhs := IndexByLhs(prods);
    ghost var U := seeds + StartItems(prods);
    while queue != []
      invariant WorklistInv(prods, nts, seeds, U, 0, cm, queue)
      decreases U - Elems(cm), |queue|
    {
      cm, queue := ProcessHead(prods, nts, byLhs, seeds, U, cm, queue);
    }
    r := SortBy(cm, ItemLe);
    SortedClosure(prods, nts, seeds, cm, r);
  }

  /** Items `0 .. n-1` of `cm` have had all their expansions inserted. */
  ghost predicate ProcessedClosed(prods: seq<Production>, nts: seq<Symbol>, cm: seq<Item>, n: nat) {
    forall i, p :: 0 <= i < n && i < |cm| && ExpandsTo(prods, nts, cm[i], p) ==> Item(p, 0) in cm
  }

  lemma ElemsPermutation<T>(a: seq<T>, b: seq<T>)
    requires multiset(a) == multiset(b)
    ensures Elems(a) == Elems(b)
  {
    forall x ensures x in Elems(a) <==> x in Elems(b) {
      assert x in a <==> x in multiset(a);
      assert x in b <==> x in multiset(b);
    }
  }

  lemma ClosedFromProcessed(prods: seq<Production>, nts: seq<Symbol>, cm: seq<Item>)
    requires ProcessedClosed(prods, nts, cm, |cm|)
    ensures Closed(prods, nts, Elems(cm))
  {
    forall a, p | a in Elems(cm) && ExpandsTo(prods, nts, a, p) ensures Item(p, 0) in Elems(cm) {
      var i :| 0 <= i < |cm| && cm[i] == a;
    }
  }

  lemma JustifiedFromDerived(prods: seq<Production>, nts: seq<Symbol>, seeds: set<Item>, cm: seq<Item>, r: seq<Item>)
    requires Derived(prods, nts, seeds, cm) && Elems(r) == Elems(cm)
    ensures Justified(prods, nts, seeds, r)
  {
    forall j | 0 <= j < |r| && r[j] !in seeds
      ensures r[j].dot == 0 && exists i :: 0 <= i < |r| && ExpandsTo(prods, nts, r[i], r[j].prodId)
    {
      assert r[j] in Elems(cm);
      var jj :| 0 <= jj < |cm| && cm[jj] == r[j];
      var i :| 0 <= i < jj && ExpandsTo(prods, nts, cm[i], cm[jj].prodId);
      assert cm[i] in Elems(r);
      var ii :| 0 <= ii < |r| && r[ii] == cm[i];
    }
  }

  /** Once the worklist is empty, the sorted insertion list is the closure. */
  lemma SortedClosure(prods: seq<Production>, nts: seq<Symbol>, seeds: set<Item>, cm: seq<Item>, r: seq<Item>)
    requires Distinct(cm) && seeds <= Elems(cm) && Derived(prods, nts, seeds, cm)
    requires ProcessedClosed(prods, nts, cm, |cm|)
    requires r == SortBy(cm, ItemLe)
    ensures StrictlySorted(r)
    ensures IsClosureOf(prods, nts, seeds, r)
    ensures Justified(prods, nts, seeds, r)
  {
    ItemLeIsTotalOrder();
    SortBySorted(cm, ItemLe);
    DistinctPermutation(cm, r);
    SortedDistinctStrict(r);
    ElemsPermutation(cm, r);
    DerivedLeast(prods, nts, seeds, cm);
    ClosedFromProcessed(prods, nts, cm);
    JustifiedFromDerived(prods, nts, seeds, cm, r);
  }

  /** `movedItems`: the advanced items whose next symbol is x, in list order. */
  function Moved(prods: seq<Production>, items: seq<Item>, x: Symbol): (r: seq<Item>)
    ensures |r| <= |items|
  {
    if items == [] then []
    else
      var last := items[|items| - 1];
      Moved(prods, items[..|items| - 1], x) + (if NextSymbol(prods, last) == Some(x) then [AdvanceDot(last)] else [])
  }

  /** The moved items are exactly the advanced items before which x stood. */
  lemma {:induction false} MovedElems(prods: seq<Production>, items: seq<Item>, x: Symbol)
    ensures forall it :: it in Moved(prods, items, x) <==>
      exists k :: 0 <= k < |items| && NextSymbol(prods, items[k]) == Some(x) && it == AdvanceDot(items[k])
  {
    if items != [] {
      var init := items[..|items| - 1];
      MovedElems(prods, init, x);
      forall it ensures it in Moved(prods, items, x) <==>
        exists k :: 0 <= k < |items| && NextSymbol(prods, items[k]) == Some(x) && it == AdvanceDot(items[k])
      {
        if it in Moved(prods, init, x) {
          var k :| 0 <= k < |init| && NextSymbol(prods, init[k]) == Some(x) && it == AdvanceDot(init[k]);
          assert items[k] == init[k];
        }
        if exists k :: 0 <= k < |items| && NextSymbol(prods, items[k]) == Some(x) && it == AdvanceDot(items[k]) {
          var k :| 0 <= k < |items| && NextSymbol(prods, items[k]) == Some(x) && it == AdvanceDot(items[k]);
          if k < |init| {
            assert init[k] == items[k];
          }
        }
      }
    }
  }

  /** No moved items exactly when no item has x after its dot. */
  lemma MovedEmpty(prods: seq<Production>, items: seq<Item>, x: Symbol)
    ensures Moved(prods, items, x) == [] <==> forall k :: 0 <= k < |items| ==> NextSymbol(prods, items[k]) != Some(x)
  {
    MovedElems(prods, items, x);
    var m := Moved(prods, items, x);
    if m != [] {
      assert m[0] in m;
    }
    if exists k :: 0 <= k < |items| && NextSymbol(prods, items[k]) == Some(x) {
      var k :| 0 <= k < |items| && NextSymbol(prods, items[k]) == Some(x);
      assert AdvanceDot(items[k]) in m;
    }
  }

  /** Each moved item is valid, has `1 <= dot`, and its dot has just crossed x. */
  lemma MovedValid(prods: seq<Production>, items: seq<Item>, x: Symbol)
    ensures forall it :: it in Moved(prods, items, x) ==>
      ValidItem(prods, it) && 1 <= it.dot && prods[it.prodId].right[it.dot - 1] == x
  {
    MovedElems(prods, items, x);
    forall it | it in Moved(prods, items, x)
      ensures ValidItem(prods, it) && 1 <= it.dot && prods[it.prodId].right[it.dot - 1] == x
    {
      var k :| 0 <= k < |items| && NextSymbol(prods, items[k]) == Some(x) && it == AdvanceDot(items[k]);
      AdvanceOverNext(prods, items[k], x);
    }
  }

  /** What `gotoSet(items, x)` returns: `[]` without moved items, else the sorted closure of the moved items. */
  ghost predicate IsGoto(prods: seq<Production>, nts: seq<Symbol>, items: seq<Item>, x: Symbol, r: seq<Item>) {
    var moved := Moved(prods, items, x);
    && (r == [] <==> moved == [])
    && (moved != [] ==> StrictlySorted(r) && IsClosureOf(prods, nts, Elems(moved), r))
  }

  /** `gotoSet(aug, items, symbol)`. */
  method GotoSet(g: AugmentedGrammar, items: seq<Item>, x: Symbol) returns (r: seq<Item>)
    requires WellIndexed(g.productions)
    ensures IsGoto(g.productions, g.nonTerminals, items, x, r)
  {
    var moved: seq<Item> := [];
    for k := 0 to |items|
      invariant moved == Moved(g.productions, items[..k], x)
    {
      assert items[..k + 1][..k] == items[..k];
      if NextSymbol(g.productions, items[k]) == Some(x) {
        moved := moved + [AdvanceDot(items[k])];
      }
    }
    assert items[..|items|] == items;
    if |moved| == 0 {
      return [];
    }
    r := Closure(g, moved);
    assert moved[0] in Elems(r);
  }

  /** Two lists of equal goto specification are equal: the goto is determined by its inputs. */
  lemma GotoUnique(prods: seq<Production>, nts: seq<Symbol>, items: seq<Item>, x: Symbol, r1: seq<Item>, r2: seq<Item>)
    requires IsGoto(prods, nts, items, x, r1) && IsGoto(prods, nts, items, x, r2)
    ensures r1 == r2
  {
    var moved := Moved(prods, items, x);
    if moved != [] {
      ClosureUnique(prods, nts, Elems(moved), r1, r2);
    }
  }
}
