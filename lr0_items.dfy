/** The values of the canonical pipeline (src/core/lr0/types.ts); state ids `"S" + k` are the numbers k. */
module LR0Types {
  import opened Grammars

  /** `(prodId, dot)`: production `prodId` with the dot before `right[dot]`. */
  datatype Item = Item(prodId: nat, dot: nat)

  datatype AugmentedGrammar = AugmentedGrammar(
    originalStartSymbol: Symbol,
    startPrime: Symbol,
    productions: seq<Production>,
    terminals: seq<Symbol>,
    nonTerminals: seq<Symbol>)

  datatype LR0State = LR0State(id: nat, items: seq<Item>, signature: string)

  datatype LR0Transition = LR0Transition(fromId: nat, symbol: Symbol, toId: nat)

  datatype LR0Automaton = LR0Automaton(grammar: AugmentedGrammar, states: seq<LR0State>, transitions: seq<LR0Transition>)

  /** Production ids equal their positions, as augmentation makes them. */
  predicate WellIndexed(prods: seq<Production>) {
    forall i :: 0 <= i < |prods| ==> prods[i].id == i
  }

  /** The item names a production and its dot lies within the right-hand side. */
  predicate ValidItem(prods: seq<Production>, it: Item) {
    it.prodId < |prods| && it.dot <= |prods[it.prodId].right|
  }
}

/** Item helpers of src/core/lr0/items.ts. */
module Items {
  import opened Wrappers
  import opened Strings
  import opened Sorting
  import opened Grammars
  import opened LR0Types

  /** The symbol right after the dot, if the item names a production and is not complete. */
  function NextSymbol(prods: seq<Production>, it: Item): (r: Option<Symbol>)
    ensures r.Some? <==> it.prodId < |prods| && it.dot < |prods[it.prodId].right|
  {
    if it.prodId < |prods| && it.dot < |prods[it.prodId].right| then Some(prods[it.prodId].right[it.dot])
    else None
  }

  function AdvanceDot(it: Item): (r: Item)
    ensures r.prodId == it.prodId && r.dot == it.dot + 1
  {
    Item(it.prodId, it.dot + 1)
  }

  /** Advancing over the next symbol gives a valid item whose dot has just crossed that symbol. */
  lemma AdvanceOverNext(prods: seq<Production>, it: Item, x: Symbol)
    requires NextSymbol(prods, it) == Some(x)
    ensures ValidItem(prods, AdvanceDot(it))
    ensures 1 <= AdvanceDot(it).dot && prods[it.prodId].right[AdvanceDot(it).dot - 1] == x
  {
  }

  /** `${prodId}<sep>${dot}`; the canonical key uses `@`, the older module `:`. */
  function KeyWith(sep: char, it: Item): (r: string)
    ensures r != []
  {
    NatToString(it.prodId) + [sep] + NatToString(it.dot)
  }

  /** `itemKey`: it splits at its `@` into two numerals that read back as the production and the dot. */
  function ItemKey(it: Item): (r: string)
    ensures var i := IndexOf(r, '@');
      && i < |r|
      && (forall k :: 0 <= k < |r| && k != i ==> '0' <= r[k] <= '9')
      && ParseNat(r[..i]) == it.prodId && ParseNat(r[i + 1..]) == it.dot
  {
    var a, b := NatToString(it.prodId), NatToString(it.dot);
    IndexOfAfter(a, b, '@');
    ParseNatToString(it.prodId);
    ParseNatToString(it.dot);
    var r := KeyWith('@', it);
    assert r[..|a|] == a && r[|a| + 1..] == b;
    r
  }

  /** With a separator that is not a digit, keys of different items differ. */
  lemma KeyWithInjective(sep: char, a: Item, b: Item)
    requires !('0' <= sep <= '9')
    requires KeyWith(sep, a) == KeyWith(sep, b)
    ensures a == b
  {
    SplitAtSeparator(NatToString(a.prodId), NatToString(a.dot), NatToString(b.prodId), NatToString(b.dot), sep);
    NatToStringInjective(a.prodId, b.prodId);
    NatToStringInjective(a.dot, b.dot);
  }

  /** `itemKey` is injective. */
  lemma ItemKeyInjective(a: Item, b: Item)
    ensures ItemKey(a) == ItemKey(b) <==> a == b
  {
    if ItemKey(a) == ItemKey(b) {
      KeyWithInjective('@', a, b);
    }
  }

  function Keys(sep: char, items: seq<Item>): (r: seq<string>)
    ensures |r| == |items|
    ensures forall k :: 0 <= k < |r| ==> r[k] == KeyWith(sep, items[k])
  {
    MapSeq((it: Item) => KeyWith(sep, it), items)
  }

  /** `items.map(key).sort().join("|")`. */
  function SignatureWith(sep: char, items: seq<Item>): string {
    Join(SortBy(Keys(sep, items), LexLe), "|")
  }

  /** `itemsSignature`: two duplicate-free lists have the same signature exactly when they hold the same items. */
  function ItemsSignature(items: seq<Item>): (r: string)
    ensures forall b :: Distinct(items) && Distinct(b) ==> (SignatureWith('@', b) == r <==> Elems(b) == Elems(items))
  {
    SignatureIffSameItems('@', items);
    SignatureWith('@', items)
  }

  lemma KeysPermutation(sep: char, a: seq<Item>, b: seq<Item>)
    requires multiset(a) == multiset(b)
    ensures multiset(Keys(sep, a)) == multiset(Keys(sep, b))
  {
    MapSeqPermutation((it: Item) => KeyWith(sep, it), a, b);
  }

  /** The signature does not depend on the order (or the grouping of duplicates) of the list. */
  lemma SignaturePermutation(sep: char, a: seq<Item>, b: seq<Item>)
    requires multiset(a) == multiset(b)
    ensures SignatureWith(sep, a) == SignatureWith(sep, b)
  {
    KeysPermutation(sep, a, b);
    LexLeIsTotalOrder();
    SortByPermutation(Keys(sep, a), Keys(sep, b), LexLe);
  }

  lemma DistinctCount<T>(a: seq<T>, x: T)
    requires Distinct(a)
    ensures multiset(a)[x] == if x in a then 1 else 0
  {
    if a != [] {
      assert a == [a[0]] + a[1..];
      assert Distinct(a[1..]);
      DistinctCount(a[1..], x);
    }
  }

  lemma DistinctSameElements<T>(a: seq<T>, b: seq<T>)
    requires Distinct(a) && Distinct(b) && Elems(a) == Elems(b)
    ensures multiset(a) == multiset(b)
  {
    forall x ensures multiset(a)[x] == multiset(b)[x] {
      DistinctCount(a, x);
      DistinctCount(b, x);
      assert x in a <==> x in Elems(a);
      assert x in b <==> x in Elems(b);
    }
  }

  predicate PlainPieces(s: seq<string>, c: char) {
    forall k :: 0 <= k < |s| ==> s[k] != [] && c !in s[k]
  }

  lemma SortedKeysPlain(sep: char, a: seq<Item>, s: seq<string>)
    requires sep != '|' && s == SortBy(Keys(sep, a), LexLe)
    ensures PlainPieces(s, '|')
  {
    var ka := Keys(sep, a);
    forall k | 0 <= k < |s| ensures s[k] != [] && '|' !in s[k] {
      assert s[k] in multiset(ka);
      var m :| 0 <= m < |ka| && ka[m] == s[k];
      assert '|' !in NatToString(a[m].prodId) && '|' !in NatToString(a[m].dot);
    }
  }

  lemma KeysCover(sep: char, a: seq<Item>, b: seq<Item>)
    requires !('0' <= sep <= '9')
    requires multiset(Keys(sep, a)) == multiset(Keys(sep, b))
    ensures Elems(a) <= Elems(b)
  {
    var ka, kb := Keys(sep, a), Keys(sep, b);
    forall x | x in a ensures x in b {
      var m :| 0 <= m < |a| && a[m] == x;
      assert ka[m] in multiset(kb);
      var n :| 0 <= n < |kb| && kb[n] == ka[m];
      KeyWithInjective(sep, a[m], b[n]);
    }
  }

  /** Equal signatures mean equal item sets (the separator is not a digit and not `|`). */
  lemma SignatureDeterminesItems(sep: char, a: seq<Item>, b: seq<Item>)
    requires !('0' <= sep <= '9') && sep != '|'
    requires SignatureWith(sep, a) == SignatureWith(sep, b)
    ensures Elems(a) == Elems(b)
  {
    var ka, kb := Keys(sep, a), Keys(sep, b);
    var sa, sb := SortBy(ka, LexLe), SortBy(kb, LexLe);
    SortedKeysPlain(sep, a, sa);
    SortedKeysPlain(sep, b, sb);
    assert Join(sa, ['|']) == Join(sb, ['|']);
    JoinInjective(sa, sb, '|');
    assert multiset(ka) == multiset(sa) == multiset(sb) == multiset(kb);
    KeysCover(sep, a, b);
    KeysCover(sep, b, a);
  }

  /** For duplicate-free lists and a separator that is neither a digit nor `|`: equal signatures exactly when the same items. */
  lemma SignatureIffSameItems(sep: char, a: seq<Item>)
    requires !('0' <= sep <= '9') && sep != '|'
    ensures forall b :: Distinct(a) && Distinct(b) ==> (SignatureWith(sep, b) == SignatureWith(sep, a) <==> Elems(b) == Elems(a))
  {
    forall b | Distinct(a) && Distinct(b)
      ensures SignatureWith(sep, b) == SignatureWith(sep, a) <==> Elems(b) == Elems(a)
    {
      if SignatureWith(sep, b) == SignatureWith(sep, a) {
        SignatureDeterminesItems(sep, a, b);
      }
      if Elems(a) == Elems(b) {
        DistinctSameElements(a, b);
        SignaturePermutation(sep, a, b);
      }
    }
  }

  const Bullet: string := "\U{2022}"

  function Min(a: nat, b: nat): nat {
    if a <= b then a else b
  }

  /** `Array.prototype.slice(0, d)` / `slice(d)` clamp the index to the length. */
  function Before<T>(s: seq<T>, d: nat): seq<T> {
    s[..Min(d, |s|)]
  }

  function After<T>(s: seq<T>, d: nat): seq<T> {
    s[Min(d, |s|)..]
  }

  /** `itemToString`: `A -> x • y`, `A -> •` for an epsilon production, `[p@d]` for an unknown production. */
  function ItemToString(prods: seq<Production>, it: Item): (r: string)
    ensures it.prodId < |prods| ==> prods[it.prodId].left + " -> " <= r && Bullet[0] in r[|prods[it.prodId].left| + 4..]
    ensures it.prodId >= |prods| ==> r == "[" + ItemKey(it) + "]"
  {
    if it.prodId >= |prods| then "[" + ItemKey(it) + "]"
    else
      var p := prods[it.prodId];
      var before := Join(Before(p.right, it.dot), " ");
      var text := before + " " + Bullet + " " + Join(After(p.right, it.dot), " ");
      TrimKeepsChar(text, |before| + 1);
      var rhs := if |p.right| == 0 then Bullet else Trim(text);
      assert (p.left + " -> " + rhs)[|p.left| + 4..] == rhs;
      p.left + " -> " + rhs
  }

  /** Symbols as the tokenizers produce them: non-empty and free of white space. */
  predicate PlainSymbols(xs: seq<Symbol>) {
    forall k :: 0 <= k < |xs| ==> xs[k] != [] && NoWhitespace(xs[k])
  }

  lemma {:induction false} JoinEnds(xs: seq<string>)
    requires xs != [] && PlainSymbols(xs)
    ensures Join(xs, " ") != []
    ensures Join(xs, " ")[0] == xs[0][0]
    ensures Join(xs, " ")[|Join(xs, " ")| - 1] == xs[|xs| - 1][|xs[|xs| - 1]| - 1]
  {
    if |xs| > 1 {
      JoinEnds(xs[1..]);
    }
  }

  lemma JoinBulletFront(b: seq<string>)
    requires b != []
    ensures Join([Bullet] + b, " ") == Bullet + " " + Join(b, " ")
  {
    assert ([Bullet] + b)[1..] == b;
  }

  lemma RenderDotFirst(b: seq<string>)
    requires b != [] && PlainSymbols(b)
    ensures Trim(Join([], " ") + " " + Bullet + " " + Join(b, " ")) == Join([] + [Bullet] + b, " ")
  {
    JoinEnds(b);
    var mid := Bullet + " " + Join(b, " ");
    assert Join([], " ") + " " + Bullet + " " + Join(b, " ") == " " + mid + "";
    TrimSpaces(" ", mid, "");
    assert [] + [Bullet] + b == [Bullet] + b;
    JoinBulletFront(b);
  }

  lemma RenderDotLast(a: seq<string>)
    requires a != [] && PlainSymbols(a)
    ensures Trim(Join(a, " ") + " " + Bullet + " " + Join([], " ")) == Join(a + [Bullet] + [], " ")
  {
    JoinEnds(a);
    var mid := Join(a, " ") + " " + Bullet;
    assert Join(a, " ") + " " + Bullet + " " + Join([], " ") == "" + mid + " ";
    TrimSpaces("", mid, " ");
    assert a + [Bullet] + [] == a + [Bullet];
    JoinAppend(a, [Bullet], " ");
  }

  lemma RenderDotInside(a: seq<string>, b: seq<string>)
    requires a != [] && b != [] && PlainSymbols(a) && PlainSymbols(b)
    ensures Trim(Join(a, " ") + " " + Bullet + " " + Join(b, " ")) == Join(a + [Bullet] + b, " ")
  {
    JoinEnds(a);
    JoinEnds(b);
    var s := Join(a, " ") + " " + Bullet + " " + Join(b, " ");
    TrimUnchanged(s);
    JoinAppend(a, [Bullet] + b, " ");
    assert a + [Bullet] + b == a + ([Bullet] + b);
    JoinBulletFront(b);
  }

  /**
   * The rendering of a valid item: an epsilon production shows `A -> •`; otherwise the
   * right-hand side with the bullet inserted at the dot, all separated by single spaces.
   */
  lemma ItemToStringShape(prods: seq<Production>, it: Item)
    requires ValidItem(prods, it) && PlainSymbols(prods[it.prodId].right)
    ensures var p := prods[it.prodId];
      ItemToString(prods, it) == p.left + " -> " +
        if p.right == [] then Bullet else Join(p.right[..it.dot] + [Bullet] + p.right[it.dot..], " ")
  {
    var p := prods[it.prodId];
    if p.right != [] {
      var a, b := p.right[..it.dot], p.right[it.dot..];
      assert Before(p.right, it.dot) == a && After(p.right, it.dot) == b;
      assert PlainSymbols(a) && PlainSymbols(b);
      if a == [] {
        RenderDotFirst(b);
      } else if b == [] {
        RenderDotLast(a);
      } else {
        RenderDotInside(a, b);
      }
    }
  }
}
