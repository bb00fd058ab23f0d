/**
 * The grammar value shared by every stage (src/type/grammar.ts, and the
 * identical types of src/lib/compiler/grammar.ts), and the editor rows a
 * grammar is built from.
 */
module Grammars {
  import opened Wrappers

  type Symbol = string

  /** `right == []` is an epsilon production; `raw` is the display text. */
  datatype Production = Production(id: int, left: Symbol, right: seq<Symbol>, raw: string)

  /** The two JavaScript `Set`s are duplicate-free lists in insertion order. */
  datatype Grammar = Grammar(
    startSymbol: Symbol,
    nonTerminals: seq<Symbol>,
    terminals: seq<Symbol>,
    productions: seq<Production>)

  /** One editor row: a left-hand side, its alternatives and the epsilon checkbox. */
  datatype GrammarRow = GrammarRow(id: string, left: string, right: seq<string>, hasEpsilon: bool)

  datatype Field = Lhs | Rhs

  datatype BuildError = BuildError(rowId: string, message: string, field: Option<Field>, altIndex: Option<nat>)

  predicate Distinct<T(==)>(s: seq<T>) {
    forall i, j :: 0 <= i < j < |s| ==> s[i] != s[j]
  }

  /** The elements of a list, as a set. */
  function Elems<T>(s: seq<T>): set<T> {
    set x | x in s
  }

  lemma ElemsAppend<T>(s: seq<T>, x: T)
    ensures Elems(s + [x]) == Elems(s) + {x}
  {
  }

  /** A prefix one longer is the prefix followed by the next element. */
  lemma TakeOneMore<T>(s: seq<T>, j: nat)
    requires j < |s|
    ensures s[..j + 1] == s[..j] + [s[j]]
  {
  }

  lemma ConcatAssoc<T>(a: seq<T>, b: seq<T>, c: seq<T>)
    ensures a + (b + c) == a + b + c
  {
  }

  lemma TakeAll<T>(s: seq<T>)
    ensures s[..|s|] == s
  {
  }

  /** Dropping the head of a suffix gives the next suffix. */
  lemma DropHead<T>(s: seq<T>, q: seq<T>, h: nat)
    requires h <= |s| && q == s[h..] && q != []
    ensures q[1..] == s[h + 1..]
  {
  }
}
