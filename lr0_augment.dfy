/** `augmentGrammar` of src/core/lr0/augment.ts. */
module Augment {
  import opened Grammars
  import opened LR0Types

  /** k copies of the prime character. */
  function Primes(k: nat): (r: string)
    ensures |r| == k && forall i :: 0 <= i < k ==> r[i] == '\''
  {
    if k == 0 then [] else Primes(k - 1) + "'"
  }

  /** The longest symbol of a list. */
  function MaxLen(s: seq<Symbol>): (r: nat)
    ensures forall i :: 0 <= i < |s| ==> |s[i]| <= r
  {
    if s == [] then 0 else var m := MaxLen(s[1..]); if |s[0]| > m then |s[0]| else m
  }

  /** `start` followed by the fewest primes (at least one) that give a symbol of neither list. */
  ghost predicate IsFreshPrime(start: Symbol, nts: seq<Symbol>, ts: seq<Symbol>, p: Symbol) {
    && |p| > |start| && p == start + Primes(|p| - |start|)
    && p !in nts && p !in ts
    && forall k :: 1 <= k < |p| - |start| ==> start + Primes(k) in nts || start + Primes(k) in ts
  }

  /** The `while` loop that appends primes to `S'` until it is unused. */
  method FreshStartPrime(start: Symbol, nts: seq<Symbol>, ts: seq<Symbol>) returns (p: Symbol)
    ensures IsFreshPrime(start, nts, ts, p)
  {
    ghost var bound := MaxLen(nts + ts) + |start|;
    p := start + "'";
    assert p == start + Primes(1);
    while p in nts || p in ts
      invariant |p| > |start| && p == start + Primes(|p| - |start|)
      invariant forall k :: 1 <= k < |p| - |start| ==> start + Primes(k) in nts || start + Primes(k) in ts
      invariant |p| <= bound + 1
      decreases bound + 1 - |p|
    {
      assert p in nts + ts;
      ghost var k := |p| - |start|;
      p := p + "'";
      assert p == start + Primes(k + 1);
    }
  }

  /** What `augmentGrammar` promises, given the start symbol `p` it chose. */
  ghost predicate AugmentsWith(g: Grammar, p: Symbol, a: AugmentedGrammar) {
    && a.originalStartSymbol == g.startSymbol
    && a.startPrime == p
    && |a.productions| == |g.productions| + 1
    && a.productions[0] == Production(0, p, [g.startSymbol], p + " -> " + g.startSymbol)
    && (forall i :: 0 <= i < |g.productions| ==> a.productions[i + 1] == g.productions[i].(id := i + 1))
    && a.terminals == g.terminals
  }

  /** `augmentGrammar(grammar)`. */
  method AugmentGrammar(g: Grammar) returns (a: AugmentedGrammar)
    ensures IsFreshPrime(g.startSymbol, g.nonTerminals, g.terminals, a.startPrime)
    ensures AugmentsWith(g, a.startPrime, a)
    ensures a.nonTerminals == g.nonTerminals + [a.startPrime]
  {
    var p := FreshStartPrime(g.startSymbol, g.nonTerminals, g.terminals);
    var start := Production(0, p, [g.startSymbol], p + " -> " + g.startSymbol);
    var reindexed := seq(|g.productions|, i requires 0 <= i < |g.productions| => g.productions[i].(id := i + 1));
    a := AugmentedGrammar(g.startSymbol, p, [start] + reindexed, g.terminals, g.nonTerminals + [p]);
  }

  /** After augmentation every production id equals its position. */
  lemma AugmentedWellIndexed(g: Grammar, p: Symbol, a: AugmentedGrammar)
    requires AugmentsWith(g, p, a)
    ensures WellIndexed(a.productions)
  {
    forall i | 0 <= i < |a.productions| ensures a.productions[i].id == i {
      if i > 0 {
        assert a.productions[i] == g.productions[i - 1].(id := i);
      }
    }
  }

  /** The new start symbol collides with nothing, so the non-terminals grow by exactly one symbol. */
  lemma FreshStartIsNew(g: Grammar, a: AugmentedGrammar)
    requires IsFreshPrime(g.startSymbol, g.nonTerminals, g.terminals, a.startPrime)
    requires a.nonTerminals == g.nonTerminals + [a.startPrime]
    ensures Distinct(g.nonTerminals) ==> Distinct(a.nonTerminals)
  {
  }
}
