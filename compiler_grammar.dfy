/**
 * The right-hand-side tokenizer `getTokens` of src/lib/compiler/grammar.ts: white space
 * separates tokens, each of `+ * ( ) $ |` is a token of its own, and every other token is a
 * maximal run of the remaining characters.
 */
module CompilerTokens {
  import opened Strings

  /** The members of the `SINGLE` set. */
  predicate IsSingle(c: char) {
    c == '+' || c == '*' || c == '(' || c == ')' || c == '$' || c == '|'
  }

  /** A character that ends a run: white space or a single-character token. */
  predicate IsDelimiter(c: char) {
    IsSingle(c) || IsWhitespace(c)
  }

  /** What a token looks like: one single character, or a non-empty run without delimiters. */
  predicate TokenOk(t: string) {
    || (|t| == 1 && IsSingle(t[0]))
    || (t != [] && forall k :: 0 <= k < |t| ==> !IsDelimiter(t[k]))
  }

  /** Length of the longest prefix of `s` without delimiters. */
  function RunLen(s: string): (n: nat)
    ensures n <= |s|
    ensures forall k :: 0 <= k < n ==> !IsDelimiter(s[k])
    ensures n == |s| || IsDelimiter(s[n])
  {
    if s == [] || IsDelimiter(s[0]) then 0 else 1 + RunLen(s[1..])
  }

  /** The tokens of `s`, read from the front as the outer loop does. */
  function Tokens(s: string): seq<string>
    decreases |s|
  {
    if s == [] then []
    else if IsWhitespace(s[0]) then Tokens(s[1..])
    else if IsSingle(s[0]) then [[s[0]]] + Tokens(s[1..])
    else
      var n := RunLen(s);
      [s[..n]] + Tokens(s[n..])
  }

  /** The inner loop: from `i`, the end of the run of non-delimiters. */
  method ReadRun(str: string, i: nat) returns (j: nat)
    requires i <= |str|
    ensures j == i + RunLen(str[i..])
  {
    j := i;
    while j < |str| && !IsSingle(str[j]) && !IsWhitespace(str[j])
      invariant i <= j <= |str|
      invariant (j - i) + RunLen(str[j..]) == RunLen(str[i..])
      decreases |str| - j
    {
      assert str[j..][1..] == str[j + 1..];
      j := j + 1;
    }
  }

  /** One iteration of the outer loop reads the next token at `i`, if any. */
  lemma NextTokens(str: string, i: nat)
    requires i < |str|
    ensures IsWhitespace(str[i]) ==> Tokens(str[i..]) == Tokens(str[i + 1..])
    ensures !IsWhitespace(str[i]) && IsSingle(str[i]) ==> Tokens(str[i..]) == [[str[i]]] + Tokens(str[i + 1..])
    ensures !IsDelimiter(str[i]) ==> var j := i + RunLen(str[i..]);
      j > i && Tokens(str[i..]) == [str[i..j]] + Tokens(str[j..])
  {
    assert str[i..][1..] == str[i + 1..];
    var j := i + RunLen(str[i..]);
    assert str[i..][..j - i] == str[i..j] && str[i..][j - i..] == str[j..];
  }

  lemma Advance(str: string, tokens: seq<string>, i: nat, t: seq<string>, j: nat)
    requires i <= j <= |str|
    requires tokens + Tokens(str[i..]) == Tokens(str) && Tokens(str[i..]) == t + Tokens(str[j..])
    ensures (tokens + t) + Tokens(str[j..]) == Tokens(str)
  {
  }

  /** `getTokens(str)`. */
  method GetTokens(str: string) returns (tokens: seq<string>)
    ensures tokens == Tokens(str)
  {
    tokens := [];
    var i := 0;
    while i < |str|
      invariant 0 <= i <= |str|
      invariant tokens + Tokens(str[i..]) == Tokens(str)
      decreases |str| - i
    {
      var c := str[i];
      NextTokens(str, i);
      if IsWhitespace(c) {
        Advance(str, tokens, i, [], i + 1);
        assert tokens + [] == tokens;
        i := i + 1;
        continue;
      }
      if IsSingle(c) {
        Advance(str, tokens, i, [[c]], i + 1);
        tokens := tokens + [[c]];
        i := i + 1;
        continue;
      }
      var j := ReadRun(str, i);
      if j > i {
        Advance(str, tokens, i, [str[i..j]], j);
        tokens := tokens + [str[i..j]];
        i := j;
      } else {
        assert false;
      }
    }
    assert str[|str|..] == [];
  }

  /** Every token is a single character or a non-empty delimiter-free run; none is empty or holds white space. */
  lemma {:induction false} TokensOk(s: string)
    ensures forall t :: t in Tokens(s) ==> TokenOk(t)
    ensures forall t :: t in Tokens(s) ==> t != [] && NoWhitespace(t)
    decreases |s|
  {
    if s != [] {
      if IsWhitespace(s[0]) || IsSingle(s[0]) {
        TokensOk(s[1..]);
      } else {
        TokensOk(s[RunLen(s)..]);
      }
    }
  }

  /** Joined together, the tokens give back the input without its white space. */
  lemma {:induction false} TokensConcat(s: string)
    ensures Concat(Tokens(s)) == RemoveWhitespace(s)
    decreases |s|
  {
    if s != [] {
      if IsWhitespace(s[0]) || IsSingle(s[0]) {
        TokensConcat(s[1..]);
      } else {
        var n := RunLen(s);
        TokensConcat(s[n..]);
        assert s == s[..n] + s[n..];
        RemoveWhitespaceAppend(s[..n], s[n..]);
        RemoveWhitespaceNone(s[..n]);
      }
    }
  }

  /** White space in front adds no token. */
  lemma SkipWhitespace(c: char, rest: string)
    requires IsWhitespace(c)
    ensures Tokens([c] + rest) == Tokens(rest)
  {
    assert ([c] + rest)[1..] == rest;
  }

  /** A single-character delimiter in front is a token of its own. */
  lemma SingleToken(c: char, rest: string)
    requires IsSingle(c)
    ensures Tokens([c] + rest) == [[c]] + Tokens(rest)
  {
    assert ([c] + rest)[1..] == rest;
  }

  lemma {:induction false} RunLenPrefix(a: string, b: string)
    requires forall k :: 0 <= k < |a| ==> !IsDelimiter(a[k])
    requires b == [] || IsDelimiter(b[0])
    ensures RunLen(a + b) == |a|
    decreases |a|
  {
    if a == [] {
      assert a + b == b;
    } else {
      assert (a + b)[1..] == a[1..] + b;
      RunLenPrefix(a[1..], b);
    }
  }

  /** A run ended by a delimiter or by the end of the input is read whole, as one token. */
  lemma RunToken(a: string, b: string)
    requires a != [] && forall k :: 0 <= k < |a| ==> !IsDelimiter(a[k])
    requires b == [] || IsDelimiter(b[0])
    ensures Tokens(a + b) == [a] + Tokens(b)
  {
    RunLenPrefix(a, b);
    assert (a + b)[0] == a[0];
    assert (a + b)[..|a|] == a && (a + b)[|a|..] == b;
  }

  lemma {:induction false} RunLenIsRunLength(s: string)
    requires forall k :: 0 <= k < |s| ==> !IsSingle(s[k])
    ensures RunLen(s) == RunLength(s)
    decreases |s|
  {
    if s != [] {
      RunLenIsRunLength(s[1..]);
    }
  }

  /** Without any of `+ * ( ) $ |`, the tokens are the white-space separated words. */
  lemma {:induction false} TokensAreWords(s: string)
    requires forall k :: 0 <= k < |s| ==> !IsSingle(s[k])
    ensures Tokens(s) == Words(s)
    decreases |s|
  {
    if s != [] {
      RunLenIsRunLength(s);
      var n := if IsWhitespace(s[0]) then 1 else RunLen(s);
      assert forall k :: 0 <= k < |s[n..]| ==> s[n..][k] == s[n + k];
      TokensAreWords(s[n..]);
    }
  }
}
