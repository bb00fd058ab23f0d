/**
 * The tolerant right-hand-side tokenizer of src/utils/parse.ts (`getTokens`, exported again as
 * `tokenizeRhsTolerant`) and `splitGrammar`. As written, the tokenizer's loop makes no progress
 * on a character outside its classes; `StepAsWritten` and `RunAsWritten` model that, and
 * `Tokens`/`GetTokens` the version that steps over such a character.
 */
module UtilsParse {
  import opened Wrappers
  import opened Strings

  /** `str.split("|").map(s => s.trim())`, then the filter, which keeps every segment. */
  function SplitGrammar(str: string): (r: seq<string>)
    ensures r == TrimAll(SplitOn(str, '|'))
  {
    var trimmed := TrimAll(SplitOn(str, '|'));
    FilterKeepsAll(trimmed);
    Filter(trimmed)
  }

  /** `.map(s => s.trim())`. */
  function TrimAll(xs: seq<string>): (r: seq<string>)
    ensures |r| == |xs|
    ensures forall k :: 0 <= k < |xs| ==> r[k] == Trim(xs[k])
  {
    if xs == [] then [] else [Trim(xs[0])] + TrimAll(xs[1..])
  }

  /** The filter's test `s.length > 0 || s === ""`. */
  predicate Kept(s: string) {
    |s| > 0 || s == ""
  }

  function Filter(xs: seq<string>): seq<string> {
    if xs == [] then [] else (if Kept(xs[0]) then [xs[0]] else []) + Filter(xs[1..])
  }

  lemma {:induction false} FilterKeepsAll(xs: seq<string>)
    ensures Filter(xs) == xs
  {
    if xs != [] {
      FilterKeepsAll(xs[1..]);
    }
  }

  /**
   * One segment per `|`-separated piece of the input, in order, each the piece trimmed: it holds
   * no `|` and neither starts nor ends with white space.
   */
  lemma SplitGrammarSegments(str: string)
    ensures |SplitGrammar(str)| == CountChar(str, '|') + 1
    ensures Join(SplitOn(str, '|'), "|") == str
    ensures forall k :: 0 <= k < |SplitGrammar(str)| ==> SplitGrammar(str)[k] == Trim(SplitOn(str, '|')[k])
    ensures forall k :: 0 <= k < |SplitGrammar(str)| ==> SegmentOk(SplitGrammar(str)[k])
  {
    var pieces := SplitOn(str, '|');
    var r := SplitGrammar(str);
    forall k | 0 <= k < |r| ensures SegmentOk(r[k]) {
      TrimInside(pieces[k]);
      assert '|' !in pieces[k];
    }
  }

  /** No `|`, and no white space at either end. */
  predicate SegmentOk(seg: string) {
    && '|' !in seg
    && (seg == [] || (!IsWhitespace(seg[0]) && !IsWhitespace(seg[|seg| - 1])))
  }

  lemma TrimInside(s: string)
    ensures forall c :: c in Trim(s) ==> c in s
  {
    var t := TrimStart(s);
    TrimStartShape(s);
    TrimEndShape(t);
    assert forall c :: c in t ==> c in s by {
      forall c | c in t ensures c in s {
        var k :| 0 <= k < |t| && t[k] == c;
        assert s[|s| - |t| + k] == c;
      }
    }
  }

  /** The white space `getTokens` skips: space, tab, newline and carriage return only. */
  predicate IsSkipped(c: char) {
    c == ' ' || c == '\t' || c == '\n' || c == '\r'
  }

  /** The members of `SINGLE`. */
  predicate IsSingle(c: char) {
    c == '(' || c == ')' || c == '+' || c == '*' || c == '-' || c == '/' || c == '[' || c == ']'
  }

  /** `isVar`: a letter, a digit, `_` or `'`. */
  predicate IsVar(c: char) {
    ('a' <= c <= 'z') || ('A' <= c <= 'Z') || ('0' <= c <= '9') || c == '_' || c == '\''
  }

  /** A character one of the three branches handles. */
  predicate Recognised(c: char) {
    IsSkipped(c) || IsSingle(c) || IsVar(c)
  }

  /** Length of the longest prefix of `s` made of `isVar` characters. */
  function VarRun(s: string): (n: nat)
    ensures n <= |s|
    ensures forall k :: 0 <= k < n ==> IsVar(s[k])
    ensures n == |s| || !IsVar(s[n])
  {
    if s == [] || !IsVar(s[0]) then 0 else 1 + VarRun(s[1..])
  }

  /** The loop variables `i` and `tokens`. */
  datatype Iter = Iter(i: nat, tokens: seq<string>)

  /** One pass of the loop body as written: a character outside the three classes leaves `i` where it is. */
  function StepAsWritten(str: string, it: Iter): (r: Iter)
    requires it.i < |str|
    ensures it.i <= r.i <= |str|
    ensures r.i == it.i <==> !Recognised(str[it.i])
  {
    var i, c := it.i, str[it.i];
    if IsSkipped(c) then Iter(i + 1, it.tokens)
    else if IsSingle(c) then Iter(i + 1, it.tokens + [[c]])
    else if IsVar(c) then
      var j := i + VarRun(str[i..]);
      Iter(j, it.tokens + [str[i..j]])
    else it
  }

  /** The loop as written, for at most `fuel` passes; `None` when it has not finished by then. */
  function RunAsWritten(str: string, it: Iter, fuel: nat): (r: Option<seq<string>>)
    requires it.i <= |str|
    ensures r.Some? ==> it.tokens <= r.value
    decreases fuel
  {
    if it.i == |str| then Some(it.tokens)
    else if fuel == 0 then None
    else RunAsWritten(str, StepAsWritten(str, it), fuel - 1)
  }

  /**
   * As written, an unrecognised character at `p` stops all progress: a run of `isVar`
   * characters ends before it, so `i` reaches `p` and stays there, and no amount of passes ends the loop.
   */
  lemma {:induction false} StallAsWritten(str: string, p: nat, it: Iter, fuel: nat)
    requires p < |str| && !Recognised(str[p]) && it.i <= p
    ensures RunAsWritten(str, it, fuel) == None
    decreases fuel
  {
    if fuel > 0 {
      var next := StepAsWritten(str, it);
      if IsVar(str[it.i]) {
        var n := VarRun(str[it.i..]);
        assert str[it.i..][p - it.i] == str[p];
      }
      StallAsWritten(str, p, next, fuel - 1);
    }
  }

  /** For instance `a $`, with `$` at index 2, never finishes. */
  lemma StallExample(fuel: nat)
    ensures RunAsWritten("a $", Iter(0, []), fuel) == None
  {
    StallAsWritten("a $", 2, Iter(0, []), fuel);
  }

  /** The tokens with an unrecognised character stepped over, read from the front. */
  function Tokens(s: string): seq<string>
    decreases |s|
  {
    if s == [] then []
    else if IsSkipped(s[0]) then Tokens(s[1..])
    else if IsSingle(s[0]) then [[s[0]]] + Tokens(s[1..])
    else if IsVar(s[0]) then
      var n := VarRun(s);
      [s[..n]] + Tokens(s[n..])
    else Tokens(s[1..])
  }

  /** Where every character is recognised, the loop as written ends within `|str|` passes, with `Tokens`. */
  lemma {:induction false} AsWrittenOnAlphabet(str: string, it: Iter, fuel: nat)
    requires forall k :: 0 <= k < |str| ==> Recognised(str[k])
    requires it.i <= |str| && fuel >= |str| - it.i
    ensures RunAsWritten(str, it, fuel) == Some(it.tokens + Tokens(str[it.i..]))
    decreases |str| - it.i
  {
    if it.i == |str| {
      assert str[it.i..] == [];
      assert it.tokens + Tokens([]) == it.tokens;
    } else {
      var next := StepAsWritten(str, it);
      StepKeepsTokens(str, it);
      AsWrittenOnAlphabet(str, next, fuel - 1);
    }
  }

  /**
   * As written, a string that does not start with skipped white space either never finishes
   * or gives at least one token: the loop cannot come back with no tokens.
   */
  lemma AsWrittenSomeToken(str: string, fuel: nat)
    requires str != [] && !IsSkipped(str[0])
    ensures RunAsWritten(str, Iter(0, []), fuel) == None || RunAsWritten(str, Iter(0, []), fuel).value != []
  {
    if !Recognised(str[0]) {
      StallAsWritten(str, 0, Iter(0, []), fuel);
    } else if fuel > 0 {
      var next := StepAsWritten(str, Iter(0, []));
      assert |next.tokens| == 1;
    }
  }

  /** A trimmed non-empty alternative, as written, never comes back with no tokens. */
  lemma TrimmedAsWritten(alt: string, fuel: nat)
    ensures var s := Trim(alt);
      s != [] ==> RunAsWritten(s, Iter(0, []), fuel) == None || RunAsWritten(s, Iter(0, []), fuel).value != []
  {
    var s := Trim(alt);
    if s != [] {
      AsWrittenSomeToken(s, fuel);
    }
  }

  /** A pass on a recognised character moves tokens from the remaining ones to the collected ones. */
  lemma StepKeepsTokens(str: string, it: Iter)
    requires it.i < |str| && Recognised(str[it.i])
    ensures var next := StepAsWritten(str, it);
      next.tokens + Tokens(str[next.i..]) == it.tokens + Tokens(str[it.i..])
  {
    NextTokens(str, it.i);
    var next := StepAsWritten(str, it);
    var c := str[it.i];
    if IsSkipped(c) {
      assert next.tokens == it.tokens;
    } else if IsSingle(c) {
      assert next.tokens + Tokens(str[next.i..]) == it.tokens + ([[c]] + Tokens(str[next.i..]));
    } else {
      var j := next.i;
      assert next.tokens + Tokens(str[j..]) == it.tokens + ([str[it.i..j]] + Tokens(str[j..]));
    }
  }

  /** What one pass does to the remaining tokens. */
  lemma NextTokens(str: string, i: nat)
    requires i < |str|
    ensures var c, rest := str[i], Tokens(str[i..]);
      && (IsSkipped(c) ==> rest == Tokens(str[i + 1..]))
      && (!IsSkipped(c) && IsSingle(c) ==> rest == [[c]] + Tokens(str[i + 1..]))
      && (!IsSkipped(c) && !IsSingle(c) && IsVar(c) ==>
            var j := i + VarRun(str[i..]); j > i && rest == [str[i..j]] + Tokens(str[j..]))
      && (!Recognised(c) ==> rest == Tokens(str[i + 1..]))
  {
    assert str[i..][1..] == str[i + 1..];
    var j := i + VarRun(str[i..]);
    assert str[i..][..j - i] == str[i..j] && str[i..][j - i..] == str[j..];
  }

  /** The inner loop, started one past a character of a run. */
  method ReadVar(str: string, i: nat) returns (j: nat)
    requires i < |str| && IsVar(str[i])
    ensures j == i + VarRun(str[i..])
  {
    assert str[i..][1..] == str[i + 1..];
    j := i + 1;
    while j < |str| && IsVar(str[j])
      invariant i < j <= |str|
      invariant (j - i) + VarRun(str[j..]) == VarRun(str[i..])
      decreases |str| - j
    {
      assert str[j..][1..] == str[j + 1..];
      j := j + 1;
    }
  }

  lemma Advance(str: string, tokens: seq<string>, i: nat, t: seq<string>, j: nat)
    requires i <= j <= |str|
    requires tokens + Tokens(str[i..]) == Tokens(str) && Tokens(str[i..]) == t + Tokens(str[j..])
    ensures (tokens + t) + Tokens(str[j..]) == Tokens(str)
  {
  }

  /** `getTokens(str)` with a final branch that steps over an unrecognised character. */
  method GetTokens(str: string) returns (tokens: seq<string>)
    ensures tokens == Tokens(str)
  {
    tokens := [];
    var i := 0;
    while i < |str|
      invariant 0 <= i <= |str|
      invariant tokens + Tokens(str[i..]) == Tokens(str)
      decreases |str| - i
    {
      var c := str[i];
      NextTokens(str, i);
      if IsSkipped(c) {
        Advance(str, tokens, i, [], i + 1);
        assert tokens + [] == tokens;
        i := i + 1;
        continue;
      }
      if IsSingle(c) {
        Advance(str, tokens, i, [[c]], i + 1);
        tokens := tokens + [[c]];
        i := i + 1;
        continue;
      }
      if IsVar(c) {
        var j := ReadVar(str, i);
        Advance(str, tokens, i, [str[i..j]], j);
        tokens := tokens + [str[i..j]];
        i := j;
        continue;
      }
      Advance(str, tokens, i, [], i + 1);
      assert tokens + [] == tokens;
      i := i + 1;
    }
    assert str[|str|..] == [];
  }

  /** A token is one `SINGLE` character or a non-empty run of `isVar` characters. */
  predicate TokenOk(t: string) {
    || (|t| == 1 && IsSingle(t[0]))
    || (t != [] && forall k :: 0 <= k < |t| ==> IsVar(t[k]))
  }

  lemma {:induction false} TokensOk(s: string)
    ensures forall t :: t in Tokens(s) ==> TokenOk(t)
    decreases |s|
  {
    if s != [] {
      if IsVar(s[0]) && !IsSkipped(s[0]) && !IsSingle(s[0]) {
        TokensOk(s[VarRun(s)..]);
      } else {
        TokensOk(s[1..]);
      }
    }
  }

  /** No character of `s` is `SINGLE` or `isVar`. */
  predicate NoTokenChar(s: string) {
    forall k :: 0 <= k < |s| ==> !IsSingle(s[k]) && !IsVar(s[k])
  }

  /** A string has no tokens exactly when none of its characters is `SINGLE` or `isVar`. */
  lemma {:induction false} TokensEmpty(s: string)
    ensures Tokens(s) == [] <==> NoTokenChar(s)
    decreases |s|
  {
    if s != [] && !IsSingle(s[0]) && !IsVar(s[0]) {
      TokensEmpty(s[1..]);
      assert forall k :: 1 <= k < |s| ==> s[k] == s[1..][k - 1];
    }
  }

  /** A character as it ends up in the tokens: itself when it is `SINGLE` or `isVar`, and nothing otherwise. */
  function TokenChar(c: char): string {
    if IsSingle(c) || IsVar(c) then [c] else []
  }

  /** The characters that end up in some token. */
  function TokenChars(s: string): string {
    if s == [] then [] else TokenChar(s[0]) + TokenChars(s[1..])
  }

  /** The input without the skipped white space. */
  function RemoveSkipped(s: string): string {
    if s == [] then [] else (if IsSkipped(s[0]) then [] else [s[0]]) + RemoveSkipped(s[1..])
  }

  lemma {:induction false} TokenCharsAppend(a: string, b: string)
    ensures TokenChars(a + b) == TokenChars(a) + TokenChars(b)
  {
    if a == [] {
      assert a + b == b;
    } else {
      assert (a + b)[0] == a[0] && (a + b)[1..] == a[1..] + b;
      TokenCharsAppend(a[1..], b);
      assert TokenChar(a[0]) + (TokenChars(a[1..]) + TokenChars(b)) == TokenChar(a[0]) + TokenChars(a[1..]) + TokenChars(b);
    }
  }

  lemma {:induction false} TokenCharsVar(a: string)
    requires forall k :: 0 <= k < |a| ==> IsVar(a[k])
    ensures TokenChars(a) == a
  {
    if a != [] {
      TokenCharsVar(a[1..]);
    }
  }

  /** Joined together, the tokens are the input's characters that are `SINGLE` or `isVar`, in order. */
  lemma {:induction false} TokensConcat(s: string)
    ensures Concat(Tokens(s)) == TokenChars(s)
    decreases |s|
  {
    if s != [] {
      if IsVar(s[0]) && !IsSkipped(s[0]) && !IsSingle(s[0]) {
        var n := VarRun(s);
        TokensConcat(s[n..]);
        assert s == s[..n] + s[n..];
        TokenCharsAppend(s[..n], s[n..]);
        TokenCharsVar(s[..n]);
      } else {
        TokensConcat(s[1..]);
      }
    }
  }

  /** When every character is recognised, the tokens joined are the input minus the skipped white space. */
  lemma {:induction false} TokensConcatOnAlphabet(s: string)
    requires forall k :: 0 <= k < |s| ==> Recognised(s[k])
    ensures Concat(Tokens(s)) == RemoveSkipped(s)
  {
    TokensConcat(s);
    TokenCharsOnAlphabet(s);
  }

  lemma {:induction false} TokenCharsOnAlphabet(s: string)
    requires forall k :: 0 <= k < |s| ==> Recognised(s[k])
    ensures TokenChars(s) == RemoveSkipped(s)
  {
    if s != [] {
      TokenCharsOnAlphabet(s[1..]);
    }
  }

  lemma {:induction false} VarRunPrefix(a: string, b: string)
    requires forall k :: 0 <= k < |a| ==> IsVar(a[k])
    requires b == [] || !IsVar(b[0])
    ensures VarRun(a + b) == |a|
    decreases |a|
  {
    if a == [] {
      assert a + b == b;
    } else {
      assert (a + b)[1..] == a[1..] + b;
      VarRunPrefix(a[1..], b);
    }
  }

  /** A run of `isVar` characters followed by anything else, or by the end, is read whole as one token. */
  lemma RunToken(a: string, b: string)
    requires a != [] && forall k :: 0 <= k < |a| ==> IsVar(a[k])
    requires b == [] || !IsVar(b[0])
    ensures Tokens(a + b) == [a] + Tokens(b)
  {
    VarRunPrefix(a, b);
    assert (a + b)[0] == a[0];
    assert (a + b)[..|a|] == a && (a + b)[|a|..] == b;
  }

  /** Skipped white space and an unrecognised character add no token; a `SINGLE` character is a token of its own. */
  lemma FrontChar(c: char, rest: string)
    ensures (IsSkipped(c) || !Recognised(c)) ==> Tokens([c] + rest) == Tokens(rest)
    ensures IsSingle(c) ==> Tokens([c] + rest) == [[c]] + Tokens(rest)
  {
    assert ([c] + rest)[1..] == rest;
  }
}
