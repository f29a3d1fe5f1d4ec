/**
 * The JavaScript string built-ins the front end relies on: `String.prototype.includes`,
 * `trim`, the regular-expression class `\s`, `toUpperCase` and the decimal rendering of a
 * number inside a template literal.
 */
module Text {

  /** The characters ECMAScript counts as WhiteSpace or LineTerminator: what `\s` matches
      and what `trim` removes. */
  predicate IsWhitespace(c: char) {
    || c == '\t' || c == '\n' || c == '\U{000B}' || c == '\U{000C}' || c == '\r' || c == ' '
    || c == '\U{00A0}' || c == '\U{1680}' || ('\U{2000}' <= c <= '\U{200A}')
    || c == '\U{2028}' || c == '\U{2029}' || c == '\U{202F}' || c == '\U{205F}'
    || c == '\U{3000}' || c == '\U{FEFF}'
  }

  predicate AllWhitespace(s: string) {
    forall i :: 0 <= i < |s| ==> IsWhitespace(s[i])
  }

  predicate NoWhitespace(s: string) {
    forall i :: 0 <= i < |s| ==> !IsWhitespace(s[i])
  }

  // ---------------------------------------------------------------- includes

  /** `s.includes(part)`, scanning the start positions left to right. */
  function Includes(s: string, part: string): bool
    decreases |s|
  {
    part <= s || (s != [] && Includes(s[1..], part))
  }

  /** `part` is found in `s` starting at position `i`. */
  predicate OccursAt(s: string, part: string, i: int) {
    0 <= i <= |s| - |part| && s[i..i + |part|] == part
  }

  /** The scan agrees with the direct definition: `part` occurs at some position of `s`. */
  lemma {:induction false} IncludesIffOccurs(s: string, part: string)
    ensures Includes(s, part) <==> exists i :: OccursAt(s, part, i)
  {
    if part <= s {
      assert OccursAt(s, part, 0);
    } else if s == [] {
    } else {
      IncludesIffOccurs(s[1..], part);
      if Includes(s, part) {
        var i :| OccursAt(s[1..], part, i);
        assert s[i + 1..i + 1 + |part|] == s[1..][i..i + |part|];
        assert OccursAt(s, part, i + 1);
      }
      if exists i :: OccursAt(s, part, i) {
        var i :| OccursAt(s, part, i);
        assert i != 0;
        assert s[1..][i - 1..i - 1 + |part|] == s[i..i + |part|];
        assert OccursAt(s[1..], part, i - 1);
      }
    }
  }

  /** Whatever surrounds it, a text that contains `part` includes it. */
  lemma {:induction false} IncludesInfix(pre: string, part: string, post: string)
    ensures Includes(pre + part + post, part)
  {
    if pre == [] {
      assert pre + part + post == part + post;
      assert part <= part + post;
    } else {
      IncludesInfix(pre[1..], part, post);
      assert (pre + part + post)[1..] == pre[1..] + part + post;
    }
  }

  // ---------------------------------------------------------------- trim

  /** The length of the whitespace run `s` starts with. */
  function LeadingWhitespace(s: string): (n: nat)
    ensures n <= |s|
    ensures forall i :: 0 <= i < n ==> IsWhitespace(s[i])
    ensures n < |s| ==> !IsWhitespace(s[n])
    decreases |s|
  {
    if s != [] && IsWhitespace(s[0]) then 1 + LeadingWhitespace(s[1..]) else 0
  }

  /** The length of the whitespace run `s` ends with. */
  function TrailingWhitespace(s: string): (n: nat)
    ensures n <= |s|
    ensures forall i :: |s| - n <= i < |s| ==> IsWhitespace(s[i])
    ensures n < |s| ==> !IsWhitespace(s[|s| - n - 1])
    decreases |s|
  {
    if s != [] && IsWhitespace(s[|s| - 1]) then 1 + TrailingWhitespace(s[..|s| - 1]) else 0
  }

  /** The leading run is the only prefix made of whitespace and followed by none. */
  lemma LeadingUnique(s: string, n: nat)
    requires n <= |s|
    requires forall i :: 0 <= i < n ==> IsWhitespace(s[i])
    requires n < |s| ==> !IsWhitespace(s[n])
    ensures LeadingWhitespace(s) == n
  {
  }

  /** The text after the leading whitespace run. */
  function TrimStart(s: string): string {
    s[LeadingWhitespace(s)..]
  }

  /** `r` is what is left of `s` once the whitespace `s[..i]` and the whitespace after `r` are cut off. */
  predicate StrippedAt(s: string, r: string, i: int) {
    0 <= i <= |s| - |r| && s[i..i + |r|] == r && AllWhitespace(s[..i]) && AllWhitespace(s[i + |r|..])
  }

  /** `s.trim()`: the text between the leading and the trailing whitespace. */
  function Trim(s: string): (r: string)
    ensures exists i :: StrippedAt(s, r, i)
    ensures r == [] || (!IsWhitespace(r[0]) && !IsWhitespace(r[|r| - 1]))
    ensures r == [] <==> AllWhitespace(s)
  {
    var n := LeadingWhitespace(s);
    if n == |s| then
      assert StrippedAt(s, [], n);
      []
    else
      var m := TrailingWhitespace(s);
      assert n < |s| - m;
      var r := s[n..|s| - m];
      assert StrippedAt(s, r, n);
      assert r[0] == s[n];
      r
  }

  // ---------------------------------------------------------------- toUpperCase

  /** Upper case of one character, for the ASCII letters. */
  function UpperChar(c: char): char {
    if 'a' <= c <= 'z' then (c as int - 32) as char else c
  }

  /** `s.toUpperCase()`, restricted to ASCII letters. */
  function UpperCase(s: string): (r: string)
    ensures |r| == |s|
    ensures forall i :: 0 <= i < |s| ==> r[i] == UpperChar(s[i])
  {
    seq(|s|, i requires 0 <= i < |s| => UpperChar(s[i]))
  }

  /** Upper-casing keeps whitespace as it is and never produces whitespace from anything else. */
  lemma UpperCharKeepsWhitespace(c: char)
    ensures IsWhitespace(UpperChar(c)) <==> IsWhitespace(c)
  {
  }

  /** Upper-casing distributes over concatenation. */
  lemma UpperCaseAppend(a: string, b: string)
    ensures UpperCase(a + b) == UpperCase(a) + UpperCase(b)
  {
  }

  predicate NoLowerCase(s: string) {
    forall i :: 0 <= i < |s| ==> !('a' <= s[i] <= 'z')
  }

  /** The result of upper-casing has no lower-case letter, and text without one is left as it is. */
  lemma UpperCaseFixes(s: string)
    ensures NoLowerCase(UpperCase(s))
    ensures NoLowerCase(s) ==> UpperCase(s) == s
  {
  }

  // ---------------------------------------------------------------- replace(/\s+/g, '_')

  /** `s.replace(/\s+/g, '_')`: each maximal run of whitespace becomes one underscore. */
  function ReplaceWhitespaceRuns(s: string): (r: string)
    ensures NoWhitespace(r)
    ensures |r| <= |s|
    decreases |s|
  {
    if s == [] then []
    else if IsWhitespace(s[0]) then
      "_" + ReplaceWhitespaceRuns(s[LeadingWhitespace(s)..])
    else
      [s[0]] + ReplaceWhitespaceRuns(s[1..])
  }

  /** A whitespace run followed by non-whitespace is exactly the leading run. */
  lemma LeadingOfRun(w: string, b: string)
    requires AllWhitespace(w)
    requires b == [] || !IsWhitespace(b[0])
    ensures LeadingWhitespace(w + b) == |w|
    ensures (w + b)[|w|..] == b
  {
    LeadingUnique(w + b, |w|);
  }

  /** Text that is not all whitespace keeps its leading run when something is appended. */
  lemma LeadingOfPrefix(a: string, x: string)
    requires !AllWhitespace(a)
    ensures LeadingWhitespace(a + x) == LeadingWhitespace(a) < |a|
    ensures (a + x)[LeadingWhitespace(a)..] == a[LeadingWhitespace(a)..] + x
  {
    var n := LeadingWhitespace(a);
    assert n < |a|;
    LeadingUnique(a + x, n);
  }

  /** Unfolding of the replacement at a non-whitespace first character. */
  lemma ReplaceRunsKeep(c: char, s: string)
    requires !IsWhitespace(c)
    ensures ReplaceWhitespaceRuns([c] + s) == [c] + ReplaceWhitespaceRuns(s)
  {
    assert ([c] + s)[1..] == s;
  }

  /** The replacement is local to each run: a whitespace run between two non-whitespace
      neighbours becomes exactly one underscore, and the texts on either side are
      replaced independently. */
  lemma {:induction false} ReplaceRunsSplit(a: string, w: string, b: string)
    requires w != [] && AllWhitespace(w)
    requires a == [] || !IsWhitespace(a[|a| - 1])
    requires b == [] || !IsWhitespace(b[0])
    ensures ReplaceWhitespaceRuns(a + w + b) == ReplaceWhitespaceRuns(a) + "_" + ReplaceWhitespaceRuns(b)
    decreases |a|
  {
    if a == [] {
      SplitAtStart(w, b);
    } else if IsWhitespace(a[0]) {
      SplitAfterLeadingRun(a, w + b);
      var t := TrimStart(a);
      ReplaceRunsSplit(t, w, b);
      SplitStepAfterRun(a, t, w, b);
    } else {
      ReplaceRunsSplit(a[1..], w, b);
      SplitStepKeep(a, w, b);
    }
  }

  /** The base case of `ReplaceRunsSplit`: nothing before the run. */
  lemma SplitAtStart(w: string, b: string)
    requires w != [] && AllWhitespace(w)
    requires b == [] || !IsWhitespace(b[0])
    ensures ReplaceWhitespaceRuns([] + w + b) == ReplaceWhitespaceRuns([]) + "_" + ReplaceWhitespaceRuns(b)
  {
    assert [] + w + b == w + b;
    assert (w + b)[0] == w[0];
    LeadingOfRun(w, b);
    assert ReplaceWhitespaceRuns(w + b) == "_" + ReplaceWhitespaceRuns(b);
  }

  /** The step of `ReplaceRunsSplit` for text that starts with a non-whitespace character. */
  lemma SplitStepKeep(a: string, w: string, b: string)
    requires a != [] && !IsWhitespace(a[0])
    requires ReplaceWhitespaceRuns(a[1..] + w + b) == ReplaceWhitespaceRuns(a[1..]) + "_" + ReplaceWhitespaceRuns(b)
    ensures ReplaceWhitespaceRuns(a + w + b) == ReplaceWhitespaceRuns(a) + "_" + ReplaceWhitespaceRuns(b)
  {
    var rest := a[1..];
    ReplaceRunsKeep(a[0], rest + w + b);
    ReplaceRunsKeep(a[0], rest);
    assert a == [a[0]] + rest;
    ConcatAssoc([a[0]], rest, w);
    ConcatAssoc([a[0]], rest + w, b);
  }

  /** Regrouping of the concatenations in the leading-whitespace step of `ReplaceRunsSplit`. */
  lemma SplitStepAfterRun(a: string, t: string, w: string, b: string)
    requires ReplaceWhitespaceRuns(a + (w + b)) == "_" + ReplaceWhitespaceRuns(t + (w + b))
    requires ReplaceWhitespaceRuns(a) == "_" + ReplaceWhitespaceRuns(t)
    requires ReplaceWhitespaceRuns(t + w + b) == ReplaceWhitespaceRuns(t) + "_" + ReplaceWhitespaceRuns(b)
    ensures ReplaceWhitespaceRuns(a + w + b) == ReplaceWhitespaceRuns(a) + "_" + ReplaceWhitespaceRuns(b)
  {
    ConcatAssoc(a, w, b);
    ConcatAssoc(t, w, b);
  }

  /** Regrouping a concatenation, kept as a lemma so that the split steps above see only
      the one equation they need. */
  lemma ConcatAssoc(a: string, w: string, b: string)
    ensures a + w + b == a + (w + b)
  {
  }

  /** The step of `ReplaceRunsSplit` for text that starts with whitespace but ends without. */
  lemma SplitAfterLeadingRun(a: string, x: string)
    requires a != [] && IsWhitespace(a[0]) && !IsWhitespace(a[|a| - 1])
    ensures ReplaceWhitespaceRuns(a + x) == "_" + ReplaceWhitespaceRuns(TrimStart(a) + x)
    ensures ReplaceWhitespaceRuns(a) == "_" + ReplaceWhitespaceRuns(TrimStart(a))
    ensures TrimStart(a) != [] && |TrimStart(a)| < |a| && !IsWhitespace(TrimStart(a)[|TrimStart(a)| - 1])
  {
    assert !IsWhitespace(a[|a| - 1]);
    LeadingOfPrefix(a, x);
    assert (a + x)[0] == a[0];
  }

  /** Text without whitespace is left unchanged. */
  lemma {:induction false} ReplaceRunsNoWhitespace(s: string)
    requires NoWhitespace(s)
    ensures ReplaceWhitespaceRuns(s) == s
    decreases |s|
  {
    if s != [] {
      ReplaceRunsNoWhitespace(s[1..]);
    }
  }

  /** The replacement introduces no lower-case letter. */
  lemma {:induction false} ReplaceRunsNoLowerCase(s: string)
    requires NoLowerCase(s)
    ensures NoLowerCase(ReplaceWhitespaceRuns(s))
    decreases |s|
  {
    if s != [] {
      if IsWhitespace(s[0]) {
        ReplaceRunsNoLowerCase(s[LeadingWhitespace(s)..]);
      } else {
        ReplaceRunsNoLowerCase(s[1..]);
      }
    }
  }

  // ---------------------------------------------------------------- decimal rendering

  predicate IsDigit(c: char) {
    '0' <= c <= '9'
  }

  predicate AllDigits(s: string) {
    forall i :: 0 <= i < |s| ==> IsDigit(s[i])
  }

  function DigitChar(d: nat): char
    requires d < 10
  {
    ('0' as int + d) as char
  }

  /** The decimal digits of `n` without leading zeros, as `${n}` renders a non-negative number. */
  function NatToDecimal(n: nat): (r: string)
    ensures r != [] && AllDigits(r)
    ensures r[0] == '0' ==> n == 0
    decreases n
  {
    if n < 10 then [DigitChar(n)] else NatToDecimal(n / 10) + [DigitChar(n % 10)]
  }

  /** `${i}` for an integer: a minus sign before the digits of a negative number. */
  function IntToDecimal(i: int): (r: string)
    ensures r != []
    ensures i < 0 <==> r[0] == '-'
  {
    if i < 0 then "-" + NatToDecimal(-i) else NatToDecimal(i)
  }

  /** The value of a string of decimal digits. */
  function DecimalValue(s: string): nat
    requires AllDigits(s)
    decreases |s|
  {
    if s == [] then 0 else DecimalValue(s[..|s| - 1]) * 10 + (s[|s| - 1] as int - '0' as int)
  }

  /** Reading back the rendered digits gives the number again. */
  lemma {:induction false} DecimalRoundTrip(n: nat)
    ensures DecimalValue(NatToDecimal(n)) == n
    decreases n
  {
    if n >= 10 {
      DecimalRoundTrip(n / 10);
      var r := NatToDecimal(n);
      assert r[..|r| - 1] == NatToDecimal(n / 10);
    }
  }

  /** Distinct integers render as distinct texts. */
  lemma IntToDecimalInjective(a: int, b: int)
    requires IntToDecimal(a) == IntToDecimal(b)
    ensures a == b
  {
    if a < 0 {
      assert IntToDecimal(a)[1..] == NatToDecimal(-a);
      assert IntToDecimal(b)[1..] == NatToDecimal(-b);
      DecimalRoundTrip(-a);
      DecimalRoundTrip(-b);
    } else {
      DecimalRoundTrip(a);
      DecimalRoundTrip(b);
    }
  }
}
