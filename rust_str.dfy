/**
 * The parts of Rust's `str` API that the converter relies on, written out
 * character by character: `replace` (with a `&str` and with a `char`
 * pattern), `trim`, `trim_end_matches`, `repeat`, and the decimal
 * formatting of a `usize` by `format!("{}", n)`.
 */
module RustStr {

  /** Rust's `char::is_whitespace`: the characters with the Unicode White_Space property. */
  predicate IsWhitespace(c: char) {
    ('\t' <= c <= '\r') || c == ' ' || c == '\U{0085}' || c == '\U{00A0}' || c == '\U{1680}'
    || ('\U{2000}' <= c <= '\U{200A}') || c == '\U{2028}' || c == '\U{2029}'
    || c == '\U{202F}' || c == '\U{205F}' || c == '\U{3000}'
  }

  predicate StartsWith(s: string, p: string) {
    |p| <= |s| && s[..|p|] == p
  }

  predicate EndsWith(s: string, p: string) {
    |p| <= |s| && s[|s| - |p|..] == p
  }

  // ---------------------------------------------------------------------------
  // replace
  // ---------------------------------------------------------------------------

  /**
   * `s.replace(pat, rep)` with a string pattern: one left-to-right pass that
   * replaces each leftmost non-overlapping occurrence of `pat`. With an empty
   * pattern Rust inserts `rep` at every character boundary.
   */
  function Replace(s: string, pat: string, rep: string): (r: string)
    ensures 0 < |pat| && |rep| <= |pat| ==> |r| <= |s|
    decreases |s|
  {
    if |pat| == 0 then
      if s == [] then rep else rep + [s[0]] + Replace(s[1..], pat, rep)
    else if StartsWith(s, pat) then rep + Replace(s[|pat|..], pat, rep)
    else if s == [] then []
    else [s[0]] + Replace(s[1..], pat, rep)
  }

  /** `s.replace(c, rep)` with a `char` pattern: every `c` becomes `rep`. */
  function ReplaceChar(s: string, c: char, rep: string): (r: string)
    ensures c !in rep ==> c !in r
    ensures forall x :: x in r ==> (x in s && x != c) || x in rep
  {
    if s == [] then [] else (if s[0] == c then rep else [s[0]]) + ReplaceChar(s[1..], c, rep)
  }

  lemma {:induction false} ReplaceCharAppend(a: string, b: string, c: char, rep: string)
    ensures ReplaceChar(a + b, c, rep) == ReplaceChar(a, c, rep) + ReplaceChar(b, c, rep)
  {
    if a != [] {
      var x := a + b;
      var head := if a[0] == c then rep else [a[0]];
      assert x[0] == a[0] && x[1..] == a[1..] + b;
      assert ReplaceChar(x, c, rep) == head + ReplaceChar(a[1..] + b, c, rep);
      ReplaceCharAppend(a[1..], b, c, rep);
      assert ReplaceChar(a, c, rep) == head + ReplaceChar(a[1..], c, rep);
      assert head + (ReplaceChar(a[1..], c, rep) + ReplaceChar(b, c, rep))
          == (head + ReplaceChar(a[1..], c, rep)) + ReplaceChar(b, c, rep);
    } else {
      assert a + b == b;
    }
  }

  lemma ReplaceCharSingle(c: char, x: char, rep: string)
    ensures ReplaceChar([c], x, rep) == if c == x then rep else [c]
  {
    assert [c][1..] == [];
  }

  /** A `char` pattern and the one-character string pattern replace alike. */
  lemma {:induction false} ReplaceCharIsReplace(s: string, c: char, rep: string)
    ensures ReplaceChar(s, c, rep) == Replace(s, [c], rep)
  {
    if s != [] {
      ReplaceCharIsReplace(s[1..], c, rep);
    }
  }

  /**
   * A pass over `a + b` is a pass over `a` followed by a pass over `b` when
   * no occurrence can straddle the boundary, i.e. `b` does not start with a
   * character of the pattern.
   */
  lemma {:induction false} ReplaceSplit(a: string, b: string, pat: string, rep: string)
    requires |pat| > 0
    requires b == [] || b[0] !in pat
    ensures Replace(a + b, pat, rep) == Replace(a, pat, rep) + Replace(b, pat, rep)
    decreases |a|
  {
    if a == [] {
      assert a + b == b;
    } else if StartsWith(a, pat) {
      assert (a + b)[..|pat|] == a[..|pat|];
      assert (a + b)[|pat|..] == a[|pat|..] + b;
      ReplaceSplit(a[|pat|..], b, pat, rep);
      var x, y := Replace(a[|pat|..], pat, rep), Replace(b, pat, rep);
      assert Replace(a + b, pat, rep) == rep + (x + y);
      assert rep + (x + y) == (rep + x) + y;
    } else {
      NoMatchAcrossBoundary(a, b, pat);
      assert (a + b)[0] == a[0];
      assert (a + b)[1..] == a[1..] + b;
      ReplaceSplit(a[1..], b, pat, rep);
      var x, y := Replace(a[1..], pat, rep), Replace(b, pat, rep);
      assert Replace(a + b, pat, rep) == [a[0]] + (x + y);
      assert [a[0]] + (x + y) == ([a[0]] + x) + y;
    }
  }

  /** An occurrence at the start of `a + b` that is not one of `a` would have to use `b[0]`. */
  lemma NoMatchAcrossBoundary(a: string, b: string, pat: string)
    requires |pat| > 0 && !StartsWith(a, pat)
    requires b == [] || b[0] !in pat
    ensures !StartsWith(a + b, pat)
  {
    var x := a + b;
    if |pat| <= |a| {
      assert x[..|pat|] == a[..|pat|];
    } else if |pat| <= |x| {
      assert x[..|pat|][|a|] == b[0];
      assert pat[|a|] in pat;
    }
  }

  /** A prefix holding no first character of the pattern passes through unchanged. */
  lemma {:induction false} ReplaceSkip(a: string, b: string, pat: string, rep: string)
    requires |pat| > 0
    requires forall i :: 0 <= i < |a| ==> a[i] != pat[0]
    ensures Replace(a + b, pat, rep) == a + Replace(b, pat, rep)
    decreases |a|
  {
    if a == [] {
      assert a + b == b;
    } else {
      var x := a + b;
      assert x[0] == a[0] && x[1..] == a[1..] + b;
      assert !StartsWith(x, pat) by {
        if |pat| <= |x| {
          assert x[..|pat|][0] == a[0];
        }
      }
      assert Replace(x, pat, rep) == [a[0]] + Replace(a[1..] + b, pat, rep);
      ReplaceSkip(a[1..], b, pat, rep);
      assert [a[0]] + (a[1..] + Replace(b, pat, rep)) == ([a[0]] + a[1..]) + Replace(b, pat, rep);
      assert [a[0]] + a[1..] == a;
    }
  }

  /** A string without any occurrence of the pattern is left as it is. */
  lemma {:induction false} ReplaceWithoutMatch(s: string, pat: string, rep: string)
    requires |pat| > 0
    requires forall i :: 0 <= i <= |s| ==> !StartsWith(s[i..], pat)
    ensures Replace(s, pat, rep) == s
  {
    assert !StartsWith(s[0..], pat);
    assert s[0..] == s;
    if s != [] {
      forall i | 0 <= i <= |s[1..]| ensures !StartsWith(s[1..][i..], pat) {
        assert s[1..][i..] == s[i + 1..];
        assert !StartsWith(s[(i + 1)..], pat);
      }
      ReplaceWithoutMatch(s[1..], pat, rep);
    }
  }

  // ---------------------------------------------------------------------------
  // trim, trim_end_matches
  // ---------------------------------------------------------------------------

  /** `trim_start`: drops the leading whitespace and nothing else. */
  function TrimStart(s: string): (r: string)
    ensures |r| <= |s| && r == s[|s| - |r|..]
    ensures forall i :: 0 <= i < |s| - |r| ==> IsWhitespace(s[i])
    ensures r == [] || !IsWhitespace(r[0])
    decreases |s|
  {
    if s != [] && IsWhitespace(s[0]) then TrimStart(s[1..]) else s
  }

  /** `trim_end`: drops the trailing whitespace and nothing else. */
  function TrimEnd(s: string): (r: string)
    ensures |r| <= |s| && r == s[..|r|]
    ensures forall i :: |r| <= i < |s| ==> IsWhitespace(s[i])
    ensures r == [] || !IsWhitespace(r[|r| - 1])
    decreases |s|
  {
    if s != [] && IsWhitespace(s[|s| - 1]) then TrimEnd(s[..|s| - 1]) else s
  }

  /**
   * `trim`: the result is the input with a whitespace run cut from each end;
   * it neither starts nor ends with whitespace, and is empty only for an
   * all-whitespace input.
   */
  function Trim(s: string): (r: string)
    ensures var i := |s| - |TrimStart(s)|;
            && i + |r| <= |s| && r == s[i..i + |r|]
            && (forall k :: 0 <= k < i ==> IsWhitespace(s[k]))
            && (forall k :: i + |r| <= k < |s| ==> IsWhitespace(s[k]))
    ensures r == [] || (!IsWhitespace(r[0]) && !IsWhitespace(r[|r| - 1]))
    ensures r == [] <==> forall k :: 0 <= k < |s| ==> IsWhitespace(s[k])
  {
    var t := TrimStart(s);
    var r := TrimEnd(t);
    TrimFacts(s, t, r);
    r
  }

  /** The contract of `Trim`, for the whitespace cut from the front (`t`) and then from the back (`r`). */
  lemma TrimFacts(s: string, t: string, r: string)
    requires |t| <= |s| && t == s[|s| - |t|..]
    requires forall k :: 0 <= k < |s| - |t| ==> IsWhitespace(s[k])
    requires t == [] || !IsWhitespace(t[0])
    requires |r| <= |t| && r == t[..|r|]
    requires forall k :: |r| <= k < |t| ==> IsWhitespace(t[k])
    requires r == [] || !IsWhitespace(r[|r| - 1])
    ensures var i := |s| - |t|;
            && i + |r| <= |s| && r == s[i..i + |r|]
            && (forall k :: 0 <= k < i ==> IsWhitespace(s[k]))
            && (forall k :: i + |r| <= k < |s| ==> IsWhitespace(s[k]))
    ensures r == [] || (!IsWhitespace(r[0]) && !IsWhitespace(r[|r| - 1]))
    ensures r == [] <==> forall k :: 0 <= k < |s| ==> IsWhitespace(s[k])
  {
    TrimEnds(t, r);
    TrimInfix(s, t, r);
    if r == [] {
      assert t == [];
      assert forall k :: 0 <= k < |s| - |t| ==> IsWhitespace(s[k]);
    } else {
      var i := |s| - |t|;
      assert s[i] == t[0] == r[0];
      assert !IsWhitespace(s[i]);
    }
  }

  /** Cutting whitespace from the back of a text that does not start with whitespace. */
  lemma TrimEnds(t: string, r: string)
    requires t == [] || !IsWhitespace(t[0])
    requires |r| <= |t| && r == t[..|r|]
    requires forall k :: |r| <= k < |t| ==> IsWhitespace(t[k])
    ensures r != [] ==> r[0] == t[0]
    ensures r == [] ==> t == []
  {
  }

  /** Cutting a whitespace run from the front and then from the back leaves an infix between two whitespace runs. */
  lemma TrimInfix(s: string, t: string, r: string)
    requires |t| <= |s| && t == s[|s| - |t|..]
    requires forall k :: 0 <= k < |s| - |t| ==> IsWhitespace(s[k])
    requires |r| <= |t| && r == t[..|r|]
    requires forall k :: |r| <= k < |t| ==> IsWhitespace(t[k])
    ensures |s| - |t| + |r| <= |s| && r == s[|s| - |t|..|s| - |t| + |r|]
    ensures forall k :: |s| - |t| + |r| <= k < |s| ==> IsWhitespace(s[k])
  {
    var i := |s| - |t|;
    var j := i + |r|;
    assert r == s[i..j];
    forall k | j <= k < |s|
      ensures IsWhitespace(s[k])
    {
      assert s[k] == t[k - i];
    }
  }

  /** `trim` removes exactly the whitespace around a text that neither starts nor ends with whitespace. */
  lemma TrimSurrounded(a: string, s: string, b: string)
    requires forall i :: 0 <= i < |a| ==> IsWhitespace(a[i])
    requires forall i :: 0 <= i < |b| ==> IsWhitespace(b[i])
    requires s != [] && !IsWhitespace(s[0]) && !IsWhitespace(s[|s| - 1])
    ensures Trim(a + s + b) == s
  {
    TrimStartWhitespace(a, s + b);
    assert a + s + b == a + (s + b);
    TrimEndWhitespace(s, b);
  }

  /** Leading whitespace followed by a non-whitespace character: `trim_start` keeps exactly the rest. */
  lemma TrimStartWhitespace(a: string, s: string)
    requires forall i :: 0 <= i < |a| ==> IsWhitespace(a[i])
    requires s != [] && !IsWhitespace(s[0])
    ensures TrimStart(a + s) == s
  {
    var x := a + s;
    var r := TrimStart(x);
    assert x[|a|] == s[0];
    assert |x| - |r| <= |a|;
    assert r[0] == x[|x| - |r|];
    assert |x| - |r| >= |a|;
    assert x[|a|..] == s;
  }

  /** Trailing whitespace after a non-whitespace character: `trim_end` keeps exactly what precedes it. */
  lemma TrimEndWhitespace(s: string, b: string)
    requires forall i :: 0 <= i < |b| ==> IsWhitespace(b[i])
    requires s != [] && !IsWhitespace(s[|s| - 1])
    ensures TrimEnd(s + b) == s
  {
    var x := s + b;
    var r := TrimEnd(x);
    assert x[|s| - 1] == s[|s| - 1];
    assert |r| >= |s|;
    assert r[|r| - 1] == x[|r| - 1];
    assert |r| <= |s|;
    assert x[..|s|] == s;
  }

  /** `s` is zero or more copies of `pat` written one after the other. */
  predicate IsRepetition(s: string, pat: string)
    decreases |s|
  {
    s == [] || (|pat| > 0 && EndsWith(s, pat) && IsRepetition(s[..|s| - |pat|], pat))
  }

  /**
   * `trim_end_matches(pat)`: strips copies of `pat` from the end as long as
   * there are any (an empty pattern strips nothing).
   */
  function TrimEndMatches(s: string, pat: string): (r: string)
    ensures |r| <= |s| && r == s[..|r|]
    ensures IsRepetition(s[|r|..], pat)
    ensures !(|pat| > 0 && EndsWith(r, pat))
    decreases |s|
  {
    if |pat| > 0 && EndsWith(s, pat) then
      var init := s[..|s| - |pat|];
      var r := TrimEndMatches(init, pat);
      TrimmedTail(s, init, r, pat);
      r
    else
      assert s[|s|..] == [];
      s
  }

  lemma TrimmedTail(s: string, init: string, r: string, pat: string)
    requires |pat| > 0 && EndsWith(s, pat) && init == s[..|s| - |pat|]
    requires |r| <= |init| && r == init[..|r|] && IsRepetition(init[|r|..], pat)
    ensures |r| <= |s| && r == s[..|r|] && IsRepetition(s[|r|..], pat)
  {
    PrefixOfInit(s, init, r, pat);
    TailSplits(s, init, |r|, pat);
    RepetitionExtend(init[|r|..], s[|r|..], pat);
  }

  lemma PrefixOfInit(s: string, init: string, r: string, pat: string)
    requires |pat| <= |s| && init == s[..|s| - |pat|]
    requires |r| <= |init| && r == init[..|r|]
    ensures r == s[..|r|]
  {
  }

  /** Dropping the first `k` characters of `init + pat` leaves `init[k..]` followed by `pat`. */
  lemma TailSplits(s: string, init: string, k: nat, pat: string)
    requires EndsWith(s, pat) && init == s[..|s| - |pat|] && k <= |init|
    ensures s[k..][..|init| - k] == init[k..]
    ensures s[k..][|init| - k..] == pat
  {
  }

  /** One more copy of `pat` on the end of a repetition is still a repetition. */
  lemma RepetitionExtend(x: string, y: string, pat: string)
    requires |pat| > 0 && IsRepetition(x, pat)
    requires |y| == |x| + |pat| && y[..|x|] == x && y[|x|..] == pat
    ensures IsRepetition(y, pat)
  {
  }

  /** A non-empty repetition of `pat` starts with `pat`. */
  lemma {:induction false} RepetitionStarts(s: string, pat: string)
    requires IsRepetition(s, pat) && s != []
    ensures StartsWith(s, pat)
  {
    var init := s[..|s| - |pat|];
    if init != [] {
      RepetitionStarts(init, pat);
      assert s[..|pat|] == init[..|pat|];
    } else {
      assert s == pat;
    }
  }

  /** Every character of a repetition of `pat` is a character of `pat`. */
  lemma {:induction false} RepetitionChars(s: string, pat: string)
    requires IsRepetition(s, pat)
    ensures forall x :: x in s ==> x in pat
  {
    if s != [] {
      RepetitionChars(s[..|s| - |pat|], pat);
      assert s == s[..|s| - |pat|] + pat;
    }
  }

  // ---------------------------------------------------------------------------
  // integers
  // ---------------------------------------------------------------------------

  /** `usize::saturating_sub`: subtraction that stops at zero. */
  function SaturatingSub(x: nat, y: nat): (r: nat)
    ensures x >= y ==> r + y == x
    ensures x < y ==> r == 0
  {
    if x >= y then x - y else 0
  }

  // ---------------------------------------------------------------------------
  // repeat, decimal formatting
  // ---------------------------------------------------------------------------

  /** `s.repeat(n)`. */
  function Repeat(s: string, n: nat): (r: string)
    ensures |r| == n * |s|
  {
    if n == 0 then "" else Repeat(s, n - 1) + s
  }

  /** Repeating a run of spaces gives only spaces. */
  lemma {:induction false} RepeatSpaces(s: string, n: nat)
    requires forall i :: 0 <= i < |s| ==> s[i] == ' '
    ensures forall i :: 0 <= i < |Repeat(s, n)| ==> Repeat(s, n)[i] == ' '
  {
    if n > 0 {
      RepeatSpaces(s, n - 1);
      assert Repeat(s, n) == Repeat(s, n - 1) + s;
    }
  }

  predicate IsDigit(c: char) {
    '0' <= c <= '9'
  }

  function DigitChar(d: nat): (c: char)
    requires d < 10
    ensures IsDigit(c) && c as int - '0' as int == d
  {
    ('0' as int + d) as char
  }

  /** `format!("{}", n)` for an unsigned integer: its decimal digits, without leading zeros. */
  function NatToDecimal(n: nat): (r: string)
    ensures |r| >= 1
    ensures forall i :: 0 <= i < |r| ==> IsDigit(r[i])
    ensures r[0] == '0' ==> n == 0
    decreases n
  {
    if n < 10 then [DigitChar(n)] else NatToDecimal(n / 10) + [DigitChar(n % 10)]
  }

  /** The value of a string of decimal digits. */
  function DecimalValue(s: string): nat
    requires forall i :: 0 <= i < |s| ==> IsDigit(s[i])
  {
    if s == [] then 0
    else
      var last := s[|s| - 1];
      assert IsDigit(last);
      10 * DecimalValue(s[..|s| - 1]) + (last as int - '0' as int)
  }

  /** Reading the formatted digits back gives the number. */
  lemma {:induction false} DecimalRoundTrip(n: nat)
    ensures DecimalValue(NatToDecimal(n)) == n
  {
    var r := NatToDecimal(n);
    if n >= 10 {
      DecimalRoundTrip(n / 10);
      assert r[..|r| - 1] == NatToDecimal(n / 10);
    }
  }
}
