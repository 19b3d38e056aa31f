/**
 * The escaping `mrkdwnify` applies to the trimmed text:
 * `replace('"', "\\\"")`, then `replace('&', "&amp;")`, then
 * `replace('\n', "\\n")`, then `trim_end_matches("\\n")`.
 */
module Escaping {
  import opened RustStr

  /** The three `replace` passes, in the order the converter applies them. */
  function EscapeChain(s: string): (r: string)
    ensures '\n' !in r
  {
    ReplaceChar(ReplaceChar(ReplaceChar(s, '"', "\\\""), '&', "&amp;"), '\n', "\\n")
  }

  /** The escape of one character. */
  function EscapeChar(c: char): string {
    if c == '"' then "\\\""
    else if c == '&' then "&amp;"
    else if c == '\n' then "\\n"
    else [c]
  }

  /** A single pass that escapes each character on its own: the reference for the chain. */
  function EscapeText(s: string): string {
    if s == [] then [] else EscapeChar(s[0]) + EscapeText(s[1..])
  }

  lemma {:induction false} EscapeTextAppend(a: string, b: string)
    ensures EscapeText(a + b) == EscapeText(a) + EscapeText(b)
  {
    if a == [] {
      assert a + b == b;
    } else {
      assert (a + b)[0] == a[0] && (a + b)[1..] == a[1..] + b;
      EscapeTextAppend(a[1..], b);
    }
  }

  /**
   * The three passes never see each other's output: escaping quotes first,
   * then ampersands, then newlines is the same as escaping every character
   * in one pass.
   */
  lemma ChainOfChar(c: char)
    ensures EscapeChain([c]) == EscapeChar(c)
  {
    var q := if c == '"' then "\\\"" else [c];
    ReplaceCharSingle(c, '"', "\\\"");
    if c == '"' {
      ReplaceCharAppend("\\", "\"", '&', "&amp;");
      ReplaceCharSingle('\\', '&', "&amp;");
      ReplaceCharSingle('"', '&', "&amp;");
      ReplaceCharAppend("\\", "\"", '\n', "\\n");
      ReplaceCharSingle('\\', '\n', "\\n");
      ReplaceCharSingle('"', '\n', "\\n");
    } else {
      ReplaceCharSingle(c, '&', "&amp;");
      if c == '&' {
        NoNewlineInAmp();
      } else {
        ReplaceCharSingle(c, '\n', "\\n");
      }
    }
  }

  lemma NoNewlineInAmp()
    ensures ReplaceChar("&amp;", '\n', "\\n") == "&amp;"
  {
    ReplaceCharAppend("&", "amp;", '\n', "\\n");
    ReplaceCharSingle('&', '\n', "\\n");
    ReplaceCharAppend("a", "mp;", '\n', "\\n");
    ReplaceCharSingle('a', '\n', "\\n");
    ReplaceCharAppend("m", "p;", '\n', "\\n");
    ReplaceCharSingle('m', '\n', "\\n");
    ReplaceCharAppend("p", ";", '\n', "\\n");
    ReplaceCharSingle('p', '\n', "\\n");
    ReplaceCharSingle(';', '\n', "\\n");
  }

  /**
   * The three passes never see each other's output: escaping quotes first,
   * then ampersands, then newlines is the same as escaping every character
   * in one pass.
   */
  lemma {:induction false} ChainIsOnePass(s: string)
    ensures EscapeChain(s) == EscapeText(s)
  {
    if s != [] {
      var c, rest := s[0], s[1..];
      assert s == [c] + rest;
      ReplaceCharAppend([c], rest, '"', "\\\"");
      var q1, q2 := ReplaceChar([c], '"', "\\\""), ReplaceChar(rest, '"', "\\\"");
      ReplaceCharAppend(q1, q2, '&', "&amp;");
      var a1, a2 := ReplaceChar(q1, '&', "&amp;"), ReplaceChar(q2, '&', "&amp;");
      ReplaceCharAppend(a1, a2, '\n', "\\n");
      ChainIsOnePass(rest);
      ChainOfChar(c);
    }
  }

  // ---------------------------------------------------------------------------
  // What the escaped text looks like
  // ---------------------------------------------------------------------------

  /** No real newline is left. */
  predicate NoNewline(s: string) {
    forall i :: 0 <= i < |s| ==> s[i] != '\n'
  }

  /** Every double quote comes right after a backslash. */
  predicate QuotesEscaped(s: string) {
    forall i :: 0 <= i < |s| && s[i] == '"' ==> i > 0 && s[i - 1] == '\\'
  }

  /** Every ampersand begins an `&amp;`. */
  predicate AmpersandsEscaped(s: string) {
    forall i :: 0 <= i < |s| && s[i] == '&' ==> i + 5 <= |s| && s[i..i + 5] == "&amp;"
  }

  predicate Escaped(s: string) {
    NoNewline(s) && QuotesEscaped(s) && AmpersandsEscaped(s)
  }

  lemma EscapedAppend(a: string, b: string)
    requires Escaped(a) && Escaped(b)
    ensures Escaped(a + b)
  {
    var s := a + b;
    forall i | 0 <= i < |s| && s[i] == '&' ensures i + 5 <= |s| && s[i..i + 5] == "&amp;" {
      if i < |a| {
        assert a[i..i + 5] == s[i..i + 5];
      } else {
        assert b[i - |a|..i - |a| + 5] == s[i..i + 5];
      }
    }
    forall i | 0 <= i < |s| && s[i] == '"' ensures i > 0 && s[i - 1] == '\\' {
      if i >= |a| {
        assert b[i - |a|] == '"';
      }
    }
  }

  lemma {:induction false} EscapeTextEscaped(s: string)
    ensures Escaped(EscapeText(s))
  {
    if s != [] {
      EscapeTextEscaped(s[1..]);
      var e := EscapeChar(s[0]);
      assert Escaped(e) by {
        if s[0] == '&' {
          assert e[0..5] == "&amp;";
        }
      }
      EscapedAppend(e, EscapeText(s[1..]));
    }
  }

  /** Stripping literal `\n` pairs from the end keeps the text escaped. */
  lemma TrimLiteralNewlinesKeepsEscaped(s: string)
    requires Escaped(s)
    ensures Escaped(TrimEndMatches(s, "\\n"))
  {
    var r := TrimEndMatches(s, "\\n");
    assert NoNewline(r) by {
      forall i | 0 <= i < |r| ensures r[i] != '\n' { assert r[i] == s[i]; }
    }
    assert QuotesEscaped(r) by {
      forall i | 0 <= i < |r| && r[i] == '"' ensures i > 0 && r[i - 1] == '\\' {
        assert r[i] == s[i];
      }
    }
    assert AmpersandsEscaped(r) by {
      forall i | 0 <= i < |r| && r[i] == '&' ensures i + 5 <= |r| && r[i..i + 5] == "&amp;" {
        AmpersandInPrefix(s, r, i);
      }
    }
  }

  lemma AmpersandInPrefix(s: string, r: string, i: nat)
    requires |r| <= |s| && r == s[..|r|] && IsRepetition(s[|r|..], "\\n")
    requires i < |r| && i + 5 <= |s| && s[i..i + 5] == "&amp;"
    ensures i + 5 <= |r| && r[i..i + 5] == "&amp;"
  {
    if |r| < |s| {
      RepetitionStarts(s[|r|..], "\\n");
    }
    assert |r| == |s| || s[|r|] == '\\';
    forall j | i < j < i + 5 ensures s[j] != '\\' {
      assert s[j] == s[i..i + 5][j - i];
    }
  }

  /**
   * The whole escaping step. Its result has no real newline, every `"` is
   * preceded by a backslash, every `&` begins `&amp;`, and it never ends with
   * the two characters `\n`.
   */
  function Escape(t: string): (r: string)
    ensures Escaped(r)
    ensures !EndsWith(r, "\\n")
  {
    ChainIsOnePass(t);
    EscapeTextEscaped(t);
    TrimLiteralNewlinesKeepsEscaped(EscapeText(t));
    TrimEndMatches(EscapeChain(t), "\\n")
  }

  // ---------------------------------------------------------------------------
  // Undoing the escape
  // ---------------------------------------------------------------------------

  /** Reads escaped text back in one left-to-right pass. */
  function Unescape(s: string): string
    decreases |s|
  {
    if StartsWith(s, "\\\"") then "\"" + Unescape(s[2..])
    else if StartsWith(s, "&amp;") then "&" + Unescape(s[5..])
    else if StartsWith(s, "\\n") then "\n" + Unescape(s[2..])
    else if s == [] then []
    else [s[0]] + Unescape(s[1..])
  }

  /** On text without backslashes the escape loses nothing. */
  lemma {:induction false} UnescapeEscapeText(s: string)
    requires '\\' !in s
    ensures Unescape(EscapeText(s)) == s
  {
    if s != [] {
      var c, rest := s[0], s[1..];
      assert '\\' !in rest by { assert forall x :: x in rest ==> x in s; }
      UnescapeEscapeText(rest);
      assert EscapeText(s) == EscapeChar(c) + EscapeText(rest);
      UnescapeStep(c, EscapeText(rest));
      assert s == [c] + rest;
    }
  }

  /** Reading back one escaped character, whatever follows it. */
  lemma UnescapeStep(c: char, t: string)
    requires c != '\\'
    ensures Unescape(EscapeChar(c) + t) == [c] + Unescape(t)
  {
    var e := EscapeChar(c) + t;
    if c == '"' {
      assert e[..2] == "\\\"" && e[2..] == t;
    } else if c == '&' {
      assert !StartsWith(e, "\\\"") by { assert e[0] == '&'; }
      assert e[..5] == "&amp;" && e[5..] == t;
    } else if c == '\n' {
      assert !StartsWith(e, "\\\"") by { assert e[1] == 'n'; }
      assert !StartsWith(e, "&amp;") by { assert e[0] == '\\'; }
      assert e[..2] == "\\n" && e[2..] == t;
    } else {
      assert e[0] == c && e[1..] == t;
      assert !StartsWith(e, "\\\"") && !StartsWith(e, "&amp;") && !StartsWith(e, "\\n");
    }
  }

  /** The last character of escaped backslash-free text is never a backslash. */
  lemma EscapeTextLast(t: string)
    requires t != [] && '\\' !in t
    ensures |EscapeText(t)| > 0 && EscapeText(t)[|EscapeText(t)| - 1] != '\\'
  {
    var init, x := t[..|t| - 1], t[|t| - 1];
    assert t == init + [x];
    EscapeTextAppend(init, [x]);
    assert EscapeText([x]) == EscapeChar(x);
  }

  /**
   * Escaped backslash-free text that does not end in a newline never ends
   * with the literal `\n`, so `trim_end_matches` leaves it alone.
   */
  lemma EscapeTextNoTrailingLiteral(t: string)
    requires '\\' !in t
    requires t == [] || t[|t| - 1] != '\n'
    ensures !EndsWith(EscapeText(t), "\\n")
  {
    if t != [] {
      var init, x := t[..|t| - 1], t[|t| - 1];
      assert t == init + [x];
      EscapeTextAppend(init, [x]);
      assert EscapeText([x]) == EscapeChar(x);
      var a, b := EscapeText(init), EscapeChar(x);
      var e := a + b;
      assert e[|e| - 1] == b[|b| - 1];
      if x == '"' || x == '&' || init == [] {
        NotEndingInLiteral(e);
      } else {
        assert '\\' !in init by { assert forall c :: c in init ==> c in t; }
        EscapeTextLast(init);
        assert e[|e| - 2] == a[|a| - 1];
        NotEndingInLiteral(e);
      }
    }
  }

  /** Text whose last two characters are not a backslash then `n` does not end with the literal `\n`. */
  lemma NotEndingInLiteral(e: string)
    requires |e| < 2 || e[|e| - 1] != 'n' || e[|e| - 2] != '\\'
    ensures !EndsWith(e, "\\n")
  {
    if |e| >= 2 {
      assert e[|e| - 2..][0] == e[|e| - 2] && e[|e| - 2..][1] == e[|e| - 1];
    }
  }
}
