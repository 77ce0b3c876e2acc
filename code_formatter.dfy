/**
 * `formatAsJsonInput` (utils/codeFormatter.js): escapes backslash, double
 * quote and line feed so that a piece of text can be pasted between the
 * quotes of a JSON string literal.  The source chains three global
 * `replace` calls; `FormatAsJsonInput` keeps that shape, and `Escape` is
 * the single per-character map the chain amounts to.
 */
module CodeFormatter {
  import opened Wrappers

  const Backslash: char := '\\'
  const Quote: char := '"'
  const LineFeed: char := '\n'

  /** Number of occurrences of `c` in `s`. */
  function Count(s: seq<char>, c: char): nat
  {
    if s == [] then 0 else (if s[0] == c then 1 else 0) + Count(s[1..], c)
  }

  /** `s.replace(/c/g, rep)`: every occurrence of `c` replaced by `rep`. */
  function ReplaceAll(s: seq<char>, c: char, rep: seq<char>): seq<char>
  {
    if s == [] then [] else (if s[0] == c then rep else [s[0]]) + ReplaceAll(s[1..], c, rep)
  }

  /** The function as written: backslashes first, then quotes, then line feeds. */
  function FormatAsJsonInput(code: seq<char>): seq<char>
  {
    ReplaceAll(ReplaceAll(ReplaceAll(code, Backslash, "\\\\"), Quote, "\\\""), LineFeed, "\\n")
  }

  /** The same three passes with the backslash pass moved to the end. */
  function FormatBackslashLast(code: seq<char>): seq<char>
  {
    ReplaceAll(ReplaceAll(ReplaceAll(code, Quote, "\\\""), LineFeed, "\\n"), Backslash, "\\\\")
  }

  /** What one input character becomes. */
  function EscapeChar(c: char): seq<char>
  {
    if c == Backslash then "\\\\"
    else if c == Quote then "\\\""
    else if c == LineFeed then "\\n"
    else [c]
  }

  /** The per-character escape map applied to a whole string. */
  function Escape(s: seq<char>): seq<char>
  {
    if s == [] then [] else EscapeChar(s[0]) + Escape(s[1..])
  }

  /** The character an escape sequence `\e` stands for, if `e` is one of the three. */
  function Unescape(e: char): Option<char>
  {
    if e == Backslash then Some(Backslash)
    else if e == Quote then Some(Quote)
    else if e == 'n' then Some(LineFeed)
    else None
  }

  /**
   * Left-to-right decoder: `\\`, `\"` and `\n` become one character each,
   * any other character stands for itself; a raw quote, a raw line feed,
   * a lone trailing backslash or an unknown escape is rejected.
   */
  function Decode(t: seq<char>): Option<seq<char>>
  {
    if t == [] then Some([])
    else if t[0] == Backslash then
      if |t| < 2 || Unescape(t[1]).None? then None
      else
        var rest := Decode(t[2..]);
        if rest.None? then None else Some([Unescape(t[1]).value] + rest.value)
    else if t[0] == Quote || t[0] == LineFeed then None
    else
      var rest := Decode(t[1..]);
      if rest.None? then None else Some([t[0]] + rest.value)
  }

  // ---------------------------------------------------------------------
  // The three passes are one map

  lemma {:induction false} CountAppend(a: seq<char>, b: seq<char>, c: char)
    ensures Count(a + b, c) == Count(a, c) + Count(b, c)
  {
    if a != [] {
      assert (a + b)[0] == a[0] && (a + b)[1..] == a[1..] + b;
      CountAppend(a[1..], b, c);
    } else {
      assert a + b == b;
    }
  }

  lemma {:induction false} ReplaceAllAppend(a: seq<char>, b: seq<char>, c: char, rep: seq<char>)
    ensures ReplaceAll(a + b, c, rep) == ReplaceAll(a, c, rep) + ReplaceAll(b, c, rep)
  {
    if a != [] {
      assert (a + b)[0] == a[0] && (a + b)[1..] == a[1..] + b;
      ReplaceAllAppend(a[1..], b, c, rep);
      var h := if a[0] == c then rep else [a[0]];
      assert h + (ReplaceAll(a[1..], c, rep) + ReplaceAll(b, c, rep))
          == (h + ReplaceAll(a[1..], c, rep)) + ReplaceAll(b, c, rep);
    } else {
      assert a + b == b;
    }
  }

  lemma {:induction false} EscapeAppend(a: seq<char>, b: seq<char>)
    ensures Escape(a + b) == Escape(a) + Escape(b)
  {
    if a != [] {
      assert (a + b)[0] == a[0] && (a + b)[1..] == a[1..] + b;
      EscapeAppend(a[1..], b);
      var h := EscapeChar(a[0]);
      assert h + (Escape(a[1..]) + Escape(b)) == (h + Escape(a[1..])) + Escape(b);
    } else {
      assert a + b == b;
    }
  }

  /** The chain of three ordered replacements equals the single per-character map. */
  lemma {:induction false} ThreePassesAreOneMap(s: seq<char>)
    ensures FormatAsJsonInput(s) == Escape(s)
  {
    if s != [] {
      var c, r := s[0], s[1..];
      assert s == [c] + r;
      var p1 := ReplaceAll([c], Backslash, "\\\\");
      var p2 := ReplaceAll(p1, Quote, "\\\"");
      ReplaceAllAppend([c], r, Backslash, "\\\\");
      ReplaceAllAppend(p1, ReplaceAll(r, Backslash, "\\\\"), Quote, "\\\"");
      ReplaceAllAppend(p2, ReplaceAll(ReplaceAll(r, Backslash, "\\\\"), Quote, "\\\""), LineFeed, "\\n");
      assert ReplaceAll(p2, LineFeed, "\\n") == EscapeChar(c);
      ThreePassesAreOneMap(r);
    }
  }

  /** Moving the backslash pass last doubles the backslash that the quote pass inserts. */
  lemma BackslashPassMustComeFirst()
    ensures FormatAsJsonInput("\"") == "\\\""
    ensures FormatBackslashLast("\"") == "\\\\\""
    ensures Decode(FormatBackslashLast("\"")) == None
  {
    assert ReplaceAll("\"", Backslash, "\\\\") == "\"";
    assert ReplaceAll("\"", Quote, "\\\"") == "\\\"";
    assert ReplaceAll("\\\"", LineFeed, "\\n") == "\\\"";
    assert ReplaceAll("\\\"", Backslash, "\\\\") == "\\\\\"";
    assert Decode("\"") == None;
  }

  // ---------------------------------------------------------------------
  // Size and shape of the output

  /** Each backslash, quote and line feed grows the output by exactly one character. */
  lemma {:induction false} EscapeLength(s: seq<char>)
    ensures |Escape(s)| == |s| + Count(s, Backslash) + Count(s, Quote) + Count(s, LineFeed)
  {
    if s != [] {
      EscapeLength(s[1..]);
    }
  }

  /** The output never contains a raw line feed. */
  lemma {:induction false} EscapeHasNoLineFeed(s: seq<char>)
    ensures LineFeed !in Escape(s)
  {
    if s != [] {
      EscapeHasNoLineFeed(s[1..]);
      assert LineFeed !in EscapeChar(s[0]);
    }
  }

  lemma {:induction false} CountZeroIffAbsent(s: seq<char>, c: char)
    ensures Count(s, c) == 0 <==> c !in s
  {
    if s != [] {
      CountZeroIffAbsent(s[1..], c);
      assert s == [s[0]] + s[1..];
    }
  }

  /**
   * The input comes back unchanged exactly when it holds none of the three
   * special characters; in particular the empty string maps to itself.
   */
  lemma {:induction false} EscapeUnchangedIff(s: seq<char>)
    ensures Escape([]) == []
    ensures Escape(s) == s <==> Backslash !in s && Quote !in s && LineFeed !in s
  {
    if Backslash !in s && Quote !in s && LineFeed !in s {
      if s != [] {
        assert s == [s[0]] + s[1..];
        EscapeUnchangedIff(s[1..]);
      }
    } else {
      EscapeLength(s);
      CountZeroIffAbsent(s, Backslash);
      CountZeroIffAbsent(s, Quote);
      CountZeroIffAbsent(s, LineFeed);
    }
  }

  /** Backslashes in the output: two per input backslash, one per quote and per line feed. */
  lemma {:induction false} EscapeBackslashCount(s: seq<char>)
    ensures Count(Escape(s), Backslash) == 2 * Count(s, Backslash) + Count(s, Quote) + Count(s, LineFeed)
  {
    if s != [] {
      CountAppend(EscapeChar(s[0]), Escape(s[1..]), Backslash);
      EscapeBackslashCount(s[1..]);
    }
  }

  /**
   * Escaping is not idempotent: escaping an already escaped text that
   * contains a special character adds backslashes again.
   */
  lemma EscapeNotIdempotent(s: seq<char>)
    requires Backslash in s || Quote in s || LineFeed in s
    ensures Count(Escape(Escape(s)), Backslash) > Count(Escape(s), Backslash) > 0
    ensures Escape(Escape(s)) != Escape(s)
  {
    CountZeroIffAbsent(s, Backslash);
    CountZeroIffAbsent(s, Quote);
    CountZeroIffAbsent(s, LineFeed);
    EscapeBackslashCount(s);
    EscapeBackslashCount(Escape(s));
    CountZeroIffAbsent(Escape(s), Backslash);
    EscapeUnchangedIff(Escape(s));
  }

  // ---------------------------------------------------------------------
  // Every quote in the output is escaped

  /** Length of the run of backslashes that ends `p`. */
  function TrailingBackslashes(p: seq<char>): nat
  {
    if p != [] && p[|p| - 1] == Backslash then 1 + TrailingBackslashes(p[..|p| - 1]) else 0
  }

  lemma TrailingAfterBackslash(p: seq<char>)
    ensures TrailingBackslashes(p + [Backslash]) == TrailingBackslashes(p) + 1
  {
  }

  lemma {:induction false} EscapeSnoc(p: seq<char>, c: char)
    ensures Escape(p + [c]) == Escape(p) + EscapeChar(c)
  {
    EscapeAppend(p, [c]);
    assert Escape([c]) == EscapeChar(c) + Escape([]);
  }

  /** The escaped text never ends inside an escape: its final run of backslashes is even. */
  lemma {:induction false} EscapeEndsEven(s: seq<char>)
    ensures TrailingBackslashes(Escape(s)) % 2 == 0
  {
    if s != [] {
      var p, c := s[..|s| - 1], s[|s| - 1];
      assert s == p + [c];
      EscapeSnoc(p, c);
      EscapeEndsEven(p);
      EscapeCharTrailing(Escape(p), c);
    }
  }

  /** Appending one escaped character adds two to an even run or ends it. */
  lemma EscapeCharTrailing(x: seq<char>, c: char)
    ensures TrailingBackslashes(x + EscapeChar(c))
         == if c == Backslash then TrailingBackslashes(x) + 2 else 0
  {
    var y := x + EscapeChar(c);
    if c == Backslash {
      assert y == (x + [Backslash]) + [Backslash];
      TrailingAfterBackslash(x + [Backslash]);
      TrailingAfterBackslash(x);
    } else {
      assert y[|y| - 1] != Backslash;
    }
  }

  /**
   * Every double quote of the output is preceded by a backslash that is
   * not itself escaped: the run of backslashes before it has odd length.
   */
  lemma {:induction false} QuotesAreEscaped(s: seq<char>)
    ensures var t := Escape(s);
      forall i :: 0 <= i < |t| && t[i] == Quote ==>
        i > 0 && t[i - 1] == Backslash && TrailingBackslashes(t[..i]) % 2 == 1
  {
    if s != [] {
      var p, c := s[..|s| - 1], s[|s| - 1];
      assert s == p + [c];
      EscapeSnoc(p, c);
      var x := Escape(p);
      var t := x + EscapeChar(c);
      QuotesAreEscaped(p);
      forall i | 0 <= i < |t| && t[i] == Quote
        ensures i > 0 && t[i - 1] == Backslash && TrailingBackslashes(t[..i]) % 2 == 1
      {
        if i < |x| {
          assert t[..i] == x[..i];
          assert x[i] == Quote;
        } else {
          assert c == Quote && i == |x| + 1;
          assert t[..i] == x + [Backslash];
          TrailingAfterBackslash(x);
          EscapeEndsEven(p);
        }
      }
    }
  }

  // ---------------------------------------------------------------------
  // Escaping can be undone

  /** Decoding the output left to right recovers the input. */
  lemma {:induction false} DecodeEscape(s: seq<char>)
    ensures Decode(Escape(s)) == Some(s)
  {
    if s != [] {
      var c, r := s[0], s[1..];
      var t := Escape(s);
      DecodeEscape(r);
      if c == Backslash || c == Quote || c == LineFeed {
        assert t[2..] == Escape(r);
      } else {
        assert t[1..] == Escape(r);
      }
      assert s == [c] + r;
    }
  }

  /** Every text the decoder accepts is the escape of what it decodes to. */
  lemma {:induction false} EscapeDecode(t: seq<char>, s: seq<char>)
    requires Decode(t) == Some(s)
    ensures Escape(s) == t
  {
    if t != [] {
      if t[0] == Backslash {
        var rest := Decode(t[2..]).value;
        EscapeDecode(t[2..], rest);
        assert s == [Unescape(t[1]).value] + rest;
        assert s[1..] == rest;
        assert t == t[..2] + t[2..];
      } else {
        var rest := Decode(t[1..]).value;
        EscapeDecode(t[1..], rest);
        assert s[1..] == rest;
        assert t == [t[0]] + t[1..];
      }
    }
  }

  /** Different inputs never escape to the same output. */
  lemma EscapeInjective(a: seq<char>, b: seq<char>)
    requires Escape(a) == Escape(b)
    ensures a == b
  {
    DecodeEscape(a);
    DecodeEscape(b);
  }

  // ---------------------------------------------------------------------
  // Relation to JSON string bodies (section 7 of RFC 8259)

  /** Characters allowed unescaped in a JSON string: U+0020-U+0021, U+0023-U+005B, U+005D and up. */
  predicate JsonUnescaped(c: char)
  {
    (' ' <= c <= '!') || ('#' <= c <= '[') || (']' <= c)
  }

  predicate IsHexDigit(c: char)
  {
    ('0' <= c <= '9') || ('a' <= c <= 'f') || ('A' <= c <= 'F')
  }

  /** The letters allowed after a backslash, other than `u`. */
  predicate JsonShortEscape(c: char)
  {
    c == '"' || c == '\\' || c == '/' || c == 'b' || c == 'f' || c == 'n' || c == 'r' || c == 't'
  }

  /** `t` is a sequence of `char` productions: what may stand between the quotes of a JSON string. */
  predicate IsJsonStringBody(t: seq<char>)
  {
    if t == [] then true
    else if t[0] == Backslash then
      (|t| >= 2 && JsonShortEscape(t[1]) && IsJsonStringBody(t[2..])) ||
      (|t| >= 6 && t[1] == 'u' && IsHexDigit(t[2]) && IsHexDigit(t[3]) && IsHexDigit(t[4]) &&
       IsHexDigit(t[5]) && IsJsonStringBody(t[6..]))
    else JsonUnescaped(t[0]) && IsJsonStringBody(t[1..])
  }

  /** Every character is a line feed or at least U+0020: no control character other than LF. */
  predicate NoControlExceptLineFeed(s: seq<char>)
  {
    forall i :: 0 <= i < |s| ==> s[i] == LineFeed || s[i] >= ' '
  }

  /**
   * The output is a valid JSON string body exactly when the input holds no
   * control character other than line feed: CR, TAB and the rest of
   * U+0000-U+001F pass through raw and make the result invalid.
   */
  lemma {:induction false} EscapeIsJsonBodyIff(s: seq<char>)
    ensures IsJsonStringBody(Escape(s)) <==> NoControlExceptLineFeed(s)
  {
    if s != [] {
      var c, r := s[0], s[1..];
      var t := Escape(s);
      EscapeIsJsonBodyIff(r);
      if c == Backslash || c == Quote || c == LineFeed {
        assert t[2..] == Escape(r);
      } else {
        assert t[1..] == Escape(r);
      }
      if NoControlExceptLineFeed(s) {
        assert forall i :: 0 <= i < |r| ==> r[i] == s[i + 1];
      }
      if NoControlExceptLineFeed(r) && (c == LineFeed || c >= ' ') {
        assert forall i :: 0 < i < |s| ==> s[i] == r[i - 1];
      }
      assert NoControlExceptLineFeed(s) ==> s[0] == LineFeed || s[0] >= ' ';
    }
  }

  /** A carriage return or a tab is passed through unescaped, which JSON forbids. */
  lemma RawControlCharactersSurvive()
    ensures Escape("\r") == "\r" && !IsJsonStringBody(Escape("\r"))
    ensures Escape("\t") == "\t" && !IsJsonStringBody(Escape("\t"))
  {
  }
}
