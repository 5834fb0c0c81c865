/**
 Locating a quote in the source text: app/domain/evidence.py.

 A quote and the source are compared after every run of white space has been collapsed to one space, and the
 match is mapped back to offsets of the original text.
 */
module Evidence {
  import opened Wrappers
  import opened Text

  datatype Span = Span(start: nat, end: nat, line: nat)

  /** In the text from `a` on, position `i` contributes a character to the collapsed text: it holds no white
      space, or it holds the first white space after some other character. White space in front of all text
      contributes nothing. */
  predicate Kept(s: string, a: nat, i: nat)
    requires a <= i < |s|
  {
    !IsSpace(s[i]) || (i > a && !IsSpace(s[i - 1]))
  }

  function Shown(c: char): char {
    if IsSpace(c) then ' ' else c
  }

  /** The collapsed text of `s[a..b]`. */
  function Chars(s: string, a: nat, b: nat): string
    requires a <= b <= |s|
    decreases b
  {
    if a == b then "" else Chars(s, a, b - 1) + if Kept(s, a, b - 1) then [Shown(s[b - 1])] else ""
  }

  /** For each index of the collapsed text of `s[..b]`, its index in the original. */
  function Offsets(s: string, b: nat): (r: seq<nat>)
    requires b <= |s|
    ensures |r| == |Chars(s, 0, b)|
    ensures forall k :: 0 <= k < |r| ==> r[k] < b
  {
    if b == 0 then [] else Offsets(s, b - 1) + if Kept(s, 0, b - 1) then [b - 1] else []
  }

  /** The loop of `_collapse_whitespace`. */
  method CollapseWhitespace(text: string) returns (chars: string, offsets: seq<nat>)
    ensures chars == Chars(text, 0, |text|)
    ensures offsets == Offsets(text, |text|)
  {
    chars, offsets := "", [];
    var inRun := false;
    for i := 0 to |text|
      invariant chars == Chars(text, 0, i)
      invariant offsets == Offsets(text, i)
      invariant (!inRun && chars != "") <==> (i > 0 && !IsSpace(text[i - 1]))
    {
      var ch := text[i];
      if IsSpace(ch) {
        if !inRun && chars != "" {
          chars := chars + " ";
          offsets := offsets + [i];
        }
        inRun := true;
        continue;
      }
      inRun := false;
      chars := chars + [ch];
      offsets := offsets + [i];
    }
  }

  function FindSpan(source: string, quote: string): Option<Span> {
    var normalizedQuote := Normal(quote);
    if normalizedQuote == "" then None
    else
      var normalizedSource, offsets := Chars(source, 0, |source|), Offsets(source, |source|);
      var index := IndexOf(normalizedSource, normalizedQuote, 0);
      if index == -1 then None
      else
        var start := offsets[index];
        var end := offsets[index + |normalizedQuote| - 1] + 1;
        Some(Span(start, end, Newlines(source[..start]) + 1))
  }

  // ---------- The collapsed text of a part ----------

  lemma {:induction false} CharsOfSlice(s: string, a: nat, b: nat, x: nat, y: nat)
    requires a <= b <= |s| && x <= y <= b - a
    ensures Chars(s, a + x, a + y) == Chars(s[a..b], x, y)
    decreases y
  {
    if x < y {
      CharsOfSlice(s, a, b, x, y - 1);
    }
  }

  /** Collapsing works from left to right, so what precedes a character that is not white space can be
      collapsed on its own. */
  lemma {:induction false} CharsSplit(s: string, a: nat, m: nat, b: nat)
    requires a <= m < b <= |s| && !IsSpace(s[m])
    ensures Chars(s, a, b) == Chars(s, a, m) + Chars(s, m, b)
    decreases b
  {
    if m < b - 1 {
      CharsSplit(s, a, m, b - 1);
    } else {
      assert Chars(s, m, m) == "";
    }
  }

  lemma {:induction false} CharsPrefix(s: string, a: nat, b: nat, c: nat)
    requires a <= b <= c <= |s|
    ensures Chars(s, a, b) <= Chars(s, a, c)
    decreases c
  {
    if b < c {
      CharsPrefix(s, a, b, c - 1);
    }
  }

  /** A part that starts at a character which is not white space is found in the collapsed text, at the index
      that counts the collapsed characters before it. */
  lemma PartOccurs(s: string, a: nat, b: nat)
    requires a < b <= |s| && !IsSpace(s[a])
    ensures |Chars(s, 0, a)| + |Chars(s, a, b)| == |Chars(s, 0, b)|
    ensures OccursAt(Chars(s, 0, |s|), Chars(s, a, b), |Chars(s, 0, a)|)
  {
    CharsSplit(s, 0, a, b);
    CharsPrefix(s, 0, b, |s|);
  }

  /** Each collapsed index shows the character at its offset, and is the number of collapsed characters in
      front of it. */
  lemma {:induction false} OffsetCounts(s: string, b: nat, k: nat, o: nat)
    requires b <= |s| && k < |Offsets(s, b)| && o == Offsets(s, b)[k]
    ensures o < b && Chars(s, 0, b)[k] == Shown(s[o]) && Kept(s, 0, o) && |Chars(s, 0, o)| == k
    decreases b
  {
    if k < |Offsets(s, b - 1)| {
      OffsetCounts(s, b - 1, k, o);
    }
  }

  /** The collapsed character after the ones before `a` is the one at `a`. */
  lemma {:induction false} OffsetAt(s: string, a: nat, b: nat)
    requires a < b <= |s| && Kept(s, 0, a)
    ensures |Chars(s, 0, a)| < |Offsets(s, b)| && Offsets(s, b)[|Chars(s, 0, a)|] == a
    decreases b
  {
    if a < b - 1 {
      OffsetAt(s, a, b - 1);
    }
  }

  lemma {:induction false} OffsetsIncrease(s: string, b: nat, j: nat, k: nat)
    requires b <= |s| && j < k < |Offsets(s, b)|
    ensures Offsets(s, b)[j] < Offsets(s, b)[k]
    decreases b
  {
    if k < |Offsets(s, b - 1)| {
      OffsetsIncrease(s, b - 1, j, k);
    }
  }

  // ---------- The normal form through the collapsed text ----------

  lemma {:induction false} SqueezeIsChars(s: string)
    ensures Squeeze(s) == (if s != "" && IsSpace(s[0]) then " " else "") + Chars(s, 0, |s|)
  {
    if s != "" {
      var n := |s| - 1;
      SqueezeIsChars(s[..n]);
      CharsOfSlice(s, 0, n, 0, n);
    }
  }

  lemma {:induction false} CharsOfSpace(s: string, a: nat, b: nat)
    requires a <= b <= |s| && forall i :: a <= i < b ==> IsSpace(s[i])
    ensures Chars(s, a, b) == ""
    decreases b
  {
    if a < b {
      CharsOfSpace(s, a, b - 1);
    }
  }

  lemma {:induction false} CharsTrailing(s: string, a: nat, b: nat, c: nat)
    requires a < b <= c <= |s| && !IsSpace(s[b - 1])
    requires forall i :: b <= i < c ==> IsSpace(s[i])
    ensures Chars(s, a, c) == Chars(s, a, b) + if b < c then " " else ""
    decreases c
  {
    if b < c {
      CharsTrailing(s, a, b, c - 1);
    }
  }

  /** Collapsing keeps the first and the last character of a tight text. */
  lemma CharsOfTight(s: string, a: nat, b: nat)
    requires a < b <= |s| && !IsSpace(s[a]) && !IsSpace(s[b - 1])
    ensures Tight(Chars(s, a, b))
  {
    CharsPrefix(s, a, a + 1, b);
    assert Chars(s, a, a) == "";
    assert Chars(s, a, a + 1) == [s[a]];
  }

  lemma NormalOfBlank(s: string)
    requires forall i :: 0 <= i < |s| ==> IsSpace(s[i])
    ensures Normal(s) == ""
  {
    hide IsSpace, Strip;
    SpaceIsSpace();
    SqueezeIsChars(s);
    CharsOfSpace(s, 0, |s|);
    StripBlank(Squeeze(s));
  }

  lemma NormalOfPadded(s: string, a: nat, b: nat)
    requires a < b <= |s| && !IsSpace(s[a]) && !IsSpace(s[b - 1])
    requires forall i :: 0 <= i < a || b <= i < |s| ==> IsSpace(s[i])
    ensures Normal(s) == Chars(s, a, b)
  {
    hide IsSpace, Strip, Squeeze, Chars;
    SqueezeIsChars(s);
    CharsOfTight(s, a, b);
    CharsSplit(s, 0, a, |s|);
    CharsOfSpace(s, 0, a);
    CharsTrailing(s, a, b, |s|);
    var lead, core, trail := if a > 0 then " " else "", Chars(s, a, b), if b < |s| then " " else "";
    assert IsSpace(s[0]) <==> a > 0;
    assert Squeeze(s) == lead + (core + trail);
    StripPadded(lead, core, trail);
  }

  /** The normal form is the collapsed form of the stripped text. */
  lemma NormalIsChars(s: string) returns (a: nat, b: nat)
    ensures a <= b <= |s| && Normal(s) == Chars(s, a, b)
    ensures if a == b then Normal(s) == "" else Tight(Normal(s)) && !IsSpace(s[a]) && !IsSpace(s[b - 1])
    ensures Tight(s) ==> a == 0 && b == |s|
    ensures forall i :: 0 <= i < a ==> IsSpace(s[i])
  {
    hide IsSpace, Normal, Squeeze;
    a, b := StripShape(s);
    if a == b {
      NormalOfBlank(s);
      assert Chars(s, a, b) == "";
    } else {
      assert s[a..b][0] == s[a] && s[a..b][b - a - 1] == s[b - 1];
      CharsOfTight(s, a, b);
      NormalOfPadded(s, a, b);
    }
  }

  /** The collapsed text is the words, and a space if the text goes on after them. */
  lemma {:induction false} CharsAreWords(s: string, n: nat)
    requires n <= |s|
    ensures Chars(s, 0, n) ==
            Unwords(Words(s[..n])) + if n > 0 && IsSpace(s[n - 1]) && Words(s[..n]) != [] then " " else ""
  {
    if n == 0 {
      NothingJoined();
    } else {
      hide IsSpace, Unwords;
      var before := s[..n - 1];
      assert s[..n][..n - 1] == before;
      CharsAreWords(s, n - 1);
      NothingJoined();
      if n > 1 && !IsSpace(s[n - 2]) { WordAtEnd(before); }
      if !IsSpace(s[n - 1]) {
        if Words(before) == [] || IsSpace(s[n - 2]) {
          UnwordsAdd(Words(before), [s[n - 1]]);
        } else {
          var words := Words(before);
          var m := |words| - 1;
          UnwordsGrow(words[..m], words[m], s[n - 1]);
          assert words[..m] + [words[m]] == words;
        }
      }
    }
  }

  /** The normal form is the words of the text with one space between them. */
  lemma NormalIsWords(s: string)
    ensures Normal(s) == Unwords(Words(s))
  {
    hide IsSpace, Normal, Chars, Words, Unwords;
    var n := |s|;
    assert s[..n] == s;
    CharsAreWords(s, n);
    var a, b := StripShape(s);
    if a == b {
      CharsOfSpace(s, 0, n);
      NormalOfBlank(s);
    } else {
      assert s[a..b][0] == s[a] && s[a..b][b - a - 1] == s[b - 1];
      CharsOfTight(s, a, b);
      NormalOfPadded(s, a, b);
      CharsSplit(s, 0, a, n);
      CharsOfSpace(s, 0, a);
      CharsTrailing(s, a, b, n);
      NothingJoined();
      assert b < n <==> IsSpace(s[n - 1]);
      var core, words, all := Chars(s, a, b), Unwords(Words(s)), Chars(s, 0, n);
      assert all == Chars(s, a, n);
      if b < n {
        assert all[..|all| - 1] == core && all[..|all| - 1] == words;
      } else {
        assert all == core && all == words;
      }
    }
  }

  /** Two texts have the same normal form if and only if they have the same words. */
  lemma SameWords(s: string, t: string)
    ensures Normal(s) == Normal(t) <==> Words(s) == Words(t)
    ensures Normal(s) == "" <==> Words(s) == []
  {
    hide Words, Unwords, Normal;
    NormalIsWords(s);
    NormalIsWords(t);
    WordsAreWords(s);
    WordsAreWords(t);
    WordsOfUnwords(Words(s));
    WordsOfUnwords(Words(t));
    NoWords();
    assert Unwords([]) == "" by { NothingJoined(); }
  }

  lemma NothingJoined()
    ensures Unwords([]) == ""
  {
  }

  lemma StripPadded(lead: string, core: string, trail: string)
    requires lead in {"", " "} && trail in {"", " "} && Tight(core)
    ensures Strip(lead + (core + trail)) == core
  {
    hide IsSpace;
    SpaceIsSpace();
    var s, l := lead + (core + trail), |lead|;
    assert s[l..l + |core|] == core;
    assert s[l] == core[0] && s[l + |core| - 1] == core[|core| - 1];
    forall i | 0 <= i < l || l + |core| <= i < |s| ensures IsSpace(s[i]) {
      assert s[i] == ' ';
    }
    StripIs(s, l, l + |core|);
  }

  // ---------- find_span is exact ----------

  /** A window of the source that shows the quote, up to spacing. */
  predicate Shows(source: string, a: nat, b: nat, quote: string) {
    a <= b <= |source| && Normal(source[a..b]) == Normal(quote) && Normal(quote) != ""
  }

  predicate TightAt(source: string, a: nat, b: nat) {
    a < b <= |source| && !IsSpace(source[a]) && !IsSpace(source[b - 1])
  }

  lemma NormalOfTight(source: string, a: nat, b: nat)
    requires TightAt(source, a, b)
    ensures Normal(source[a..b]) == Chars(source, a, b) && Tight(Chars(source, a, b))
  {
    hide IsSpace, Normal, Chars;
    var c, d := NormalIsChars(source[a..b]);
    CharsOfSlice(source, a, b, 0, b - a);
  }

  /** An occurrence of a tight text in the collapsed source maps back to a tight part of the source that
      collapses to it. */
  lemma OccurrenceMapsBack(source: string, needle: string, k: nat, a: nat, z: nat)
    requires Tight(needle) && OccursAt(Chars(source, 0, |source|), needle, k)
    requires a == Offsets(source, |source|)[k] && z == Offsets(source, |source|)[k + |needle| - 1]
    ensures TightAt(source, a, z + 1) && Chars(source, a, z + 1) == needle
  {
    hide IsSpace, Offsets, Kept, Newlines;
    SpaceIsSpace();
    var chars, last := Chars(source, 0, |source|), k + |needle| - 1;
    assert chars[k] == needle[0] && chars[last] == needle[|needle| - 1];
    if k < last { OffsetsIncrease(source, |source|, k, last); }
    OffsetCounts(source, |source|, k, a);
    OffsetCounts(source, |source|, last, z);
    PartOccurs(source, a, z + 1);
  }

  /** What a span promises: it cuts a tight window with the quote's normal form out of the source. */
  lemma FindSpanSound(source: string, quote: string)
    requires FindSpan(source, quote).Some?
    ensures var span := FindSpan(source, quote).value;
            && TightAt(source, span.start, span.end)
            && Shows(source, span.start, span.end, quote)
            && span.line == Newlines(source[..span.start]) + 1
  {
    var nq := Normal(quote);
    var _, _ := NormalIsChars(quote);
    var span := FindSpan(source, quote).value;
    OccurrenceMapsBack(source, nq, IndexOf(Chars(source, 0, |source|), nq, 0), span.start, span.end - 1);
    NormalOfTight(source, span.start, span.end);
  }

  lemma TightWindowFound(source: string, quote: string, a: nat, b: nat)
    requires TightAt(source, a, b) && Chars(source, a, b) == Normal(quote) != ""
    ensures FindSpan(source, quote).Some?
    ensures FindSpan(source, quote).value.start <= a
    ensures FindSpan(source, quote).value.start == a ==> FindSpan(source, quote).value.end == b
  {
    hide IsSpace;
    var n := |source|;
    PartOccurs(source, a, b);
    OffsetAt(source, a, n);
    OffsetAt(source, b - 1, n);
    var k := |Chars(source, 0, a)|;
    var index := IndexOf(Chars(source, 0, n), Normal(quote), 0);
    assert 0 <= index <= k;
    if index < k {
      OffsetsIncrease(source, n, index, k);
    }
  }

  /** Every window that shows the quote is found: the span starts at the window's first character that is not
      white space, or earlier. Tight windows with the span's start end with it, so the span is determined. */
  lemma FindSpanComplete(source: string, quote: string, a: nat, b: nat)
    requires Shows(source, a, b, quote)
    ensures FindSpan(source, quote).Some?
    ensures exists i :: a <= i < b && !IsSpace(source[i]) && FindSpan(source, quote).value.start <= i &&
                        forall j :: a <= j < i ==> IsSpace(source[j])
    ensures TightAt(source, a, b) && FindSpan(source, quote).value.start == a ==>
              FindSpan(source, quote).value.end == b
  {
    hide IsSpace, Normal, Chars, FindSpan;
    var w := source[a..b];
    var c, d := NormalIsChars(w);
    CharsOfSlice(source, a, b, c, d);
    TightWindowFound(source, quote, a + c, a + d);
    assert forall j :: a <= j < a + c ==> source[j] == w[j - a];
  }

  /** `find_span` answers exactly when the quote occurs up to spacing. */
  lemma FindSpanExact(source: string, quote: string)
    ensures FindSpan(source, quote).Some? <==> exists a, b :: Shows(source, a, b, quote)
  {
    if FindSpan(source, quote).Some? {
      FindSpanSound(source, quote);
    }
    forall a, b | Shows(source, a, b, quote) ensures FindSpan(source, quote).Some? {
      FindSpanComplete(source, quote, a, b);
    }
  }

  /** In plain terms: there is a span if and only if the quote has words, and they are the words of some window of the
      source, character for character. */
  lemma FindSpanByWords(source: string, quote: string)
    ensures FindSpan(source, quote).Some? <==>
            Words(quote) != [] &&
            exists a: nat, b: nat :: a <= b <= |source| && Words(source[a..b]) == Words(quote)
  {
    hide Words, Normal, FindSpan;
    FindSpanExact(source, quote);
    forall a: nat, b: nat | a <= b <= |source|
      ensures Shows(source, a, b, quote) <==> Words(quote) != [] && Words(source[a..b]) == Words(quote)
    {
      SameWords(source[a..b], quote);
    }
  }

  /** Searching for the text a span cuts out leads to the same span. */
  lemma FindSpanAgain(source: string, quote: string)
    requires FindSpan(source, quote).Some?
    ensures var span := FindSpan(source, quote).value;
            span.start <= span.end <= |source| &&
            FindSpan(source, source[span.start..span.end]) == Some(span)
  {
    FindSpanSound(source, quote);
  }
}
