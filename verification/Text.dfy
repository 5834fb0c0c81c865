/**
 Whitespace, stripping and substring search, as Python defines them for `str`.
 */
module Text {

  /** `str.isspace`, which `\s` and `str.strip` use as well: the code points Unicode calls white space
      together with the four information separators. */
  predicate IsSpace(c: char) {
    || '\U{9}' <= c <= '\U{D}'
    || '\U{1C}' <= c <= ' '
    || c == '\U{85}' || c == '\U{A0}' || c == '\U{1680}'
    || '\U{2000}' <= c <= '\U{200A}'
    || c == '\U{2028}' || c == '\U{2029}' || c == '\U{202F}' || c == '\U{205F}' || c == '\U{3000}'
  }

  lemma SpaceIsSpace()
    ensures IsSpace(' ')
  {
  }

  /** The code points that are white space, one by one. */
  const SPACES := [
    0x9, 0xA, 0xB, 0xC, 0xD, 0x1C, 0x1D, 0x1E, 0x1F, 0x20, 0x85, 0xA0, 0x1680, 0x2000, 0x2001, 0x2002, 0x2003, 0x2004,
    0x2005, 0x2006, 0x2007, 0x2008, 0x2009, 0x200A, 0x2028, 0x2029, 0x202F, 0x205F, 0x3000]

  lemma SpacesListed(c: char)
    ensures IsSpace(c) <==> c as int in SPACES
  {
  }

  function StripLeft(s: string): string {
    if s != "" && IsSpace(s[0]) then StripLeft(s[1..]) else s
  }

  function StripRight(s: string): string {
    if s != "" && IsSpace(s[|s| - 1]) then StripRight(s[..|s| - 1]) else s
  }

  /** `str.strip`. */
  function Strip(s: string): string {
    StripRight(StripLeft(s))
  }

  /** `re.sub(r"\s+", " ", s)`: every maximal run of white space becomes one space. */
  function Squeeze(s: string): string {
    if s == "" then ""
    else
      var before, c := Squeeze(s[..|s| - 1]), s[|s| - 1];
      if !IsSpace(c) then before + [c]
      else if |s| >= 2 && IsSpace(s[|s| - 2]) then before
      else before + " "
  }

  /** The whitespace-normal form of a text: what two texts share when they differ only in spacing. */
  function Normal(s: string): string {
    Strip(Squeeze(s))
  }

  /** No white space at either end, and something in between. */
  predicate Tight(s: string) {
    s != "" && !IsSpace(s[0]) && !IsSpace(s[|s| - 1])
  }

  predicate OccursAt(haystack: string, needle: string, k: nat) {
    k + |needle| <= |haystack| && haystack[k..k + |needle|] == needle
  }

  /** `haystack.find(needle)`, from position `from` on: the least position, or -1. */
  function IndexOf(haystack: string, needle: string, from: nat): (r: int)
    requires from <= |haystack|
    ensures r == -1 || (from <= r && OccursAt(haystack, needle, r))
    ensures forall k: nat :: from <= k && OccursAt(haystack, needle, k) ==> r != -1 && r <= k
    decreases |haystack| - from
  {
    if OccursAt(haystack, needle, from) then from
    else if from == |haystack| then -1
    else IndexOf(haystack, needle, from + 1)
  }

  /** The words of a text: its maximal runs of characters that are not white space. */
  function Words(s: string): seq<string> {
    if s == "" then []
    else
      var before, c := Words(s[..|s| - 1]), s[|s| - 1];
      if IsSpace(c) then before
      else if before == [] || IsSpace(s[|s| - 2]) then before + [[c]]
      else before[..|before| - 1] + [before[|before| - 1] + [c]]
  }

  /** `" ".join(words)`. */
  function Unwords(words: seq<string>): string {
    if words == [] then ""
    else if |words| == 1 then words[0]
    else Unwords(words[..|words| - 1]) + " " + words[|words| - 1]
  }

  /** `s.count("\n")`. */
  function Newlines(s: string): nat {
    if s == "" then 0 else Newlines(s[..|s| - 1]) + if s[|s| - 1] == '\n' then 1 else 0
  }

  lemma {:induction false} StripLeftShape(s: string) returns (k: nat)
    ensures k <= |s| && StripLeft(s) == s[k..]
    ensures forall i :: 0 <= i < k ==> IsSpace(s[i])
    ensures StripLeft(s) == "" || !IsSpace(StripLeft(s)[0])
  {
    if s != "" && IsSpace(s[0]) {
      var j := StripLeftShape(s[1..]);
      k := j + 1;
      assert s[k..] == s[1..][j..];
      forall i | 0 <= i < k ensures IsSpace(s[i]) {
        if i > 0 { assert s[i] == s[1..][i - 1]; }
      }
    } else {
      k := 0;
    }
  }

  lemma {:induction false} StripRightShape(s: string) returns (k: nat)
    ensures k <= |s| && StripRight(s) == s[..k]
    ensures forall i :: k <= i < |s| ==> IsSpace(s[i])
    ensures StripRight(s) == "" || !IsSpace(s[k - 1])
  {
    if s != "" && IsSpace(s[|s| - 1]) {
      k := StripRightShape(s[..|s| - 1]);
      assert s[..k] == s[..|s| - 1][..k];
    } else {
      k := |s|;
    }
  }

  /** Stripping leaves a slice of the text: what was cut off is white space, what is left is tight. */
  lemma StripShape(s: string) returns (a: nat, b: nat)
    ensures a <= b <= |s| && Strip(s) == s[a..b]
    ensures forall i :: 0 <= i < a || b <= i < |s| ==> IsSpace(s[i])
    ensures a < b ==> Tight(s[a..b])
  {
    a := StripLeftShape(s);
    var left := s[a..];
    var k := StripRightShape(left);
    b := a + k;
    assert left[..k] == s[a..b];
    forall i | b <= i < |s| ensures IsSpace(s[i]) {
      assert s[i] == left[i - a];
    }
    if a < b {
      assert s[a] == left[0] && s[b - 1] == left[k - 1];
    }
  }

  /** There is only one way to strip a text. */
  lemma StripIs(s: string, x: nat, y: nat)
    requires x < y <= |s| && !IsSpace(s[x]) && !IsSpace(s[y - 1])
    requires forall i :: 0 <= i < x || y <= i < |s| ==> IsSpace(s[i])
    ensures Strip(s) == s[x..y]
  {
    hide IsSpace, Strip;
    var a, b := StripShape(s);
    assert s[a..b][0] == s[a] && s[a..b][b - a - 1] == s[b - 1];
  }

  lemma StripBlank(s: string)
    requires forall i :: 0 <= i < |s| ==> IsSpace(s[i])
    ensures Strip(s) == ""
  {
    hide IsSpace, Strip;
    var a, b := StripShape(s);
  }

  lemma ConcatAssociates(a: string, b: string, c: string)
    ensures a + (b + c) == (a + b) + c
  {
  }

  /** As many as there are positions that hold one. */
  lemma {:induction false} NewlinesCounts(s: string)
    ensures Newlines(s) == |set i | 0 <= i < |s| && s[i] == '\n'|
  {
    if s != "" {
      var n := |s| - 1;
      NewlinesCounts(s[..n]);
      var before := set i | 0 <= i < n && s[..n][i] == '\n';
      var all := set i | 0 <= i < |s| && s[i] == '\n';
      assert all == if s[n] == '\n' then before + {n} else before;
    }
  }

  // ---------- Words ----------

  lemma {:induction false} WordAtEnd(s: string)
    requires s != "" && !IsSpace(s[|s| - 1])
    ensures Words(s) != [] && Words(s)[|Words(s)| - 1] != ""
  {
  }

  lemma UnwordsAdd(words: seq<string>, word: string)
    ensures Unwords(words + [word]) == if words == [] then word else Unwords(words) + " " + word
  {
    assert (words + [word])[..|words|] == words;
  }

  /** A last word that grows. */
  lemma UnwordsGrow(words: seq<string>, last: string, c: char)
    ensures Unwords(words + [last + [c]]) == Unwords(words + [last]) + [c]
  {
    hide Unwords;
    UnwordsAdd(words, last + [c]);
    UnwordsAdd(words, last);
    ConcatAssociates(Unwords(words) + " ", last, [c]);
  }

  predicate IsWord(w: string) {
    w != "" && forall c <- w :: !IsSpace(c)
  }

  lemma {:induction false} WordsAreWords(s: string)
    ensures forall w <- Words(s) :: IsWord(w)
  {
    if s != "" {
      hide IsSpace;
      var before, c := Words(s[..|s| - 1]), s[|s| - 1];
      WordsAreWords(s[..|s| - 1]);
      if !IsSpace(c) && before != [] {
        assert before[|before| - 1] in before && forall w <- before[..|before| - 1] :: w in before;
      }
    }
  }

  /** The words of a text followed by a space and a word. */
  lemma {:induction false} WordsAfterSpace(s: string, w: string)
    requires IsWord(w)
    ensures Words(s + " " + w) == Words(s) + [w]
  {
    hide IsSpace;
    SpaceIsSpace();
    var n := |w| - 1;
    var t := s + " " + w;
    assert w[n] in w && t[|t| - 1] == w[n];
    if n == 0 {
      assert t[..|t| - 1] == s + " ";
      assert (s + " ")[..|s|] == s;
      assert w == [w[0]];
    } else {
      assert t[..|t| - 1] == s + " " + w[..n];
      assert forall c <- w[..n] :: c in w;
      WordsAfterSpace(s, w[..n]);
      assert w[n - 1] in w && t[|t| - 2] == w[n - 1];
      assert w == w[..n] + [w[n]];
    }
  }

  lemma {:induction false} WordsOfWord(w: string)
    requires IsWord(w)
    ensures Words(w) == [w]
  {
    hide IsSpace;
    var n := |w| - 1;
    assert w[n] in w && w == w[..n] + [w[n]];
    if n > 0 {
      assert forall c <- w[..n] :: c in w;
      assert w[n - 1] in w;
      WordsOfWord(w[..n]);
    }
  }

  /** Words put together are found again. */
  lemma {:induction false} WordsOfUnwords(words: seq<string>)
    requires forall w <- words :: IsWord(w)
    ensures Words(Unwords(words)) == words
  {
    hide Words, IsWord;
    if |words| == 1 {
      assert words[0] in words;
      WordsOfWord(words[0]);
    } else if words != [] {
      var n := |words| - 1;
      assert words[n] in words && forall w <- words[..n] :: w in words;
      WordsOfUnwords(words[..n]);
      WordsAfterSpace(Unwords(words[..n]), words[n]);
    } else {
      NoWords();
    }
  }

  lemma NoWords()
    ensures Words("") == []
  {
  }

  /** White space around a text does not matter to what is left of it. */
  lemma StripIgnoresPadding(lead: string, s: string, trail: string)
    requires forall c <- lead + trail :: IsSpace(c)
    ensures Strip(lead + s + trail) == Strip(s)
  {
    hide IsSpace, Strip;
    var all, l := lead + s + trail, |lead|;
    forall i | 0 <= i < l || l + |s| <= i < |all| ensures IsSpace(all[i]) {
      assert all[i] in lead + trail by {
        if i < l { assert all[i] == (lead + trail)[i]; } else { assert all[i] == (lead + trail)[i - |s|]; }
      }
    }
    var a, b := StripShape(s);
    assert forall i :: 0 <= i < |s| ==> all[l + i] == s[i];
    if a == b {
      forall i | 0 <= i < |all| ensures IsSpace(all[i]) {
        if l <= i < l + |s| { assert all[i] == s[i - l]; }
      }
      StripBlank(all);
    } else {
      assert s[a..b][0] == s[a] && s[a..b][b - a - 1] == s[b - 1];
      forall i | 0 <= i < l + a || l + b <= i < |all| ensures IsSpace(all[i]) {
        if l <= i < l + |s| { assert all[i] == s[i - l]; }
      }
      StripIs(all, l + a, l + b);
      assert all[l + a..l + b] == s[a..b];
    }
  }
}
