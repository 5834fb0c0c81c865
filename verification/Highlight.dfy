/**
 Cutting the source text at the evidence spans for the review screen: app/api/highlight.py.
 */
module Highlight {
  import opened Wrappers
  import opened Text
  import opened Evidence
  import opened Schema

  datatype Segment = Segment(text: string, field: Option<string>)

  datatype Mark = Mark(field: string, start: nat, end: nat)

  /** Python's `s[a:b]` for indices that are not negative. */
  function Slice(s: string, a: nat, b: nat): string {
    var hi := if b < |s| then b else |s|;
    if a < hi then s[a..hi] else ""
  }

  function Located(evidence: seq<EvidenceResult>): seq<Mark> {
    if evidence == [] then []
    else
      var item := evidence[0];
      (if item.span.Some? then [Mark(item.field, item.span.value.start, item.span.value.end)] else [])
      + Located(evidence[1..])
  }

  // ---------- sorted(..., key=lambda item: (item["start"], -item["end"])) ----------

  predicate KeyAtMost(x: Mark, y: Mark) {
    x.start < y.start || (x.start == y.start && x.end >= y.end)
  }

  predicate IsSorted(marks: seq<Mark>) {
    forall i, j :: 0 <= i < j < |marks| ==> KeyAtMost(marks[i], marks[j])
  }

  function Insert(x: Mark, ys: seq<Mark>): seq<Mark> {
    if ys == [] || KeyAtMost(x, ys[0]) then [x] + ys else [ys[0]] + Insert(x, ys[1..])
  }

  /** Python's stable sort: marks with equal keys keep their order. */
  function Sorted(marks: seq<Mark>): seq<Mark> {
    if marks == [] then [] else Insert(marks[0], Sorted(marks[1..]))
  }

  lemma {:induction false} InsertPermutes(x: Mark, ys: seq<Mark>)
    ensures multiset(Insert(x, ys)) == multiset{x} + multiset(ys)
  {
    if ys != [] && !KeyAtMost(x, ys[0]) {
      InsertPermutes(x, ys[1..]);
      assert ys == [ys[0]] + ys[1..];
    }
  }

  lemma {:induction false} InsertSorted(x: Mark, ys: seq<Mark>)
    requires IsSorted(ys)
    ensures IsSorted(Insert(x, ys))
  {
    if ys != [] && !KeyAtMost(x, ys[0]) {
      InsertSorted(x, ys[1..]);
      InsertPermutes(x, ys[1..]);
      var rest := Insert(x, ys[1..]);
      forall y | y in rest ensures KeyAtMost(ys[0], y) {
        assert y in multiset(rest);
        assert y == x || y in ys[1..];
      }
    }
  }

  lemma {:induction false} SortedSorts(marks: seq<Mark>)
    ensures IsSorted(Sorted(marks))
    ensures multiset(Sorted(marks)) == multiset(marks)
  {
    if marks != [] {
      SortedSorts(marks[1..]);
      InsertSorted(marks[0], Sorted(marks[1..]));
      InsertPermutes(marks[0], Sorted(marks[1..]));
      assert marks == [marks[0]] + marks[1..];
    }
  }

  /** The marks of one span, in their order. */
  function WithSpan(marks: seq<Mark>, start: nat, end: nat): seq<Mark> {
    if marks == [] then []
    else (if marks[0].start == start && marks[0].end == end then [marks[0]] else []) + WithSpan(marks[1..], start, end)
  }

  lemma {:induction false} InsertKeepsTies(x: Mark, ys: seq<Mark>, start: nat, end: nat)
    ensures WithSpan(Insert(x, ys), start, end) == WithSpan([x] + ys, start, end)
  {
    if ys != [] && !KeyAtMost(x, ys[0]) {
      InsertKeepsTies(x, ys[1..], start, end);
      assert ([x] + ys)[1..] == ys && ([x] + ys[1..])[1..] == ys[1..];
    }
  }

  /** The sort is stable: fields that quote the same text keep their order, so the first of them is shown. */
  lemma {:induction false} SortKeepsTies(marks: seq<Mark>, start: nat, end: nat)
    ensures WithSpan(Sorted(marks), start, end) == WithSpan(marks, start, end)
  {
    if marks != [] {
      SortKeepsTies(marks[1..], start, end);
      InsertKeepsTies(marks[0], Sorted(marks[1..]), start, end);
      assert ([marks[0]] + Sorted(marks[1..]))[1..] == Sorted(marks[1..]);
    }
  }

  // ---------- The loop and its result ----------

  /** The pieces from `cursor` on. */
  function Cut(source: string, marks: seq<Mark>, cursor: nat): seq<Segment> {
    if marks == [] then
      if cursor < |source| then [Segment(source[cursor..], None)] else []
    else
      var m := marks[0];
      if m.start < cursor then Cut(source, marks[1..], cursor)
      else
        (if m.start > cursor then [Segment(Slice(source, cursor, m.start), None)] else [])
        + [Segment(Slice(source, m.start, m.end), Some(m.field))]
        + Cut(source, marks[1..], m.end)
  }

  method Segments(source: string, evidence: seq<EvidenceResult>) returns (result: seq<Segment>)
    ensures result == Cut(source, Sorted(Located(evidence)), 0)
  {
    var spans := Sorted(Located(evidence));
    result := [];
    var cursor: nat := 0;
    for i := 0 to |spans|
      invariant result + Cut(source, spans[i..], cursor) == Cut(source, spans, 0)
    {
      assert spans[i..][1..] == spans[i + 1..];
      var start, end := spans[i].start, spans[i].end;
      if start < cursor {
        continue;
      }
      if start > cursor {
        result := result + [Segment(Slice(source, cursor, start), None)];
      }
      result := result + [Segment(Slice(source, start, end), Some(spans[i].field))];
      cursor := end;
    }
    if cursor < |source| {
      result := result + [Segment(source[cursor..], None)];
    }
  }

  /** The marks that get a highlighted piece of their own. */
  function Shown(marks: seq<Mark>, cursor: nat): seq<Mark> {
    if marks == [] then []
    else if marks[0].start < cursor then Shown(marks[1..], cursor)
    else [marks[0]] + Shown(marks[1..], marks[0].end)
  }

  function Join(segments: seq<Segment>): string {
    if segments == [] then "" else segments[0].text + Join(segments[1..])
  }

  predicate Forward(marks: seq<Mark>) {
    forall m <- marks :: m.start <= m.end
  }

  predicate Within(marks: seq<Mark>, source: string) {
    forall m <- marks :: m.start < m.end <= |source|
  }

  lemma {:induction false} JoinConcat(a: seq<Segment>, b: seq<Segment>)
    ensures Join(a + b) == Join(a) + Join(b)
  {
    if a == [] {
      assert a + b == b;
    } else {
      JoinConcat(a[1..], b);
      assert (a + b)[1..] == a[1..] + b;
      ConcatAssociates(a[0].text, Join(a[1..]), Join(b));
    }
  }

  /** No character of the source is lost or repeated, whatever the spans: in any order, overlapping, or past the
      end of the source. */
  lemma {:induction false} CutReassembles(source: string, marks: seq<Mark>, cursor: nat)
    requires Forward(marks)
    ensures Join(Cut(source, marks, cursor)) == Slice(source, cursor, |source|)
    decreases |marks|
  {
    if marks != [] {
      var m := marks[0];
      if m.start < cursor {
        CutReassembles(source, marks[1..], cursor);
      } else {
        CutReassembles(source, marks[1..], m.end);
        var gap := if m.start > cursor then [Segment(Slice(source, cursor, m.start), None)] else [];
        var piece := [Segment(Slice(source, m.start, m.end), Some(m.field))];
        JoinConcat(gap + piece, Cut(source, marks[1..], m.end));
        JoinConcat(gap, piece);
        assert Join(piece[1..]) == "" && Join(gap) == Slice(source, cursor, m.start);
        SliceSplit(source, cursor, m.start, |source|);
        SliceSplit(source, m.start, m.end, |source|);
      }
    }
  }

  lemma SliceSplit(s: string, a: nat, m: nat, b: nat)
    requires a <= m && b >= |s|
    ensures Slice(s, a, b) == Slice(s, a, m) + Slice(s, m, b)
  {
  }

  /** The highlighted pieces do not overlap and stand in the order of the text. */
  lemma {:induction false} ShownDisjoint(marks: seq<Mark>, cursor: nat)
    requires Forward(marks)
    ensures Forward(Shown(marks, cursor))
    ensures forall m <- Shown(marks, cursor) :: cursor <= m.start && m in marks
    ensures forall i, j :: 0 <= i < j < |Shown(marks, cursor)| ==>
                             Shown(marks, cursor)[i].end <= Shown(marks, cursor)[j].start
    decreases |marks|
  {
    if marks != [] {
      ShownDisjoint(marks[1..], if marks[0].start < cursor then cursor else marks[0].end);
    }
  }

  ghost predicate CoveredBy(m: Mark, shown: seq<Mark>) {
    exists s <- shown :: s.start <= m.start < s.end
  }

  /** A span without a piece of its own starts inside the piece of another. */
  lemma {:induction false} DroppedAreCovered(marks: seq<Mark>, cursor: nat, m: Mark)
    requires IsSorted(marks) && m in marks && cursor <= m.start
    ensures m in Shown(marks, cursor) || CoveredBy(m, Shown(marks, cursor))
    decreases |marks|
  {
    var first, shown := marks[0], Shown(marks, cursor);
    if m != first {
      var i :| 0 < i < |marks| && marks[i] == m;
      assert m in marks[1..] && KeyAtMost(marks[0], marks[i]);
      if first.start < cursor {
        DroppedAreCovered(marks[1..], cursor, m);
      } else {
        var rest := Shown(marks[1..], first.end);
        assert first == shown[0] && forall s <- rest :: s in shown;
        if first.end <= m.start {
          DroppedAreCovered(marks[1..], first.end, m);
        }
      }
    }
  }

  /** Every highlighted piece is the text of a shown span and stands at that span's place: exactly the source in
      front of the span precedes it. */
  lemma {:induction false} PiecesInPlace(source: string, marks: seq<Mark>, cursor: nat, i: nat)
    requires Within(marks, source) && cursor <= |source| && i < |Cut(source, marks, cursor)|
    ensures var piece := Cut(source, marks, cursor)[i];
            && piece.text != ""
            && (piece.field.Some? ==>
                  exists m <- Shown(marks, cursor) ::
                    && piece == Segment(Slice(source, m.start, m.end), Some(m.field))
                    && cursor + |Join(Cut(source, marks, cursor)[..i])| == m.start)
    decreases |marks|
  {
    if marks != [] {
      var m, all := marks[0], Cut(source, marks, cursor);
      if m.start < cursor {
        PiecesInPlace(source, marks[1..], cursor, i);
      } else {
        var gap := if m.start > cursor then [Segment(Slice(source, cursor, m.start), None)] else [];
        var piece := Segment(Slice(source, m.start, m.end), Some(m.field));
        var rest := Cut(source, marks[1..], m.end);
        assert all == gap + [piece] + rest;
        assert Join(gap) == Slice(source, cursor, m.start);
        var shown := Shown(marks, cursor);
        assert m == shown[0];
        if i == |gap| {
          assert all[..i] == gap;
        } else if i > |gap| {
          var j := i - |gap| - 1;
          PiecesInPlace(source, marks[1..], m.end, j);
          assert all[..i] == gap + [piece] + rest[..j];
          JoinConcat(gap + [piece], rest[..j]);
          JoinConcat(gap, [piece]);
          assert Join([piece][1..]) == "";
          assert forall s <- Shown(marks[1..], m.end) :: s in shown;
        }
      }
    }
  }

  /** Every shown span has its piece. */
  lemma {:induction false} ShownHavePieces(source: string, marks: seq<Mark>, cursor: nat, m: Mark)
    requires m in Shown(marks, cursor)
    ensures Segment(Slice(source, m.start, m.end), Some(m.field)) in Cut(source, marks, cursor)
    decreases |marks|
  {
    if marks[0].start < cursor {
      ShownHavePieces(source, marks[1..], cursor, m);
    } else if m != marks[0] {
      ShownHavePieces(source, marks[1..], marks[0].end, m);
    }
  }

  // ---------- Fed with the evidence of a draft ----------

  lemma {:induction false} LocatedMarks(evidence: seq<EvidenceResult>, m: Mark)
    ensures m in Located(evidence) <==>
            exists e <- evidence :: e.span.Some? && m == Mark(e.field, e.span.value.start, e.span.value.end)
  {
    if evidence != [] {
      LocatedMarks(evidence[1..], m);
      assert forall e :: e in evidence <==> e == evidence[0] || e in evidence[1..];
    }
  }

  ghost predicate FieldQuote(draft: Draft, field: string, quote: string) {
    (field, quote) in EvidencedFields(draft)
  }

  lemma DraftMarks(draft: Draft, source: string, m: Mark)
    requires m in Sorted(Located(VerifyDraft(draft, source)))
    ensures m.start < m.end <= |source|
    ensures exists q :: FieldQuote(draft, m.field, q) && Normal(source[m.start..m.end]) == Normal(q)
  {
    var evidence := VerifyDraft(draft, source);
    SortedSorts(Located(evidence));
    assert m in multiset(Located(evidence));
    LocatedMarks(evidence, m);
    var e :| e in evidence && e.span.Some? && m == Mark(e.field, e.span.value.start, e.span.value.end);
    FindSpanSound(source, e.quote);
    assert FieldQuote(draft, e.field, e.quote);
  }

  /** A piece of the review screen, with the text before it. */
  ghost predicate PieceOf(draft: Draft, source: string, piece: Segment, before: nat) {
    && piece.text != ""
    && (piece.field.Some? ==>
          && OccursAt(source, piece.text, before)
          && exists q :: FieldQuote(draft, piece.field.value, q) && Normal(piece.text) == Normal(q))
  }

  lemma ReviewPiece(draft: Draft, source: string, marks: seq<Mark>, i: nat)
    requires marks == Sorted(Located(VerifyDraft(draft, source))) && i < |Cut(source, marks, 0)|
    ensures var pieces := Cut(source, marks, 0); PieceOf(draft, source, pieces[i], |Join(pieces[..i])|)
  {
    hide FieldQuote, OccursAt, Normal, Cut, Join, Shown, Sorted, Located;
    forall m | m in marks ensures m.start < m.end <= |source| {
      DraftMarks(draft, source, m);
    }
    PiecesInPlace(source, marks, 0, i);
    var pieces := Cut(source, marks, 0);
    if pieces[i].field.Some? {
      ShownDisjoint(marks, 0);
      var m :| m in Shown(marks, 0) && pieces[i] == Segment(Slice(source, m.start, m.end), Some(m.field)) &&
               |Join(pieces[..i])| == m.start;
      PieceOfMark(draft, source, m);
    }
  }

  lemma PieceOfMark(draft: Draft, source: string, m: Mark)
    requires m in Sorted(Located(VerifyDraft(draft, source)))
    ensures PieceOf(draft, source, Segment(Slice(source, m.start, m.end), Some(m.field)), m.start)
  {
    hide Normal, Sorted, Located;
    DraftMarks(draft, source, m);
  }

  lemma ReviewSpan(draft: Draft, source: string, marks: seq<Mark>, e: EvidenceResult)
    requires marks == Sorted(Located(VerifyDraft(draft, source))) && e in VerifyDraft(draft, source) && e.Verified()
    ensures var m := Mark(e.field, e.span.value.start, e.span.value.end);
            m in Shown(marks, 0) || CoveredBy(m, Shown(marks, 0))
  {
    var m := Mark(e.field, e.span.value.start, e.span.value.end);
    var located := Located(VerifyDraft(draft, source));
    SortedSorts(located);
    LocatedMarks(VerifyDraft(draft, source), m);
    assert m in multiset(located);
    assert m in multiset(marks);
    DroppedAreCovered(marks, 0, m);
  }

  /** The review screen of any draft: the pieces reassemble the source, none is empty, each highlighted one
      stands where its text stands in the source and normalises to a quote of its field, and each verified
      quote's span is highlighted or starts inside a highlighted one. */
  lemma ReviewScreen(draft: Draft, source: string)
    ensures var marks := Sorted(Located(VerifyDraft(draft, source)));
            var pieces, shown := Cut(source, marks, 0), Shown(marks, 0);
            && Join(pieces) == source
            && (forall i :: 0 <= i < |pieces| ==> PieceOf(draft, source, pieces[i], |Join(pieces[..i])|))
            && (forall m <- shown :: Segment(Slice(source, m.start, m.end), Some(m.field)) in pieces)
            && (forall e <- VerifyDraft(draft, source) :: e.Verified() ==>
                  var m := Mark(e.field, e.span.value.start, e.span.value.end);
                  m in shown || CoveredBy(m, shown))
  {
    var marks := Sorted(Located(VerifyDraft(draft, source)));
    forall m | m in marks ensures m.start <= m.end {
      DraftMarks(draft, source, m);
    }
    CutReassembles(source, marks, 0);
    forall i | 0 <= i < |Cut(source, marks, 0)|
      ensures PieceOf(draft, source, Cut(source, marks, 0)[i], |Join(Cut(source, marks, 0)[..i])|)
    {
      ReviewPiece(draft, source, marks, i);
    }
    forall m | m in Shown(marks, 0)
      ensures Segment(Slice(source, m.start, m.end), Some(m.field)) in Cut(source, marks, 0)
    {
      ShownHavePieces(source, marks, 0, m);
    }
    forall e | e in VerifyDraft(draft, source) && e.Verified()
      ensures var m := Mark(e.field, e.span.value.start, e.span.value.end);
              m in Shown(marks, 0) || CoveredBy(m, Shown(marks, 0))
    {
      ReviewSpan(draft, source, marks, e);
    }
  }
}
