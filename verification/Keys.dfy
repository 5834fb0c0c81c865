/**
 The two keys a write is guarded by: the idempotency key (app/domain/approval.py) and the business key
 (app/repositories/documents.py).
 */
module Keys {
  import opened Wrappers
  import opened Text
  import opened Schema

  // ---------- The pre-image of the idempotency key ----------

  /** `str(n)`. */
  function Decimal(n: nat): string {
    (if n < 10 then "" else Decimal(n / 10)) + [('0' as int + n % 10) as char]
  }

  predicate IsDigit(c: char) { '0' <= c <= '9' }

  function DigitValue(c: char): nat
    requires IsDigit(c)
  {
    c as int - '0' as int
  }

  function Value(digits: string): nat
    requires forall c <- digits :: IsDigit(c)
  {
    if digits == "" then 0
    else
      var last := digits[|digits| - 1];
      assert last in digits;
      Value(digits[..|digits| - 1]) * 10 + DigitValue(last)
  }

  /** What the digest is fed for one part: `f"{len(part)}:{part}"`. */
  function Framed(part: string): string {
    Decimal(|part|) + ":" + part
  }

  function Framing(parts: seq<string>): string {
    if parts == [] then "" else Framing(parts[..|parts| - 1]) + Framed(parts[|parts| - 1])
  }

  /** The loop of `idempotency_key`; `fed` is everything the digest has been updated with. */
  method IdempotencyPreimage(documentId: string, payloadHash: string) returns (fed: string)
    ensures fed == Framing([documentId, payloadHash])
  {
    fed := "";
    var parts := [documentId, payloadHash];
    for i := 0 to |parts|
      invariant fed == Framing(parts[..i])
    {
      assert parts[..i + 1][..i] == parts[..i];
      fed := fed + Decimal(|parts[i]|) + ":" + parts[i];
      assert parts[i] == parts[..i + 1][i];
      assert fed == Framing(parts[..i]) + Framed(parts[i]);
    }
    assert parts[..|parts|] == parts;
  }

  /** Reads one framed part off the front: the part and what follows it. */
  function Unframe(s: string): Option<(string, string)> {
    var colon := IndexOf(s, ":", 0);
    if colon == -1 || !(forall c <- s[..colon] :: IsDigit(c)) then None
    else
      var end := colon + 1 + Value(s[..colon]);
      if end > |s| then None else Some((s[colon + 1..end], s[end..]))
  }

  function Unframing(s: string): Option<seq<string>>
    decreases |s|
  {
    if s == "" then Some([])
    else match Unframe(s)
      case None => None
      case Some((part, rest)) =>
        if |rest| >= |s| then None
        else match Unframing(rest)
          case None => None
          case Some(parts) => Some([part] + parts)
  }

  lemma {:induction false} DecimalReadsBack(n: nat)
    ensures forall c <- Decimal(n) :: IsDigit(c)
    ensures Value(Decimal(n)) == n && Decimal(n) != "" && (n > 0 ==> Decimal(n)[0] != '0')
  {
    if n >= 10 {
      DecimalReadsBack(n / 10);
    }
    var s := Decimal(n);
    assert s[..|s| - 1] == if n < 10 then "" else Decimal(n / 10);
  }

  lemma FirstColon(digits: string, rest: string)
    requires forall c <- digits :: IsDigit(c)
    ensures IndexOf(digits + ":" + rest, ":", 0) == |digits|
  {
    var s, k := digits + ":" + rest, |digits|;
    assert s[k..k + 1] == ":";
    assert OccursAt(s, ":", k);
    var colon := IndexOf(s, ":", 0);
    assert s[colon..colon + 1][0] == s[colon];
    forall i | 0 <= i < k ensures s[i] != ':' {
      assert digits[i] in digits;
    }
  }

  lemma CutAtColon(s: string, digits: string, part: string, rest: string)
    requires s == digits + ":" + (part + rest)
    ensures var k := |digits|;
            && k + 1 + |part| <= |s| && s[..k] == digits
            && s[k + 1..k + 1 + |part|] == part && s[k + 1 + |part|..] == rest
  {
    assert s[|digits| + 1..] == part + rest;
  }

  lemma UnframeFramed(part: string, rest: string)
    ensures Unframe(Framed(part) + rest) == Some((part, rest))
  {
    var digits, s := Decimal(|part|), Framed(part) + rest;
    DecimalReadsBack(|part|);
    assert s == digits + ":" + (part + rest);
    FirstColon(digits, part + rest);
    CutAtColon(s, digits, part, rest);
  }

  lemma {:induction false} FramingFront(parts: seq<string>)
    requires parts != []
    ensures Framing(parts) == Framed(parts[0]) + Framing(parts[1..])
  {
    var n := |parts| - 1;
    if n > 0 {
      FramingFront(parts[..n]);
      assert parts[..n][1..] == parts[1..][..n - 1];
      ConcatAssociates(Framed(parts[0]), Framing(parts[1..][..n - 1]), Framed(parts[n]));
    }
  }

  lemma UnframingStep(s: string, part: string, rest: string, parts: seq<string>)
    requires |rest| < |s| && Unframe(s) == Some((part, rest)) && Unframing(rest) == Some(parts)
    ensures Unframing(s) == Some([part] + parts)
  {
  }

  /** The framing is uniquely decodable, for any strings and any number of parts. */
  lemma {:induction false} FramingReadsBack(parts: seq<string>)
    ensures Unframing(Framing(parts)) == Some(parts)
  {
    if parts != [] {
      hide Unframing, Framing, Unframe, Framed;
      var rest := Framing(parts[1..]);
      FramingFront(parts);
      UnframeFramed(parts[0], rest);
      FramingReadsBack(parts[1..]);
      UnframingStep(Framing(parts), parts[0], rest, parts[1..]);
      assert [parts[0]] + parts[1..] == parts;
    }
  }

  /** What the digest is fed, part by part: the length, a colon and the part, of the document and then of the hash. */
  lemma PreimageSpelled(documentId: string, payloadHash: string)
    ensures Framing([documentId, payloadHash]) ==
            Decimal(|documentId|) + ":" + documentId + Decimal(|payloadHash|) + ":" + payloadHash
  {
    var parts := [documentId, payloadHash];
    assert parts[..1] == [documentId] && [documentId][..0] == [];
    assert Framing(parts[..1]) == Framed(documentId);
  }

  /** No two pairs of document and payload hash share a pre-image, wherever the boundary between them lies. */
  lemma PreimageInjective(d1: string, h1: string, d2: string, h2: string)
    requires Framing([d1, h1]) == Framing([d2, h2])
    ensures d1 == d2 && h1 == h2
  {
    FramingReadsBack([d1, h1]);
    FramingReadsBack([d2, h2]);
  }

  datatype DocumentId = DocumentId(uuid: string)

  /** The digest of the framed pair. Since the framing is injective and SHA-256 is taken to be, the key is the
      pair. */
  datatype IdempotencyKey = IdempotencyKey(documentId: DocumentId, payloadHash: PayloadHash)

  // ---------- The business key ----------

  datatype BusinessKey = BusinessKey(supplier: string, number: string)

  /** What a character leaves in `re.sub(r"[^a-z0-9]+", "", name.lower())`. Two characters outside ASCII lower to
      an ASCII letter: the Kelvin sign and the capital I with a dot above. */
  function Folded(c: char): string {
    if 'a' <= c <= 'z' || IsDigit(c) then [c]
    else if 'A' <= c <= 'Z' then [(c as int + 32) as char]
    else if c == '\U{212A}' then "k"
    else if c == '\U{130}' then "i"
    else ""
  }

  function NormalizeSupplier(name: string): string {
    if name == "" then "" else Folded(name[0]) + NormalizeSupplier(name[1..])
  }

  /** The pair the duplicate rule looks up. */
  function RuleKey(draft: Draft): BusinessKey {
    BusinessKey(NormalizeSupplier(draft.supplier.value), Strip(draft.invoiceNumber.value))
  }

  /** `business_key`: none when either value is the empty string. */
  function BusinessKeyOf(draft: Draft): Option<BusinessKey> {
    if draft.supplier.value == "" || draft.invoiceNumber.value == "" then None else Some(RuleKey(draft))
  }

  /** The string the destination keeps unique: `":".join(key)`. */
  function Joined(key: BusinessKey): string {
    key.supplier + ":" + key.number
  }

  predicate IsNormalized(s: string) {
    forall c <- s :: 'a' <= c <= 'z' || IsDigit(c)
  }

  lemma {:induction false} NormalizedSupplier(name: string)
    ensures IsNormalized(NormalizeSupplier(name))
  {
    if name != "" {
      NormalizedSupplier(name[1..]);
    }
  }

  lemma NoColonInside(key: BusinessKey)
    requires IsNormalized(key.supplier)
    ensures forall i :: 0 <= i < |key.supplier| ==> Joined(key)[i] != ':'
  {
    forall i | 0 <= i < |key.supplier| ensures Joined(key)[i] != ':' {
      assert key.supplier[i] in key.supplier;
    }
  }

  /** A normalised supplier holds no colon, so the joined string determines the pair. */
  lemma JoinedInjective(x: BusinessKey, y: BusinessKey)
    requires IsNormalized(x.supplier) && IsNormalized(y.supplier)
    requires Joined(x) == Joined(y)
    ensures x == y
  {
    var s, m, n := Joined(x), |x.supplier|, |y.supplier|;
    assert s[m] == ':' && s[n] == ':';
    NoColonInside(x);
    NoColonInside(y);
    assert s[..m] == x.supplier && s[..n] == y.supplier;
    assert s[m + 1..] == x.number && s[n + 1..] == y.number;
  }

  /** The destination's string and the validator's pair tell the same invoices apart. */
  lemma DestinationAgreesWithRule(a: Draft, b: Draft)
    ensures Joined(RuleKey(a)) == Joined(RuleKey(b)) <==> RuleKey(a) == RuleKey(b)
  {
    NormalizedSupplier(a.supplier.value);
    NormalizedSupplier(b.supplier.value);
    if Joined(RuleKey(a)) == Joined(RuleKey(b)) {
      JoinedInjective(RuleKey(a), RuleKey(b));
    }
  }

  /** Normalising once is enough. */
  lemma {:induction false} NormalizeIdempotent(name: string)
    requires IsNormalized(name)
    ensures NormalizeSupplier(name) == name
  {
    if name != "" {
      assert name == [name[0]] + name[1..];
      assert name[0] in name;
      NormalizeIdempotent(name[1..]);
    }
  }

  // ---------- Which invoices share a key ----------

  predicate IsAscii(s: string) { forall c <- s :: c < '\U{80}' }

  predicate IsUpper(c: char) { 'A' <= c <= 'Z' }

  /** `str.lower`, on ASCII. */
  function Lower(c: char): char {
    if IsUpper(c) then (c as int + 32) as char else c
  }

  /** The letters and digits of a name in their order, without regard to case. */
  function Spelling(name: string): string {
    if name == "" then ""
    else
      var c := Lower(name[|name| - 1]);
      Spelling(name[..|name| - 1]) + if 'a' <= c <= 'z' || '0' <= c <= '9' then [c] else ""
  }

  lemma {:induction false} NormalizeConcat(a: string, b: string)
    ensures NormalizeSupplier(a + b) == NormalizeSupplier(a) + NormalizeSupplier(b)
  {
    if a == "" {
      assert a + b == b;
    } else {
      NormalizeConcat(a[1..], b);
      assert (a + b)[1..] == a[1..] + b;
      ConcatAssociates(Folded(a[0]), NormalizeSupplier(a[1..]), NormalizeSupplier(b));
    }
  }

  lemma {:induction false} NormalizeIsSpelling(name: string)
    requires IsAscii(name)
    ensures NormalizeSupplier(name) == Spelling(name)
  {
    if name != "" {
      var n := |name| - 1;
      assert name[n] in name && forall c <- name[..n] :: c in name;
      NormalizeIsSpelling(name[..n]);
      NormalizeConcat(name[..n], [name[n]]);
      assert name == name[..n] + [name[n]];
      assert NormalizeSupplier([name[n]]) == Folded(name[n]) + NormalizeSupplier([name[n]][1..]);
    }
  }

  /** Two drafts with ASCII suppliers are the same invoice exactly when their suppliers have the same letters and
      digits, up to case, and their numbers are equal but for white space around them. */
  lemma SameInvoiceExactly(a: Draft, b: Draft)
    requires IsAscii(a.supplier.value) && IsAscii(b.supplier.value)
    ensures RuleKey(a) == RuleKey(b) <==>
            && Spelling(a.supplier.value) == Spelling(b.supplier.value)
            && Strip(a.invoiceNumber.value) == Strip(b.invoiceNumber.value)
  {
    NormalizeIsSpelling(a.supplier.value);
    NormalizeIsSpelling(b.supplier.value);
  }

  /** Whatever the suppliers, different numbers make different invoices. */
  lemma NumbersTellApart(a: Draft, b: Draft)
    requires RuleKey(a) == RuleKey(b)
    ensures Strip(a.invoiceNumber.value) == Strip(b.invoiceNumber.value)
    ensures NormalizeSupplier(a.supplier.value) == NormalizeSupplier(b.supplier.value)
  {
  }

  /** Two letters outside ASCII lower to an ASCII letter, and no others. */
  lemma BeyondAscii(c: char)
    requires c >= '\U{80}'
    ensures NormalizeSupplier([c]) ==
            if c == '\U{212A}' then NormalizeSupplier("K") else if c == '\U{130}' then NormalizeSupplier("I") else ""
  {
    assert [c][1..] == "" && "K"[1..] == "" && "I"[1..] == "";
  }

  /** Spacing, punctuation and case do not count, anywhere in a name. */
  lemma SpellingIgnores(before: string, c: char, after: string, other: char)
    ensures !('a' <= Lower(c) <= 'z' || '0' <= c <= '9') ==>
              Spelling(before + [c] + after) == Spelling(before + after)
    ensures IsUpper(other) && c == Lower(other) ==>
              Spelling(before + [c] + after) == Spelling(before + [other] + after)
  {
    SpellingConcat(before + [c], after);
    SpellingConcat(before + [other], after);
    SpellingConcat(before, [c]);
    SpellingConcat(before, [other]);
    SpellingConcat(before, after);
    SpellingOfOne(c);
    SpellingOfOne(other);
  }

  lemma SpellingOfOne(c: char)
    ensures Spelling([c]) == if 'a' <= Lower(c) <= 'z' || '0' <= Lower(c) <= '9' then [Lower(c)] else ""
  {
    assert [c][..0] == "";
  }

  lemma {:induction false} SpellingConcat(a: string, b: string)
    ensures Spelling(a + b) == Spelling(a) + Spelling(b)
  {
    if b == "" {
      assert a + b == a;
    } else {
      var n := |b| - 1;
      assert (a + b)[..|a + b| - 1] == a + b[..n];
      SpellingConcat(a, b[..n]);
    }
  }

  /** Suppliers with other letters or digits are other suppliers. */
  lemma SpellingTellsApart(a: string, b: string)
    requires IsNormalized(a) && IsNormalized(b) && a != b
    ensures Spelling(a) != Spelling(b)
  {
    SpellingOfNormalized(a);
    SpellingOfNormalized(b);
  }

  lemma {:induction false} SpellingOfNormalized(a: string)
    requires IsNormalized(a)
    ensures Spelling(a) == a
  {
    if a != "" {
      var n := |a| - 1;
      assert a[n] in a && forall c <- a[..n] :: c in a;
      SpellingOfNormalized(a[..n]);
      assert a == a[..n] + [a[n]];
    }
  }

  /** A draft names an invoice for the destination exactly when neither value is empty. */
  lemma InvoiceIsNamed(draft: Draft)
    ensures BusinessKeyOf(draft).None? <==> draft.supplier.value == "" || draft.invoiceNumber.value == ""
    ensures BusinessKeyOf(draft).Some? ==> BusinessKeyOf(draft).value == RuleKey(draft)
  {
  }
}
