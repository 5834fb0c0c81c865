/**
 The invoice draft a model proposes (app/domain/schema.py) and the check of its evidence
 (app/domain/evidence.py).
 */
module Schema {
  import opened Wrappers
  import opened Text
  import opened Evidence

  datatype Evidenced<T> = Evidenced(value: T, quote: string)

  datatype LineItem = LineItem(description: string, quantity: real, unitPrice: real, amount: real)

  /** A parsed draft. Dates are ordinals (days since 0001-01-01 counts as 1). `spelling` stands for what the
      canonical JSON says beyond the values, such as "1.0" against "1.00"; it is hashed and read by no rule. */
  datatype Draft = Draft(
    invoiceNumber: Evidenced<string>,
    supplier: Evidenced<string>,
    currency: Evidenced<string>,
    issueDate: Evidenced<int>,
    lineItems: seq<LineItem>,
    subtotal: Evidenced<real>,
    tax: Evidenced<real>,
    total: Evidenced<real>,
    spelling: string)

  /** The SHA-256 of the draft's canonical JSON, taken to be injective: the draft itself is the hash's content. */
  datatype PayloadHash = Sha256(draft: Draft)

  datatype EvidenceResult = EvidenceResult(field: string, quote: string, span: Option<Span>) {
    predicate Verified() { span.Some? }
  }

  /** Name and quote of each field that carries evidence, in the order of the model's fields. */
  function EvidencedFields(draft: Draft): seq<(string, string)> {
    [("invoice_number", draft.invoiceNumber.quote),
     ("supplier", draft.supplier.quote),
     ("currency", draft.currency.quote),
     ("issue_date", draft.issueDate.quote),
     ("subtotal", draft.subtotal.quote),
     ("tax", draft.tax.quote),
     ("total", draft.total.quote)]
  }

  function VerifyDraft(draft: Draft, source: string): seq<EvidenceResult> {
    var fields := EvidencedFields(draft);
    seq(|fields|, i requires 0 <= i < |fields| =>
      EvidenceResult(fields[i].0, fields[i].1, FindSpan(source, fields[i].1)))
  }

  predicate AllVerified(evidence: seq<EvidenceResult>) {
    forall r <- evidence :: r.Verified()
  }

  /** Some window of the source shows the quote, up to spacing. */
  ghost predicate Quoted(source: string, quote: string) {
    exists a, b :: Shows(source, a, b, quote)
  }

  ghost predicate AllQuoted(draft: Draft, source: string) {
    forall f <- EvidencedFields(draft) :: Quoted(source, f.1)
  }

  /** The evidence of a draft is all verified exactly when its seven quotes occur in the source. */
  lemma VerifiedMeansQuoted(draft: Draft, source: string)
    ensures |VerifyDraft(draft, source)| == |EvidencedFields(draft)| == 7
    ensures AllVerified(VerifyDraft(draft, source)) <==> AllQuoted(draft, source)
  {
    var fields, results := EvidencedFields(draft), VerifyDraft(draft, source);
    forall i | 0 <= i < |fields| ensures results[i].Verified() <==> Quoted(source, fields[i].1) {
      FindSpanExact(source, fields[i].1);
    }
    if AllVerified(results) {
      forall f | f in fields ensures Quoted(source, f.1) {
        var i :| 0 <= i < |fields| && fields[i] == f;
        assert results[i] in results;
      }
    }
  }

  /** Field by field: a draft is verified exactly when each of these seven quotes is in the source. */
  lemma SevenQuotes(draft: Draft, source: string)
    ensures AllVerified(VerifyDraft(draft, source)) <==>
            && Quoted(source, draft.invoiceNumber.quote) && Quoted(source, draft.supplier.quote)
            && Quoted(source, draft.currency.quote) && Quoted(source, draft.issueDate.quote)
            && Quoted(source, draft.subtotal.quote) && Quoted(source, draft.tax.quote)
            && Quoted(source, draft.total.quote)
  {
    hide Quoted;
    VerifiedMeansQuoted(draft, source);
    var fields := EvidencedFields(draft);
    assert fields[0] in fields && fields[1] in fields && fields[2] in fields && fields[3] in fields;
    assert fields[4] in fields && fields[5] in fields && fields[6] in fields;
  }

  /** The quote that a draft gives for a field, by the field's name. */
  function QuoteOf(draft: Draft, field: string): Option<string> {
    match field
    case "invoice_number" => Some(draft.invoiceNumber.quote)
    case "supplier" => Some(draft.supplier.quote)
    case "currency" => Some(draft.currency.quote)
    case "issue_date" => Some(draft.issueDate.quote)
    case "subtotal" => Some(draft.subtotal.quote)
    case "tax" => Some(draft.tax.quote)
    case "total" => Some(draft.total.quote)
    case _ => None
  }

  /** Each of the seven fields has one result, which carries the field's own quote and where the search found it, and
      is verified exactly when the quote is in the source. */
  lemma ResultsByField(draft: Draft, source: string, field: string)
    ensures var results := VerifyDraft(draft, source);
            && |results| == 7
            && (QuoteOf(draft, field).Some? <==> exists r <- results :: r.field == field)
            && (forall r <- results :: r.field == field ==>
                  && QuoteOf(draft, field) == Some(r.quote) && r.span == FindSpan(source, r.quote)
                  && (r.Verified() <==> Quoted(source, r.quote)))
            && (forall i, j :: 0 <= i < j < |results| ==> results[i].field != results[j].field)
  {
    hide FindSpan, Quoted;
    var fields, results := EvidencedFields(draft), VerifyDraft(draft, source);
    forall i | 0 <= i < |fields| ensures QuoteOf(draft, fields[i].0) == Some(fields[i].1) {
    }
    forall r | r in results ensures r.Verified() <==> Quoted(source, r.quote) {
      FoundMeansQuoted(source, r);
    }
    assert results[0] in results && results[1] in results && results[2] in results && results[3] in results;
    assert results[4] in results && results[5] in results && results[6] in results;
  }

  lemma FoundMeansQuoted(source: string, r: EvidenceResult)
    requires r.span == FindSpan(source, r.quote)
    ensures r.Verified() <==> Quoted(source, r.quote)
  {
    FindSpanExact(source, r.quote);
  }
}
