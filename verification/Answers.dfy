/**
 What each service answers, and what it leaves behind, told by what is so before the call.
 */
module Answers {
  import opened Wrappers
  import opened Schema
  import opened Evidence
  import opened Keys
  import opened Validation
  import opened Crm
  import opened Protocol
  import opened Runs

  // ---------- Documents and extractions ----------

  /** A new document is received and has no approved version; a taken id changes nothing. */
  lemma CreationAnswers(s: State, d: DocumentId, source: string)
    ensures var s' := CreateDocument(s, d, source);
            && (d in s.documents ==> s' == s)
            && (d !in s.documents ==>
                  s' == s.(documents := s'.documents) && s'.documents.Keys == s.documents.Keys + {d} &&
                  s'.documents[d] == Document(source, Received, None) &&
                  forall x <- s.documents :: s'.documents[x] == s.documents[x])
  {
  }

  ghost predicate SomeQuoted(draft: Draft, source: string) {
    exists f <- EvidencedFields(draft) :: Quoted(source, f.1)
  }

  lemma SomeVerified(draft: Draft, source: string)
    ensures (exists r <- VerifyDraft(draft, source) :: r.Verified()) <==> SomeQuoted(draft, source)
  {
    hide Quoted, FindSpan;
    var fields, results := EvidencedFields(draft), VerifyDraft(draft, source);
    forall i | 0 <= i < |fields| ensures results[i].Verified() <==> Quoted(source, fields[i].1) {
      FoundMeansQuoted(source, results[i]);
    }
    if SomeQuoted(draft, source) {
      var f :| f in fields && Quoted(source, f.1);
      var i :| 0 <= i < |fields| && fields[i] == f;
      assert results[i] in results;
    }
    if r :| r in results && r.Verified() {
      var i :| 0 <= i < |results| && results[i] == r;
      assert fields[i] in fields;
    }
  }

  /** The evidence events of a proposal: one if some quote is in the source, one if some quote is not. */
  lemma EvidenceIsLogged(s: State, e: Extraction, draft: Draft, source: string)
    requires e.evidence == VerifyDraft(draft, source)
    ensures EvidenceEvents(s, e).events ==
            s.events
            + (if SomeQuoted(draft, source) then [Event(e.documentId, Some(e.id), VerifiedEvidence)] else [])
            + (if !AllQuoted(draft, source) then [Event(e.documentId, Some(e.id), RejectedEvidence)] else [])
  {
    hide AllQuoted, SomeQuoted, VerifyDraft;
    SomeVerified(draft, source);
    VerifiedMeansQuoted(draft, source);
  }

  /** What the provider did is what the extraction row says: its own error, malformed output, or the draft with the
      evidence of its quotes. A failure keeps the approved version on the document and a success clears it. */
  lemma ExtractionAnswers(s: State, d: DocumentId, answer: Answer)
    requires d in s.documents
    ensures var (s', e) := ExtractDocument(s, d, answer);
            var doc := s.documents[d];
            && s'.extractions == s.extractions + [e] && e.id == |s.extractions| && e.documentId == d
            && s'.validations == s.validations
            && (answer.Raises? ==> e.draft == Err(answer.error))
            && (answer.Unparsable? ==> e.draft == Err(MalformedProviderOutput))
            && (!answer.Proposes? ==>
                  && e.evidence == [] && s'.documents == s.documents[d := doc.(status := ExtractionFailed)]
                  && s'.events == s.events + [Event(d, None, RequestedExtraction),
                                              Event(d, Some(e.id), FailedExtraction)])
            && (answer.Proposes? ==>
                  && e.draft == Ok(answer.draft) && e.evidence == VerifyDraft(answer.draft, doc.source)
                  && s'.documents == s.documents[d := Document(doc.source, Extracted, None)])
  {
    hide EvidenceEvents, VerifyDraft;
    if answer.Proposes? {
      var e := ExtractDocument(s, d, answer).1;
      EvidenceEventsOnlyLog(WithExtraction(Log(s, d, None, RequestedExtraction), e), e);
    }
  }

  /** The trail of a proposal. */
  lemma ProposalsAreLogged(s: State, d: DocumentId, draft: Draft)
    requires d in s.documents
    ensures var (s', e) := ExtractDocument(s, d, Proposes(draft));
            var source := s.documents[d].source;
            s'.events == s.events + [Event(d, None, RequestedExtraction)]
                         + (if SomeQuoted(draft, source) then [Event(d, Some(e.id), VerifiedEvidence)] else [])
                         + (if !AllQuoted(draft, source) then [Event(d, Some(e.id), RejectedEvidence)] else [])
                         + [Event(d, Some(e.id), SucceededExtraction)]
  {
    hide VerifyDraft, SomeQuoted, AllQuoted, EvidenceEvents;
    var (s', e) := ExtractDocument(s, d, Proposes(draft));
    EvidenceIsLogged(WithExtraction(Log(s, d, None, RequestedExtraction), e), e, draft, s.documents[d].source);
  }

  /** An extraction does not change the numbers its own document is compared with. */
  lemma OthersNumbersStay(s: State, d: DocumentId, answer: Answer)
    requires d in s.documents
    ensures CommittedNumbers(ExtractDocument(s, d, answer).0, d) == CommittedNumbers(s, d)
  {
    hide ExtractDocument;
    ExtractEffect(s, d, answer);
    var (s', e) := ExtractDocument(s, d, answer);
    forall x ensures x in s'.extractions && Claims(s'.documents, x, d) <==>
                     x in s.extractions && Claims(s.documents, x, d)
    {
    }
  }

  /** A draft that may be approved now. */
  ghost predicate Approvable(s: State, d: DocumentId, draft: Draft, env: Env)
    requires d in s.documents
  {
    && Sound(draft, s.documents[d].source) && draft.issueDate.value <= env.today && !env.ambiguousDate
    && RuleKey(draft) !in CommittedNumbers(s, d)
  }

  lemma ValidationAnswers(s: State, d: DocumentId, e: Extraction, env: Env)
    requires d in s.documents && e.draft.Ok? && e.evidence == VerifyDraft(e.draft.value, s.documents[d].source)
    ensures var (s', results) := ValidateExtraction(s, d, e, env);
            var status := if Approvable(s, d, e.draft.value, env) then Validated else InReview;
            && s'.documents == s.documents[d := s.documents[d].(status := status)]
            && results == Validate(InputFor(s, d, e, env))
            && (IsAccepted(results) <==> Approvable(s, d, e.draft.value, env))
            && s'.events == s.events + [Event(d, Some(e.id), CompletedValidation)]
            && |results| == 11 && |s'.validations| == |s.validations| + 11 && s.validations <= s'.validations
            && forall i :: 0 <= i < 11 ==> s'.validations[|s.validations| + i] == ValidationRow(e.id, results[i])
  {
    hide Sound, Validate, IsAccepted, VerifyDraft, CommittedNumbers;
    AcceptedIsSound(InputFor(s, d, e, env));
    AcceptedPasses(InputFor(s, d, e, env));
  }

  /** Where a proposal is routed: validated if it may be approved as things stand, and otherwise to a review. */
  lemma IntakeAnswers(s: State, d: DocumentId, draft: Draft, env: Env)
    requires d in s.documents
    ensures var s' := Intake(s, d, Proposes(draft), env);
            var status := if Approvable(s, d, draft, env) then Validated else InReview;
            && s'.documents == s.documents[d := Document(s.documents[d].source, status, None)]
            && |s'.validations| == |s.validations| + 11
  {
    hide Sound, Validate, IsAccepted, VerifyDraft, CommittedNumbers, ExtractDocument, ValidateExtraction;
    ExtractionAnswers(s, d, Proposes(draft));
    OthersNumbersStay(s, d, Proposes(draft));
    var (s1, e) := ExtractDocument(s, d, Proposes(draft));
    ValidationAnswers(s1, d, e, env);
  }

  // ---------- Approvals ----------

  lemma LatestFits(s: State, d: DocumentId)
    requires RowsFit(s) && d in s.documents
    ensures var e := LatestExtraction(s.extractions, d);
            e.Some? && e.value.draft.Ok? ==>
              e.value.evidence == VerifyDraft(e.value.draft.value, s.documents[d].source)
  {
    hide VerifyDraft, Sound;
  }

  /** An approval is granted if and only if the document is validated, the approved extraction is its latest, and its
      draft may be approved now, by all eleven rules anew. */
  lemma GrantedExactlyWhen(s: State, d: DocumentId, extractionId: nat, env: Env, ttl: int)
    requires RowsFit(s) && d in s.documents
    ensures var e := LatestExtraction(s.extractions, d);
            ApproveExtraction(s, d, extractionId, env, ttl).1.Ok? <==>
            && s.documents[d].status == Validated && e.Some? && e.value.id == extractionId && e.value.draft.Ok?
            && Approvable(s, d, e.value.draft.value, env)
  {
    hide RowsFit, Sound, Validate, IsAccepted, VerifyDraft, CommittedNumbers;
    LatestFits(s, d);
    var e := LatestExtraction(s.extractions, d);
    if e.Some? && e.value.draft.Ok? {
      ValidationAnswers(s, d, e.value, env);
    }
  }

  /** What a refusal says and leaves: nothing at all when the document is not validated or the extraction is not its
      latest; a document in review, with eleven rows and an event, when the rules no longer pass. */
  lemma RefusalsAreTold(w: World, d: DocumentId, extractionId: nat, env: Env, ttl: int)
    requires Inv(w) && d in w.s.documents && ApproveExtraction(w.s, d, extractionId, env, ttl).1.Err?
    ensures var s := w.s;
            var (s', result) := ApproveExtraction(s, d, extractionId, env, ttl);
            var doc, e := s.documents[d], LatestExtraction(s.extractions, d);
            if doc.status != Validated then s' == s && result == Err(Approval(NotReadyForApproval))
            else
              && e.Some?
              && (e.value.id != extractionId ==> s' == s && result == Err(Approval(ExtractionSuperseded)))
              && (e.value.id == extractionId ==>
                    && result == Err(Approval(NotReadyForApproval))
                    && s'.documents == s.documents[d := doc.(status := InReview)] && s'.approvals == s.approvals
                    && |s'.validations| == |s.validations| + 11
                    && s'.events == s.events + [Event(d, Some(extractionId), CompletedValidation)])
  {
    hide RowsFit, RecordsApproved, WritesTrue, InvoicesDistinct, AllPaid, Consistent, WrittenSettled;
    hide Sound, Validate, IsAccepted, VerifyDraft, CommittedNumbers;
    assert DocumentBound(w.s, d);
    LatestFits(w.s, d);
    var e := LatestExtraction(w.s.extractions, d);
    if w.s.documents[d].status == Validated {
      ValidationAnswers(w.s, d, e.value, env);
    }
  }

  /** What a grant leaves: the hash of the draft, an approval row until the end of its time, and two events. */
  lemma GrantsAreTold(s: State, d: DocumentId, extractionId: nat, env: Env, ttl: int)
    requires RowsFit(s) && d in s.documents && ApproveExtraction(s, d, extractionId, env, ttl).1.Ok?
    ensures var (s', result) := ApproveExtraction(s, d, extractionId, env, ttl);
            var draft := LatestExtraction(s.extractions, d).value.draft;
            && draft.Ok?
            && result.value == ApprovalRow(|s.approvals|, d, extractionId, Sha256(draft.value), env.now + ttl)
            && s'.approvals == s.approvals + [result.value]
            && s'.documents == s.documents[d := Document(s.documents[d].source, Approved, Some(Sha256(draft.value)))]
            && s'.extractions == s.extractions && s'.writes == s.writes
            && s'.events == s.events + [Event(d, Some(extractionId), CompletedValidation),
                                        Event(d, Some(extractionId), GrantedApproval)]
  {
    hide RowsFit, Sound, Validate, IsAccepted, VerifyDraft, CommittedNumbers;
    LatestFits(s, d);
    ValidationAnswers(s, d, LatestExtraction(s.extractions, d).value, env);
  }

  // ---------- Writes ----------

  predicate RowSucceeded(s: State, key: IdempotencyKey) {
    key in s.writes && s.writes[key].status == Succeeded
  }

  /** What every write answers, by the state of its document. Without an approved version there is no approval; a
      written document answers its record; a version written before and approved again is refused as written; an
      approval that is no longer in time is refused as expired, whatever came after it; one behind a failed extraction
      is superseded; and an approved document gets the destination's own answer. */
  lemma WriteAnswers(w: World, d: DocumentId, now: int)
    requires Inv(w) && d in w.s.documents
    ensures var doc, a := w.s.documents[d], LatestApproval(w.s.approvals, d);
            var result := WriteApprovedRecord(w.s, w.dest, d, now).2;
            && (doc.approvedHash.None? ==> result == Err(Approval(ApprovalMissing)))
            && (doc.approvedHash.Some? ==>
                  var key := KeyOf(w.s, d);
                  && a.Some?
                  && (doc.status == Written ==>
                        key in w.dest.records &&
                        result == Ok(WriteOutcome(Some(w.dest.records[key].externalId), false)))
                  && (doc.status != Written && RowSucceeded(w.s, key) ==> result == Err(Approval(AlreadyWritten)))
                  && (doc.status != Written && !RowSucceeded(w.s, key) && a.value.expiresAt <= now ==>
                        result == Err(Approval(ApprovalExpired)))
                  && (doc.status != Written && !RowSucceeded(w.s, key) && now < a.value.expiresAt ==>
                        if doc.status == ExtractionFailed then result == Err(Approval(ExtractionSuperseded))
                        else
                          var reply := CreateRecord(w.dest, key, key.payloadHash.draft).1;
                          && doc.status == Approved
                          && (reply.Err? ==> result == Err(ServiceError.Crm(reply.error)))
                          && (reply.Ok? ==> result == Ok(WriteOutcome(Some(reply.value.externalId), true)))))
  {
    hide RowsFit, RecordsApproved, InvoicesDistinct, AllPaid, Consistent, CreateRecord;
    assert DocumentBound(w.s, d);
  }

  /** A write that answers at all answers the id of the record that the destination holds under the document's key. */
  lemma WriteAnswersRecord(w: World, d: DocumentId, now: int)
    requires Inv(w) && d in w.s.documents && WriteApprovedRecord(w.s, w.dest, d, now).2.Ok?
    ensures var (s', dest', result) := WriteApprovedRecord(w.s, w.dest, d, now);
            && w.s.documents[d].approvedHash.Some?
            && var key := KeyOf(w.s, d);
               && key in dest'.records && dest'.records[key].payload == key.payloadHash.draft
               && result.value.externalId == Some(dest'.records[key].externalId)
               && (result.value.calledDestination <==> w.s.documents[d].status == Approved)
  {
    hide RowsFit, InvoicesDistinct, AllPaid, Consistent, CreateRecord, ClaimAndCall;
    assert DocumentBound(w.s, d);
    WriteByCases(w.s, w.dest, d, now);
    if Cleared(w.s, d, now) {
      var key, e := KeyOf(w.s, d), LatestExtraction(w.s.extractions, d).value;
      CallFrame(w.dest, key, e.draft.value);
      CallAnswers(w.s, w.dest, d, key, e);
    }
  }

  lemma CallAnswers(s: State, dest: Destination, d: DocumentId, key: IdempotencyKey, e: Extraction)
    requires d in s.documents && e.draft.Ok?
    ensures var (s', dest', result) := ClaimAndCall(s, dest, d, key, e);
            var (after, reply) := CreateRecord(dest, key, e.draft.value);
            && dest' == after
            && (result.Ok? ==> reply.Ok? && result.value == WriteOutcome(Some(reply.value.externalId), true))
            && (reply.Err? ==> result == Err(ServiceError.Crm(reply.error)))
  {
    hide CreateRecord;
  }

  /** What a write leaves that reaches the destination: one more attempt in the row of its key, with the record's id
      and no error, or with the error and the id it had; two events; and no other row touched. */
  lemma WritesAreTold(w: World, d: DocumentId, now: int)
    requires Inv(w) && d in w.s.documents && Cleared(w.s, d, now)
    ensures var s, key, e := w.s, KeyOf(w.s, d), LatestExtraction(w.s.extractions, d).value;
            var s' := WriteApprovedRecord(s, w.dest, d, now).0;
            var reply := CreateRecord(w.dest, key, key.payloadHash.draft).1;
            && s'.writes.Keys == s.writes.Keys + {key}
            && (forall k <- s.writes :: k != key ==> s'.writes[k] == s.writes[k])
            && var row := s'.writes[key];
               && row.attempts == (if key in s.writes then s.writes[key].attempts else 0) + 1
               && row.documentId == (if key in s.writes then s.writes[key].documentId else d)
               && row.extractionId == (if key in s.writes then s.writes[key].extractionId else e.id)
               && (reply.Ok? ==>
                     && row.status == Succeeded && row.lastError.None?
                     && row.externalId == Some(reply.value.externalId)
                     && s'.documents == s.documents[d := s.documents[d].(status := Written)]
                     && s'.events == s.events + [Event(d, Some(e.id), AttemptedWrite),
                                                 Event(d, Some(e.id), SucceededWrite)])
               && (reply.Err? ==>
                     && row.status == Failed && row.lastError == Some(reply.error)
                     && row.externalId == (if key in s.writes then s.writes[key].externalId else None)
                     && s'.documents == s.documents
                     && s'.events == s.events + [Event(d, Some(e.id), AttemptedWrite),
                                                 Event(d, Some(e.id), FailedWrite)])
  {
    hide RowsFit, RecordsApproved, WritesTrue, InvoicesDistinct, AllPaid, Consistent, CreateRecord, WrittenSettled;
    ClearedIsApproved(w, d, now);
  }
}
