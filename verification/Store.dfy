/**
 The services as they change the store, row by row and field by field. Each method is proved against its function
 in `Protocol`.
 */
module Store {
  import opened Wrappers
  import opened Schema
  import opened Keys
  import opened Validation
  import opened Crm
  import opened Protocol

  /** `CrmClient`: the destination a write is given. */
  datatype CrmClient = InMemory(mock: MockCrm) | InDatabase(database: DatabaseCrm) {
    ghost function Objects(): set<object> {
      if InMemory? then {mock} else {database}
    }

    ghost function Contents(): Destination
      reads Objects()
    {
      if InMemory? then mock.Contents() else database.Contents()
    }

    method CreateRecord(key: IdempotencyKey, payload: Draft) returns (reply: Reply)
      modifies Objects()
      ensures (Contents(), reply) == Crm.CreateRecord(old(Contents()), key, payload)
    {
      if InMemory? {
        reply := mock.CreateRecord(key, payload);
      } else {
        reply := database.CreateRecord(key, payload);
      }
    }
  }

  class Store {
    var documents: map<DocumentId, Document>
    var extractions: seq<Extraction>
    var approvals: seq<ApprovalRow>
    var validations: seq<ValidationRow>
    var writes: map<IdempotencyKey, CrmWrite>
    var events: seq<Event>

    ghost function Contents(): State
      reads this
    {
      State(documents, extractions, approvals, validations, writes, events)
    }

    constructor ()
      ensures Contents() == State(map[], [], [], [], map[], [])
    {
      documents, extractions, approvals, validations, writes, events := map[], [], [], [], map[], [];
    }

    method AppendEvent(d: DocumentId, extractionId: Option<nat>, type_: EventType)
      modifies this`events
      ensures Contents() == Log(old(Contents()), d, extractionId, type_)
    {
      events := events + [Event(d, extractionId, type_)];
    }

    method SetStatus(d: DocumentId, status: Status)
      requires d in documents
      modifies this`documents
      ensures Contents() == WithStatus(old(Contents()), d, status)
    {
      documents := documents[d := documents[d].(status := status)];
    }

    method SetStatusAndHash(d: DocumentId, status: Status, hash: Option<PayloadHash>)
      requires d in documents
      modifies this`documents
      ensures Contents() == WithDocument(old(Contents()), d, status, hash)
    {
      documents := documents[d := documents[d].(status := status, approvedHash := hash)];
    }

    method Create(d: DocumentId, source: string)
      modifies this`documents
      ensures Contents() == CreateDocument(old(Contents()), d, source)
    {
      if d !in documents {
        documents := documents[d := Document(source, Received, None)];
      }
    }

    method Record(d: DocumentId, draft: Result<Draft, ProviderError>, evidence: seq<EvidenceResult>)
      returns (e: Extraction)
      modifies this`extractions
      ensures e == Extraction(|old(extractions)|, d, draft, evidence)
      ensures Contents() == WithExtraction(old(Contents()), e)
    {
      e := Extraction(|extractions|, d, draft, evidence);
      extractions := extractions + [e];
    }

    method RecordEvidenceEvents(e: Extraction)
      modifies this`events
      ensures Contents() == EvidenceEvents(old(Contents()), e)
    {
      if exists r <- e.evidence :: r.Verified() {
        AppendEvent(e.documentId, Some(e.id), VerifiedEvidence);
      }
      if exists r <- e.evidence :: !r.Verified() {
        AppendEvent(e.documentId, Some(e.id), RejectedEvidence);
      }
    }

    method Fail(d: DocumentId, error: ProviderError) returns (e: Extraction)
      requires d in documents
      modifies this`documents, this`extractions, this`events
      ensures (Contents(), e) == FailExtraction(old(Contents()), d, error)
    {
      e := Record(d, Err(error), []);
      SetStatus(d, ExtractionFailed);
      AppendEvent(d, Some(e.id), FailedExtraction);
    }

    method Extract(d: DocumentId, answer: Answer) returns (e: Extraction)
      requires d in documents
      modifies this`documents, this`extractions, this`events
      ensures (Contents(), e) == ExtractDocument(old(Contents()), d, answer)
    {
      AppendEvent(d, None, RequestedExtraction);
      match answer {
        case Raises(error) =>
          e := Fail(d, error);
        case Unparsable =>
          e := Fail(d, MalformedProviderOutput);
        case Proposes(draft) =>
          e := Record(d, Ok(draft), VerifyDraft(draft, documents[d].source));
          RecordEvidenceEvents(e);
          SetStatusAndHash(d, Extracted, None);
          AppendEvent(d, Some(e.id), SucceededExtraction);
      }
    }

    method RunValidation(d: DocumentId, e: Extraction, env: Env) returns (results: seq<RuleResult>)
      requires d in documents && e.draft.Ok?
      modifies this`documents, this`validations, this`events
      ensures (Contents(), results) == ValidateExtraction(old(Contents()), d, e, env)
    {
      var known := set x <- extractions | Claims(documents, x, d) :: RuleKey(x.draft.value);
      results := Validate(Input(e.draft.value, documents[d].source, e.evidence, known, env.today, env.ambiguousDate));
      validations :=
        validations + seq(|results|, i requires 0 <= i < |results| => ValidationRow(e.id, results[i]));
      SetStatus(d, if IsAccepted(results) then Validated else InReview);
      AppendEvent(d, Some(e.id), CompletedValidation);
    }

    method Approve(d: DocumentId, extractionId: nat, env: Env, ttl: int) returns (result: ApprovalResult)
      requires d in documents
      modifies this`documents, this`validations, this`approvals, this`events
      ensures (Contents(), result) == ApproveExtraction(old(Contents()), d, extractionId, env, ttl)
    {
      if documents[d].status != Validated {
        return Err(Approval(NotReadyForApproval));
      }
      var current := LatestExtraction(extractions, d);
      if current.None? || current.value.id != extractionId {
        return Err(Approval(ExtractionSuperseded));
      }
      var e := current.value;
      if e.draft.Err? {
        return Err(Unexpected);
      }
      var results := RunValidation(d, e, env);
      if !IsAccepted(results) {
        SetStatus(d, InReview);
        return Err(Approval(NotReadyForApproval));
      }
      var approval := ApprovalRow(|approvals|, d, e.id, Sha256(e.draft.value), env.now + ttl);
      approvals := approvals + [approval];
      SetStatusAndHash(d, Approved, Some(Sha256(e.draft.value)));
      AppendEvent(d, Some(e.id), GrantedApproval);
      return Ok(approval);
    }

    /** `claim_write`: the row under the key, and whether this call inserted it. */
    method ClaimWrite(d: DocumentId, extractionId: nat, key: IdempotencyKey) returns (write: CrmWrite, claimed: bool)
      modifies this`writes
      ensures claimed <==> key !in old(writes)
      ensures write == if claimed then NewWrite(d, extractionId) else old(writes)[key]
      ensures writes == old(writes)[key := write]
    {
      if key in writes {
        return writes[key], false;
      }
      write, claimed := NewWrite(d, extractionId), true;
      writes := writes[key := write];
    }

    /** `mark_written`: one guarded update. */
    method MarkWritten(d: DocumentId, hash: PayloadHash) returns (updated: bool)
      requires d in documents
      modifies this`documents
      ensures updated <==> old(documents)[d].status == Approved && old(documents)[d].approvedHash == Some(hash)
      ensures Contents() == if updated then WithStatus(old(Contents()), d, Written) else old(Contents())
    {
      updated := documents[d].status == Approved && documents[d].approvedHash == Some(hash);
      if updated {
        documents := documents[d := documents[d].(status := Written)];
      }
    }

    /** The part of `write_approved_record` from the claim on. */
    method ClaimAndCall(d: DocumentId, crm: CrmClient, key: IdempotencyKey, e: Extraction) returns (result: WriteResult)
      requires d in documents && e.draft.Ok? && this !in crm.Objects()
      modifies this`documents, this`writes, this`events, crm.Objects()
      ensures (Contents(), crm.Contents(), result) ==
              Protocol.ClaimAndCall(old(Contents()), old(crm.Contents()), d, key, e)
    {
      hide CreateRecord, CreateInMock, CreateInDatabase;
      ghost var before := writes;
      var write, claimed := ClaimWrite(d, e.id, key);
      AppendEvent(d, Some(e.id), AttemptedWrite);
      write := write.(attempts := write.attempts + 1);
      var reply := crm.CreateRecord(key, e.draft.value);
      if reply.Err? {
        writes := writes[key := write.(status := Failed, lastError := Some(reply.error))];
        assert writes == before[key := writes[key]];
        AppendEvent(d, Some(e.id), FailedWrite);
        return Err(ServiceError.Crm(reply.error));
      }
      write := write.(status := Succeeded, externalId := Some(reply.value.externalId), lastError := None);
      writes := writes[key := write];
      assert writes == before[key := write];
      var updated := MarkWritten(d, key.payloadHash);
      if !updated {
        return Err(Approval(ExtractionSuperseded));
      }
      AppendEvent(d, Some(e.id), SucceededWrite);
      return Ok(WriteOutcome(write.externalId, true));
    }

    method Write(d: DocumentId, crm: CrmClient, now: int) returns (result: WriteResult)
      requires d in documents && this !in crm.Objects()
      modifies this`documents, this`writes, this`events, crm.Objects()
      ensures (Contents(), crm.Contents(), result) ==
              WriteApprovedRecord(old(Contents()), old(crm.Contents()), d, now)
    {
      if documents[d].approvedHash.None? {
        return Err(Approval(ApprovalMissing));
      }
      var hash := documents[d].approvedHash.value;
      var key := IdempotencyKey(d, hash);
      if key in writes && writes[key].status == Succeeded {
        if documents[d].status != Written {
          return Err(Approval(AlreadyWritten));
        }
        return Ok(WriteOutcome(writes[key].externalId, false));
      }
      var approval := LatestApproval(approvals, d);
      if approval.None? || approval.value.payloadHash != hash {
        return Err(Approval(ApprovalMissing));
      }
      if approval.value.expiresAt <= now {
        return Err(Approval(ApprovalExpired));
      }
      var extraction := LatestExtraction(extractions, d);
      if extraction.None? || extraction.value.PayloadHash() != Some(approval.value.payloadHash) {
        return Err(Approval(ExtractionSuperseded));
      }
      result := ClaimAndCall(d, crm, key, extraction.value);
    }
  }
}
