/**
 Extraction, validation, approval and the write, each as one function on the whole state: app/services/ and
 app/repositories/documents.py. Rows are never deleted; the position of a row in its table is its id and its place
 in the order of creation.
 */
module Protocol {
  import opened Wrappers
  import opened Schema
  import opened Keys
  import opened Validation
  import opened Crm

  datatype Status = Received | Extracted | Validated | Approved | Written | ExtractionFailed | InReview

  datatype EventType =
    | RequestedExtraction | SucceededExtraction | FailedExtraction | VerifiedEvidence | RejectedEvidence
    | CompletedValidation | GrantedApproval | AttemptedWrite | SucceededWrite | FailedWrite

  datatype WriteStatus = Pending | Succeeded | Failed

  datatype ProviderError = ProviderTimeout | ProviderRefusal | MalformedProviderOutput | UnspecifiedProviderError

  datatype ApprovalError =
    NotReadyForApproval | ExtractionSuperseded | ApprovalMissing | ApprovalExpired | AlreadyWritten

  datatype ServiceError =
    | Provider(provider: ProviderError)
    | Crm(crm: CrmError)
    | Approval(approval: ApprovalError)
    | Unexpected

  datatype Document = Document(source: string, status: Status, approvedHash: Option<PayloadHash>)

  datatype Extraction = Extraction(
    id: nat,
    documentId: DocumentId,
    draft: Result<Draft, ProviderError>,
    evidence: seq<EvidenceResult>)
  {
    function PayloadHash(): Option<PayloadHash> {
      if draft.Ok? then Some(Sha256(draft.value)) else None
    }
  }

  datatype ApprovalRow = ApprovalRow(
    id: nat, documentId: DocumentId, extractionId: nat, payloadHash: PayloadHash, expiresAt: int)

  datatype ValidationRow = ValidationRow(extractionId: nat, result: RuleResult)

  datatype CrmWrite = CrmWrite(
    documentId: DocumentId,
    extractionId: nat,
    status: WriteStatus,
    externalId: Option<ExternalId>,
    attempts: nat,
    lastError: Option<CrmError>)

  datatype Event = Event(documentId: DocumentId, extractionId: Option<nat>, type_: EventType)

  datatype State = State(
    documents: map<DocumentId, Document>,
    extractions: seq<Extraction>,
    approvals: seq<ApprovalRow>,
    validations: seq<ValidationRow>,
    writes: map<IdempotencyKey, CrmWrite>,
    events: seq<Event>)

  /** The clock, today's date and the date pattern's verdict at the time of a call. */
  datatype Env = Env(now: int, today: int, ambiguousDate: bool)

  /** What the provider does: it raises, or its output does not parse, or it proposes a draft. */
  datatype Answer = Raises(error: ProviderError) | Unparsable | Proposes(draft: Draft)

  // ---------- Queries ----------

  function LatestExtraction(rows: seq<Extraction>, d: DocumentId): (r: Option<Extraction>)
    ensures r.Some? ==> r.value in rows && r.value.documentId == d
  {
    if rows == [] then None
    else
      var last := rows[|rows| - 1];
      if last.documentId == d then Some(last) else LatestExtraction(rows[..|rows| - 1], d)
  }

  function LatestApproval(rows: seq<ApprovalRow>, d: DocumentId): (r: Option<ApprovalRow>)
    ensures r.Some? ==> r.value in rows && r.value.documentId == d
  {
    if rows == [] then None
    else
      var last := rows[|rows| - 1];
      if last.documentId == d then Some(last) else LatestApproval(rows[..|rows| - 1], d)
  }

  predicate Committed(doc: Document) {
    doc.status == Approved || doc.status == Written
  }

  /** The row of `committed_invoice_numbers` for an extraction: another document, committed, holds its hash. */
  predicate Claims(documents: map<DocumentId, Document>, e: Extraction, excluded: DocumentId) {
    && e.documentId != excluded && e.documentId in documents && Committed(documents[e.documentId])
    && e.draft.Ok? && e.PayloadHash() == documents[e.documentId].approvedHash
    && BusinessKeyOf(e.draft.value).Some?
  }

  function CommittedNumbers(s: State, excluded: DocumentId): set<BusinessKey> {
    set e <- s.extractions | Claims(s.documents, e, excluded) :: RuleKey(e.draft.value)
  }

  // ---------- Steps on the state ----------

  function Log(s: State, d: DocumentId, extractionId: Option<nat>, type_: EventType): State {
    s.(events := s.events + [Event(d, extractionId, type_)])
  }

  function WithStatus(s: State, d: DocumentId, status: Status): State
    requires d in s.documents
  {
    s.(documents := s.documents[d := s.documents[d].(status := status)])
  }

  function WithDocument(s: State, d: DocumentId, status: Status, hash: Option<PayloadHash>): State
    requires d in s.documents
  {
    s.(documents := s.documents[d := s.documents[d].(status := status, approvedHash := hash)])
  }

  function WithExtraction(s: State, e: Extraction): State {
    s.(extractions := s.extractions + [e])
  }

  /** `create_document`: an id that is taken violates the primary key. */
  function CreateDocument(s: State, d: DocumentId, source: string): State {
    if d in s.documents then s else s.(documents := s.documents[d := Document(source, Received, None)])
  }

  function EvidenceEvents(s: State, e: Extraction): State {
    var s1 := if exists r <- e.evidence :: r.Verified() then Log(s, e.documentId, Some(e.id), VerifiedEvidence) else s;
    if exists r <- e.evidence :: !r.Verified() then Log(s1, e.documentId, Some(e.id), RejectedEvidence) else s1
  }

  /** `_fail`: a failed attempt leaves its row, and `approved_payload_hash` as it was. */
  function FailExtraction(s: State, d: DocumentId, error: ProviderError): (State, Extraction)
    requires d in s.documents
  {
    var e := Extraction(|s.extractions|, d, Err(error), []);
    (Log(WithStatus(WithExtraction(s, e), d, ExtractionFailed), d, Some(e.id), FailedExtraction), e)
  }

  /** `extract_document`: the new extraction row, which carries the error of a failed attempt. */
  function ExtractDocument(s: State, d: DocumentId, answer: Answer): (State, Extraction)
    requires d in s.documents
  {
    var s1 := Log(s, d, None, RequestedExtraction);
    match answer
    case Raises(error) => FailExtraction(s1, d, error)
    case Unparsable => FailExtraction(s1, d, MalformedProviderOutput)
    case Proposes(draft) =>
      var e := Extraction(|s.extractions|, d, Ok(draft), VerifyDraft(draft, s.documents[d].source));
      var s2 := EvidenceEvents(WithExtraction(s1, e), e);
      (Log(WithDocument(s2, d, Extracted, None), d, Some(e.id), SucceededExtraction), e)
  }

  function InputFor(s: State, d: DocumentId, e: Extraction, env: Env): Input
    requires d in s.documents && e.draft.Ok?
  {
    Input(e.draft.value, s.documents[d].source, e.evidence, CommittedNumbers(s, d), env.today, env.ambiguousDate)
  }

  /** `validate_extraction` of an extraction with a draft. */
  function ValidateExtraction(s: State, d: DocumentId, e: Extraction, env: Env): (State, seq<RuleResult>)
    requires d in s.documents && e.draft.Ok?
  {
    var results := Validate(InputFor(s, d, e, env));
    var rows := seq(|results|, i requires 0 <= i < |results| => ValidationRow(e.id, results[i]));
    var s1 := s.(validations := s.validations + rows);
    var status := if IsAccepted(results) then Validated else InReview;
    (Log(WithStatus(s1, d, status), d, Some(e.id), CompletedValidation), results)
  }

  /** Extraction followed by validation, as the route and the worker run them. */
  function Intake(s: State, d: DocumentId, answer: Answer, env: Env): State
    requires d in s.documents
  {
    var (s1, e) := ExtractDocument(s, d, answer);
    if e.draft.Ok? then ValidateExtraction(s1, d, e, env).0 else s1
  }

  type ApprovalResult = Result<ApprovalRow, ServiceError>

  /** `approve_extraction`. The state after a refusal is what the refusal leaves to be committed. */
  function ApproveExtraction(s: State, d: DocumentId, extractionId: nat, env: Env, ttl: int): (State, ApprovalResult)
    requires d in s.documents
  {
    var current := LatestExtraction(s.extractions, d);
    if s.documents[d].status != Validated then (s, Err(Approval(NotReadyForApproval)))
    else if current.None? || current.value.id != extractionId then (s, Err(Approval(ExtractionSuperseded)))
    else if current.value.draft.Err? then (s, Err(Unexpected))
    else
      var e := current.value;
      var (s1, results) := ValidateExtraction(s, d, e, env);
      if !IsAccepted(results) then (WithStatus(s1, d, InReview), Err(Approval(NotReadyForApproval)))
      else
        var hash := Sha256(e.draft.value);
        var approval := ApprovalRow(|s.approvals|, d, e.id, hash, env.now + ttl);
        var s2 := WithDocument(s1.(approvals := s1.approvals + [approval]), d, Approved, Some(hash));
        (Log(s2, d, Some(e.id), GrantedApproval), Ok(approval))
  }

  datatype WriteOutcome = WriteOutcome(externalId: Option<ExternalId>, calledDestination: bool)

  type WriteResult = Result<WriteOutcome, ServiceError>

  function NewWrite(d: DocumentId, extractionId: nat): CrmWrite {
    CrmWrite(d, extractionId, Pending, None, 0, None)
  }

  /** The part of `write_approved_record` after the last check: claim, call, settle. */
  function ClaimAndCall(s: State, dest: Destination, d: DocumentId, key: IdempotencyKey, e: Extraction)
    : (State, Destination, WriteResult)
    requires d in s.documents && e.draft.Ok?
  {
    var claimed := if key in s.writes then s.writes[key] else NewWrite(d, e.id);
    var attempted := claimed.(attempts := claimed.attempts + 1);
    var s1 := Log(s, d, Some(e.id), AttemptedWrite);
    var (dest', reply) := CreateRecord(dest, key, e.draft.value);
    match reply
    case Err(error) =>
      var row := attempted.(status := Failed, lastError := Some(error));
      (Log(s1.(writes := s1.writes[key := row]), d, Some(e.id), FailedWrite), dest', Err(Crm(error)))
    case Ok(record) =>
      var row := attempted.(status := Succeeded, externalId := Some(record.externalId), lastError := None);
      var s2 := s1.(writes := s1.writes[key := row]);
      if s.documents[d].status != Approved || s.documents[d].approvedHash != Some(key.payloadHash) then
        (s2, dest', Err(Approval(ExtractionSuperseded)))
      else
        (Log(WithStatus(s2, d, Written), d, Some(e.id), SucceededWrite), dest',
         Ok(WriteOutcome(Some(record.externalId), true)))
  }

  /** `write_approved_record`. */
  function WriteApprovedRecord(s: State, dest: Destination, d: DocumentId, now: int)
    : (State, Destination, WriteResult)
    requires d in s.documents
  {
    var doc := s.documents[d];
    if doc.approvedHash.None? then (s, dest, Err(Approval(ApprovalMissing)))
    else
      var hash := doc.approvedHash.value;
      var key := IdempotencyKey(d, hash);
      if key in s.writes && s.writes[key].status == Succeeded then
        if doc.status != Written then (s, dest, Err(Approval(AlreadyWritten)))
        else (s, dest, Ok(WriteOutcome(s.writes[key].externalId, false)))
      else
        var approval := LatestApproval(s.approvals, d);
        var extraction := LatestExtraction(s.extractions, d);
        if approval.None? || approval.value.payloadHash != hash then (s, dest, Err(Approval(ApprovalMissing)))
        else if approval.value.expiresAt <= now then (s, dest, Err(Approval(ApprovalExpired)))
        else if extraction.None? || extraction.value.PayloadHash() != Some(hash) then
          (s, dest, Err(Approval(ExtractionSuperseded)))
        else ClaimAndCall(s, dest, d, key, extraction.value)
  }
}
