/**
 Runs of whole service calls, and what every such run keeps.
 */
module Runs {
  import opened Wrappers
  import opened Schema
  import opened Keys
  import opened Validation
  import opened Crm
  import opened Protocol

  datatype World = World(s: State, dest: Destination)

  /** One call. `ExtractOnly` is an extraction whose validation did not run. A write whose transaction rolls back
      leaves the store as it was; the in-memory destination has been called all the same. `Outage` makes the
      in-memory destination fail a later call. */
  datatype Action =
    | Create(d: DocumentId, source: string)
    | ExtractOnly(d: DocumentId, answer: Answer)
    | ExtractAndValidate(d: DocumentId, answer: Answer, env: Env)
    | Approve(d: DocumentId, extractionId: nat, env: Env, ttl: int)
    | Write(d: DocumentId, now: int, commits: bool)
    | Outage(error: CrmError)

  predicate Reextracts(a: Action, d: DocumentId) {
    (a.ExtractOnly? || a.ExtractAndValidate?) && a.d == d
  }

  function Apply(w: World, a: Action): World {
    if !a.Outage? && !a.Create? && a.d !in w.s.documents then w
    else
      match a
      case Create(d, source) => w.(s := CreateDocument(w.s, d, source))
      case ExtractOnly(d, answer) => w.(s := ExtractDocument(w.s, d, answer).0)
      case ExtractAndValidate(d, answer, env) => w.(s := Intake(w.s, d, answer, env))
      case Approve(d, extractionId, env, ttl) => w.(s := ApproveExtraction(w.s, d, extractionId, env, ttl).0)
      case Write(d, now, commits) =>
        var (s, dest, _) := WriteApprovedRecord(w.s, w.dest, d, now);
        World(if commits then s else w.s, if commits || w.dest.Mock? then dest else w.dest)
      case Outage(error) => if w.dest.Mock? then w.(dest := w.dest.(failures := w.dest.failures + [error])) else w
  }

  function Run(w: World, actions: seq<Action>): World {
    if actions == [] then w else Apply(Run(w, actions[..|actions| - 1]), actions[|actions| - 1])
  }

  function Start(inMemory: bool): World {
    World(State(map[], [], [], [], map[], []), if inMemory then Mock(map[], [], []) else Database(map[]))
  }

  // ---------- The invariant ----------

  function KeyOf(s: State, d: DocumentId): IdempotencyKey
    requires d in s.documents && s.documents[d].approvedHash.Some?
  {
    IdempotencyKey(d, s.documents[d].approvedHash.value)
  }

  /** A hash is the hash of the latest approval. It outlives that approval only through a failed extraction, and then
      the latest extraction has no hash. A committed document's hash is the hash of its latest extraction as well, and
      a validated document has a latest extraction with a draft. */
  predicate Bound(doc: Document, e: Option<Extraction>, a: Option<ApprovalRow>) {
    && (doc.approvedHash.Some? ==>
          && doc.status in {Approved, Written, ExtractionFailed}
          && a.Some? && Some(a.value.payloadHash) == doc.approvedHash)
    && (doc.status == Validated ==> e.Some? && e.value.draft.Ok?)
    && (doc.status == ExtractionFailed ==> e.Some? && e.value.PayloadHash().None?)
    && (Committed(doc) ==>
          && doc.approvedHash.Some? && e.Some? && a.Some?
          && e.value.PayloadHash() == doc.approvedHash == Some(a.value.payloadHash))
  }

  predicate DocumentBound(s: State, d: DocumentId)
    requires d in s.documents
  {
    Bound(s.documents[d], LatestExtraction(s.extractions, d), LatestApproval(s.approvals, d))
  }

  ghost predicate DocumentsBound(s: State) {
    forall d <- s.documents :: DocumentBound(s, d)
  }

  ghost predicate RowsFit(s: State) {
    && (forall e <- s.extractions :: e.documentId in s.documents &&
          (e.draft.Ok? ==> e.evidence == VerifyDraft(e.draft.value, s.documents[e.documentId].source)))
    && (forall a <- s.approvals :: a.documentId in s.documents &&
          Sound(a.payloadHash.draft, s.documents[a.documentId].source))
  }

  predicate ApprovedOnce(s: State, key: IdempotencyKey) {
    exists a <- s.approvals :: a.documentId == key.documentId && a.payloadHash == key.payloadHash
  }

  /** Every record holds the draft its key names, and that draft was approved for the document the key names. */
  ghost predicate RecordsApproved(s: State, dest: Destination) {
    forall k <- dest.records :: dest.records[k].payload == k.payloadHash.draft && ApprovedOnce(s, k)
  }

  /** A write row that succeeded names the record under its key. */
  ghost predicate WritesTrue(s: State, dest: Destination) {
    forall k <- s.writes :: s.writes[k].status == Succeeded ==>
                              k in dest.records && s.writes[k].externalId == Some(dest.records[k].externalId)
  }

  ghost predicate WrittenSettled(s: State) {
    forall d <- s.documents :: s.documents[d].status == Written && s.documents[d].approvedHash.Some? ==>
                                 KeyOf(s, d) in s.writes && s.writes[KeyOf(s, d)].status == Succeeded
  }

  predicate SameInvoice(x: Document, y: Document) {
    && Committed(x) && Committed(y) && x.approvedHash.Some? && y.approvedHash.Some?
    && RuleKey(x.approvedHash.value.draft) == RuleKey(y.approvedHash.value.draft)
  }

  /** No two committed documents are the same invoice. */
  ghost predicate InvoicesDistinct(s: State) {
    forall x, y :: x in s.documents && y in s.documents && x != y ==> !SameInvoice(s.documents[x], s.documents[y])
  }

  function Count(events: seq<Event>, d: DocumentId, type_: EventType): nat {
    if events == [] then 0
    else
      var last := events[|events| - 1];
      Count(events[..|events| - 1], d, type_) + if last.documentId == d && last.type_ == type_ then 1 else 0
  }

  /** Each approval pays for one write: what has been written, and what may be written now, has been approved. */
  predicate Paid(s: State, d: DocumentId)
    requires d in s.documents
  {
    Count(s.events, d, SucceededWrite) + (if s.documents[d].status == Approved then 1 else 0)
    <= Count(s.events, d, GrantedApproval)
  }

  ghost predicate AllPaid(s: State) {
    && (forall d <- s.documents :: Paid(s, d))
    && (forall ev <- s.events :: ev.documentId in s.documents)
  }

  /** What holds under any interleaving as well. */
  ghost predicate Core(s: State, dest: Destination) {
    && DocumentsBound(s) && RowsFit(s) && RecordsApproved(s, dest) && WritesTrue(s, dest) && InvoicesDistinct(s)
    && AllPaid(s) && Consistent(dest)
  }

  ghost predicate Inv(w: World) {
    Core(w.s, w.dest) && WrittenSettled(w.s)
  }

  // ---------- What each service changes ----------

  lemma LatestAppended(rows: seq<Extraction>, e: Extraction, d: DocumentId)
    ensures LatestExtraction(rows + [e], d) == if e.documentId == d then Some(e) else LatestExtraction(rows, d)
  {
    assert (rows + [e])[..|rows|] == rows;
  }

  lemma LatestApprovalAppended(rows: seq<ApprovalRow>, a: ApprovalRow, d: DocumentId)
    ensures LatestApproval(rows + [a], d) == if a.documentId == d then Some(a) else LatestApproval(rows, d)
  {
    assert (rows + [a])[..|rows|] == rows;
  }

  lemma CountAppended(events: seq<Event>, ev: Event, d: DocumentId, type_: EventType)
    ensures Count(events + [ev], d, type_) ==
            Count(events, d, type_) + if ev.documentId == d && ev.type_ == type_ then 1 else 0
  {
    assert (events + [ev])[..|events|] == events;
  }

  /** The events of `s'` after those of `s` concern `d`, and neither grant an approval nor report a write. */
  ghost predicate QuietlyLogged(s: State, s': State, d: DocumentId) {
    && (forall x, type_ | type_ in {SucceededWrite, GrantedApproval} ::
          Count(s'.events, x, type_) == Count(s.events, x, type_))
    && (forall ev <- s'.events :: ev in s.events || ev.documentId == d)
  }

  lemma LogQuietly(s: State, s1: State, d: DocumentId, extractionId: Option<nat>, type_: EventType)
    requires QuietlyLogged(s, s1, d) && type_ !in {SucceededWrite, GrantedApproval}
    ensures QuietlyLogged(s, Log(s1, d, extractionId, type_), d)
  {
    forall x, t | t in {SucceededWrite, GrantedApproval} {
      CountAppended(s1.events, Event(d, extractionId, type_), x, t);
    }
  }

  lemma EvidenceEventsQuiet(s: State, s1: State, e: Extraction)
    requires QuietlyLogged(s, s1, e.documentId)
    ensures QuietlyLogged(s, EvidenceEvents(s1, e), e.documentId)
  {
    LogQuietly(s, s1, e.documentId, Some(e.id), VerifiedEvidence);
    LogQuietly(s, s1, e.documentId, Some(e.id), RejectedEvidence);
    LogQuietly(s, Log(s1, e.documentId, Some(e.id), VerifiedEvidence), e.documentId, Some(e.id), RejectedEvidence);
  }

  lemma EvidenceEventsOnlyLog(s: State, e: Extraction)
    ensures EvidenceEvents(s, e) == s.(events := EvidenceEvents(s, e).events)
  {
  }

  lemma ExtractEventsQuiet(s: State, d: DocumentId, answer: Answer)
    requires d in s.documents
    ensures QuietlyLogged(s, ExtractDocument(s, d, answer).0, d)
  {
    var s1 := Log(s, d, None, RequestedExtraction);
    hide EvidenceEvents;
    LogQuietly(s, s, d, None, RequestedExtraction);
    var (s', e) := ExtractDocument(s, d, answer);
    if answer.Proposes? {
      var s2 := WithExtraction(s1, e);
      EvidenceEventsQuiet(s, s2, e);
      EvidenceEventsOnlyLog(s2, e);
      LogQuietly(s, WithDocument(EvidenceEvents(s2, e), d, Extracted, None), d, Some(e.id), SucceededExtraction);
    } else {
      LogQuietly(s, WithStatus(WithExtraction(s1, e), d, ExtractionFailed), d, Some(e.id), FailedExtraction);
    }
  }

  lemma ExtractEffect(s: State, d: DocumentId, answer: Answer)
    requires d in s.documents
    ensures var (s', e) := ExtractDocument(s, d, answer);
            && e.documentId == d
            && s'.documents.Keys == s.documents.Keys
            && s'.documents == s.documents[d := s'.documents[d]] && s'.documents[d].source == s.documents[d].source
            && s'.extractions == s.extractions + [e] && e.id == |s.extractions|
            && s'.approvals == s.approvals && s'.writes == s.writes
            && (e.draft.Ok? ==> s'.documents[d].status == Extracted && s'.documents[d].approvedHash.None? &&
                                e.evidence == VerifyDraft(e.draft.value, s.documents[d].source))
            && (e.draft.Err? ==> s'.documents[d].status == ExtractionFailed &&
                                 s'.documents[d].approvedHash == s.documents[d].approvedHash)
            && QuietlyLogged(s, s', d)
  {
    hide EvidenceEvents, VerifyDraft, QuietlyLogged;
    ExtractEventsQuiet(s, d, answer);
    var (_, e) := ExtractDocument(s, d, answer);
    EvidenceEventsOnlyLog(WithExtraction(Log(s, d, None, RequestedExtraction), e), e);
  }

  lemma ValidateEffect(s: State, d: DocumentId, e: Extraction, env: Env)
    requires d in s.documents && e.draft.Ok?
    ensures var (s', results) := ValidateExtraction(s, d, e, env);
            && s'.documents == s.documents[d := s.documents[d].(
                                 status := if IsAccepted(results) then Validated else InReview)]
            && s'.extractions == s.extractions && s'.approvals == s.approvals && s'.writes == s.writes
            && QuietlyLogged(s, s', d)
  {
    var (s', results) := ValidateExtraction(s, d, e, env);
    var s1 := s'.(events := s.events);
    LogQuietly(s, s1, d, Some(e.id), CompletedValidation);
  }

  /** A step on one document that leaves it uncommitted, with the source and the rows of the others as they were. */
  ghost predicate Withdraws(s: State, s': State, d: DocumentId) {
    && d in s.documents && d in s'.documents
    && s'.documents == s.documents[d := s'.documents[d]]
    && s'.documents[d].source == s.documents[d].source
    && !Committed(s'.documents[d])
    && s'.approvals == s.approvals && s'.writes == s.writes
    && QuietlyLogged(s, s', d)
  }

  lemma WithdrawKeepsInvoices(s: State, s': State, d: DocumentId)
    requires InvoicesDistinct(s) && Withdraws(s, s', d)
    ensures InvoicesDistinct(s')
  {
    forall x, y | x in s'.documents && y in s'.documents && x != y
      ensures !SameInvoice(s'.documents[x], s'.documents[y])
    {
      assert x in s.documents && y in s.documents;
      assert !SameInvoice(s.documents[x], s.documents[y]);
    }
  }

  lemma WithdrawKeepsPaid(s: State, s': State, d: DocumentId)
    requires AllPaid(s) && Withdraws(s, s', d)
    ensures AllPaid(s')
  {
    forall x | x in s'.documents ensures Paid(s', x) {
      assert x in s.documents && Paid(s, x);
    }
  }

  /** No document becomes written, none that is written changes, and the write rows stay. */
  ghost predicate WrittenStay(s: State, s': State) {
    && s'.writes == s.writes
    && (forall x <- s'.documents :: s'.documents[x].status == Written ==>
                                      x in s.documents && s.documents[x] == s'.documents[x])
  }

  lemma WithdrawKeeps(s: State, s': State, dest: Destination, d: DocumentId)
    requires RecordsApproved(s, dest) && WritesTrue(s, dest) && InvoicesDistinct(s) && AllPaid(s)
    requires Withdraws(s, s', d)
    ensures RecordsApproved(s', dest) && WritesTrue(s', dest) && InvoicesDistinct(s') && AllPaid(s')
    ensures WrittenStay(s, s')
  {
    WithdrawKeepsInvoices(s, s', d);
    WithdrawKeepsPaid(s, s', d);
    RecordsCarryOver(s, s', dest);
  }

  // ---------- Each service keeps the invariant ----------

  lemma CreateKeepsBound(s: State, d: DocumentId, source: string)
    requires DocumentsBound(s) && RowsFit(s)
    ensures DocumentsBound(CreateDocument(s, d, source))
  {
    var s' := CreateDocument(s, d, source);
    forall x | x in s'.documents ensures DocumentBound(s', x) {
      if x in s.documents {
        assert DocumentBound(s, x);
      } else {
        NoRowsYet(s, d);
      }
    }
  }

  lemma CreateKeepsPaid(s: State, d: DocumentId, source: string)
    requires AllPaid(s)
    ensures AllPaid(CreateDocument(s, d, source))
  {
    var s' := CreateDocument(s, d, source);
    forall x | x in s'.documents ensures Paid(s', x) {
      if x in s.documents {
        assert Paid(s, x);
      } else {
        NoEventsYet(s.events, s.documents.Keys, d);
      }
    }
  }

  lemma CreateKeeps(s: State, dest: Destination, d: DocumentId, source: string)
    requires Core(s, dest)
    ensures Core(CreateDocument(s, d, source), dest) && WrittenStay(s, CreateDocument(s, d, source))
  {
    if d in s.documents {
      return;
    }
    CreateKeepsBound(s, d, source);
    CreateKeepsPaid(s, d, source);
    CreateKeepsInvoices(s, d, source);
    FitCarriesOver(s, CreateDocument(s, d, source));
    RecordsCarryOver(s, CreateDocument(s, d, source), dest);
  }

  lemma CreateKeepsInvoices(s: State, d: DocumentId, source: string)
    requires InvoicesDistinct(s)
    ensures InvoicesDistinct(CreateDocument(s, d, source))
  {
    var s' := CreateDocument(s, d, source);
    forall x, y | x in s'.documents && y in s'.documents && x != y
      ensures !SameInvoice(s'.documents[x], s'.documents[y])
    {
      assert x in s.documents && y in s.documents ==> !SameInvoice(s.documents[x], s.documents[y]);
    }
  }

  lemma NoRowsYet(s: State, d: DocumentId)
    requires RowsFit(s) && d !in s.documents
    ensures LatestExtraction(s.extractions, d).None?
  {
  }

  lemma {:induction false} NoEventsYet(events: seq<Event>, known: set<DocumentId>, d: DocumentId)
    requires d !in known && forall ev <- events :: ev.documentId in known
    ensures Count(events, d, SucceededWrite) == 0
  {
    if events != [] {
      assert events[|events| - 1] in events;
      assert forall ev <- events[..|events| - 1] :: ev in events;
      NoEventsYet(events[..|events| - 1], known, d);
    }
  }

  lemma ExtractKeepsBound(s: State, s': State, d: DocumentId, e: Extraction)
    requires DocumentsBound(s) && Withdraws(s, s', d) && e.documentId == d && s'.extractions == s.extractions + [e]
    requires if e.draft.Ok? then s'.documents[d].status == Extracted && s'.documents[d].approvedHash.None?
             else
               && s'.documents[d].status == ExtractionFailed
               && s'.documents[d].approvedHash == s.documents[d].approvedHash
    ensures DocumentsBound(s')
  {
    forall x | x in s'.documents ensures DocumentBound(s', x) {
      assert DocumentBound(s, x);
      LatestAppended(s.extractions, e, x);
    }
  }

  lemma ExtractKeeps(s: State, dest: Destination, d: DocumentId, answer: Answer)
    requires Core(s, dest) && d in s.documents
    ensures Core(ExtractDocument(s, d, answer).0, dest) && WrittenStay(s, ExtractDocument(s, d, answer).0)
  {
    hide RecordsApproved, WritesTrue, InvoicesDistinct, AllPaid, Consistent, QuietlyLogged;
    ExtractEffect(s, d, answer);
    var (s', e) := ExtractDocument(s, d, answer);
    WithdrawKeeps(s, s', dest, d);
    ExtractKeepsBound(s, s', d, e);
    ExtractKeepsFit(s, s', d, e);
  }

  lemma ExtractKeepsFit(s: State, s': State, d: DocumentId, e: Extraction)
    requires RowsFit(s) && Withdraws(s, s', d) && e.documentId == d && s'.extractions == s.extractions + [e]
    requires e.draft.Ok? ==> e.evidence == VerifyDraft(e.draft.value, s.documents[d].source)
    ensures RowsFit(s')
  {
    forall a | a in s'.approvals
      ensures a.documentId in s'.documents && Sound(a.payloadHash.draft, s'.documents[a.documentId].source)
    {
      assert s'.documents[a.documentId].source == s.documents[a.documentId].source;
    }
  }

  /** Validation of a document that is not committed and has no hash. */
  lemma ValidateKeeps(s: State, dest: Destination, d: DocumentId, e: Extraction, env: Env)
    requires Core(s, dest) && d in s.documents && e.draft.Ok?
    requires s.documents[d].approvedHash.None? && s.documents[d].status != ExtractionFailed
    requires LatestExtraction(s.extractions, d) == Some(e)
    ensures Core(ValidateExtraction(s, d, e, env).0, dest) && WrittenStay(s, ValidateExtraction(s, d, e, env).0)
  {
    hide ValidateExtraction, RowsFit, RecordsApproved, WritesTrue, InvoicesDistinct, AllPaid, Consistent;
    ValidateEffect(s, d, e, env);
    var s' := ValidateExtraction(s, d, e, env).0;
    WithdrawKeeps(s, s', dest, d);
    forall x | x in s'.documents ensures DocumentBound(s', x) {
      assert DocumentBound(s, x);
    }
    FitCarriesOver(s, s');
  }

  lemma FitCarriesOver(s: State, s': State)
    requires RowsFit(s) && s'.extractions == s.extractions && s'.approvals == s.approvals
    requires forall x <- s.documents :: x in s'.documents && s'.documents[x].source == s.documents[x].source
    ensures RowsFit(s')
  {
  }

  lemma IntakeKeeps(s: State, dest: Destination, d: DocumentId, answer: Answer, env: Env)
    requires Core(s, dest) && d in s.documents
    ensures Core(Intake(s, d, answer, env), dest) && WrittenStay(s, Intake(s, d, answer, env))
  {
    hide Core;
    ExtractKeeps(s, dest, d, answer);
    ExtractEffect(s, d, answer);
    var (s1, e) := ExtractDocument(s, d, answer);
    if e.draft.Ok? {
      LatestAppended(s.extractions, e, d);
      ValidateKeeps(s1, dest, d, e, env);
    }
  }

  /** The number of every other committed document is among those the duplicate rule is given. */
  lemma CommittedIsKnown(s: State, x: DocumentId, d: DocumentId)
    requires DocumentsBound(s) && RowsFit(s)
    requires x in s.documents && x != d && Committed(s.documents[x])
    ensures s.documents[x].approvedHash.Some?
    ensures RuleKey(s.documents[x].approvedHash.value.draft) in CommittedNumbers(s, d)
  {
    assert DocumentBound(s, x);
    var e := LatestExtraction(s.extractions, x).value;
    var a := LatestApproval(s.approvals, x).value;
    SoundHasKey(a.payloadHash.draft, s.documents[x].source);
    assert Claims(s.documents, e, d);
  }

  /** The duplicate rule is given the numbers of the other approved and written documents, and no others. */
  lemma KnownExactly(s: State, d: DocumentId, key: BusinessKey)
    requires DocumentsBound(s) && RowsFit(s)
    ensures key in CommittedNumbers(s, d) <==>
            exists x <- s.documents ::
              && x != d && s.documents[x].status in {Approved, Written} && s.documents[x].approvedHash.Some?
              && RuleKey(s.documents[x].approvedHash.value.draft) == key
  {
    forall x | x in s.documents && x != d && Committed(s.documents[x])
      ensures s.documents[x].approvedHash.Some?
      ensures RuleKey(s.documents[x].approvedHash.value.draft) in CommittedNumbers(s, d)
    {
      CommittedIsKnown(s, x, d);
    }
  }

  lemma SoundHasKey(draft: Draft, source: string)
    requires Sound(draft, source)
    ensures BusinessKeyOf(draft).Some?
  {
    assert !Blank(draft.supplier.value) && !Blank(draft.invoiceNumber.value);
  }

  /** What a granted approval has checked. */
  lemma GrantChecks(s: State, d: DocumentId, extractionId: nat, env: Env, ttl: int)
    requires d in s.documents && RowsFit(s)
    requires ApproveExtraction(s, d, extractionId, env, ttl).1.Ok?
    ensures var e := LatestExtraction(s.extractions, d);
            && s.documents[d].status == Validated && e.Some? && e.value.id == extractionId && e.value.draft.Ok?
            && Sound(e.value.draft.value, s.documents[d].source)
            && e.value.draft.value.issueDate.value <= env.today && !env.ambiguousDate
            && RuleKey(e.value.draft.value) !in CommittedNumbers(s, d)
  {
    AcceptedIsSound(InputFor(s, d, LatestExtraction(s.extractions, d).value, env));
  }

  /** What a granted approval changes. */
  lemma GrantEffect(s: State, d: DocumentId, extractionId: nat, env: Env, ttl: int)
    requires d in s.documents
    requires ApproveExtraction(s, d, extractionId, env, ttl).1.Ok?
    ensures var (s', result) := ApproveExtraction(s, d, extractionId, env, ttl);
            var e := LatestExtraction(s.extractions, d);
            && e.Some? && e.value.draft.Ok?
            && result.value == ApprovalRow(|s.approvals|, d, e.value.id, Sha256(e.value.draft.value), env.now + ttl)
            && s'.documents == s.documents[d := s.documents[d].(
                                 status := Approved, approvedHash := Some(result.value.payloadHash))]
            && s'.extractions == s.extractions && s'.approvals == s.approvals + [result.value]
            && s'.writes == s.writes
            && (exists s1 :: QuietlyLogged(s, s1, d) &&
                             s'.events == s1.events + [Event(d, Some(extractionId), GrantedApproval)])
  {
    ValidateEffect(s, d, LatestExtraction(s.extractions, d).value, env);
  }

  lemma GrantKeepsInvoices(s: State, s': State, d: DocumentId, hash: PayloadHash)
    requires DocumentsBound(s) && RowsFit(s) && InvoicesDistinct(s) && d in s.documents
    requires RuleKey(hash.draft) !in CommittedNumbers(s, d)
    requires s'.documents == s.documents[d := s.documents[d].(status := Approved, approvedHash := Some(hash))]
    ensures InvoicesDistinct(s')
  {
    forall x, y | x in s'.documents && y in s'.documents && x != y
      ensures !SameInvoice(s'.documents[x], s'.documents[y])
    {
      if x != d && Committed(s.documents[x]) { CommittedIsKnown(s, x, d); }
      if y != d && Committed(s.documents[y]) { CommittedIsKnown(s, y, d); }
      assert !SameInvoice(s.documents[x], s.documents[y]);
    }
  }

  lemma GrantKeepsPaid(s: State, s1: State, s': State, d: DocumentId, ev: Event)
    requires AllPaid(s) && d in s.documents && s.documents[d].status != Approved
    requires QuietlyLogged(s, s1, d) && s'.events == s1.events + [ev]
    requires ev.documentId == d && ev.type_ == GrantedApproval
    requires s'.documents.Keys == s.documents.Keys
    requires forall x <- s.documents :: x != d ==> s'.documents[x].status == s.documents[x].status
    ensures AllPaid(s')
  {
    forall x | x in s'.documents ensures Paid(s', x) {
      assert Paid(s, x);
      CountAppended(s1.events, ev, x, SucceededWrite);
      CountAppended(s1.events, ev, x, GrantedApproval);
    }
  }

  lemma GrantKeepsFit(s: State, s': State, d: DocumentId, a: ApprovalRow)
    requires RowsFit(s) && d in s.documents && s'.extractions == s.extractions && s'.approvals == s.approvals + [a]
    requires s'.documents.Keys == s.documents.Keys
    requires forall x <- s.documents :: s'.documents[x].source == s.documents[x].source
    requires a.documentId == d && Sound(a.payloadHash.draft, s.documents[d].source)
    ensures RowsFit(s')
  {
  }

  lemma GrantKeepsBound(s: State, s': State, d: DocumentId, a: ApprovalRow)
    requires DocumentsBound(s) && d in s.documents && a.documentId == d
    requires s'.documents == s.documents[d := s.documents[d].(status := Approved, approvedHash := Some(a.payloadHash))]
    requires s'.extractions == s.extractions && s'.approvals == s.approvals + [a]
    requires LatestExtraction(s.extractions, d).Some?
    requires LatestExtraction(s.extractions, d).value.PayloadHash() == Some(a.payloadHash)
    ensures DocumentsBound(s')
  {
    forall x | x in s'.documents ensures DocumentBound(s', x) {
      assert DocumentBound(s, x);
      LatestApprovalAppended(s.approvals, a, x);
    }
  }

  lemma GrantKeepsEvents(s: State, d: DocumentId, extractionId: nat, env: Env, ttl: int)
    requires AllPaid(s) && d in s.documents
    requires ApproveExtraction(s, d, extractionId, env, ttl).1.Ok?
    ensures AllPaid(ApproveExtraction(s, d, extractionId, env, ttl).0)
  {
    var s' := ApproveExtraction(s, d, extractionId, env, ttl).0;
    GrantEffect(s, d, extractionId, env, ttl);
    var ev := Event(d, Some(extractionId), GrantedApproval);
    var s1 :| QuietlyLogged(s, s1, d) && s'.events == s1.events + [ev];
    GrantKeepsPaid(s, s1, s', d, ev);
  }

  lemma GrantKeeps(s: State, dest: Destination, d: DocumentId, extractionId: nat, env: Env, ttl: int)
    requires Core(s, dest) && d in s.documents
    requires ApproveExtraction(s, d, extractionId, env, ttl).1.Ok?
    ensures Core(ApproveExtraction(s, d, extractionId, env, ttl).0, dest)
    ensures WrittenStay(s, ApproveExtraction(s, d, extractionId, env, ttl).0)
  {
    hide DocumentsBound, RowsFit, RecordsApproved, InvoicesDistinct, AllPaid, Consistent;
    var (s', result) := ApproveExtraction(s, d, extractionId, env, ttl);
    GrantChecks(s, d, extractionId, env, ttl);
    GrantEffect(s, d, extractionId, env, ttl);
    var a := result.value;
    GrantKeepsInvoices(s, s', d, a.payloadHash);
    GrantKeepsFit(s, s', d, a);
    GrantKeepsEvents(s, d, extractionId, env, ttl);
    GrantKeepsBound(s, s', d, a);
    RecordsCarryOver(s, s', dest);
  }

  lemma RefusalIsValidation(s: State, d: DocumentId, extractionId: nat, env: Env, ttl: int)
    requires d in s.documents && ApproveExtraction(s, d, extractionId, env, ttl).1.Err?
    requires ApproveExtraction(s, d, extractionId, env, ttl).0 != s
    ensures var e := LatestExtraction(s.extractions, d);
            && s.documents[d].status == Validated && e.Some? && e.value.draft.Ok?
            && ApproveExtraction(s, d, extractionId, env, ttl).0 == ValidateExtraction(s, d, e.value, env).0
  {
    ValidateEffect(s, d, LatestExtraction(s.extractions, d).value, env);
  }

  lemma ApproveKeeps(s: State, dest: Destination, d: DocumentId, extractionId: nat, env: Env, ttl: int)
    requires Core(s, dest) && d in s.documents
    ensures Core(ApproveExtraction(s, d, extractionId, env, ttl).0, dest)
    ensures WrittenStay(s, ApproveExtraction(s, d, extractionId, env, ttl).0)
  {
    hide RowsFit, RecordsApproved, InvoicesDistinct, AllPaid, Consistent, WritesTrue;
    var (s', result) := ApproveExtraction(s, d, extractionId, env, ttl);
    if result.Ok? {
      GrantKeeps(s, dest, d, extractionId, env, ttl);
    } else if s' != s {
      RefusalIsValidation(s, d, extractionId, env, ttl);
      assert DocumentBound(s, d);
      ValidateKeeps(s, dest, d, LatestExtraction(s.extractions, d).value, env);
    }
  }

  // ---------- The parts of a write ----------

  lemma CallKeeps(s: State, dest: Destination, key: IdempotencyKey)
    requires Core(s, dest) && ApprovedOnce(s, key)
    ensures Core(s, CreateRecord(dest, key, key.payloadHash.draft).0)
  {
    hide DocumentsBound, RowsFit, InvoicesDistinct, AllPaid, Consistent, CreateRecord;
    CreateKeepsConsistent(dest, key, key.payloadHash.draft);
    CallFrame(dest, key, key.payloadHash.draft);
  }

  /** A step that changes neither documents nor extractions nor approvals. */
  lemma SameRowsKeep(s: State, s': State, dest: Destination)
    requires DocumentsBound(s) && RowsFit(s) && RecordsApproved(s, dest) && InvoicesDistinct(s)
    requires s'.documents == s.documents && s'.extractions == s.extractions && s'.approvals == s.approvals
    ensures DocumentsBound(s') && RowsFit(s') && RecordsApproved(s', dest) && InvoicesDistinct(s')
  {
    FitCarriesOver(s, s');
    forall x | x in s'.documents ensures DocumentBound(s', x) {
      assert DocumentBound(s, x);
    }
    assert forall k <- dest.records :: ApprovedOnce(s, k) ==> ApprovedOnce(s', k);
  }

  lemma SameEventsKeepPaid(s: State, s': State)
    requires AllPaid(s) && s'.events == s.events && s'.documents == s.documents
    ensures AllPaid(s')
  {
    forall x | x in s'.documents ensures Paid(s', x) {
      assert Paid(s, x);
    }
  }

  /** A write row is replaced by one that claims no success, or a true one. */
  lemma RowKeeps(s: State, dest: Destination, key: IdempotencyKey, row: CrmWrite)
    requires Core(s, dest)
    requires row.status == Succeeded ==> key in dest.records && row.externalId == Some(dest.records[key].externalId)
    ensures Core(s.(writes := s.writes[key := row]), dest)
  {
    hide DocumentsBound, RowsFit, RecordsApproved, InvoicesDistinct, AllPaid, Consistent;
    var s' := s.(writes := s.writes[key := row]);
    SameRowsKeep(s, s', dest);
    SameEventsKeepPaid(s, s');
  }

  lemma QuietLogKeepsPaid(s: State, d: DocumentId, extractionId: Option<nat>, type_: EventType)
    requires AllPaid(s) && d in s.documents && type_ !in {SucceededWrite, GrantedApproval}
    ensures AllPaid(Log(s, d, extractionId, type_))
  {
    var s' := Log(s, d, extractionId, type_);
    forall x | x in s'.documents ensures Paid(s', x) {
      assert Paid(s, x);
      CountAppended(s.events, Event(d, extractionId, type_), x, SucceededWrite);
      CountAppended(s.events, Event(d, extractionId, type_), x, GrantedApproval);
    }
  }

  lemma LogKeeps(s: State, dest: Destination, d: DocumentId, extractionId: Option<nat>, type_: EventType)
    requires Core(s, dest) && d in s.documents && type_ !in {SucceededWrite, GrantedApproval}
    ensures Core(Log(s, d, extractionId, type_), dest)
  {
    hide DocumentsBound, RowsFit, RecordsApproved, InvoicesDistinct, AllPaid, Consistent;
    SameRowsKeep(s, Log(s, d, extractionId, type_), dest);
    QuietLogKeepsPaid(s, d, extractionId, type_);
  }

  lemma MarkKeepsPaid(s: State, d: DocumentId, extractionId: Option<nat>)
    requires AllPaid(s) && d in s.documents && s.documents[d].status == Approved
    ensures AllPaid(Log(WithStatus(s, d, Written), d, extractionId, SucceededWrite))
  {
    var ev := Event(d, extractionId, SucceededWrite);
    var s' := Log(WithStatus(s, d, Written), d, extractionId, SucceededWrite);
    forall x | x in s'.documents ensures Paid(s', x) {
      assert Paid(s, x);
      CountAppended(s.events, ev, x, SucceededWrite);
      CountAppended(s.events, ev, x, GrantedApproval);
    }
  }

  lemma MarkKeepsInvoices(s: State, d: DocumentId)
    requires InvoicesDistinct(s) && d in s.documents && s.documents[d].status == Approved
    ensures InvoicesDistinct(WithStatus(s, d, Written))
  {
    var s' := WithStatus(s, d, Written);
    forall x, y | x in s'.documents && y in s'.documents && x != y
      ensures !SameInvoice(s'.documents[x], s'.documents[y])
    {
      assert !SameInvoice(s.documents[x], s.documents[y]);
    }
  }

  lemma MarkKeepsBound(s: State, d: DocumentId)
    requires DocumentsBound(s) && d in s.documents && s.documents[d].status == Approved
    ensures DocumentsBound(WithStatus(s, d, Written))
  {
    var s' := WithStatus(s, d, Written);
    forall x | x in s'.documents ensures DocumentBound(s', x) {
      assert DocumentBound(s, x);
    }
  }

  /** The guarded transition and its event use up the approval. */
  lemma MarkKeeps(s: State, dest: Destination, d: DocumentId, extractionId: Option<nat>)
    requires Core(s, dest) && d in s.documents && s.documents[d].status == Approved
    ensures Core(Log(WithStatus(s, d, Written), d, extractionId, SucceededWrite), dest)
  {
    hide DocumentsBound, RowsFit, RecordsApproved, InvoicesDistinct, AllPaid, Consistent;
    var s1 := WithStatus(s, d, Written);
    var s' := Log(s1, d, extractionId, SucceededWrite);
    MarkKeepsBound(s, d);
    MarkKeepsInvoices(s, d);
    FitCarriesOver(s, s1);
    RecordsCarryOver(s, s1, dest);
    SameRowsKeep(s1, s', dest);
    MarkKeepsPaid(s, d, extractionId);
  }

  lemma RecordsCarryOver(s: State, s': State, dest: Destination)
    requires RecordsApproved(s, dest) && s.approvals <= s'.approvals
    ensures RecordsApproved(s', dest)
  {
    assert forall a <- s.approvals :: a in s'.approvals;
    forall k | k in dest.records ensures ApprovedOnce(s', k) {
      assert ApprovedOnce(s, k);
    }
  }

  // ---------- A whole write ----------

  /** All checks before the claim pass. */
  predicate Cleared(s: State, d: DocumentId, now: int)
    requires d in s.documents
  {
    var hash := s.documents[d].approvedHash;
    var a, e := LatestApproval(s.approvals, d), LatestExtraction(s.extractions, d);
    && hash.Some? && !(KeyOf(s, d) in s.writes && s.writes[KeyOf(s, d)].status == Succeeded)
    && a.Some? && Some(a.value.payloadHash) == hash && now < a.value.expiresAt
    && e.Some? && e.value.PayloadHash() == hash
  }

  lemma WriteByCases(s: State, dest: Destination, d: DocumentId, now: int)
    requires d in s.documents
    ensures var (s', dest', result) := WriteApprovedRecord(s, dest, d, now);
            if Cleared(s, d, now) then
              (s', dest', result) == ClaimAndCall(s, dest, d, KeyOf(s, d), LatestExtraction(s.extractions, d).value)
            else s' == s && dest' == dest && (result.Err? ==> result.error.Approval?) &&
                 (result.Ok? ==> !result.value.calledDestination)
  {
  }

  /** No line of the write tests that the document is approved; the invariant makes it so. */
  lemma ClearedIsApproved(w: World, d: DocumentId, now: int)
    requires Inv(w) && d in w.s.documents && Cleared(w.s, d, now)
    ensures w.s.documents[d].status == Approved
  {
    assert DocumentBound(w.s, d);
  }

  lemma ClaimAndCallKeeps(s: State, dest: Destination, d: DocumentId, key: IdempotencyKey, e: Extraction)
    requires Core(s, dest) && d in s.documents && s.documents[d].status == Approved
    requires s.documents[d].approvedHash == Some(key.payloadHash) && e.draft == Ok(key.payloadHash.draft)
    requires key.documentId == d && ApprovedOnce(s, key)
    ensures Core(s, ClaimAndCall(s, dest, d, key, e).1)
    ensures Core(ClaimAndCall(s, dest, d, key, e).0, ClaimAndCall(s, dest, d, key, e).1)
  {
    hide Core;
    var (s', dest', result) := ClaimAndCall(s, dest, d, key, e);
    CallKeeps(s, dest, key);
    CallFrame(dest, key, e.draft.value);
    var s1 := Log(s, d, Some(e.id), AttemptedWrite);
    LogKeeps(s, dest', d, Some(e.id), AttemptedWrite);
    RowKeeps(s1, dest', key, s'.writes[key]);
    var s2 := s1.(writes := s1.writes[key := s'.writes[key]]);
    if result.Err? {
      LogKeeps(s2, dest', d, Some(e.id), FailedWrite);
    } else {
      MarkKeeps(s2, dest', d, Some(e.id));
    }
  }

  /** What a write that reaches the destination does to an approved document. */
  lemma ClaimAndCallEffect(s: State, dest: Destination, d: DocumentId, key: IdempotencyKey, e: Extraction)
    requires d in s.documents && s.documents[d].status == Approved && e.draft.Ok?
    requires s.documents[d].approvedHash == Some(key.payloadHash)
    ensures var (s', dest', result) := ClaimAndCall(s, dest, d, key, e);
            && |s'.events| > |s.events|
            && key in s'.writes && s'.writes == s.writes[key := s'.writes[key]]
            && (result.Err? ==> result.error.Crm? && s'.documents == s.documents && s'.writes[key].status == Failed)
            && (result.Ok? ==> result.value.calledDestination && s'.writes[key].status == Succeeded &&
                               s'.documents == s.documents[d := s.documents[d].(status := Written)])
  {
  }

  lemma ClaimAndCallSettles(s: State, dest: Destination, d: DocumentId, key: IdempotencyKey, e: Extraction)
    requires WrittenSettled(s) && d in s.documents && s.documents[d].status == Approved && e.draft.Ok?
    requires s.documents[d].approvedHash == Some(key.payloadHash) && key.documentId == d
    ensures WrittenSettled(ClaimAndCall(s, dest, d, key, e).0)
  {
    ClaimAndCallEffect(s, dest, d, key, e);
    var s' := ClaimAndCall(s, dest, d, key, e).0;
    forall x | x in s'.documents && s'.documents[x].status == Written && s'.documents[x].approvedHash.Some?
      ensures KeyOf(s', x) in s'.writes && s'.writes[KeyOf(s', x)].status == Succeeded
    {
      assert x != d ==> KeyOf(s', x) == KeyOf(s, x) && KeyOf(s, x) != key;
    }
  }

  lemma WriteKeeps(w: World, d: DocumentId, now: int)
    requires Inv(w) && d in w.s.documents
    ensures Inv(World(WriteApprovedRecord(w.s, w.dest, d, now).0, WriteApprovedRecord(w.s, w.dest, d, now).1))
    ensures Inv(World(w.s, WriteApprovedRecord(w.s, w.dest, d, now).1))
  {
    hide Core, WrittenSettled;
    WriteByCases(w.s, w.dest, d, now);
    if Cleared(w.s, d, now) {
      ClearedIsApproved(w, d, now);
      var key, e := KeyOf(w.s, d), LatestExtraction(w.s.extractions, d).value;
      assert ApprovedOnce(w.s, key);
      ClaimAndCallKeeps(w.s, w.dest, d, key, e);
      ClaimAndCallSettles(w.s, w.dest, d, key, e);
    }
  }

  lemma SettledStays(s: State, s': State)
    requires WrittenSettled(s) && WrittenStay(s, s')
    ensures WrittenSettled(s')
  {
    forall x | x in s'.documents && s'.documents[x].status == Written && s'.documents[x].approvedHash.Some?
      ensures KeyOf(s', x) in s'.writes && s'.writes[KeyOf(s', x)].status == Succeeded
    {
      assert KeyOf(s', x) == KeyOf(s, x);
    }
  }

  lemma OutageKeeps(s: State, dest: Destination, failures: seq<CrmError>)
    requires Core(s, dest) && dest.Mock?
    ensures Core(s, dest.(failures := failures))
  {
    hide DocumentsBound, RowsFit, InvoicesDistinct, AllPaid;
    assert dest.(failures := failures).records == dest.records;
  }

  lemma OutageStepKeeps(w: World, error: CrmError)
    requires Inv(w)
    ensures Inv(Apply(w, Outage(error)))
  {
    if w.dest.Mock? { OutageKeeps(w.s, w.dest, w.dest.failures + [error]); }
  }

  /** Every call but a write leaves the destination's records alone and makes nothing written. */
  lemma ServiceKeeps(w: World, a: Action)
    requires Core(w.s, w.dest) && !a.Write? && !a.Outage?
    ensures Apply(w, a).dest == w.dest
    ensures Core(Apply(w, a).s, w.dest) && WrittenStay(w.s, Apply(w, a).s)
  {
    hide Core;
    match a
    case Create(d, source) => CreateKeeps(w.s, w.dest, d, source);
    case ExtractOnly(d, answer) => if d in w.s.documents { ExtractKeeps(w.s, w.dest, d, answer); }
    case ExtractAndValidate(d, answer, env) => if d in w.s.documents { IntakeKeeps(w.s, w.dest, d, answer, env); }
    case Approve(d, extractionId, env, ttl) =>
      if d in w.s.documents { ApproveKeeps(w.s, w.dest, d, extractionId, env, ttl); }
  }

  lemma WriteStepKeeps(w: World, d: DocumentId, now: int, commits: bool)
    requires Inv(w)
    ensures Inv(Apply(w, Write(d, now, commits)))
  {
    hide Inv, Core;
    if d in w.s.documents {
      WriteKeeps(w, d, now);
      var (s', dest', _) := WriteApprovedRecord(w.s, w.dest, d, now);
      assert Apply(w, Write(d, now, commits)) in {World(s', dest'), World(w.s, dest'), World(w.s, w.dest)};
    }
  }

  lemma ServiceStepKeeps(w: World, a: Action)
    requires Inv(w) && !a.Write? && !a.Outage?
    ensures Inv(Apply(w, a))
  {
    ServiceKeeps(w, a);
    SettledStays(w.s, Apply(w, a).s);
  }

  lemma StepKeeps(w: World, a: Action)
    requires Inv(w)
    ensures Inv(Apply(w, a))
  {
    hide Inv, Core;
    if a.Write? {
      WriteStepKeeps(w, a.d, a.now, a.commits);
    } else if a.Outage? {
      OutageStepKeeps(w, a.error);
    } else {
      ServiceStepKeeps(w, a);
    }
  }

  lemma StartHolds(inMemory: bool)
    ensures Inv(Start(inMemory))
  {
  }

  lemma {:induction false} RunKeeps(inMemory: bool, actions: seq<Action>)
    ensures Inv(Run(Start(inMemory), actions))
  {
    if actions == [] {
      StartHolds(inMemory);
    } else {
      RunKeeps(inMemory, actions[..|actions| - 1]);
      StepKeeps(Run(Start(inMemory), actions[..|actions| - 1]), actions[|actions| - 1]);
    }
  }

  // ---------- The trail of an approval ----------

  /** One row for each of the eleven rules, all passed. */
  function PassRows(extractionId: nat): seq<ValidationRow> {
    seq(|RULES|, i requires 0 <= i < |RULES| => ValidationRow(extractionId, RuleResult(RULES[i], Pass)))
  }

  predicate PassedAt(rows: seq<ValidationRow>, extractionId: nat, p: nat) {
    p <= |rows| && PassRows(extractionId) <= rows[p..]
  }

  /** An approval row names an extraction of its document with its hash, whose validation the trail shows as passed. */
  ghost predicate Grounded(s: State, a: ApprovalRow) {
    && a.extractionId < |s.extractions|
    && s.extractions[a.extractionId].documentId == a.documentId
    && s.extractions[a.extractionId].PayloadHash() == Some(a.payloadHash)
    && exists p: nat :: PassedAt(s.validations, a.extractionId, p)
  }

  ghost predicate Audited(s: State) {
    && (forall i :: 0 <= i < |s.extractions| ==> s.extractions[i].id == i)
    && (forall a <- s.approvals :: Grounded(s, a))
  }

  lemma AcceptedRowsPass(data: Input, extractionId: nat)
    requires IsAccepted(Validate(data))
    ensures var results, rows := Validate(data), PassRows(extractionId);
            |results| == |rows| &&
            forall i :: 0 <= i < |results| ==> ValidationRow(extractionId, results[i]) == rows[i]
  {
    hide OutcomeOf;
    forall i | 0 <= i < |Validate(data)| ensures Validate(data)[i].outcome == Pass {
      assert Validate(data)[i] in Validate(data);
    }
  }

  /** A granted approval leaves eleven passed rows for its extraction, and its own row. */
  lemma GrantAppendsPasses(s: State, d: DocumentId, extractionId: nat, env: Env, ttl: int)
    requires d in s.documents
    requires ApproveExtraction(s, d, extractionId, env, ttl).1.Ok?
    ensures ApproveExtraction(s, d, extractionId, env, ttl).0.validations == s.validations + PassRows(extractionId)
  {
    hide Validate, IsAccepted, PassRows, CommittedNumbers;
    var e := LatestExtraction(s.extractions, d).value;
    var data := InputFor(s, d, e, env);
    AcceptedRowsPass(data, e.id);
    var rows := seq(|Validate(data)|, i requires 0 <= i < |Validate(data)| => ValidationRow(e.id, Validate(data)[i]));
    assert rows == PassRows(e.id);
  }

  lemma GroundedStays(s: State, s': State, a: ApprovalRow)
    requires Grounded(s, a) && s.extractions <= s'.extractions && s.validations <= s'.validations
    ensures Grounded(s', a)
  {
    hide PassRows;
    var p: nat :| PassedAt(s.validations, a.extractionId, p);
    assert PassedAt(s'.validations, a.extractionId, p);
  }

  lemma AuditedStays(s: State, s': State)
    requires Audited(s) && s.extractions <= s'.extractions && s.validations <= s'.validations
    requires s'.approvals == s.approvals
    requires forall i :: |s.extractions| <= i < |s'.extractions| ==> s'.extractions[i].id == i
    ensures Audited(s')
  {
    hide Grounded;
    forall a | a in s'.approvals ensures Grounded(s', a) {
      GroundedStays(s, s', a);
    }
  }

  lemma GrantAudited(s: State, d: DocumentId, extractionId: nat, env: Env, ttl: int)
    requires Audited(s) && d in s.documents
    requires ApproveExtraction(s, d, extractionId, env, ttl).1.Ok?
    ensures Audited(ApproveExtraction(s, d, extractionId, env, ttl).0)
  {
    hide ApproveExtraction, PassRows;
    var (s', result) := ApproveExtraction(s, d, extractionId, env, ttl);
    GrantEffect(s, d, extractionId, env, ttl);
    GrantAppendsPasses(s, d, extractionId, env, ttl);
    GrantNamesLatest(s, d, extractionId, env, ttl);
    LatestIsRow(s.extractions, d);
    assert PassedAt(s'.validations, extractionId, |s.validations|);
    forall a | a in s'.approvals ensures Grounded(s', a) {
      if a in s.approvals { GroundedStays(s, s', a); }
    }
  }

  lemma GrantNamesLatest(s: State, d: DocumentId, extractionId: nat, env: Env, ttl: int)
    requires d in s.documents && ApproveExtraction(s, d, extractionId, env, ttl).1.Ok?
    ensures LatestExtraction(s.extractions, d).Some? && LatestExtraction(s.extractions, d).value.id == extractionId
  {
  }

  lemma {:induction false} LatestIsRow(rows: seq<Extraction>, d: DocumentId)
    requires forall i :: 0 <= i < |rows| ==> rows[i].id == i
    ensures var e := LatestExtraction(rows, d); e.Some? ==> e.value.id < |rows| && rows[e.value.id] == e.value
  {
    if rows != [] && rows[|rows| - 1].documentId != d {
      LatestIsRow(rows[..|rows| - 1], d);
    }
  }

  lemma ApproveAudited(s: State, d: DocumentId, extractionId: nat, env: Env, ttl: int)
    requires Audited(s) && d in s.documents
    ensures Audited(ApproveExtraction(s, d, extractionId, env, ttl).0)
  {
    hide ApproveExtraction, Audited, Validate, IsAccepted;
    var (s', result) := ApproveExtraction(s, d, extractionId, env, ttl);
    if result.Ok? {
      GrantAudited(s, d, extractionId, env, ttl);
    } else if s' != s {
      RefusalIsValidation(s, d, extractionId, env, ttl);
      ValidateAudited(s, d, LatestExtraction(s.extractions, d).value, env);
    }
  }

  lemma ValidateAudited(s: State, d: DocumentId, e: Extraction, env: Env)
    requires Audited(s) && d in s.documents && e.draft.Ok?
    ensures Audited(ValidateExtraction(s, d, e, env).0)
  {
    hide ValidateExtraction, Audited;
    ValidateEffect(s, d, e, env);
    ValidateGrows(s, d, e, env);
    AuditedStays(s, ValidateExtraction(s, d, e, env).0);
  }

  lemma ExtractAudited(s: State, d: DocumentId, answer: Answer)
    requires Audited(s) && d in s.documents
    ensures Audited(ExtractDocument(s, d, answer).0)
  {
    hide ExtractDocument, Audited;
    ExtractEffect(s, d, answer);
    ExtractGrows(s, d, answer);
    AuditedStays(s, ExtractDocument(s, d, answer).0);
  }

  lemma StepAudited(w: World, a: Action)
    requires Audited(w.s)
    ensures Audited(Apply(w, a).s)
  {
    hide ExtractDocument, ValidateExtraction, ApproveExtraction, WriteApprovedRecord, Audited;
    if !a.Outage? && a.d in w.s.documents {
      match a
      case Create(_, _) =>
      case ExtractOnly(d, answer) => ExtractAudited(w.s, d, answer);
      case ExtractAndValidate(d, answer, env) =>
        ExtractAudited(w.s, d, answer);
        ExtractEffect(w.s, d, answer);
        var (s1, e) := ExtractDocument(w.s, d, answer);
        if e.draft.Ok? { ValidateAudited(s1, d, e, env); }
      case Approve(d, extractionId, env, ttl) => ApproveAudited(w.s, d, extractionId, env, ttl);
      case Write(d, now, commits) =>
        WriteLeavesRows(w.s, w.dest, d, now);
        AuditedStays(w.s, WriteApprovedRecord(w.s, w.dest, d, now).0);
    } else if a.Create? {
      AuditedStays(w.s, CreateDocument(w.s, a.d, a.source));
    }
  }

  lemma WriteLeavesRows(s: State, dest: Destination, d: DocumentId, now: int)
    requires d in s.documents
    ensures var s' := WriteApprovedRecord(s, dest, d, now).0;
            && d in s'.documents && s'.approvals == s.approvals && s'.extractions == s.extractions
            && s'.validations == s.validations
  {
    hide WriteApprovedRecord, Cleared, CreateRecord;
    WriteByCases(s, dest, d, now);
  }

  lemma {:induction false} RunAudited(inMemory: bool, actions: seq<Action>)
    ensures Audited(Run(Start(inMemory), actions).s)
  {
    if actions != [] {
      hide Audited, Apply;
      RunAudited(inMemory, actions[..|actions| - 1]);
      StepAudited(Run(Start(inMemory), actions[..|actions| - 1]), actions[|actions| - 1]);
    }
  }

  // ---------- What holds in every run ----------

  /** A record the destination may hold: the key names its draft, a document and an approval whose eleven rules are
      on record as passed, and the draft is sound for the document's source. */
  ghost predicate Justified(w: World, key: IdempotencyKey) {
    && key in w.dest.records && key.documentId in w.s.documents
    && w.dest.records[key].payload == key.payloadHash.draft
    && (exists a <- w.s.approvals ::
          a.documentId == key.documentId && a.payloadHash == key.payloadHash && Grounded(w.s, a))
    && Sound(key.payloadHash.draft, w.s.documents[key.documentId].source)
  }

  /** End to end: whatever providers propose and whatever fails, everything the destination holds was approved for
      its document after all eleven rules had passed, its seven quotes are in that document's source, its currency is
      supported, its lines are exact, and quantities times prices add up with the tax to the total. */
  lemma {:induction false} EveryRecordIsJustified(inMemory: bool, actions: seq<Action>, key: IdempotencyKey)
    requires key in Run(Start(inMemory), actions).dest.records
    ensures var w := Run(Start(inMemory), actions);
            var payload := w.dest.records[key].payload;
            Justified(w, key) &&
            SumOfProducts(payload.lineItems) + payload.tax.value == payload.total.value
  {
    RunKeeps(inMemory, actions);
    var w := Run(Start(inMemory), actions);
    RunAudited(inMemory, actions);
    assert ApprovedOnce(w.s, key);
    SoundAddsUp(key.payloadHash.draft, w.s.documents[key.documentId].source);
  }

  /** Committed documents are different invoices, in every run. */
  lemma {:induction false} CommittedInvoicesDiffer(inMemory: bool, actions: seq<Action>, x: DocumentId, y: DocumentId)
    requires var s := Run(Start(inMemory), actions).s; x in s.documents && y in s.documents && x != y
    requires var s := Run(Start(inMemory), actions).s;
             s.documents[x].status in {Approved, Written} && s.documents[y].status in {Approved, Written}
    ensures var s := Run(Start(inMemory), actions).s;
            && s.documents[x].approvedHash.Some? && s.documents[y].approvedHash.Some?
            && RuleKey(s.documents[x].approvedHash.value.draft) != RuleKey(s.documents[y].approvedHash.value.draft)
  {
    RunKeeps(inMemory, actions);
    var s := Run(Start(inMemory), actions).s;
    assert DocumentBound(s, x) && DocumentBound(s, y);
    assert !SameInvoice(s.documents[x], s.documents[y]);
  }

  /** The approved hash of a committed document is the hash of its latest extraction and its latest approval, in
      every run. */
  lemma {:induction false} ApprovalBinds(inMemory: bool, actions: seq<Action>, d: DocumentId)
    requires d in Run(Start(inMemory), actions).s.documents
    requires Run(Start(inMemory), actions).s.documents[d].status in {Approved, Written}
    ensures var s := Run(Start(inMemory), actions).s;
            var e, a := LatestExtraction(s.extractions, d), LatestApproval(s.approvals, d);
            e.Some? && a.Some? &&
            e.value.PayloadHash() == Some(a.value.payloadHash) == s.documents[d].approvedHash
  {
    RunKeeps(inMemory, actions);
    assert DocumentBound(Run(Start(inMemory), actions).s, d);
  }

  /** The destination, the store or the answer shows that the destination was called. */
  predicate Called(s: State, dest: Destination, d: DocumentId, now: int)
    requires d in s.documents
  {
    var (s', dest', result) := WriteApprovedRecord(s, dest, d, now);
    dest' != dest || s' != s || (if result.Ok? then result.value.calledDestination else result.error.Crm?)
  }

  lemma CalledMeansCleared(s: State, dest: Destination, d: DocumentId, now: int)
    requires d in s.documents && (Cleared(s, d, now) ==> s.documents[d].status == Approved)
    ensures Called(s, dest, d, now) <==> Cleared(s, d, now)
    ensures Cleared(s, d, now) ==>
              var (s', dest', result) := WriteApprovedRecord(s, dest, d, now);
              if result.Ok? then s'.documents == s.documents[d := s.documents[d].(status := Written)]
              else result.error.Crm? && s'.documents == s.documents
  {
    WriteByCases(s, dest, d, now);
    if Cleared(s, d, now) {
      ClaimAndCallEffect(s, dest, d, KeyOf(s, d), LatestExtraction(s.extractions, d).value);
    }
  }

  /** A write that reaches the destination finds the document approved, with an approval of its very hash that has
      not expired. It then either fails at the destination and leaves the document approved, or leaves it written:
      the zero-row guard never fires, so no approval error follows a destination call. */
  lemma CallsOnlyWhenApproved(w: World, d: DocumentId, now: int)
    requires Inv(w) && d in w.s.documents && Called(w.s, w.dest, d, now)
    ensures var doc, a := w.s.documents[d], LatestApproval(w.s.approvals, d);
            && doc.status == Approved
            && a.Some? && Some(a.value.payloadHash) == doc.approvedHash && now < a.value.expiresAt
    ensures var (s', dest', result) := WriteApprovedRecord(w.s, w.dest, d, now);
            if result.Ok? then s'.documents == w.s.documents[d := w.s.documents[d].(status := Written)]
            else result.error.Crm? && s'.documents == w.s.documents
  {
    if Cleared(w.s, d, now) {
      ClearedIsApproved(w, d, now);
    }
    CalledMeansCleared(w.s, w.dest, d, now);
  }

  /** The document has no approval that counts: no hash, or a hash left over behind a failed extraction. */
  predicate Withdrawn(s: State, d: DocumentId) {
    d in s.documents &&
    (s.documents[d].approvedHash.None? || s.documents[d].status == ExtractionFailed)
  }

  lemma WithdrawnRefusesWrites(w: World, d: DocumentId, now: int)
    requires Inv(w) && Withdrawn(w.s, d)
    ensures var (s', dest', result) := WriteApprovedRecord(w.s, w.dest, d, now);
            result.Err? && result.error.Approval? && s' == w.s && dest' == w.dest
  {
    WriteByCases(w.s, w.dest, d, now);
    assert DocumentBound(w.s, d);
  }

  lemma ApproveTouchesOne(s: State, d: DocumentId, extractionId: nat, env: Env, ttl: int)
    requires d in s.documents
    ensures var s' := ApproveExtraction(s, d, extractionId, env, ttl).0;
            && (forall x <- s.documents :: x != d ==> x in s'.documents && s'.documents[x] == s.documents[x])
            && s'.writes == s.writes
    ensures s.documents[d].status != Validated ==> ApproveExtraction(s, d, extractionId, env, ttl).0 == s
  {
  }

  lemma WriteTouchesOne(s: State, dest: Destination, d: DocumentId, now: int)
    requires d in s.documents
    ensures var s' := WriteApprovedRecord(s, dest, d, now).0;
            && (forall x <- s.documents :: x != d ==> x in s'.documents && s'.documents[x] == s.documents[x])
            && (forall k <- s.writes :: k.documentId != d ==> k in s'.writes && s'.writes[k] == s.writes[k])
  {
    hide WriteApprovedRecord, Cleared, CreateRecord;
    WriteByCases(s, dest, d, now);
  }

  /** A call on one document leaves the others and their write rows alone. */
  lemma TouchesOne(w: World, a: Action, x: DocumentId)
    requires x in w.s.documents && (a.Outage? || a.d != x)
    ensures x in Apply(w, a).s.documents && Apply(w, a).s.documents[x] == w.s.documents[x]
    ensures forall k <- w.s.writes :: k.documentId == x ==> k in Apply(w, a).s.writes &&
                                                            Apply(w, a).s.writes[k] == w.s.writes[k]
  {
    if !a.Outage? && a.d in w.s.documents {
      match a
      case Create(_, _) =>
      case ExtractOnly(d, answer) => ExtractEffect(w.s, d, answer);
      case ExtractAndValidate(d, answer, env) =>
        ExtractEffect(w.s, d, answer);
        var (s1, e) := ExtractDocument(w.s, d, answer);
        if e.draft.Ok? { ValidateEffect(s1, d, e, env); }
      case Approve(d, extractionId, env, ttl) => ApproveTouchesOne(w.s, d, extractionId, env, ttl);
      case Write(d, now, commits) => WriteTouchesOne(w.s, w.dest, d, now);
    }
  }

  /** Rows are added at the end and stay, sources never change, and no write row is dropped. */
  ghost predicate Grows(s: State, s': State) {
    && s.events <= s'.events && s.extractions <= s'.extractions
    && s.approvals <= s'.approvals && s.validations <= s'.validations
    && s.writes.Keys <= s'.writes.Keys
    && forall d <- s.documents :: d in s'.documents && s'.documents[d].source == s.documents[d].source
  }

  lemma ExtractGrows(s: State, d: DocumentId, answer: Answer)
    requires d in s.documents
    ensures Grows(s, ExtractDocument(s, d, answer).0)
  {
    hide VerifyDraft;
  }

  lemma ValidateGrows(s: State, d: DocumentId, e: Extraction, env: Env)
    requires d in s.documents && e.draft.Ok?
    ensures Grows(s, ValidateExtraction(s, d, e, env).0)
  {
    hide Validate, IsAccepted, CommittedNumbers;
  }

  lemma ApproveGrows(s: State, d: DocumentId, extractionId: nat, env: Env, ttl: int)
    requires d in s.documents
    ensures Grows(s, ApproveExtraction(s, d, extractionId, env, ttl).0)
  {
    hide ValidateExtraction;
    var e := LatestExtraction(s.extractions, d);
    if e.Some? && e.value.draft.Ok? {
      ValidateGrows(s, d, e.value, env);
      ValidateEffect(s, d, e.value, env);
    }
  }

  lemma WriteGrows(s: State, dest: Destination, d: DocumentId, now: int)
    requires d in s.documents
    ensures Grows(s, WriteApprovedRecord(s, dest, d, now).0)
  {
    hide WriteApprovedRecord, Cleared, CreateRecord;
    WriteByCases(s, dest, d, now);
  }

  lemma StepGrows(w: World, a: Action)
    ensures Grows(w.s, Apply(w, a).s)
  {
    hide ExtractDocument, ValidateExtraction, ApproveExtraction, WriteApprovedRecord;
    if !a.Outage? && a.d in w.s.documents {
      match a
      case Create(_, _) =>
      case ExtractOnly(d, answer) => ExtractGrows(w.s, d, answer);
      case ExtractAndValidate(d, answer, env) =>
        ExtractGrows(w.s, d, answer);
        var (s1, e) := ExtractDocument(w.s, d, answer);
        if e.draft.Ok? { ValidateGrows(s1, d, e, env); }
      case Approve(d, extractionId, env, ttl) => ApproveGrows(w.s, d, extractionId, env, ttl);
      case Write(d, now, commits) => WriteGrows(w.s, w.dest, d, now);
    }
  }

  /** The audit trail is append-only: over any calls, every event, extraction, approval and validation row stays as
      and where it was, and no record of the destination changes. */
  lemma {:induction false} TrailOnlyGrows(w: World, later: seq<Action>)
    ensures Grows(w.s, Run(w, later).s)
    ensures forall k <- w.dest.records :: k in Run(w, later).dest.records &&
                                          Run(w, later).dest.records[k] == w.dest.records[k]
  {
    hide Apply, Grows;
    if later == [] {
      GrowsAtFirst(w.s);
    } else {
      var n := |later| - 1;
      var before := Run(w, later[..n]);
      TrailOnlyGrows(w, later[..n]);
      StepGrows(before, later[n]);
      GrowsOn(w.s, before.s, Run(w, later).s);
      StepKeepsRecords(before, later[n]);
    }
  }

  lemma GrowsAtFirst(s: State)
    ensures Grows(s, s)
  {
  }

  lemma GrowsOn(s: State, s1: State, s2: State)
    requires Grows(s, s1) && Grows(s1, s2)
    ensures Grows(s, s2)
  {
  }

  lemma StepKeepsRecords(w: World, a: Action)
    ensures forall k <- w.dest.records :: k in Apply(w, a).dest.records &&
                                          Apply(w, a).dest.records[k] == w.dest.records[k]
  {
    hide CreateRecord, Cleared, WriteApprovedRecord;
    if a.Write? && a.d in w.s.documents {
      WriteByCases(w.s, w.dest, a.d, a.now);
      if Cleared(w.s, a.d, a.now) {
        ClearedHasDraft(w.s, a.d, a.now);
        var e := LatestExtraction(w.s.extractions, a.d).value;
        CallFrame(w.dest, KeyOf(w.s, a.d), e.draft.value);
      }
    }
  }

  lemma ClearedHasDraft(s: State, d: DocumentId, now: int)
    requires d in s.documents && Cleared(s, d, now)
    ensures s.documents[d].approvedHash.Some? && LatestExtraction(s.extractions, d).Some?
    ensures LatestExtraction(s.extractions, d).value.draft.Ok?
  {
  }

  lemma IntakeWithdraws(s: State, d: DocumentId, answer: Answer, env: Env)
    requires d in s.documents
    ensures Withdrawn(ExtractDocument(s, d, answer).0, d) && Withdrawn(Intake(s, d, answer, env), d)
  {
    ExtractEffect(s, d, answer);
    var (s1, e) := ExtractDocument(s, d, answer);
    if e.draft.Ok? { ValidateEffect(s1, d, e, env); }
  }

  lemma WithdrawnStays(w: World, d: DocumentId, a: Action)
    requires Inv(w) && Withdrawn(w.s, d) && !(a.Approve? && a.d == d)
    ensures Withdrawn(Apply(w, a).s, d)
  {
    if a.Outage? || a.d != d {
      TouchesOne(w, a, d);
    } else if a.Write? {
      WithdrawnRefusesWrites(w, d, a.now);
    } else if !a.Create? {
      IntakeWithdraws(w.s, d, a.answer, if a.ExtractAndValidate? then a.env else Env(0, 0, false));
    }
  }

  /** Any extraction, successful or failed, withdraws the approval: from then on, through any calls that do not
      approve the document again, every write of it is refused without a destination call and without a trace. */
  lemma {:induction false} ExtractionBlocksWrites(w: World, d: DocumentId, again: Action, later: seq<Action>, now: int)
    requires Inv(w) && d in w.s.documents && Reextracts(again, d)
    requires forall a <- later :: !(a.Approve? && a.d == d)
    ensures var after := Run(Apply(w, again), later);
            && Inv(after) && Withdrawn(after.s, d)
            && var (s', dest', result) := WriteApprovedRecord(after.s, after.dest, d, now);
               result.Err? && result.error.Approval? && s' == after.s && dest' == after.dest
  {
    hide Inv, WriteApprovedRecord;
    var w1 := Apply(w, again);
    if later == [] {
      StepKeeps(w, again);
      IntakeWithdraws(w.s, d, again.answer, if again.ExtractAndValidate? then again.env else Env(0, 0, false));
    } else {
      var n := |later| - 1;
      assert later[n] in later && forall a <- later[..n] :: a in later;
      ExtractionBlocksWrites(w, d, again, later[..n], now);
      StepKeeps(Run(w1, later[..n]), later[n]);
      WithdrawnStays(Run(w1, later[..n]), d, later[n]);
    }
    WithdrawnRefusesWrites(Run(w1, later), d, now);
  }

  /** The document is written, under this external id. */
  predicate SettledAs(s: State, d: DocumentId, x: ExternalId) {
    && d in s.documents && s.documents[d].status == Written && s.documents[d].approvedHash.Some?
    && KeyOf(s, d) in s.writes && s.writes[KeyOf(s, d)].status == Succeeded
    && s.writes[KeyOf(s, d)].externalId == Some(x)
  }

  lemma ReplayIsNoOp(w: World, d: DocumentId, x: ExternalId, now: int)
    requires SettledAs(w.s, d, x)
    ensures WriteApprovedRecord(w.s, w.dest, d, now) == (w.s, w.dest, Ok(WriteOutcome(Some(x), false)))
  {
  }

  lemma SettledStaysPut(w: World, d: DocumentId, x: ExternalId, a: Action)
    requires Inv(w) && SettledAs(w.s, d, x) && !Reextracts(a, d)
    ensures SettledAs(Apply(w, a).s, d, x)
  {
    hide Inv, ExtractDocument, Intake, ApproveExtraction;
    if a.Outage? || a.d != d {
      TouchesOne(w, a, d);
    } else if a.Write? {
      ReplayIsNoOp(w, d, x, a.now);
    } else if a.Approve? {
      ApproveTouchesOne(w.s, d, a.extractionId, a.env, a.ttl);
    }
  }

  lemma {:induction false} SettledReplays(w: World, d: DocumentId, x: ExternalId, later: seq<Action>, now: int)
    requires Inv(w) && SettledAs(w.s, d, x)
    requires forall a <- later :: !Reextracts(a, d)
    ensures var after := Run(w, later);
            && Inv(after) && SettledAs(after.s, d, x)
            && WriteApprovedRecord(after.s, after.dest, d, now)
               == (after.s, after.dest, Ok(WriteOutcome(Some(x), false)))
  {
    hide Inv, WriteApprovedRecord;
    if later != [] {
      var n := |later| - 1;
      assert later[n] in later && forall a <- later[..n] :: a in later;
      SettledReplays(w, d, x, later[..n], now);
      StepKeeps(Run(w, later[..n]), later[n]);
      SettledStaysPut(Run(w, later[..n]), d, x, later[n]);
    }
    ReplayIsNoOp(Run(w, later), d, x, now);
  }

  lemma WrittenIsSettled(w: World, d: DocumentId) returns (x: ExternalId)
    requires Inv(w) && d in w.s.documents && w.s.documents[d].status == Written
    ensures SettledAs(w.s, d, x)
    ensures KeyOf(w.s, d) in w.dest.records && w.dest.records[KeyOf(w.s, d)].externalId == x
  {
    hide RowsFit, RecordsApproved, InvoicesDistinct, AllPaid, Consistent;
    assert DocumentBound(w.s, d);
    x := w.dest.records[KeyOf(w.s, d)].externalId;
  }

  /** Once a document is written, under the external id of its record, it stays written under that id through any
      calls but a new extraction of it, and every write of it, at any time and after any expiry, returns the id,
      changes nothing and does not call the destination. */
  lemma ReplaysAreNoOps(w: World, d: DocumentId, later: seq<Action>, now: int) returns (x: ExternalId)
    requires Inv(w) && d in w.s.documents && w.s.documents[d].status == Written
    requires forall a <- later :: !Reextracts(a, d)
    ensures SettledAs(w.s, d, x)
    ensures KeyOf(w.s, d) in w.dest.records && w.dest.records[KeyOf(w.s, d)].externalId == x
    ensures var after := Run(w, later);
            && Inv(after) && SettledAs(after.s, d, x)
            && WriteApprovedRecord(after.s, after.dest, d, now)
               == (after.s, after.dest, Ok(WriteOutcome(Some(x), false)))
  {
    hide Inv, WriteApprovedRecord, SettledAs;
    x := WrittenIsSettled(w, d);
    SettledReplays(w, d, x, later, now);
  }
}
