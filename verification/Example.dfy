/**
 A document that goes all the way: the runs that the other modules speak of do reach approvals and records.
 */
module Example {
  import opened Wrappers
  import opened Text
  import opened Evidence
  import opened Schema
  import opened Keys
  import opened Validation
  import opened Crm
  import opened Protocol
  import opened Runs
  import opened Answers

  const SOURCE := "a"
  const ID := DocumentId("")

  /** One line of one at one, every quote the whole source. */
  const DRAFT := Draft(
    Evidenced("a", SOURCE), Evidenced("a", SOURCE), Evidenced("GBP", SOURCE),
    Evidenced(EARLIEST_PLAUSIBLE_DATE, SOURCE),
    [LineItem("", 1.0, 1.0, 1.0)], Evidenced(1.0, SOURCE), Evidenced(0.0, SOURCE), Evidenced(1.0, SOURCE), "")

  const HASH := Sha256(DRAFT)
  const KEY := IdempotencyKey(ID, HASH)

  lemma SourceQuotesItself()
    ensures Quoted(SOURCE, SOURCE) && Strip(SOURCE) == SOURCE
  {
    StripIs(SOURCE, 0, 1);
    NormalOfTight(SOURCE, 0, 1);
    assert SOURCE[0..1] == SOURCE;
    assert Shows(SOURCE, 0, 1, SOURCE);
  }

  lemma DraftIsSound()
    ensures Sound(DRAFT, SOURCE)
  {
    SourceQuotesItself();
    NumberedIsSound("a");
  }

  /** The draft with another number. */
  function Numbered(number: string): Draft {
    DRAFT.(invoiceNumber := Evidenced(number, SOURCE))
  }

  lemma NumberedIsSound(number: string)
    requires Strip(number) != ""
    ensures Sound(Numbered(number), SOURCE)
  {
    hide Quoted, Strip;
    SourceQuotesItself();
    var draft := Numbered(number);
    assert SumOfAmounts(draft.lineItems[..0]) == 0.0;
    forall f | f in EvidencedFields(draft) ensures Quoted(SOURCE, f.1) {
      assert f.1 == SOURCE;
    }
  }

  /** The one document of the store. */
  predicate OnlyExample(s: State, status: Status) {
    s.documents.Keys == {ID} && s.documents[ID].source == SOURCE && s.documents[ID].status == status
  }

  function ExampleRow(id: nat): Extraction {
    Extraction(id, ID, Ok(DRAFT), VerifyDraft(DRAFT, SOURCE))
  }

  /** The document with its one extraction, and not written. */
  predicate IsExample(s: State, status: Status) {
    OnlyExample(s, status) && s.extractions == [ExampleRow(0)] && s.writes == map[]
  }

  lemma NothingKnown(s: State)
    requires s.documents.Keys == {ID}
    ensures CommittedNumbers(s, ID) == {}
  {
  }

  lemma Accepted(s: State, id: nat, env: Env)
    requires s.documents.Keys == {ID} && s.documents[ID].source == SOURCE
    requires env.today >= EARLIEST_PLAUSIBLE_DATE && !env.ambiguousDate
    ensures IsAccepted(Validate(InputFor(s, ID, ExampleRow(id), env)))
  {
    hide Sound, Validate, IsAccepted;
    DraftIsSound();
    NothingKnown(s);
    AcceptedIsSound(InputFor(s, ID, ExampleRow(id), env));
  }

  lemma OneExtraction(s: State)
    requires s.extractions == [ExampleRow(0)]
    ensures LatestExtraction(s.extractions, ID) == Some(ExampleRow(0))
  {
  }

  lemma ResultsAreVerdicts(s: State, e: Extraction, env: Env)
    requires ID in s.documents && e.draft.Ok?
    ensures ValidateExtraction(s, ID, e, env).1 == Validate(InputFor(s, ID, e, env))
  {
  }

  /** An extraction that proposes the draft, whatever has happened to the document before. */
  lemma TakenIn(s: State, env: Env)
    requires s.documents.Keys == {ID} && s.documents[ID].source == SOURCE
    requires env.today >= EARLIEST_PLAUSIBLE_DATE && !env.ambiguousDate
    ensures var s' := Intake(s, ID, Proposes(DRAFT), env);
            && OnlyExample(s', Validated) && s'.documents[ID].approvedHash.None?
            && s'.extractions == s.extractions + [ExampleRow(|s.extractions|)]
            && s'.approvals == s.approvals && s'.writes == s.writes
  {
    hide Validate, IsAccepted, VerifyDraft, EvidenceEvents, ValidateExtraction;
    ExtractEffect(s, ID, Proposes(DRAFT));
    var (s1, e) := ExtractDocument(s, ID, Proposes(DRAFT));
    assert e == ExampleRow(|s.extractions|);
    Accepted(s1, e.id, env);
    ValidateEffect(s1, ID, e, env);
    ResultsAreVerdicts(s1, e, env);
  }

  /** The approval of such an extraction. */
  lemma Granted(s: State, id: nat, env: Env, ttl: int)
    requires OnlyExample(s, Validated) && LatestExtraction(s.extractions, ID) == Some(ExampleRow(id))
    requires env.today >= EARLIEST_PLAUSIBLE_DATE && !env.ambiguousDate
    ensures var s' := ApproveExtraction(s, ID, id, env, ttl).0;
            && OnlyExample(s', Approved) && s'.documents[ID].approvedHash == Some(HASH)
            && s'.extractions == s.extractions && s'.writes == s.writes
            && s'.approvals == s.approvals + [ApprovalRow(|s.approvals|, ID, id, HASH, env.now + ttl)]
  {
    hide Validate, IsAccepted, VerifyDraft, ValidateExtraction;
    Accepted(s, id, env);
    ResultsAreVerdicts(s, ExampleRow(id), env);
    GrantEffect(s, ID, id, env, ttl);
  }

  lemma IsCleared(s: State, now: int)
    requires IsExample(s, Approved) && s.documents[ID].approvedHash == Some(HASH)
    requires |s.approvals| == 1 && s.approvals[0].documentId == ID && s.approvals[0].payloadHash == HASH
    requires now < s.approvals[0].expiresAt
    ensures Cleared(s, ID, now) && KeyOf(s, ID) == KEY
  {
    OneExtraction(s);
  }

  function Calls(env: Env, ttl: int): seq<Action> {
    [Create(ID, SOURCE), ExtractAndValidate(ID, Proposes(DRAFT), env), Approve(ID, 0, env, ttl)]
  }

  lemma RunOn(w: World, actions: seq<Action>, a: Action)
    ensures Run(w, actions + [a]) == Apply(Run(w, actions), a)
  {
    assert (actions + [a])[..|actions|] == actions;
  }

  lemma RunOfThree(w: World, a: Action, b: Action, c: Action)
    ensures Run(w, [a, b, c]) == Apply(Apply(Apply(w, a), b), c)
  {
    hide Apply;
    RunOn(w, [], a);
    RunOn(w, [a], b);
    RunOn(w, [a, b], c);
    assert [] + [a] == [a] && [a] + [b] == [a, b] && [a, b] + [c] == [a, b, c];
  }

  /** From the empty store: taken in, validated, approved, and due to be written. */
  lemma ApprovalIsReached(inMemory: bool, env: Env, ttl: int, now: int)
    requires env.today >= EARLIEST_PLAUSIBLE_DATE && !env.ambiguousDate && now < env.now + ttl
    ensures var w := Run(Start(inMemory), Calls(env, ttl));
            && w.dest == Start(inMemory).dest && IsExample(w.s, Approved)
            && Cleared(w.s, ID, now) && KeyOf(w.s, ID) == KEY && w.s.documents[ID].approvedHash == Some(HASH)
  {
    hide Intake, ApproveExtraction, Cleared;
    RunOfThree(Start(inMemory), Calls(env, ttl)[0], Calls(env, ttl)[1], Calls(env, ttl)[2]);
    var w1 := Apply(Start(inMemory), Create(ID, SOURCE));
    TakenIn(w1.s, env);
    var w2 := Apply(w1, ExtractAndValidate(ID, Proposes(DRAFT), env));
    OneExtraction(w2.s);
    Granted(w2.s, 0, env, ttl);
    IsCleared(Apply(w2, Approve(ID, 0, env, ttl)).s, now);
  }

  /** And written: in either destination the record is there, with the draft as proposed. */
  lemma RecordIsReached(inMemory: bool, env: Env, ttl: int, now: int)
    requires env.today >= EARLIEST_PLAUSIBLE_DATE && !env.ambiguousDate && now < env.now + ttl
    ensures var w := Apply(Run(Start(inMemory), Calls(env, ttl)), Write(ID, now, true));
            && KEY in w.dest.records && w.dest.records[KEY].payload == DRAFT
            && ID in w.s.documents && w.s.documents[ID].status == Written
  {
    hide Run, WriteApprovedRecord, CreateRecord;
    ApprovalIsReached(inMemory, env, ttl, now);
    var w := Run(Start(inMemory), Calls(env, ttl));
    CreatesFirst(w.dest);
    OneExtraction(w.s);
    WriteByCases(w.s, w.dest, ID, now);
    ClaimAndCallEffect(w.s, w.dest, ID, KEY, w.s.extractions[0]);
  }

  lemma CreatesFirst(dest: Destination)
    requires dest.records == map[] && (dest.Mock? ==> dest.failures == [])
    ensures var (after, reply) := CreateRecord(dest, KEY, DRAFT);
            reply.Ok? && KEY in after.records && after.records[KEY].payload == DRAFT
  {
  }

  // ---------- Two invoices of one supplier ----------

  const OTHER_ID := DocumentId("b")

  /** The calls for a second document, with another number. */
  function OtherCalls(env: Env, ttl: int): seq<Action> {
    [Create(OTHER_ID, SOURCE),
     ExtractAndValidate(OTHER_ID, Proposes(Numbered("b")), env),
     Approve(OTHER_ID, 1, env, ttl)]
  }

  lemma OtherIsNew(s: State)
    requires DocumentsBound(s) && RowsFit(s) && s.documents.Keys == {ID, OTHER_ID}
    requires s.documents[ID].approvedHash == Some(HASH)
    ensures RuleKey(Numbered("b")) !in CommittedNumbers(s, OTHER_ID)
  {
    hide DocumentsBound, RowsFit, CommittedNumbers, RuleKey;
    KnownExactly(s, OTHER_ID, RuleKey(Numbered("b")));
    OtherIsAnother();
  }

  lemma OtherIsAnother()
    ensures RuleKey(Numbered("b")) != RuleKey(DRAFT)
  {
    hide NormalizeSupplier, Strip;
    SourceQuotesItself();
    StripIs("b", 0, 1);
    assert "b"[0..1] == "b";
  }

  /** Two different invoices of one supplier can both be approved: a run from the empty store in which they are. */
  lemma TwoInvoicesAreApproved(inMemory: bool, env: Env, ttl: int) returns (actions: seq<Action>)
    requires env.today >= EARLIEST_PLAUSIBLE_DATE && !env.ambiguousDate && ttl > 0
    ensures var s := Run(Start(inMemory), actions).s;
            && s.documents.Keys == {ID, OTHER_ID}
            && s.documents[ID].status == Approved && s.documents[ID].approvedHash == Some(HASH)
            && s.documents[OTHER_ID].status == Approved
            && s.documents[OTHER_ID].approvedHash == Some(Sha256(Numbered("b")))
  {
    hide Run, Cleared, Inv, Core, Intake, ApproveExtraction, Sound, CommittedNumbers;
    ApprovalIsReached(inMemory, env, ttl, env.now);
    var first, calls := Calls(env, ttl), OtherCalls(env, ttl);
    var w0 := Run(Start(inMemory), first);
    RunOn(Start(inMemory), first, calls[0]);
    RunOn(Start(inMemory), first + [calls[0]], calls[1]);
    RunOn(Start(inMemory), first + [calls[0]] + [calls[1]], calls[2]);
    actions := first + [calls[0]] + [calls[1]] + [calls[2]];
    var w1, w2 := Apply(w0, calls[0]), Apply(Apply(w0, calls[0]), calls[1]);
    Runs.RunKeeps(inMemory, first + [calls[0]]);
    Runs.RunKeeps(inMemory, first + [calls[0]] + [calls[1]]);
    OtherTakenIn(w1, env);
    OtherGranted(w2, env, ttl);
  }

  lemma OtherTakenIn(w: World, env: Env)
    requires Inv(w) && w.s.documents.Keys == {ID, OTHER_ID} && |w.s.extractions| == 1
    requires w.s.documents[ID].status == Approved && w.s.documents[ID].approvedHash == Some(HASH)
    requires w.s.documents[OTHER_ID].source == SOURCE
    requires env.today >= EARLIEST_PLAUSIBLE_DATE && !env.ambiguousDate
    ensures var s' := Intake(w.s, OTHER_ID, Proposes(Numbered("b")), env);
            && s'.documents == w.s.documents[OTHER_ID := Document(SOURCE, Validated, None)]
            && LatestExtraction(s'.extractions, OTHER_ID) ==
               Some(Extraction(1, OTHER_ID, Ok(Numbered("b")), VerifyDraft(Numbered("b"), SOURCE)))
  {
    hide Intake, Sound, CommittedNumbers, VerifyDraft, DocumentsBound, RowsFit;
    OtherIsNew(w.s);
    OtherIsSound();
    IntakeAnswers(w.s, OTHER_ID, Numbered("b"), env);
    IntakeAppends(w.s, OTHER_ID, Numbered("b"), env);
    LatestAppended(w.s.extractions,
                   Extraction(1, OTHER_ID, Ok(Numbered("b")), VerifyDraft(Numbered("b"), SOURCE)), OTHER_ID);
  }

  lemma OtherIsSound()
    ensures Sound(Numbered("b"), SOURCE)
  {
    StripIs("b", 0, 1);
    assert "b"[0..1] == "b";
    NumberedIsSound("b");
  }

  lemma IntakeAppends(s: State, d: DocumentId, draft: Draft, env: Env)
    requires d in s.documents
    ensures Intake(s, d, Proposes(draft), env).extractions ==
            s.extractions + [Extraction(|s.extractions|, d, Ok(draft), VerifyDraft(draft, s.documents[d].source))]
  {
    hide VerifyDraft, ExtractDocument, ValidateExtraction;
    ExtractionAnswers(s, d, Proposes(draft));
    var (s1, e) := ExtractDocument(s, d, Proposes(draft));
    ValidateEffect(s1, d, e, env);
  }

  lemma OtherGranted(w: World, env: Env, ttl: int)
    requires Inv(w) && w.s.documents.Keys == {ID, OTHER_ID}
    requires w.s.documents[ID].status == Approved && w.s.documents[ID].approvedHash == Some(HASH)
    requires w.s.documents[OTHER_ID] == Document(SOURCE, Validated, None)
    requires var e := LatestExtraction(w.s.extractions, OTHER_ID);
             e.Some? && e.value.id == 1 && e.value.draft == Ok(Numbered("b"))
    requires env.today >= EARLIEST_PLAUSIBLE_DATE && !env.ambiguousDate
    ensures ApproveExtraction(w.s, OTHER_ID, 1, env, ttl).0.documents ==
            w.s.documents[OTHER_ID := Document(SOURCE, Approved, Some(Sha256(Numbered("b"))))]
  {
    hide ApproveExtraction, Sound, CommittedNumbers, DocumentsBound, RowsFit;
    OtherIsNew(w.s);
    OtherIsSound();
    GrantedExactlyWhen(w.s, OTHER_ID, 1, env, ttl);
    GrantsAreTold(w.s, OTHER_ID, 1, env, ttl);
  }
}
