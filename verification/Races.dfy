/**
 What other calls can do to a writer between its checks and its destination call, and exactly when they do.
 */
module Races {
  import opened Wrappers
  import opened Schema
  import opened Keys
  import opened Crm
  import opened Protocol
  import opened Writers
  import opened Example
  import Validation
  import R = Runs

  // ---------- A document's approved version under interleaving ----------

  /** The document is approved or written, under this hash. */
  predicate CommittedUnder(s: State, d: DocumentId, hash: PayloadHash) {
    d in s.documents && Committed(s.documents[d]) && s.documents[d].approvedHash == Some(hash)
  }

  predicate Withdraws(m: Move, d: DocumentId) {
    m.Service? && R.Reextracts(m.call, d)
  }

  /** The move approves the document under this hash. */
  predicate Grants(sh: Shared, m: Move, d: DocumentId, hash: PayloadHash) {
    m.Service? && m.call.Approve? && m.call.d == d && d in sh.s.documents &&
    var result := ApproveExtraction(sh.s, d, m.call.extractionId, m.call.env, m.call.ttl).1;
    result.Ok? && result.value.payloadHash == hash
  }

  lemma ApproveStands(s: State, d: DocumentId, extractionId: nat, env: Env, ttl: int, hash: PayloadHash)
    requires d in s.documents
    ensures var (s', result) := ApproveExtraction(s, d, extractionId, env, ttl);
            && d in s'.documents
            && (CommittedUnder(s', d, hash) <==>
                (result.Ok? && result.value.payloadHash == hash) || CommittedUnder(s, d, hash))
            && (s.documents[d].status != Validated ==> s' == s)
  {
    hide ApproveExtraction, ValidateExtraction;
    var (s', result) := ApproveExtraction(s, d, extractionId, env, ttl);
    R.ApproveTouchesOne(s, d, extractionId, env, ttl);
    if result.Ok? {
      R.GrantEffect(s, d, extractionId, env, ttl);
      GrantFindsValidated(s, d, extractionId, env, ttl);
    } else if s' != s {
      R.RefusalIsValidation(s, d, extractionId, env, ttl);
      R.ValidateEffect(s, d, LatestExtraction(s.extractions, d).value, env);
    }
  }

  lemma GrantFindsValidated(s: State, d: DocumentId, extractionId: nat, env: Env, ttl: int)
    requires d in s.documents && ApproveExtraction(s, d, extractionId, env, ttl).1.Ok?
    ensures s.documents[d].status == Validated
  {
  }

  /** The document after a step of any writer: as it was, or written. */
  lemma StepLeavesDocument(sh: Shared, writer: nat, now: int, d: DocumentId)
    requires writer in sh.sessions && d in sh.s.documents
    ensures var after := NextStep(sh, writer, now).s;
            && d in after.documents
            && (after.documents[d] == sh.s.documents[d] ||
                (sh.s.documents[d].status == Approved &&
                 after.documents[d] == sh.s.documents[d].(status := Written)))
  {
    hide CreateRecord;
  }

  lemma ServiceStands(sh: Shared, call: R.Action, d: DocumentId, hash: PayloadHash)
    requires d in sh.s.documents && !call.Write?
    ensures var (m, s') := (Service(call), Apply(sh, Service(call)).s);
            && d in s'.documents
            && (CommittedUnder(s', d, hash) <==>
                Grants(sh, m, d, hash) || (CommittedUnder(sh.s, d, hash) && !Withdraws(m, d)))
  {
    hide ExtractDocument, Intake, ApproveExtraction;
    var w := R.World(sh.s, sh.dest);
    if call.Outage? || call.d != d {
      R.TouchesOne(w, call, d);
    } else if call.Approve? {
      ApproveStands(sh.s, d, call.extractionId, call.env, call.ttl, hash);
    } else if !call.Create? {
      R.IntakeWithdraws(sh.s, d, call.answer, if call.ExtractAndValidate? then call.env else Env(0, 0, false));
    }
  }

  /** One move, exactly: the document is committed under a hash if and only if the move approves it under that hash,
      or it was so before and the move does not extract it. */
  lemma CommittedAfterMove(sh: Shared, m: Move, d: DocumentId, hash: PayloadHash)
    requires d in sh.s.documents
    ensures d in Apply(sh, m).s.documents
    ensures CommittedUnder(Apply(sh, m).s, d, hash) <==>
            Grants(sh, m, d, hash) || (CommittedUnder(sh.s, d, hash) && !Withdraws(m, d))
  {
    hide NextStep, ApproveExtraction;
    match m
    case Service(call) => if !call.Write? { ServiceStands(sh, call, d, hash); }
    case Begin(_, _) =>
    case Advance(writer, now) => if writer in sh.sessions { StepLeavesDocument(sh, writer, now, d); }
    case Abort(_) =>
  }

  /** Since the last extraction of the document in the run, if there is one, it has been approved under this hash; if
      there is none, it was committed under it at first or has been approved under it. */
  ghost predicate StillStands(sh: Shared, moves: seq<Move>, d: DocumentId, hash: PayloadHash) {
    if moves == [] then CommittedUnder(sh.s, d, hash)
    else
      var before, m := moves[..|moves| - 1], moves[|moves| - 1];
      Grants(Run(sh, before), m, d, hash) || (StillStands(sh, before, d, hash) && !Withdraws(m, d))
  }

  /** Over any run, the same: an extraction withdraws the version, and only an approval of the same hash brings it
      back. */
  lemma {:induction false} CommittedExactlyWhileItStands(sh: Shared, moves: seq<Move>, d: DocumentId, hash: PayloadHash)
    requires d in sh.s.documents
    ensures d in Run(sh, moves).s.documents
    ensures CommittedUnder(Run(sh, moves).s, d, hash) <==> StillStands(sh, moves, d, hash)
  {
    if moves != [] {
      hide Apply, Grants, CommittedUnder;
      var before := moves[..|moves| - 1];
      CommittedExactlyWhileItStands(sh, before, d, hash);
      CommittedAfterMove(Run(sh, before), moves[|moves| - 1], d, hash);
    }
  }

  // ---------- A writer and its document ----------

  /** The session works on this document, under this hash. */
  predicate Follows(session: Session, d: DocumentId, hash: PayloadHash) {
    session.d == d &&
    if session.phase.Loaded? then session.phase.doc.approvedHash == Some(hash)
    else session.Key() == IdempotencyKey(d, hash)
  }

  lemma MoveFollows(sh: Shared, m: Move, writer: nat, d: DocumentId, hash: PayloadHash)
    requires writer in sh.sessions && Follows(sh.sessions[writer], d, hash) && writer in Apply(sh, m).sessions
    ensures Follows(Apply(sh, m).sessions[writer], d, hash)
  {
    hide CreateRecord, Settled;
  }

  predicate Restarts(m: Move, writer: nat) { m.Begin? && m.writer == writer }

  lemma {:induction false} RunFollows(
    sh: Shared, moves: seq<Move>, writer: nat, d: DocumentId, hash: PayloadHash)
    requires writer in sh.sessions && Follows(sh.sessions[writer], d, hash)
    requires forall m <- moves :: !Restarts(m, writer)
    ensures writer in Run(sh, moves).sessions ==> Follows(Run(sh, moves).sessions[writer], d, hash)
  {
    if moves != [] {
      var before, m := moves[..|moves| - 1], moves[|moves| - 1];
      assert m in moves && forall x <- before :: x in moves;
      hide Apply, Follows;
      RunFollows(sh, before, writer, d, hash);
      if writer in Apply(Run(sh, before), m).sessions {
        NoNewSession(Run(sh, before), m, writer);
        MoveFollows(Run(sh, before), m, writer, d, hash);
      }
    }
  }

  lemma NoNewSession(sh: Shared, m: Move, writer: nat)
    requires !Restarts(m, writer) && writer in Apply(sh, m).sessions
    ensures writer in sh.sessions
  {
    hide CreateRecord, Settled;
  }

  /** A writer has loaded its document as it stands, under a hash. */
  predicate JustLoaded(sh: Shared, writer: nat, d: DocumentId, hash: PayloadHash) {
    && d in sh.s.documents && writer in sh.sessions
    && sh.sessions[writer] == Session(d, Loaded(sh.s.documents[d]))
    && sh.s.documents[d].approvedHash == Some(hash)
  }

  /** Whatever happens after a writer has loaded its document: it goes on under the hash it loaded, and wherever it has
      come, at its destination call as well, the document is committed under that hash if and only if it still
      stands. */
  lemma {:induction false} CallsMeetStandingVersions(
    sh: Shared, later: seq<Move>, writer: nat, d: DocumentId, hash: PayloadHash)
    requires JustLoaded(sh, writer, d, hash) && forall m <- later :: !Restarts(m, writer)
    requires writer in Run(sh, later).sessions
    ensures var after := Run(sh, later);
            && Follows(after.sessions[writer], d, hash)
            && (CommittedUnder(after.s, d, hash) <==> StillStands(sh, later, d, hash))
  {
    RunFollows(sh, later, writer, d, hash);
    CommittedExactlyWhileItStands(sh, later, d, hash);
  }

  /** The document is as the session took it to be; past the checks, it is committed. */
  predicate InStep(s: State, session: Session) {
    var p := session.phase;
    && session.d in s.documents
    && (p.Loaded? && p.doc.approvedHash.Some? ==> s.documents[session.d].approvedHash == p.doc.approvedHash)
    && (!p.Loaded? ==> s.documents[session.d].approvedHash == Some(session.Key().payloadHash))
    && (p.Matched? || p.Claimed? || p.Answered? ==> Committed(s.documents[session.d]))
  }

  /** Without an extraction of it, a document with a hash keeps the hash and does not leave the committed states. */
  lemma HashStays(sh: Shared, m: Move, d: DocumentId)
    requires Writers.Inv(sh) && d in sh.s.documents && sh.s.documents[d].approvedHash.Some? && !Withdraws(m, d)
    ensures d in Apply(sh, m).s.documents
    ensures Apply(sh, m).s.documents[d].approvedHash == sh.s.documents[d].approvedHash
    ensures Committed(sh.s.documents[d]) ==> Committed(Apply(sh, m).s.documents[d])
  {
    hide NextStep, ApproveExtraction, ExtractDocument, Intake;
    match m
    case Service(call) =>
      if !call.Write? {
        if call.Outage? || call.d != d {
          R.TouchesOne(R.World(sh.s, sh.dest), call, d);
        } else if call.Approve? {
          HashMeansNotValidated(sh, d);
          R.ApproveTouchesOne(sh.s, d, call.extractionId, call.env, call.ttl);
        }
      }
    case Begin(_, _) =>
    case Advance(writer, now) => if writer in sh.sessions { StepLeavesDocument(sh, writer, now, d); }
    case Abort(_) =>
  }

  lemma HashMeansNotValidated(sh: Shared, d: DocumentId)
    requires Writers.Inv(sh) && d in sh.s.documents && sh.s.documents[d].approvedHash.Some?
    ensures sh.s.documents[d].status in {Approved, Written, ExtractionFailed}
    ensures sh.s.documents[d].status == ExtractionFailed ==>
              var e := LatestExtraction(sh.s.extractions, d); e.Some? && e.value.PayloadHash().None?
  {
    assert R.DocumentBound(sh.s, d);
  }

  lemma StepInStep(sh: Shared, writer: nat, now: int)
    requires Writers.Inv(sh) && writer in sh.sessions && InStep(sh.s, sh.sessions[writer])
    requires writer in NextStep(sh, writer, now).sessions
    ensures InStep(sh.s, NextStep(sh, writer, now).sessions[writer])
  {
    hide Writers.Inv, CreateRecord, Settled;
    var session := sh.sessions[writer];
    if sh.s.documents[session.d].approvedHash.Some? {
      HashMeansNotValidated(sh, session.d);
    }
  }

  lemma MoveInStep(sh: Shared, m: Move, writer: nat)
    requires Writers.Inv(sh) && writer in sh.sessions && InStep(sh.s, sh.sessions[writer])
    requires !Withdraws(m, sh.sessions[writer].d) && writer in Apply(sh, m).sessions
    ensures InStep(Apply(sh, m).s, Apply(sh, m).sessions[writer])
  {
    hide Writers.Inv, NextStep;
    var session, d := sh.sessions[writer], sh.sessions[writer].d;
    if m.Advance? && m.writer == writer {
      StepInStep(sh, writer, m.now);
      StepKeepsState(sh, writer, m.now);
    } else {
      if sh.s.documents[d].approvedHash.Some? { HashStays(sh, m, d); }
      OthersKeepSession(sh, m, writer);
    }
  }

  lemma StepKeepsState(sh: Shared, writer: nat, now: int)
    requires writer in sh.sessions && writer in NextStep(sh, writer, now).sessions
    ensures NextStep(sh, writer, now).s == sh.s
  {
    hide CreateRecord, Settled;
  }

  lemma OthersKeepSession(sh: Shared, m: Move, writer: nat)
    requires writer in sh.sessions && writer in Apply(sh, m).sessions && !(m.Advance? && m.writer == writer)
    ensures Apply(sh, m).sessions[writer] == sh.sessions[writer]
    ensures forall d <- sh.s.documents :: d in Apply(sh, m).s.documents
  {
    hide CreateRecord, ApproveExtraction, ExtractDocument, Intake;
    forall d | d in sh.s.documents ensures d in Apply(sh, m).s.documents {
      CommittedAfterMove(sh, m, d, HASH);
    }
  }

  /** Every writer, whatever state it loaded its document in: unless the document is extracted in between, it comes to
      its claim, its call and its commit only while the document is approved or written under its very key. */
  lemma {:induction false} UndisturbedCallsAreApproved(
    sh: Shared, later: seq<Move>, writer: nat, d: DocumentId, hash: PayloadHash)
    requires Writers.Inv(sh) && JustLoaded(sh, writer, d, hash)
    requires forall m <- later :: !Restarts(m, writer) && !Withdraws(m, d)
    ensures var after := Run(sh, later);
            && Writers.Inv(after)
            && (writer in after.sessions ==>
                  && Follows(after.sessions[writer], d, hash) && InStep(after.s, after.sessions[writer])
                  && (after.sessions[writer].phase.Claimed? ==> CommittedUnder(after.s, d, hash)))
  {
    hide Writers.Inv;
    if later != [] {
      var before, m := later[..|later| - 1], later[|later| - 1];
      assert m in later && forall x <- before :: x in later;
      UndisturbedCallsAreApproved(sh, before, writer, d, hash);
      MoveKeeps(Run(sh, before), m);
      hide Apply;
      if writer in Run(sh, later).sessions {
        NoNewSession(Run(sh, before), m, writer);
        MoveFollows(Run(sh, before), m, writer, d, hash);
        MoveInStep(Run(sh, before), m, writer);
      }
    }
  }

  /** A commit after a successful call leaves the document written under the key if and only if it finds it committed
      under the key. */
  lemma CommitWritesExactlyWhenCommitted(sh: Shared, writer: nat, now: int)
    requires writer in sh.sessions && sh.sessions[writer].phase.Answered? && sh.sessions[writer].phase.reply.Ok?
    ensures var session := sh.sessions[writer];
            var s', key := NextStep(sh, writer, now).s, session.Key();
            && key in s'.writes
            && (session.d in s'.documents && s'.documents[session.d].status == Written &&
                s'.documents[session.d].approvedHash == Some(key.payloadHash)
                <==> CommittedUnder(sh.s, session.d, key.payloadHash))
  {
  }

  // ---------- An extraction between the checks and the call ----------

  /** A writer past its checks, a new extraction of its document, and then the rest of the writer. */
  function Interrupted(sh: Shared, d: DocumentId, now: int, writer: nat, draft: Draft): Shared {
    var checked := Steps(Apply(sh, Begin(writer, d)), writer, now, CHECKS);
    Steps(Apply(checked, Service(R.ExtractOnly(d, Proposes(draft)))), writer, now, EFFECTS)
  }

  lemma ExtractMove(sh: Shared, d: DocumentId, draft: Draft)
    requires d in sh.s.documents
    ensures var after := Apply(sh, Service(R.ExtractOnly(d, Proposes(draft))));
            && after == sh.(s := after.s)
            && d in after.s.documents && after.s.documents[d].status == Extracted
            && after.s.documents[d].approvedHash.None? && after.s.writes == sh.s.writes
  {
    R.ExtractEffect(sh.s, d, Proposes(draft));
  }

  lemma CallAfterWithdrawal(s: State, dest: Destination, d: DocumentId, key: IdempotencyKey, e: Extraction)
    requires d in s.documents && s.documents[d].approvedHash.None? && e.draft.Ok?
    requires dest.Mock? && dest.failures == []
    ensures var (s', dest', result) := ClaimAndCall(s, dest, d, key, e);
            && result == Err(Approval(ExtractionSuperseded))
            && s'.documents == s.documents && key in s'.writes && s'.writes[key].status == Succeeded
            && key in dest'.records && (key !in dest.records ==> dest'.records[key].payload == e.draft.value)
  {
  }

  /** The checks are reads: wherever a write is due, an extraction between them and the call leads to a document that
      is extracted and has no hash, while the destination holds the superseded version and its row has succeeded. */
  lemma InterruptedWriterStillCalls(sh: Shared, d: DocumentId, now: int, writer: nat, draft: Draft)
    requires sh.dest.Mock? && sh.dest.failures == [] && sh.sessions == map[]
    requires d in sh.s.documents && R.Cleared(sh.s, d, now)
    ensures var after := Interrupted(sh, d, now, writer, draft);
            var key := R.KeyOf(sh.s, d);
            && d in after.s.documents && after.s.documents[d].status == Extracted
            && after.s.documents[d].approvedHash.None?
            && key in after.s.writes && after.s.writes[key].status == Succeeded
            && key in after.dest.records
            && (key !in sh.dest.records ==> after.dest.records[key].payload == key.payloadHash.draft)
  {
    hide Steps, Apply, ClaimAndCall;
    SoloChecks(sh, writer, d, now);
    var checked := Steps(Apply(sh, Begin(writer, d)), writer, now, CHECKS);
    ExtractMove(checked, d, draft);
    var again := Apply(checked, Service(R.ExtractOnly(d, Proposes(draft))));
    var key, session := R.KeyOf(sh.s, d), checked.sessions[writer];
    SoloFromClaim(again, writer, now, session, key);
    CallAfterWithdrawal(again.s, again.dest, d, key, session.phase.e);
  }

  // ---------- A success between the checks and the claim ----------

  /** A writer past its checks, another that writes in the meantime, an outage, and then the rest of the first. */
  function Overtaken(sh: Shared, d: DocumentId, now: int, slow: nat, fast: nat, error: CrmError): Shared {
    var checked := Steps(Apply(sh, Begin(slow, d)), slow, now, CHECKS);
    var written := Steps(Apply(checked, Begin(fast, d)), fast, now, CHECKS + EFFECTS);
    Steps(Apply(written, Service(R.Outage(error))), slow, now, EFFECTS)
  }

  /** The hypothesis is needed: wherever the first write of an approved document is due and two writers start it, the
      slower one can leave the row failed while the document is written. */
  lemma OvertakenWriterOverwrites(sh: Shared, d: DocumentId, now: int, slow: nat, fast: nat, error: CrmError)
    requires sh.dest.Mock? && sh.dest.failures == [] && sh.sessions == map[] && slow != fast
    requires d in sh.s.documents && sh.s.documents[d].status == Approved
    requires R.Cleared(sh.s, d, now) && R.KeyOf(sh.s, d) !in sh.s.writes
    ensures var after := Overtaken(sh, d, now, slow, fast, error);
            var key := R.KeyOf(sh.s, d);
            && d in after.s.documents && after.s.documents[d].status == Written
            && after.s.documents[d].approvedHash == Some(key.payloadHash)
            && key in after.s.writes && after.s.writes[key].status == Failed
            && after.s.writes[key].externalId.Some?
  {
    hide Steps, Apply;
    var key, e := R.KeyOf(sh.s, d), LatestExtraction(sh.s.extractions, d).value;
    SoloChecks(sh, slow, d, now);
    var checked := Steps(Apply(sh, Begin(slow, d)), slow, now, CHECKS);
    SoloWriterIsAtomic(checked, fast, d, now);
    var written := Steps(Apply(checked, Begin(fast, d)), fast, now, CHECKS + EFFECTS);
    FirstWriteSucceeds(sh, d, now);
    var down := Apply(written, Service(R.Outage(error)));
    OutageMove(written, error);
    FailOnFound(down, slow, now, key, checked.sessions[slow], error);
  }

  lemma OutageMove(sh: Shared, error: CrmError)
    requires sh.dest.Mock?
    ensures Apply(sh, Service(R.Outage(error))) == sh.(dest := sh.dest.(failures := sh.dest.failures + [error]))
  {
  }

  lemma FirstWriteSucceeds(sh: Shared, d: DocumentId, now: int)
    requires sh.dest.Mock? && sh.dest.failures == []
    requires d in sh.s.documents && sh.s.documents[d].status == Approved && R.Cleared(sh.s, d, now)
    ensures var (s', dest', result) := WriteApprovedRecord(sh.s, sh.dest, d, now);
            var key := R.KeyOf(sh.s, d);
            && dest'.Mock? && dest'.failures == []
            && s'.documents == sh.s.documents[d := sh.s.documents[d].(status := Written)]
            && key in s'.writes && s'.writes[key].status == Succeeded && s'.writes[key].externalId.Some?
  {
    hide ClaimAndCall, WriteApprovedRecord;
    R.WriteByCases(sh.s, sh.dest, d, now);
    CallSucceeds(sh.s, sh.dest, d, R.KeyOf(sh.s, d), LatestExtraction(sh.s.extractions, d).value);
  }

  lemma CallSucceeds(s: State, dest: Destination, d: DocumentId, key: IdempotencyKey, e: Extraction)
    requires d in s.documents && s.documents[d].status == Approved && e.draft.Ok?
    requires s.documents[d].approvedHash == Some(key.payloadHash) && dest.Mock? && dest.failures == []
    ensures var (s', dest', result) := ClaimAndCall(s, dest, d, key, e);
            && dest'.Mock? && dest'.failures == []
            && s'.documents == s.documents[d := s.documents[d].(status := Written)]
            && key in s'.writes && s'.writes[key].status == Succeeded && s'.writes[key].externalId.Some?
  {
  }

  /** The last two steps of a writer. */
  const CALL_AND_COMMIT: nat := 2

  /** A writer that has loaded a succeeded row, and whose own call then fails. */
  lemma FailOnLoaded(sh: Shared, writer: nat, now: int, key: IdempotencyKey, session: Session, error: CrmError)
    requires writer in sh.sessions && sh.sessions[writer] == session && session.phase.Claimed?
    requires session.Key() == key && session.phase.e.draft.Ok? && !session.phase.inserted
    requires session.d in sh.s.documents && key in sh.s.writes
    requires session.phase.loaded == sh.s.writes[key] && sh.s.writes[key].status == Succeeded
    requires sh.dest.Mock? && sh.dest.failures == [error]
    ensures var after := Steps(sh, writer, now, CALL_AND_COMMIT);
            && after.s.documents == sh.s.documents && after.sessions == sh.sessions - {writer}
            && key in after.s.writes && after.s.writes[key].status == Failed
            && after.s.writes[key].externalId == sh.s.writes[key].externalId
            && after.dest.Mock? && after.dest.failures == []
  {
    hide Apply;
    var sh1 := Apply(sh, Advance(writer, now));
    StepsCompose(sh, writer, now, 1);
    StepsCompose(sh1, writer, now, 0);
    CallStep(sh, writer, now, session, key);
    CommitStep(sh1, writer, now, sh1.sessions[writer], key);
  }

  /** A writer that finds a succeeded row at its claim, and whose own call then fails. */
  lemma FailOnFound(sh: Shared, writer: nat, now: int, key: IdempotencyKey, session: Session, error: CrmError)
    requires writer in sh.sessions && sh.sessions[writer] == session && session.phase.Matched?
    requires session.phase.seen.None? && session.Key() == key && session.d in sh.s.documents
    requires session.phase.e.draft.Ok?
    requires sh.dest.Mock? && sh.dest.failures == [error]
    requires key in sh.s.writes && sh.s.writes[key].status == Succeeded && !Blocked(sh, writer, key)
    ensures var after := Steps(sh, writer, now, EFFECTS);
            && after.s.documents == sh.s.documents
            && key in after.s.writes && after.s.writes[key].status == Failed
            && after.s.writes[key].externalId == sh.s.writes[key].externalId
  {
    hide Apply, Blocked;
    StepsCompose(sh, writer, now, CALL_AND_COMMIT);
    ClaimStep(sh, writer, now, session, key);
    var sh1 := Apply(sh, Advance(writer, now));
    FailOnLoaded(sh1, writer, now, key, sh1.sessions[writer], error);
  }

  // ---------- A failure between the claim and the commit ----------

  /** A writer that has loaded a succeeded row, and commits a success after another has made the row failed. */
  lemma SucceedOverFailed(sh: Shared, writer: nat, now: int, key: IdempotencyKey, session: Session)
    requires writer in sh.sessions && sh.sessions[writer] == session && session.phase.Claimed?
    requires session.Key() == key && session.phase.e.draft.Ok? && !session.phase.inserted
    requires session.phase.loaded.status == Succeeded
    requires key in sh.s.writes && sh.s.writes[key].status == Failed
    requires CommittedUnder(sh.s, session.d, key.payloadHash) && sh.dest.Mock? && sh.dest.failures == []
    ensures var s' := Steps(sh, writer, now, CALL_AND_COMMIT).s;
            && s'.documents == sh.s.documents[session.d := sh.s.documents[session.d].(status := Written)]
            && key in s'.writes && s'.writes[key].status == Failed
  {
    hide Apply;
    var sh1 := Apply(sh, Advance(writer, now));
    StepsCompose(sh, writer, now, 1);
    StepsCompose(sh1, writer, now, 0);
    CallStep(sh, writer, now, session, key);
    CommitStep(sh1, writer, now, sh1.sessions[writer], key);
  }

  /** Two writers past their checks, a third that writes the document, and then the claims of the two. */
  function BothClaim(sh: Shared, d: DocumentId, now: int): Shared {
    var c0 := Steps(Apply(sh, Begin(0, d)), 0, now, CHECKS);
    var c1 := Steps(Apply(c0, Begin(1, d)), 1, now, CHECKS);
    var written := Steps(Apply(c1, Begin(2, d)), 2, now, CHECKS + EFFECTS);
    Apply(Apply(written, Advance(0, now)), Advance(1, now))
  }

  /** Both have loaded the row as succeeded. */
  lemma BothLoadSuccess(sh: Shared, d: DocumentId, now: int) returns (session: Session)
    requires sh.dest.Mock? && sh.dest.failures == [] && sh.sessions == map[]
    requires d in sh.s.documents && sh.s.documents[d].status == Approved
    requires R.Cleared(sh.s, d, now) && R.KeyOf(sh.s, d) !in sh.s.writes
    ensures var after := BothClaim(sh, d, now);
            var (s', dest', _) := WriteApprovedRecord(sh.s, sh.dest, d, now);
            var key := R.KeyOf(sh.s, d);
            && after.s == s' && after.dest == dest' && after.sessions == map[0 := session, 1 := session]
            && session.phase.Claimed? && session.d == d && session.Key() == key && session.phase.e.draft.Ok?
            && !session.phase.inserted && key in s'.writes && session.phase.loaded == s'.writes[key]
            && s'.writes[key].status == Succeeded
  {
    hide Steps, Apply, WriteApprovedRecord;
    var key := R.KeyOf(sh.s, d);
    SoloChecks(sh, 0, d, now);
    var c0 := Steps(Apply(sh, Begin(0, d)), 0, now, CHECKS);
    SoloChecks(c0, 1, d, now);
    var c1 := Steps(Apply(c0, Begin(1, d)), 1, now, CHECKS);
    SoloWriterIsAtomic(c1, 2, d, now);
    var written := Steps(Apply(c1, Begin(2, d)), 2, now, CHECKS + EFFECTS);
    FirstWriteSucceeds(sh, d, now);
    ClaimStep(written, 0, now, c1.sessions[0], key);
    var k0 := Apply(written, Advance(0, now));
    ClaimStep(k0, 1, now, c1.sessions[1], key);
    session := k0.sessions[0];
  }

  /** A new extraction with the same draft, and its approval, an outage, and the rest of the two. */
  function Outdone(sh: Shared, env: Env, ttl: int, now: int, error: CrmError): Shared {
    var extracted := Apply(BothClaim(sh, ID, now), Service(R.ExtractAndValidate(ID, Proposes(DRAFT), env)));
    var approved := Apply(extracted, Service(R.Approve(ID, 1, env, ttl)));
    var failed := Steps(Apply(approved, Service(R.Outage(error))), 0, now, CALL_AND_COMMIT);
    Steps(failed, 1, now, CALL_AND_COMMIT)
  }

  /** The example document is taken in and approved once more. */
  lemma ApprovedAgain(sh: Shared, env: Env, ttl: int)
    requires OnlyExample(sh.s, Written) && sh.s.extractions == [ExampleRow(0)]
    requires env.today >= Validation.EARLIEST_PLAUSIBLE_DATE && !env.ambiguousDate
    ensures var extracted := Apply(sh, Service(R.ExtractAndValidate(ID, Proposes(DRAFT), env)));
            var after := Apply(extracted, Service(R.Approve(ID, 1, env, ttl)));
            && after == sh.(s := after.s) && after.s.writes == sh.s.writes
            && OnlyExample(after.s, Approved) && CommittedUnder(after.s, ID, HASH)
  {
    hide Intake, ApproveExtraction;
    TakenIn(sh.s, env);
    var s1 := Intake(sh.s, ID, Proposes(DRAFT), env);
    R.LatestAppended(sh.s.extractions, ExampleRow(1), ID);
    Granted(s1, 1, env, ttl);
  }

  /** Written with a failed row, by the other of the two commits: the failed one came while the document was approved
      again, and the successful one left the row as it was. */
  lemma OutdoneWriterLeavesFailure(sh: Shared, env: Env, ttl: int, now: int, error: CrmError)
    requires sh.dest.Mock? && sh.dest.failures == [] && sh.sessions == map[]
    requires IsExample(sh.s, Approved) && R.Cleared(sh.s, ID, now) && R.KeyOf(sh.s, ID) == KEY
    requires env.today >= Validation.EARLIEST_PLAUSIBLE_DATE && !env.ambiguousDate
    ensures var s' := Outdone(sh, env, ttl, now, error).s;
            && OnlyExample(s', Written) && s'.documents[ID].approvedHash == Some(HASH)
            && KEY in s'.writes && s'.writes[KEY].status == Failed
  {
    hide Steps, Apply, BothClaim, WriteApprovedRecord, R.Cleared;
    var session := BothLoadSuccess(sh, ID, now);
    var claimed := BothClaim(sh, ID, now);
    FirstWriteSucceeds(sh, ID, now);
    R.WriteLeavesRows(sh.s, sh.dest, ID, now);
    ApprovedAgain(claimed, env, ttl);
    var extracted := Apply(claimed, Service(R.ExtractAndValidate(ID, Proposes(DRAFT), env)));
    var approved := Apply(extracted, Service(R.Approve(ID, 1, env, ttl)));
    OutageMove(approved, error);
    var down := Apply(approved, Service(R.Outage(error)));
    FailOnLoaded(down, 0, now, KEY, session, error);
    SucceedOverFailed(Steps(down, 0, now, CALL_AND_COMMIT), 1, now, KEY, session);
  }

  // ---------- An approval while the provider is being asked ----------

  /** An extraction and its validation that loaded the document before other calls changed it, and end now: the status
      is set, and the hash is written back only if clearing it changes what was loaded. */
  function IntakeOfLoaded(s: State, d: DocumentId, loaded: Document, draft: Draft, env: Env): State
    requires d in s.documents
  {
    var s' := Intake(s, d, Proposes(draft), env);
    if d !in s'.documents then s'
    else
      var hash := Writers.Column(s.documents[d].approvedHash, loaded.approvedHash, None);
      s'.(documents := s'.documents[d := s'.documents[d].(approvedHash := hash)])
  }

  /** Such an extraction withdraws the approval if and only if there is none, or the one there had been loaded. */
  lemma WithdrawsWhatItLoaded(s: State, d: DocumentId, loaded: Document, draft: Draft, env: Env)
    requires d in s.documents
    ensures var s' := IntakeOfLoaded(s, d, loaded, draft, env);
            && d in s'.documents && !Committed(s'.documents[d])
            && (s'.documents[d].approvedHash.None? <==>
                s.documents[d].approvedHash.None? || loaded.approvedHash.Some?)
            && (s'.documents[d].approvedHash.None? ==> s' == Intake(s, d, Proposes(draft), env))
  {
    hide Intake;
    R.IntakeWithdraws(s, d, Proposes(draft), env);
    IntakeClears(s, d, draft, env);
  }

  lemma IntakeClears(s: State, d: DocumentId, draft: Draft, env: Env)
    requires d in s.documents
    ensures var s' := Intake(s, d, Proposes(draft), env);
            d in s'.documents && s'.documents[d].approvedHash.None? && !Committed(s'.documents[d])
  {
    hide ExtractDocument, ValidateExtraction;
    R.ExtractEffect(s, d, Proposes(draft));
    var (s1, e) := ExtractDocument(s, d, Proposes(draft));
    ProposalIsOk(s, d, draft);
    R.ValidateEffect(s1, d, e, env);
  }

  lemma ProposalIsOk(s: State, d: DocumentId, draft: Draft)
    requires d in s.documents
    ensures ExtractDocument(s, d, Proposes(draft)).1.draft == Ok(draft)
  {
  }

  /** The example document, approved while an extraction of it asks the provider, which proposes the same draft again:
      it is validated with a hash, a write of it reaches the destination, and the zero-row guard fires. */
  lemma ApprovedWhileExtracting(w: R.World, env: Env, now: int)
    requires w.dest.Mock? && w.dest.failures == []
    requires IsExample(w.s, Approved) && R.Cleared(w.s, ID, now) && R.KeyOf(w.s, ID) == KEY
    requires env.today >= Validation.EARLIEST_PLAUSIBLE_DATE && !env.ambiguousDate
    ensures var loaded := w.s.documents[ID].(status := Validated, approvedHash := None);
            var s1 := IntakeOfLoaded(w.s, ID, loaded, DRAFT, env);
            && OnlyExample(s1, Validated) && s1.documents[ID].approvedHash == Some(HASH)
            && var (s2, dest, result) := WriteApprovedRecord(s1, w.dest, ID, now);
               && result == Err(Approval(ExtractionSuperseded)) && s2.documents == s1.documents
               && KEY in dest.records && KEY in s2.writes && s2.writes[KEY].status == Succeeded
  {
    hide Intake, WriteApprovedRecord, ClaimAndCall;
    TakenIn(w.s, env);
    var s1 := IntakeOfLoaded(w.s, ID, w.s.documents[ID].(status := Validated, approvedHash := None), DRAFT, env);
    R.LatestAppended(w.s.extractions, ExampleRow(1), ID);
    assert R.Cleared(s1, ID, now) && R.KeyOf(s1, ID) == KEY;
    R.WriteByCases(s1, w.dest, ID, now);
    CallWhileValidated(s1, w.dest, ID, KEY, ExampleRow(1));
  }

  lemma CallWhileValidated(s: State, dest: Destination, d: DocumentId, key: IdempotencyKey, e: Extraction)
    requires d in s.documents && s.documents[d].status == Validated && e.draft.Ok?
    requires dest.Mock? && dest.failures == []
    ensures var (s', dest', result) := ClaimAndCall(s, dest, d, key, e);
            && result == Err(Approval(ExtractionSuperseded)) && s'.documents == s.documents
            && key in dest'.records && key in s'.writes && s'.writes[key].status == Succeeded
  {
  }

  // ---------- All of these, from the empty store ----------

  function Advances(writer: nat, now: int, n: nat): seq<Move> {
    if n == 0 then [] else Advances(writer, now, n - 1) + [Advance(writer, now)]
  }

  lemma RunOn(sh: Shared, moves: seq<Move>, m: Move)
    ensures Run(sh, moves + [m]) == Apply(Run(sh, moves), m)
  {
    assert (moves + [m])[..|moves|] == moves;
  }

  lemma {:induction false} StepsAreMoves(sh: Shared, moves: seq<Move>, writer: nat, now: int, n: nat)
    ensures Run(sh, moves + Advances(writer, now, n)) == Steps(Run(sh, moves), writer, now, n)
  {
    hide Apply;
    if n == 0 {
      assert moves + [] == moves;
    } else {
      StepsAreMoves(sh, moves, writer, now, n - 1);
      RunOn(sh, moves + Advances(writer, now, n - 1), Advance(writer, now));
      assert moves + Advances(writer, now, n) ==
             moves + Advances(writer, now, n - 1) + [Advance(writer, now)];
    }
  }

  /** The moves that lead to the example document, approved and due to be written. */
  function Opening(env: Env, ttl: int): seq<Move> {
    [Service(Calls(env, ttl)[0]), Service(Calls(env, ttl)[1]), Service(Calls(env, ttl)[2])]
  }

  lemma OpeningReaches(env: Env, ttl: int)
    ensures var sh := Run(Start(), Opening(env, ttl));
            sh == Start().(s := R.Run(R.Start(true), Calls(env, ttl)).s,
                           dest := R.Run(R.Start(true), Calls(env, ttl)).dest)
  {
    var a, b, c := Calls(env, ttl)[0], Calls(env, ttl)[1], Calls(env, ttl)[2];
    RunOfThree(R.Start(true), a, b, c);
    hide R.Apply;
    RunOn(Start(), [], Service(a));
    RunOn(Start(), [Service(a)], Service(b));
    RunOn(Start(), [Service(a), Service(b)], Service(c));
    assert [] + [Service(a)] == [Service(a)] && [Service(a)] + [Service(b)] == [Service(a), Service(b)];
    assert [Service(a), Service(b)] + [Service(c)] == Opening(env, ttl);
  }

  /** A run from the empty store after which the destination holds a version that the document has left behind. */
  lemma InterruptedFromStart(env: Env, ttl: int, now: int, draft: Draft) returns (moves: seq<Move>)
    requires env.today >= Validation.EARLIEST_PLAUSIBLE_DATE && !env.ambiguousDate && now < env.now + ttl
    ensures var sh := Run(Start(), moves);
            && ID in sh.s.documents && sh.s.documents[ID].status == Extracted && sh.s.documents[ID].approvedHash.None?
            && KEY in sh.s.writes && sh.s.writes[KEY].status == Succeeded
            && KEY in sh.dest.records && sh.dest.records[KEY].payload == DRAFT
  {
    hide Run, Steps, Apply, R.Run, R.Cleared;
    var opening := Opening(env, ttl);
    OpeningReaches(env, ttl);
    ApprovalIsReached(true, env, ttl, now);
    var sh := Run(Start(), opening);
    InterruptedWriterStillCalls(sh, ID, now, 0, draft);
    var again := Service(R.ExtractOnly(ID, Proposes(draft)));
    RunOn(Start(), opening, Begin(0, ID));
    var checks := opening + [Begin(0, ID)] + Advances(0, now, CHECKS);
    StepsAreMoves(Start(), opening + [Begin(0, ID)], 0, now, CHECKS);
    RunOn(Start(), checks, again);
    moves := checks + [again] + Advances(0, now, EFFECTS);
    StepsAreMoves(Start(), checks + [again], 0, now, EFFECTS);
  }

  /** A run from the empty store after which a document is written and its row says failed. */
  lemma OvertakenFromStart(env: Env, ttl: int, now: int, error: CrmError) returns (moves: seq<Move>)
    requires env.today >= Validation.EARLIEST_PLAUSIBLE_DATE && !env.ambiguousDate && now < env.now + ttl
    ensures var sh := Run(Start(), moves);
            && ID in sh.s.documents && sh.s.documents[ID].status == Written
            && sh.s.documents[ID].approvedHash == Some(HASH)
            && KEY in sh.s.writes && sh.s.writes[KEY].status == Failed
  {
    hide Run, Steps, Apply, R.Run, R.Cleared;
    var opening := Opening(env, ttl);
    OpeningReaches(env, ttl);
    ApprovalIsReached(true, env, ttl, now);
    var sh := Run(Start(), opening);
    OvertakenWriterOverwrites(sh, ID, now, 0, 1, error);
    RunOn(Start(), opening, Begin(0, ID));
    var checks := opening + [Begin(0, ID)] + Advances(0, now, CHECKS);
    StepsAreMoves(Start(), opening + [Begin(0, ID)], 0, now, CHECKS);
    RunOn(Start(), checks, Begin(1, ID));
    var written := checks + [Begin(1, ID)] + Advances(1, now, CHECKS + EFFECTS);
    StepsAreMoves(Start(), checks + [Begin(1, ID)], 1, now, CHECKS + EFFECTS);
    RunOn(Start(), written, Service(R.Outage(error)));
    moves := written + [Service(R.Outage(error))] + Advances(0, now, EFFECTS);
    StepsAreMoves(Start(), written + [Service(R.Outage(error))], 0, now, EFFECTS);
  }

  /** A run from the empty store that comes to the same by the second commit. */
  lemma OutdoneFromStart(env: Env, ttl: int, now: int, error: CrmError) returns (moves: seq<Move>)
    requires env.today >= Validation.EARLIEST_PLAUSIBLE_DATE && !env.ambiguousDate && now < env.now + ttl
    ensures var sh := Run(Start(), moves);
            && ID in sh.s.documents && sh.s.documents[ID].status == Written
            && sh.s.documents[ID].approvedHash == Some(HASH)
            && KEY in sh.s.writes && sh.s.writes[KEY].status == Failed
  {
    hide Run, Steps, Apply, R.Run, R.Cleared;
    var opening := Opening(env, ttl);
    OpeningReaches(env, ttl);
    ApprovalIsReached(true, env, ttl, now);
    OutdoneWriterLeavesFailure(Run(Start(), opening), env, ttl, now, error);
    var claimed := ClaimMoves(opening, now);
    var extract := Service(R.ExtractAndValidate(ID, Proposes(DRAFT), env));
    var approve := Service(R.Approve(ID, 1, env, ttl));
    RunOn(Start(), claimed, extract);
    RunOn(Start(), claimed + [extract], approve);
    RunOn(Start(), claimed + [extract] + [approve], Service(R.Outage(error)));
    var down := claimed + [extract] + [approve] + [Service(R.Outage(error))];
    StepsAreMoves(Start(), down, 0, now, CALL_AND_COMMIT);
    moves := down + Advances(0, now, CALL_AND_COMMIT) + Advances(1, now, CALL_AND_COMMIT);
    StepsAreMoves(Start(), down + Advances(0, now, CALL_AND_COMMIT), 1, now, CALL_AND_COMMIT);
  }

  lemma ClaimMoves(opening: seq<Move>, now: int) returns (moves: seq<Move>)
    ensures Run(Start(), moves) == BothClaim(Run(Start(), opening), ID, now)
  {
    hide Run, Steps, Apply;
    RunOn(Start(), opening, Begin(0, ID));
    var c0 := opening + [Begin(0, ID)] + Advances(0, now, CHECKS);
    StepsAreMoves(Start(), opening + [Begin(0, ID)], 0, now, CHECKS);
    RunOn(Start(), c0, Begin(1, ID));
    var c1 := c0 + [Begin(1, ID)] + Advances(1, now, CHECKS);
    StepsAreMoves(Start(), c0 + [Begin(1, ID)], 1, now, CHECKS);
    RunOn(Start(), c1, Begin(2, ID));
    var written := c1 + [Begin(2, ID)] + Advances(2, now, CHECKS + EFFECTS);
    StepsAreMoves(Start(), c1 + [Begin(2, ID)], 2, now, CHECKS + EFFECTS);
    RunOn(Start(), written, Advance(0, now));
    RunOn(Start(), written + [Advance(0, now)], Advance(1, now));
    moves := written + [Advance(0, now)] + [Advance(1, now)];
  }
}
