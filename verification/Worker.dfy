/**
 The worker: one job in three transactions, claim, dispatch and settlement (app/workflows/worker.py).
 */
module Worker {
  import opened Wrappers
  import opened Schema
  import opened Keys
  import opened Crm
  import opened Protocol
  import opened Store
  import opened Validation
  import opened Answers
  import Q = Queue
  import Runs

  /** What the outside contributes to one round: the clock at each of its readings, the provider's answer, and the
      date pattern's verdict. */
  datatype Round = Round(reclaimedAt: int, claimedAt: int, answer: Answer, env: Env, settledAt: int)

  /** `_dispatch`: the state it commits, and the failure it returns instead of raising. */
  function Dispatch(s: State, dest: Destination, job: Q.Job, round: Round): (State, Destination, Option<ServiceError>) {
    var d := job.documentId;
    if d !in s.documents then (s, dest, Some(Unexpected))
    else
      match job.type_
      case ExtractJob =>
        var (s1, e) := ExtractDocument(s, d, round.answer);
        if e.draft.Err? then (s1, dest, Some(Provider(e.draft.error)))
        else (ValidateExtraction(s1, d, e, round.env).0, dest, None)
      case WriteJob =>
        var (s1, dest1, result) := WriteApprovedRecord(s, dest, d, round.env.now);
        (s1, dest1, if result.Err? then Some(result.error) else None)
      case UnknownJob => (s, dest, Some(Unexpected))
  }

  class Worker {
    const queue: Q.JobQueue
    const store: Store
    const crm: CrmClient
    const workerId: string
    const lease: nat
    var processed: seq<nat>

    constructor (queue: Q.JobQueue, store: Store, crm: CrmClient, workerId: string, lease: nat)
      ensures this.queue == queue && this.store == store && this.crm == crm && processed == []
      ensures this.workerId == workerId && this.lease == lease
    {
      this.queue, this.store, this.crm := queue, store, crm;
      this.workerId, this.lease := workerId, lease;
      processed := [];
    }

    ghost predicate Valid()
      reads this
    {
      store !in crm.Objects() && queue !in crm.Objects() && this !in crm.Objects()
    }

    ghost function World(): Runs.World
      reads store, crm.Objects()
    {
      Runs.World(store.Contents(), crm.Contents())
    }

    method DispatchJob(job: Q.Job, round: Round) returns (error: Option<ServiceError>)
      requires Valid()
      modifies store, crm.Objects()
      ensures (store.Contents(), crm.Contents(), error) ==
              Dispatch(old(store.Contents()), old(crm.Contents()), job, round)
    {
      var d := job.documentId;
      if d !in store.documents {
        return Some(Unexpected);
      }
      match job.type_ {
        case ExtractJob =>
          var e := store.Extract(d, round.answer);
          ExtractKeepsDocuments(old(store.Contents()), d, round.answer);
          if e.draft.Err? {
            return Some(Provider(e.draft.error));
          }
          var _ := store.RunValidation(d, e, round.env);
        case WriteJob =>
          var result := store.Write(d, crm, round.env.now);
          if result.Err? {
            return Some(result.error);
          }
        case UnknownJob =>
          return Some(Unexpected);
      }
      return None;
    }

    /** The first transaction. */
    method ClaimJob(round: Round) returns (claimed: Option<nat>)
      modifies queue
      ensures var before := Q.ReclaimedAll(old(queue.jobs), round.reclaimedAt);
              if claimed.None? then
                queue.jobs == before && forall x: nat :: x < |before| ==> !Q.Claimable(before[x], round.claimedAt)
              else
                Q.DueFirst(before, round.claimedAt, claimed.value) &&
                queue.jobs == before[claimed.value :=
                                Q.Taken(before[claimed.value], workerId, round.claimedAt, lease)]
    {
      queue.ReclaimExpired(round.reclaimedAt);
      claimed := queue.Claim(workerId, lease, round.claimedAt);
    }

    /** One round: the job due first is taken, dispatched and settled, and nothing else in the table changes but
        expired leases; what dispatch commits stays committed when the job fails. */
    method RunOnce(round: Round) returns (done: Option<nat>)
      requires Valid()
      modifies this, queue, store, crm.Objects()
      ensures var before := Q.ReclaimedAll(old(queue.jobs), round.reclaimedAt);
              if done.None? then
                && queue.jobs == before && World() == old(World()) && processed == old(processed)
                && forall x: nat :: x < |before| ==> !Q.Claimable(before[x], round.claimedAt)
              else
                && processed == old(processed) + [done.value]
                && Rounded(old(World()), old(queue.jobs), workerId, lease, round, World(), queue.jobs, done.value)
      ensures |old(queue.jobs)| == 1 ==>
                |queue.jobs| == 1 &&
                (World(), queue.jobs[0]) == RoundOn(old(World()), old(queue.jobs)[0], workerId, lease, round)
    {
      ghost var before := Q.ReclaimedAll(queue.jobs, round.reclaimedAt);
      var claimed := ClaimJob(round);
      if claimed.None? {
        return None;
      }
      var id := claimed.value;
      var error := DispatchJob(queue.jobs[id], round);
      if error.Some? {
        queue.Fail(id, error.value, round.settledAt);
      } else {
        queue.Succeed(id);
      }
      assert queue.jobs == before[id := queue.jobs[id]];
      processed := processed + [id];
      return Some(id);
    }

    /** `drain`: rounds, one after another and each on what the one before has left, until the limit is reached or a
        round finds nothing to claim. */
    method Drain(limit: nat, rounds: seq<Round>) returns (completed: nat)
      requires Valid() && |rounds| >= limit && Runs.Inv(World())
      modifies this, queue, store, crm.Objects()
      ensures Runs.Inv(World())
      ensures completed <= limit && old(processed) <= processed && |processed| == |old(processed)| + completed
      ensures exists jobs ::
                && Reaches(old(World()), old(queue.jobs), workerId, lease, rounds, processed[|old(processed)|..],
                           World(), jobs)
                && if completed == limit then queue.jobs == jobs
                   else
                     && queue.jobs == Q.ReclaimedAll(jobs, rounds[completed].reclaimedAt)
                     && forall x: nat :: x < |queue.jobs| ==> !Q.Claimable(queue.jobs[x], rounds[completed].claimedAt)
    {
      completed := 0;
      ghost var first := |processed|;
      while completed < limit
        invariant completed <= limit && |processed| == |old(processed)| + completed
        invariant old(processed) <= processed
        invariant Runs.Inv(World())
        invariant Reaches(old(World()), old(queue.jobs), workerId, lease, rounds, processed[first..],
                          World(), queue.jobs)
      {
        ghost var ids := processed[first..];
        ghost var world, jobs := World(), queue.jobs;
        hide Reaches, Rounded, Dispatch, Runs.Inv, Q.DueFirst, Q.SettledWith, Q.Taken;
        var done := RunOnce(rounds[completed]);
        if done.None? {
          return;
        }
        assert processed[first..] == ids + [done.value];
        ReachesOn(old(World()), old(queue.jobs), workerId, lease, rounds, ids, world, jobs, World(), queue.jobs,
                  done.value);
        RoundedMeans(world, jobs, workerId, lease, rounds[completed], World(), queue.jobs, done.value);
        ghost var before := Q.ReclaimedAll(jobs, rounds[completed].reclaimedAt);
        DispatchKeeps(world, Q.Taken(before[done.value], workerId, rounds[completed].claimedAt, lease),
                      rounds[completed]);
        completed := completed + 1;
      }
    }
  }

  /** What one round makes of the state, the destination and the table, with the job that was due first. */
  ghost predicate Rounded(w: Runs.World, jobs: seq<Q.Job>, worker: string, lease: nat, round: Round,
                          w': Runs.World, jobs': seq<Q.Job>, id: nat)
  {
    var before := Q.ReclaimedAll(jobs, round.reclaimedAt);
    && Q.DueFirst(before, round.claimedAt, id)
    && var job := Q.Taken(before[id], worker, round.claimedAt, lease);
       var (s, dest, error) := Dispatch(w.s, w.dest, job, round);
       w' == Runs.World(s, dest) && jobs' == before[id := Q.SettledWith(job, error, round.settledAt)]
  }

  /** The rounds lead from one to the other, with these jobs in this order. */
  ghost predicate Reaches(w: Runs.World, jobs: seq<Q.Job>, worker: string, lease: nat, rounds: seq<Round>,
                          ids: seq<nat>, w': Runs.World, jobs': seq<Q.Job>)
    decreases |ids|
  {
    if ids == [] then w' == w && jobs' == jobs
    else
      var n := |ids| - 1;
      n < |rounds| &&
      exists w1, jobs1 ::
        Reaches(w, jobs, worker, lease, rounds, ids[..n], w1, jobs1) &&
        Rounded(w1, jobs1, worker, lease, rounds[n], w', jobs', ids[n])
  }

  lemma RoundedMeans(w: Runs.World, jobs: seq<Q.Job>, worker: string, lease: nat, round: Round,
                     w': Runs.World, jobs': seq<Q.Job>, id: nat)
    requires Rounded(w, jobs, worker, lease, round, w', jobs', id)
    ensures var before := Q.ReclaimedAll(jobs, round.reclaimedAt);
            id < |before| &&
            var (s, dest, error) := Dispatch(w.s, w.dest, Q.Taken(before[id], worker, round.claimedAt, lease), round);
            w' == Runs.World(s, dest)
  {
  }

  lemma ReachesOn(w: Runs.World, jobs: seq<Q.Job>, worker: string, lease: nat, rounds: seq<Round>, ids: seq<nat>,
                  w1: Runs.World, jobs1: seq<Q.Job>, w2: Runs.World, jobs2: seq<Q.Job>, id: nat)
    requires |ids| < |rounds| && Reaches(w, jobs, worker, lease, rounds, ids, w1, jobs1)
    requires Rounded(w1, jobs1, worker, lease, rounds[|ids|], w2, jobs2, id)
    ensures Reaches(w, jobs, worker, lease, rounds, ids + [id], w2, jobs2)
  {
    hide Rounded;
    assert (ids + [id])[..|ids|] == ids;
  }

  lemma ExtractKeepsDocuments(s: State, d: DocumentId, answer: Answer)
    requires d in s.documents
    ensures d in ExtractDocument(s, d, answer).0.documents
  {
  }

  /** The call a dispatch makes. */
  function CallOf(job: Q.Job, round: Round): Runs.Action
    requires !job.type_.UnknownJob?
  {
    if job.type_.ExtractJob? then Runs.ExtractAndValidate(job.documentId, round.answer, round.env)
    else Runs.Write(job.documentId, round.env.now, true)
  }

  /** A dispatch is one service call or nothing, so a run of workers is a run of service calls. */
  lemma DispatchIsACall(w: Runs.World, job: Q.Job, round: Round)
    ensures var (s, dest, error) := Dispatch(w.s, w.dest, job, round);
            if job.type_.UnknownJob? || job.documentId !in w.s.documents
            then s == w.s && dest == w.dest && error == Some(Unexpected)
            else Runs.World(s, dest) == Runs.Apply(w, CallOf(job, round))
  {
  }

  lemma DispatchKeeps(w: Runs.World, job: Q.Job, round: Round)
    requires Runs.Inv(w)
    ensures var (s, dest, _) := Dispatch(w.s, w.dest, job, round); Runs.Inv(Runs.World(s, dest))
  {
    DispatchIsACall(w, job, round);
    if !job.type_.UnknownJob? && job.documentId in w.s.documents {
      Runs.StepKeeps(w, CallOf(job, round));
    }
  }

  /** A write that is not cleared returns a record exactly when the document is written already. */
  lemma WrittenIsReplayed(w: Runs.World, d: DocumentId, now: int)
    requires Runs.Inv(w) && d in w.s.documents && !Runs.Cleared(w.s, d, now)
    ensures WriteApprovedRecord(w.s, w.dest, d, now).2.Ok? <==> w.s.documents[d].status == Written
  {
    hide ClaimAndCall, Runs.RowsFit, Runs.RecordsApproved, Runs.InvoicesDistinct, Runs.AllPaid, Consistent;
    assert Runs.DocumentBound(w.s, d);
  }

  /** A write returns a record exactly when the document is written afterwards; one that fails at the destination
      leaves the document approved. */
  lemma WriteOutcomes(w: Runs.World, d: DocumentId, now: int)
    requires Runs.Inv(w) && d in w.s.documents
    ensures var (s', _, result) := WriteApprovedRecord(w.s, w.dest, d, now);
            && d in s'.documents
            && (result.Ok? <==> s'.documents[d].status == Written)
            && (result.Err? && result.error.Crm? ==>
                  s'.documents == w.s.documents && s'.documents[d].status == Approved)
  {
    Runs.WriteByCases(w.s, w.dest, d, now);
    if Runs.Cleared(w.s, d, now) {
      Runs.ClearedIsApproved(w, d, now);
      Runs.ClaimAndCallEffect(w.s, w.dest, d, Runs.KeyOf(w.s, d), LatestExtraction(w.s.extractions, d).value);
    } else {
      WrittenIsReplayed(w, d, now);
    }
  }

  /** What the settlement of a write job tells: it succeeds exactly when its document is written afterwards; it is
      put back for a retry only when the destination was unavailable, and then the document is still approved with
      its approval as it was, so the retry finds what this attempt found. */
  lemma WriteJobsTellTheTruth(w: Runs.World, job: Q.Job, round: Round)
    requires Runs.Inv(w) && job.type_.WriteJob? && job.documentId in w.s.documents
    ensures var d := job.documentId;
            var (s, dest, error) := Dispatch(w.s, w.dest, job, round);
            var settled := Q.SettledWith(job, error, round.settledAt);
            && d in s.documents
            && (settled.status == Q.Succeeded <==> s.documents[d].status == Written)
            && (settled.status == Q.Pending ==>
                  && error == Some(ServiceError.Crm(Unavailable)) && job.attempts < job.maxAttempts
                  && s.documents == w.s.documents && s.documents[d].status == Approved
                  && s.approvals == w.s.approvals && s.extractions == w.s.extractions)
  {
    hide WriteApprovedRecord, Runs.Inv;
    var (s, dest, result) := WriteApprovedRecord(w.s, w.dest, job.documentId, round.env.now);
    WriteOutcomes(w, job.documentId, round.env.now);
    Runs.WriteLeavesRows(w.s, w.dest, job.documentId, round.env.now);
    if result.Err? {
      WriteErrors(w.s, w.dest, job.documentId, round.env.now);
    }
  }

  /** What the settlement of an extraction job tells: it succeeds exactly when the document's latest extraction has a
      draft, whatever the rules then say of it; it is put back for a retry exactly when the provider timed out and an
      attempt is left; and any other failure of the provider is permanent. */
  lemma ExtractJobsTellTheTruth(w: Runs.World, job: Q.Job, round: Round)
    requires job.type_.ExtractJob? && job.documentId in w.s.documents
    ensures var d := job.documentId;
            var (s, dest, error) := Dispatch(w.s, w.dest, job, round);
            var settled := Q.SettledWith(job, error, round.settledAt);
            var e := LatestExtraction(s.extractions, d);
            && e.Some? && s.extractions == w.s.extractions + [e.value] && dest == w.dest
            && (settled.status == Q.Succeeded <==> e.value.draft.Ok?)
            && (settled.status == Q.Succeeded <==> round.answer.Proposes?)
            && (settled.status == Q.Pending <==>
                  round.answer == Raises(ProviderTimeout) && job.attempts < job.maxAttempts)
            && (e.value.draft.Err? ==>
                  && settled.lastError == Some(Provider(e.value.draft.error))
                  && s.documents[d].status == ExtractionFailed)
            && (round.answer.Raises? ==> e.value.draft == Err(round.answer.error))
            && (round.answer.Unparsable? ==> e.value.draft == Err(MalformedProviderOutput))
            && (round.answer.Proposes? ==>
                  && e.value.draft == Ok(round.answer.draft)
                  && s.documents[d].status ==
                     if Approvable(w.s, d, round.answer.draft, round.env) then Validated else InReview)
  {
    hide ExtractDocument, ValidateExtraction, Sound, CommittedNumbers, VerifyDraft, Q.Backoff;
    var d := job.documentId;
    ExtractionAnswers(w.s, d, round.answer);
    var (s1, e) := ExtractDocument(w.s, d, round.answer);
    Runs.LatestAppended(w.s.extractions, e, d);
    if e.draft.Ok? {
      Runs.ValidateEffect(s1, d, e, round.env);
      OthersNumbersStay(w.s, d, round.answer);
      ValidationAnswers(s1, d, e, round.env);
    }
  }

  /** A job of no known type, or of no known document, fails for good and does nothing. */
  lemma StrayJobsFail(w: Runs.World, job: Q.Job, round: Round)
    requires job.type_.UnknownJob? || job.documentId !in w.s.documents
    ensures var (s, dest, error) := Dispatch(w.s, w.dest, job, round);
            var settled := Q.SettledWith(job, error, round.settledAt);
            && s == w.s && dest == w.dest && settled.lastError == Some(Unexpected)
            && settled.status == Q.Failed && settled.failureKind == Some(Q.Permanent)
  {
  }

  /** A write never fails for a reason of the provider. */
  lemma WriteErrors(s: State, dest: Destination, d: DocumentId, now: int)
    requires d in s.documents && WriteApprovedRecord(s, dest, d, now).2.Err?
    ensures var error := WriteApprovedRecord(s, dest, d, now).2.error; error.Crm? || error.Approval?
  {
    Runs.WriteByCases(s, dest, d, now);
  }

  // ---------- Outages and retries ----------

  /** A round at a table that holds this job only: what is committed, and the job afterwards. */
  function RoundOn(w: Runs.World, job: Q.Job, worker: string, lease: nat, round: Round): (Runs.World, Q.Job) {
    var free := Q.Reclaimed(job, round.reclaimedAt);
    if !Q.Claimable(free, round.claimedAt) then (w, free)
    else
      var taken := Q.Taken(free, worker, round.claimedAt, lease);
      var (s, dest, error) := Dispatch(w.s, w.dest, taken, round);
      (Runs.World(s, dest), Q.SettledWith(taken, error, round.settledAt))
  }

  /** The first `n` rounds. */
  function Rounds(w: Runs.World, job: Q.Job, worker: string, lease: nat, rounds: seq<Round>, n: nat)
    : (Runs.World, Q.Job)
    requires n <= |rounds|
  {
    if n == 0 then (w, job)
    else
      var (w1, job1) := Rounds(w, job, worker, lease, rounds, n - 1);
      RoundOn(w1, job1, worker, lease, rounds[n - 1])
  }

  /** A write of an approved document that the destination is about to answer with an outage. */
  lemma WriteMeetsOutage(w: Runs.World, d: DocumentId, now: int)
    requires d in w.s.documents && w.s.documents[d].status == Approved && Runs.Cleared(w.s, d, now)
    requires w.dest.Mock? && w.dest.failures != [] && w.dest.failures[0] == Unavailable
    ensures var (s', dest', result) := WriteApprovedRecord(w.s, w.dest, d, now);
            var key := Runs.KeyOf(w.s, d);
            && result == Err(ServiceError.Crm(Unavailable))
            && s'.documents == w.s.documents && s'.extractions == w.s.extractions && s'.approvals == w.s.approvals
            && key in s'.writes && s'.writes[key].status == Failed
            && dest'.Mock? && dest'.records == w.dest.records && dest'.failures == w.dest.failures[1..]
  {
    hide Runs.Cleared;
    Runs.WriteByCases(w.s, w.dest, d, now);
    Runs.ClearedHasDraft(w.s, d, now);
    CallMeetsOutage(w.s, w.dest, d, Runs.KeyOf(w.s, d), LatestExtraction(w.s.extractions, d).value);
  }

  lemma CallMeetsOutage(s: State, dest: Destination, d: DocumentId, key: IdempotencyKey, e: Extraction)
    requires d in s.documents && e.draft.Ok?
    requires dest.Mock? && dest.failures != []
    ensures var (s', dest', result) := ClaimAndCall(s, dest, d, key, e);
            && result == Err(ServiceError.Crm(dest.failures[0]))
            && s'.documents == s.documents && s'.extractions == s.extractions && s'.approvals == s.approvals
            && key in s'.writes && s'.writes[key].status == Failed
            && dest'.Mock? && dest'.records == dest.records && dest'.failures == dest.failures[1..]
  {
  }

  lemma CallGetsThrough(s: State, dest: Destination, d: DocumentId, key: IdempotencyKey, e: Extraction)
    requires d in s.documents && e.draft.Ok? && s.documents[d].status == Approved
    requires s.documents[d].approvedHash == Some(key.payloadHash) && dest.Mock? && dest.failures == []
    ensures var (s', dest', result) := ClaimAndCall(s, dest, d, key, e);
            && result.Ok? && s'.documents == s.documents[d := s.documents[d].(status := Written)]
            && key in dest'.records && dest'.records.Keys == dest.records.Keys + {key}
            && (forall k <- dest.records :: dest'.records[k] == dest.records[k])
            && (key !in dest.records ==> dest'.records[key].payload == e.draft.value)
  {
  }

  /** The approval is in time for a round. */
  predicate InTime(s: State, d: DocumentId, round: Round) {
    var a := LatestApproval(s.approvals, d);
    a.Some? && round.env.now < a.value.expiresAt
  }

  /** When the attempt of round `i` is due: the first one at the job's `run_at`, a later one after the backoff of the
      attempt before. */
  function DueAt(job: Q.Job, rounds: seq<Round>, i: nat): int
    requires i <= |rounds|
  {
    if i == 0 then job.runAt else rounds[i - 1].settledAt + Q.Backoff(job.attempts + i)
  }

  predicate WhenDue(job: Q.Job, rounds: seq<Round>) {
    forall i :: 0 <= i < |rounds| ==> DueAt(job, rounds, i) <= rounds[i].claimedAt
  }

  /** A pending write job and what it finds: a cleared write of an approved document, and outages to come. */
  ghost predicate Waits(w: Runs.World, job: Q.Job, outages: nat) {
    var d := job.documentId;
    && job.type_.WriteJob? && job.status == Q.Pending && job.leaseExpiresAt.None?
    && d in w.s.documents && w.s.documents[d].status == Approved
    && (exists now :: Runs.Cleared(w.s, d, now))
    && w.dest.Mock? && |w.dest.failures| == outages && (forall f <- w.dest.failures :: f == Unavailable)
  }

  /** What an outage leaves for the retry. */
  predicate AsBefore(w: Runs.World, w': Runs.World) {
    && w'.s.documents == w.s.documents && w'.s.extractions == w.s.extractions && w'.s.approvals == w.s.approvals
    && w'.dest.records == w.dest.records
  }

  lemma ClearedInTime(s: State, d: DocumentId, round: Round)
    requires d in s.documents && (exists now :: Runs.Cleared(s, d, now)) && InTime(s, d, round)
    ensures Runs.Cleared(s, d, round.env.now)
  {
  }

  lemma InTimeStays(w: Runs.World, w': Runs.World, d: DocumentId, round: Round)
    requires AsBefore(w, w') && InTime(w.s, d, round)
    ensures InTime(w'.s, d, round)
  {
  }

  lemma StillCleared(s: State, s': State, d: DocumentId, now: int)
    requires d in s.documents && Runs.Cleared(s, d, now)
    requires s'.documents == s.documents && s'.extractions == s.extractions && s'.approvals == s.approvals
    requires Runs.KeyOf(s, d) in s'.writes && s'.writes[Runs.KeyOf(s, d)].status == Failed
    ensures Runs.Cleared(s', d, now)
  {
  }

  lemma OutageRound(w: Runs.World, job: Q.Job, worker: string, lease: nat, round: Round, outages: nat)
    requires outages > 0 && Waits(w, job, outages) && InTime(w.s, job.documentId, round)
    requires job.runAt <= round.claimedAt && job.attempts + 1 < job.maxAttempts
    ensures var (w', job') := RoundOn(w, job, worker, lease, round);
            && Waits(w', job', outages - 1) && AsBefore(w, w')
            && job'.documentId == job.documentId && job'.maxAttempts == job.maxAttempts
            && job'.attempts == job.attempts + 1 && job'.runAt == round.settledAt + Q.Backoff(job.attempts + 1)
  {
    hide WriteApprovedRecord, Runs.Cleared, Q.Backoff;
    ClearedInTime(w.s, job.documentId, round);
    assert w.dest.failures[0] in w.dest.failures;
    WriteMeetsOutage(w, job.documentId, round.env.now);
    var (w', job') := RoundOn(w, job, worker, lease, round);
    StillCleared(w.s, w'.s, job.documentId, round.env.now);
    assert forall f <- w'.dest.failures :: f in w.dest.failures;
  }

  lemma LastRound(w: Runs.World, job: Q.Job, worker: string, lease: nat, round: Round)
    requires Waits(w, job, 0) && InTime(w.s, job.documentId, round) && job.runAt <= round.claimedAt
    ensures var (w', job') := RoundOn(w, job, worker, lease, round);
            var d, key := job.documentId, Runs.KeyOf(w.s, job.documentId);
            && job'.status == Q.Succeeded && d in w'.s.documents && w'.s.documents[d].status == Written
            && w'.s.documents[d].approvedHash == Some(key.payloadHash)
            && key in w'.dest.records && w'.dest.records.Keys == w.dest.records.Keys + {key}
            && (forall k <- w.dest.records :: w'.dest.records[k] == w.dest.records[k])
            && (key !in w.dest.records ==> w'.dest.records[key].payload == key.payloadHash.draft)
  {
    var d := job.documentId;
    ClearedInTime(w.s, d, round);
    Runs.WriteByCases(w.s, w.dest, d, round.env.now);
    hide WriteApprovedRecord, ClaimAndCall;
    CallGetsThrough(w.s, w.dest, d, Runs.KeyOf(w.s, d), LatestExtraction(w.s.extractions, d).value);
  }

  /** The job after `n` outages, and what it finds. */
  ghost predicate Retried(w: Runs.World, job: Q.Job, w': Runs.World, job': Q.Job, n: nat, outages: nat) {
    && n <= outages && Waits(w', job', outages - n) && AsBefore(w, w')
    && job'.documentId == job.documentId && job'.maxAttempts == job.maxAttempts && job'.attempts == job.attempts + n
  }

  lemma NoOutageYet(w: Runs.World, job: Q.Job, outages: nat)
    requires Waits(w, job, outages)
    ensures Retried(w, job, w, job, 0, outages)
  {
  }

  lemma OneMoreOutage(w: Runs.World, job: Q.Job, w1: Runs.World, job1: Q.Job, worker: string, lease: nat,
                      round: Round, n: nat, outages: nat)
    requires Retried(w, job, w1, job1, n, outages) && n < outages && job.attempts + n + 1 < job.maxAttempts
    requires InTime(w.s, job.documentId, round) && job1.runAt <= round.claimedAt
    ensures var (w2, job2) := RoundOn(w1, job1, worker, lease, round);
            && Retried(w, job, w2, job2, n + 1, outages)
            && job2.runAt == round.settledAt + Q.Backoff(job.attempts + n + 1)
  {
    hide RoundOn, Waits, Q.Backoff;
    InTimeStays(w, w1, job.documentId, round);
    OutageRound(w1, job1, worker, lease, round, outages - n);
  }

  lemma {:induction false} WaitsThrough(
    w: Runs.World, job: Q.Job, worker: string, lease: nat, rounds: seq<Round>, n: nat, outages: nat)
    requires n <= outages && n <= |rounds| && Waits(w, job, outages) && job.attempts + outages < job.maxAttempts
    requires WhenDue(job, rounds) && forall r <- rounds :: InTime(w.s, job.documentId, r)
    ensures var (w', job') := Rounds(w, job, worker, lease, rounds, n);
            Retried(w, job, w', job', n, outages) && job'.runAt == DueAt(job, rounds, n)
  {
    hide RoundOn, Retried, Waits, InTime, Q.Backoff;
    if n == 0 {
      NoOutageYet(w, job, outages);
    } else {
      WaitsThrough(w, job, worker, lease, rounds, n - 1, outages);
      var (w1, job1) := Rounds(w, job, worker, lease, rounds, n - 1);
      assert rounds[n - 1] in rounds;
      OneMoreOutage(w, job, w1, job1, worker, lease, rounds[n - 1], n - 1, outages);
    }
  }

  /** Outages are outlasted: when the destination is down for the next k calls and the job has more than k attempts
      left, k + 1 rounds in time, each when its attempt is due, leave the document written and the job succeeded, with
      exactly one record more at the destination, under the document's key, or none more if it was there already. */
  lemma OutagesAreOutlasted(w: Runs.World, job: Q.Job, worker: string, lease: nat, rounds: seq<Round>, outages: nat)
    requires |rounds| == outages + 1 && Waits(w, job, outages) && job.attempts + outages < job.maxAttempts
    requires WhenDue(job, rounds) && forall r <- rounds :: InTime(w.s, job.documentId, r)
    ensures var (w', job') := Rounds(w, job, worker, lease, rounds, outages + 1);
            var d, key := job.documentId, Runs.KeyOf(w.s, job.documentId);
            && job'.status == Q.Succeeded && d in w'.s.documents && w'.s.documents[d].status == Written
            && w'.s.documents[d].approvedHash == Some(key.payloadHash)
            && key in w'.dest.records && w'.dest.records.Keys == w.dest.records.Keys + {key}
            && (forall k <- w.dest.records :: w'.dest.records[k] == w.dest.records[k])
            && (key !in w.dest.records ==> w'.dest.records[key].payload == key.payloadHash.draft)
  {
    hide RoundOn, InTime, Q.Backoff;
    WaitsThrough(w, job, worker, lease, rounds, outages, outages);
    var (w1, job1) := Rounds(w, job, worker, lease, rounds, outages);
    assert rounds[outages] in rounds;
    InTimeStays(w, w1, job.documentId, rounds[outages]);
    LastRound(w1, job1, worker, lease, rounds[outages]);
  }
}
