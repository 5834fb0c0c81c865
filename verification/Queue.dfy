/**
 The job table and its operations: app/workflows/queue.py and app/domain/jobs.py. Times are in microseconds.
 */
module Queue {
  import opened Wrappers
  import opened Keys
  import P = Protocol
  import C = Crm

  const CLAIM_BATCH: nat := 10
  const BASE_BACKOFF: nat := 2_000_000

  datatype JobType = ExtractJob | WriteJob | UnknownJob

  datatype JobStatus = Pending | Running | Succeeded | Failed

  datatype FailureKind = TransientExhausted | Permanent

  datatype Job = Job(
    type_: JobType,
    documentId: DocumentId,
    status: JobStatus,
    attempts: nat,
    maxAttempts: int,
    runAt: int,
    leaseExpiresAt: Option<int>,
    lockedBy: Option<string>,
    failureKind: Option<FailureKind>,
    lastError: Option<P.ServiceError>)

  /** Retried: a provider timeout and an unavailable destination. Everything else, known or not, is permanent. */
  predicate IsTransient(error: P.ServiceError) {
    error == P.Provider(P.ProviderTimeout) || error == P.ServiceError.Crm(C.Unavailable)
  }

  function Pow2(n: nat): nat {
    if n == 0 then 1 else 2 * Pow2(n - 1)
  }

  function Backoff(attempts: nat): nat {
    BASE_BACKOFF * Pow2(if attempts == 0 then 0 else attempts - 1)
  }

  // ---------- The conditions and the updates ----------

  predicate Open(job: Job) {
    job.status == Pending || job.status == Running
  }

  /** The condition of the guarded update; it does not look at `run_at`. */
  predicate CanTake(job: Job, moment: int) {
    Open(job) && (job.leaseExpiresAt.None? || job.leaseExpiresAt.value <= moment)
  }

  /** The condition of the candidate query. */
  predicate Claimable(job: Job, moment: int) {
    CanTake(job, moment) && job.runAt <= moment
  }

  function Taken(job: Job, worker: string, moment: int, lease: int): Job {
    job.(status := Running, lockedBy := Some(worker), leaseExpiresAt := Some(moment + lease),
         attempts := job.attempts + 1)
  }

  predicate Expired(job: Job, moment: int) {
    job.status == Running && job.leaseExpiresAt.Some? && job.leaseExpiresAt.value <= moment
  }

  function Reclaimed(job: Job, moment: int): Job {
    if Expired(job, moment) then job.(status := Pending, lockedBy := None, leaseExpiresAt := None) else job
  }

  function ReclaimedAll(jobs: seq<Job>, moment: int): seq<Job> {
    seq(|jobs|, i requires 0 <= i < |jobs| => Reclaimed(jobs[i], moment))
  }

  function Finished(job: Job): Job {
    job.(status := Succeeded, leaseExpiresAt := None, lockedBy := None, lastError := None)
  }

  function FailedWith(job: Job, error: P.ServiceError, moment: int): Job {
    var released := job.(lastError := Some(error), leaseExpiresAt := None, lockedBy := None);
    if !IsTransient(error) then released.(status := Failed, failureKind := Some(Permanent))
    else if job.attempts >= job.maxAttempts then released.(status := Failed, failureKind := Some(TransientExhausted))
    else released.(status := Pending, runAt := moment + Backoff(job.attempts))
  }

  function SettledWith(job: Job, error: Option<P.ServiceError>, moment: int): Job {
    if error.None? then Finished(job) else FailedWith(job, error.value, moment)
  }

  // ---------- What they mean ----------

  /** The first retry waits two seconds, and each later one twice as long as the one before. */
  lemma BackoffDoubles(attempts: nat)
    ensures Backoff(0) == Backoff(1) == 2_000_000
    ensures attempts > 0 ==> Backoff(attempts + 1) == 2 * Backoff(attempts)
  {
    assert Pow2(0) == 1;
  }

  /** How a job fails: it is put back, after its backoff, exactly when the provider timed out or the destination was
      unavailable and an attempt is left; a failure of another kind is permanent, and the last attempt exhausts. */
  lemma FailuresAreTold(job: Job, error: P.ServiceError, moment: int)
    ensures var failed := FailedWith(job, error, moment);
            var retried := error == P.Provider(P.ProviderTimeout) || error == P.ServiceError.Crm(C.Unavailable);
            && failed.lastError == Some(error) && failed.leaseExpiresAt.None? && failed.lockedBy.None?
            && failed.attempts == job.attempts && failed.maxAttempts == job.maxAttempts
            && failed.type_ == job.type_ && failed.documentId == job.documentId
            && (failed.status == Pending <==> retried && job.attempts < job.maxAttempts)
            && (failed.status == Pending ==>
                  failed.runAt == moment + Backoff(job.attempts) && failed.failureKind == job.failureKind)
            && (failed.status != Pending ==>
                  && failed.status == Failed && failed.runAt == job.runAt
                  && failed.failureKind == Some(if retried then TransientExhausted else Permanent))
  {
  }

  /** A claim leases a job for a time, counts one attempt and names the holder. Until that time has passed nobody can
      take the job or reclaim it, and from then on anybody can. */
  lemma LeasesEnd(job: Job, worker: string, moment: int, lease: int, later: int)
    ensures var taken := Taken(job, worker, moment, lease);
            && taken.status == Running && taken.lockedBy == Some(worker) && taken.attempts == job.attempts + 1
            && taken.runAt == job.runAt
            && (CanTake(taken, later) <==> later >= moment + lease)
            && (Claimable(taken, later) <==> later >= moment + lease && later >= job.runAt)
            && (Reclaimed(taken, later) != taken <==> later >= moment + lease)
            && (later >= moment + lease ==>
                  var free := Reclaimed(taken, later);
                  && free.status == Pending && free.leaseExpiresAt.None? && free.lockedBy.None?
                  && free.attempts == taken.attempts && free.runAt == job.runAt)
  {
  }

  /** A job without a lease can be taken while it is pending, is due from its `run_at` on, and is not reclaimed; a
      settled one never is taken or reclaimed. */
  lemma WithoutLease(job: Job, moment: int)
    requires job.leaseExpiresAt.None?
    ensures job.status == Pending ==> CanTake(job, moment) && (Claimable(job, moment) <==> job.runAt <= moment)
    ensures job.status == Succeeded || job.status == Failed ==> !CanTake(job, moment)
    ensures Reclaimed(job, moment) == job
  {
  }

  /** A success keeps what the job was about and how often it was tried, and clears the rest. */
  lemma SuccessIsTold(job: Job)
    ensures var done := Finished(job);
            && done.status == Succeeded && done.leaseExpiresAt.None? && done.lockedBy.None? && done.lastError.None?
            && done.attempts == job.attempts && done.runAt == job.runAt && done.documentId == job.documentId
            && done.type_ == job.type_ && done.failureKind == job.failureKind
  {
  }

  // ---------- The candidate query ----------

  /** The order of the query: by `run_at`, then by creation. */
  predicate Before(jobs: seq<Job>, i: nat, j: nat)
    requires i < |jobs| && j < |jobs|
  {
    jobs[i].runAt < jobs[j].runAt || (jobs[i].runAt == jobs[j].runAt && i <= j)
  }

  predicate AreIds(jobs: seq<Job>, ids: seq<nat>) {
    forall k :: 0 <= k < |ids| ==> ids[k] < |jobs|
  }

  function Place(jobs: seq<Job>, id: nat, ids: seq<nat>): (r: seq<nat>)
    requires id < |jobs| && AreIds(jobs, ids)
    ensures AreIds(jobs, r)
  {
    if ids == [] || Before(jobs, id, ids[0]) then [id] + ids else [ids[0]] + Place(jobs, id, ids[1..])
  }

  /** The claimable jobs among the first `n`, in the query's order. */
  function Due(jobs: seq<Job>, moment: int, n: nat): (r: seq<nat>)
    requires n <= |jobs|
    ensures AreIds(jobs, r)
  {
    if n == 0 then []
    else
      var earlier := Due(jobs, moment, n - 1);
      if Claimable(jobs[n - 1], moment) then Place(jobs, n - 1, earlier) else earlier
  }

  /** `_claimable_ids`. */
  function Candidates(jobs: seq<Job>, moment: int): (r: seq<nat>)
    ensures AreIds(jobs, r)
  {
    var due := Due(jobs, moment, |jobs|);
    if |due| <= CLAIM_BATCH then due else due[..CLAIM_BATCH]
  }

  predicate InOrder(jobs: seq<Job>, ids: seq<nat>)
    requires AreIds(jobs, ids)
  {
    forall i, j :: 0 <= i < j < |ids| ==> Before(jobs, ids[i], ids[j]) && ids[i] != ids[j]
  }

  lemma {:induction false} PlaceOrders(jobs: seq<Job>, id: nat, ids: seq<nat>)
    requires id < |jobs| && AreIds(jobs, ids) && InOrder(jobs, ids) && id !in ids
    ensures InOrder(jobs, Place(jobs, id, ids))
    ensures forall x :: x in Place(jobs, id, ids) <==> x == id || x in ids
  {
    if ids != [] && !Before(jobs, id, ids[0]) {
      PlaceOrders(jobs, id, ids[1..]);
      assert ids == [ids[0]] + ids[1..];
      var rest := Place(jobs, id, ids[1..]);
      forall x | x in rest ensures Before(jobs, ids[0], x) && ids[0] != x {
        assert x == id || x in ids[1..];
      }
    }
  }

  lemma {:induction false} DueOrders(jobs: seq<Job>, moment: int, n: nat)
    requires n <= |jobs|
    ensures InOrder(jobs, Due(jobs, moment, n))
    ensures forall x: nat :: x in Due(jobs, moment, n) <==> x < n && Claimable(jobs[x], moment)
  {
    if n > 0 {
      hide Claimable, Place, Before;
      DueOrders(jobs, moment, n - 1);
      var earlier := Due(jobs, moment, n - 1);
      if Claimable(jobs[n - 1], moment) {
        assert n - 1 !in earlier;
        PlaceOrders(jobs, n - 1, earlier);
      }
      forall x: nat ensures x in Due(jobs, moment, n) <==> x < n && Claimable(jobs[x], moment) {
        assert x in earlier <==> x < n - 1 && Claimable(jobs[x], moment);
      }
    }
  }

  /** The job that is due first. */
  predicate DueFirst(jobs: seq<Job>, moment: int, id: nat) {
    id < |jobs| && Claimable(jobs[id], moment) &&
    forall x: nat :: x < |jobs| && Claimable(jobs[x], moment) ==> Before(jobs, id, x)
  }

  lemma BeforeItself(jobs: seq<Job>)
    ensures forall i: nat :: i < |jobs| ==> Before(jobs, i, i)
  {
  }

  /** The query returns claimable jobs in order, the first of all of them first, and nothing only when there are
      none. */
  lemma CandidatesAreDue(jobs: seq<Job>, moment: int)
    ensures var ids := Candidates(jobs, moment);
            && |ids| <= 10 && InOrder(jobs, ids)
            && (forall x <- ids :: Claimable(jobs[x], moment))
            && (ids == [] <==> forall x: nat :: x < |jobs| ==> !Claimable(jobs[x], moment))
            && (ids != [] ==> DueFirst(jobs, moment, ids[0]))
            && (|ids| < 10 ==> forall x: nat :: x < |jobs| && Claimable(jobs[x], moment) ==> x in ids)
  {
    hide Due, Claimable, Before;
    DueOrders(jobs, moment, |jobs|);
    BeforeItself(jobs);
    var due := Due(jobs, moment, |jobs|);
    var ids := Candidates(jobs, moment);
    assert forall x <- ids :: x in due;
    if due != [] {
      forall x: nat | x < |jobs| && Claimable(jobs[x], moment) ensures Before(jobs, due[0], x) {
        var k :| 0 <= k < |due| && due[k] == x;
      }
      assert due[0] in due;
    }
  }

  class JobQueue {
    /** The table; a job's position is its id and its place in the order of creation. */
    var jobs: seq<Job>

    constructor ()
      ensures jobs == []
    {
      jobs := [];
    }

    method Enqueue(type_: JobType, documentId: DocumentId, runAt: int, maxAttempts: int) returns (id: nat)
      modifies this
      ensures id == |old(jobs)|
      ensures jobs == old(jobs) + [Job(type_, documentId, Pending, 0, maxAttempts, runAt, None, None, None, None)]
    {
      id := |jobs|;
      jobs := jobs + [Job(type_, documentId, Pending, 0, maxAttempts, runAt, None, None, None, None)];
    }

    /** One guarded update; the answer is whether its row count is one. */
    method TryTake(id: nat, worker: string, moment: int, lease: int) returns (taken: bool)
      requires id < |jobs|
      modifies this
      ensures taken <==> CanTake(old(jobs)[id], moment)
      ensures jobs == if taken then old(jobs)[id := Taken(old(jobs)[id], worker, moment, lease)] else old(jobs)
    {
      taken := CanTake(jobs[id], moment);
      if taken {
        jobs := jobs[id := jobs[id].(
                         status := Running, lockedBy := Some(worker), leaseExpiresAt := Some(moment + lease),
                         attempts := jobs[id].attempts + 1)];
      }
    }

    /** With nobody else at the table, a claim takes the job that is due first, or there is none. */
    method Claim(worker: string, lease: int, moment: int) returns (claimed: Option<nat>)
      modifies this
      ensures claimed.None? <==> forall x: nat :: x < |old(jobs)| ==> !Claimable(old(jobs)[x], moment)
      ensures claimed.None? ==> jobs == old(jobs)
      ensures claimed.Some? ==> DueFirst(old(jobs), moment, claimed.value)
      ensures claimed.Some? ==>
                jobs == old(jobs)[claimed.value := Taken(old(jobs)[claimed.value], worker, moment, lease)]
    {
      var ids := Candidates(jobs, moment);
      CandidatesAreDue(jobs, moment);
      for i := 0 to |ids|
        invariant jobs == old(jobs)
        invariant forall k :: 0 <= k < i ==> !CanTake(jobs[ids[k]], moment)
      {
        assert ids[i] in ids && ids[0] in ids;
        var taken := TryTake(ids[i], worker, moment, lease);
        if taken {
          return Some(ids[i]);
        }
      }
      return None;
    }

    method Succeed(id: nat)
      requires id < |jobs|
      modifies this
      ensures jobs == old(jobs)[id := Finished(old(jobs)[id])]
    {
      jobs := jobs[id := jobs[id].(status := Succeeded, leaseExpiresAt := None, lockedBy := None, lastError := None)];
    }

    method Fail(id: nat, error: P.ServiceError, moment: int)
      requires id < |jobs|
      modifies this
      ensures jobs == old(jobs)[id := FailedWith(old(jobs)[id], error, moment)]
    {
      var job := jobs[id].(lastError := Some(error), leaseExpiresAt := None, lockedBy := None);
      if !IsTransient(error) {
        job := job.(status := Failed, failureKind := Some(Permanent));
      } else if job.attempts >= job.maxAttempts {
        job := job.(status := Failed, failureKind := Some(TransientExhausted));
      } else {
        job := job.(status := Pending, runAt := moment + Backoff(job.attempts));
      }
      jobs := jobs[id := job];
    }

    method ReclaimExpired(moment: int)
      modifies this
      ensures jobs == ReclaimedAll(old(jobs), moment)
    {
      var rows := jobs;
      jobs := seq(|rows|, i requires 0 <= i < |rows| => Reclaimed(rows[i], moment));
    }
  }
}
