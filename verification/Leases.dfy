/**
 Any number of workers at one job table: the claim is cut into its candidate query and its guarded updates, workers
 may stop at any point or settle long after their lease has run out, and the clock goes on in between.

 A claim reads the clock once, before the query (app/workflows/queue.py:43), so the moment its updates compare with
 may lie in the past.
 */
module Leases {
  import opened Wrappers
  import opened Keys
  import opened Queue
  import P = Protocol

  datatype Worker =
    | Trying(moment: int, ids: seq<nat>)
    | Holding(id: nat, until: int)

  /** History variables of a job: how many claims it has seen, how many expired leases were taken over, the end of
      the lease of the last claim while nobody has settled the job since, and the run time it was enqueued with. */
  datatype History = History(claims: nat, takeovers: nat, owedUntil: Option<int>, firstRun: int)

  datatype Cluster = Cluster(
    jobs: seq<Job>,
    history: seq<History>,
    now: int,
    lease: nat,
    workers: map<string, Worker>)

  datatype Move =
    | Tick(elapsed: nat)
    | Enqueue(type_: JobType, documentId: DocumentId, runAt: int, maxAttempts: int)
    | Reclaim(moment: int)
    | Select(worker: string)
    | Try(worker: string)
    | ClaimNow(worker: string)
    | Settle(worker: string, outcome: Option<P.ServiceError>)
    | Stop(worker: string)

  function WithWorker(c: Cluster, worker: string, phase: Worker): Cluster {
    c.(workers := c.workers[worker := phase])
  }

  function Idle(c: Cluster, worker: string): Cluster {
    c.(workers := c.workers - {worker})
  }

  predicate Shaped(c: Cluster) {
    && |c.history| == |c.jobs|
    && forall w <- c.workers :: c.workers[w].Trying? ==>
                                  c.workers[w].moment <= c.now && AreIds(c.jobs, c.workers[w].ids)
  }

  predicate InTable(c: Cluster) {
    |c.history| == |c.jobs| && forall w <- c.workers :: c.workers[w].Holding? ==> c.workers[w].id < |c.jobs|
  }

  /** A guarded update that finds its row. */
  function Take(c: Cluster, worker: string, id: nat, moment: int): Cluster
    requires id < |c.jobs| == |c.history|
  {
    var h, until := c.history[id], moment + c.lease;
    var over := if c.jobs[id].status == Running then 1 else 0;
    WithWorker(c, worker, Holding(id, until)).(
      jobs := c.jobs[id := Taken(c.jobs[id], worker, moment, c.lease)],
      history := c.history[id := h.(claims := h.claims + 1, takeovers := h.takeovers + over, owedUntil := Some(until))])
  }

  function Attempt(c: Cluster, worker: string, moment: int, ids: seq<nat>): Cluster
    requires AreIds(c.jobs, ids) && |c.history| == |c.jobs|
  {
    if ids == [] then Idle(c, worker)
    else if CanTake(c.jobs[ids[0]], moment) then Take(c, worker, ids[0], moment)
    else WithWorker(c, worker, Trying(moment, ids[1..]))
  }

  function SettleJob(c: Cluster, worker: string, id: nat, outcome: Option<P.ServiceError>): Cluster
    requires id < |c.jobs| == |c.history|
  {
    Idle(c, worker).(
      jobs := c.jobs[id := SettledWith(c.jobs[id], outcome, c.now)],
      history := c.history[id := c.history[id].(owedUntil := None)])
  }

  function Tallied(jobs: seq<Job>, history: seq<History>, moment: int): (r: seq<History>)
    requires |history| == |jobs|
  {
    seq(|history|, i requires 0 <= i < |history| =>
      if Expired(jobs[i], moment) then history[i].(takeovers := history[i].takeovers + 1) else history[i])
  }

  /** `ClaimNow` is a claim with nothing between its query and its update. */
  function Apply(c: Cluster, m: Move): Cluster
    requires Shaped(c) && InTable(c)
  {
    match m
    case Tick(elapsed) => c.(now := c.now + elapsed)
    case Enqueue(type_, d, runAt, maxAttempts) =>
      c.(jobs := c.jobs + [Job(type_, d, Pending, 0, maxAttempts, runAt, None, None, None, None)],
         history := c.history + [History(0, 0, None, runAt)])
    case Reclaim(moment) =>
      if moment > c.now then c
      else c.(jobs := ReclaimedAll(c.jobs, moment), history := Tallied(c.jobs, c.history, moment))
    case Select(worker) =>
      if worker in c.workers then c else WithWorker(c, worker, Trying(c.now, Candidates(c.jobs, c.now)))
    case Try(worker) =>
      if worker in c.workers && c.workers[worker].Trying?
      then Attempt(c, worker, c.workers[worker].moment, c.workers[worker].ids) else c
    case ClaimNow(worker) =>
      if worker in c.workers then c else Attempt(c, worker, c.now, Candidates(c.jobs, c.now))
    case Settle(worker, outcome) =>
      if worker in c.workers && c.workers[worker].Holding? then SettleJob(c, worker, c.workers[worker].id, outcome)
      else c
    case Stop(worker) => Idle(c, worker)
  }

  // ---------- What every run keeps ----------

  /** A job is running exactly while it has a lease. */
  predicate LeasedIsRunning(job: Job) {
    job.status == Running <==> job.leaseExpiresAt.Some?
  }

  function Budget(job: Job): nat {
    if job.maxAttempts < 1 then 1 else job.maxAttempts
  }

  /** Attempts are the claims, within the budget and one more for each expired lease taken over; a pending job has
      one left. */
  predicate WithinBudget(job: Job, h: History) {
    && job.attempts == h.claims
    && job.attempts <= Budget(job) + h.takeovers
    && (job.status == Pending ==> job.attempts < Budget(job) + h.takeovers)
  }

  /** The lease of an unsettled claim stands in the row, or it has run out. */
  predicate OwedInRow(job: Job, h: History, now: int) {
    h.owedUntil.Some? ==> job.leaseExpiresAt == h.owedUntil || (job.leaseExpiresAt.None? && h.owedUntil.value <= now)
  }

  predicate JobHolds(job: Job, h: History, now: int) {
    LeasedIsRunning(job) && WithinBudget(job, h) && OwedInRow(job, h, now)
  }

  ghost predicate Inv(c: Cluster) {
    && Shaped(c) && InTable(c)
    && forall i :: 0 <= i < |c.jobs| ==> JobHolds(c.jobs[i], c.history[i], c.now)
  }

  lemma TakeHolds(job: Job, h: History, worker: string, moment: int, lease: nat, now: int)
    requires JobHolds(job, h, now) && CanTake(job, moment) && moment <= now
    ensures var h' := h.(claims := h.claims + 1, takeovers := h.takeovers + if job.status == Running then 1 else 0,
                         owedUntil := Some(moment + lease));
            JobHolds(Taken(job, worker, moment, lease), h', now)
  {
  }

  lemma AttemptKeeps(c: Cluster, worker: string, moment: int, ids: seq<nat>)
    requires Inv(c) && moment <= c.now && AreIds(c.jobs, ids)
    ensures Inv(Attempt(c, worker, moment, ids))
  {
    if ids != [] && CanTake(c.jobs[ids[0]], moment) {
      TakeHolds(c.jobs[ids[0]], c.history[ids[0]], worker, moment, c.lease, c.now);
    }
  }

  lemma SettleKeeps(c: Cluster, worker: string, id: nat, outcome: Option<P.ServiceError>)
    requires Inv(c) && id < |c.jobs|
    ensures Inv(SettleJob(c, worker, id, outcome))
  {
  }

  lemma ReclaimKeeps(c: Cluster, moment: int)
    requires Inv(c) && moment <= c.now
    ensures Inv(Apply(c, Reclaim(moment)))
  {
    var c' := Apply(c, Reclaim(moment));
    forall i | 0 <= i < |c'.jobs| ensures JobHolds(c'.jobs[i], c'.history[i], c'.now) {
      assert JobHolds(c.jobs[i], c.history[i], c.now);
    }
  }

  lemma MoveKeeps(c: Cluster, m: Move)
    requires Inv(c)
    ensures Inv(Apply(c, m))
  {
    match m
    case Tick(elapsed) =>
      forall i | 0 <= i < |c.jobs| ensures JobHolds(c.jobs[i], c.history[i], c.now + elapsed) {
        assert JobHolds(c.jobs[i], c.history[i], c.now);
      }
    case Enqueue(_, _, _, _) =>
    case Reclaim(moment) => if moment <= c.now { ReclaimKeeps(c, moment); }
    case Select(worker) =>
    case Try(worker) =>
      if worker in c.workers && c.workers[worker].Trying? {
        AttemptKeeps(c, worker, c.workers[worker].moment, c.workers[worker].ids);
      }
    case ClaimNow(worker) => if worker !in c.workers { AttemptKeeps(c, worker, c.now, Candidates(c.jobs, c.now)); }
    case Settle(worker, outcome) =>
      if worker in c.workers && c.workers[worker].Holding? { SettleKeeps(c, worker, c.workers[worker].id, outcome); }
    case Stop(worker) =>
  }

  function Start(now: int, lease: nat): Cluster {
    Cluster([], [], now, lease, map[])
  }

  lemma MoveForms(c: Cluster, m: Move)
    requires Shaped(c) && InTable(c)
    ensures Shaped(Apply(c, m)) && InTable(Apply(c, m))
  {
  }

  ghost function Run(c: Cluster, moves: seq<Move>): (r: Cluster)
    requires Shaped(c) && InTable(c)
    ensures Shaped(r) && InTable(r)
  {
    if moves == [] then c
    else
      var before := Run(c, moves[..|moves| - 1]);
      MoveForms(before, moves[|moves| - 1]);
      Apply(before, moves[|moves| - 1])
  }

  lemma {:induction false} RunKeeps(c: Cluster, moves: seq<Move>)
    requires Inv(c)
    ensures Inv(Run(c, moves))
  {
    if moves != [] {
      RunKeeps(c, moves[..|moves| - 1]);
      MoveKeeps(Run(c, moves[..|moves| - 1]), moves[|moves| - 1]);
    }
  }

  /** In every run, late settlements and stopped workers included: `attempts` counts the claims exactly, and a job is
      claimed no more often than its budget allows plus once for each expired lease that was taken over. */
  lemma {:induction false} ClaimsAreBounded(now: int, lease: nat, moves: seq<Move>, id: nat)
    requires id < |Run(Start(now, lease), moves).jobs|
    ensures var c := Run(Start(now, lease), moves);
            && id < |c.history| && c.jobs[id].attempts == c.history[id].claims
            && c.history[id].claims <= Budget(c.jobs[id]) + c.history[id].takeovers
            && (c.jobs[id].status == Pending ==> c.history[id].claims < Budget(c.jobs[id]) + c.history[id].takeovers)
  {
    var c := Run(Start(now, lease), moves);
    RunKeeps(Start(now, lease), moves);
    assert JobHolds(c.jobs[id], c.history[id], c.now);
  }

  predicate Claims(c: Cluster, m: Move, id: nat)
    requires Shaped(c) && InTable(c)
  {
    id < |c.jobs| && id < |Apply(c, m).jobs| && Apply(c, m).jobs[id].attempts != c.jobs[id].attempts
  }

  /** In every run, a job that nobody has settled since it was claimed is claimed again only after that claim's lease
      has ended: the two claims are at least one lease apart, counted from the moment the first one read. */
  lemma {:induction false} ClaimsAreALeaseApart(now: int, lease: nat, moves: seq<Move>, m: Move, id: nat)
    requires Claims(Run(Start(now, lease), moves), m, id)
    ensures var c := Run(Start(now, lease), moves);
            c.history[id].owedUntil.Some? ==> c.history[id].owedUntil.value <= c.now
  {
    var c := Run(Start(now, lease), moves);
    RunKeeps(Start(now, lease), moves);
    assert JobHolds(c.jobs[id], c.history[id], c.now);
    OnlyClaimsCount(c, m, id);
  }

  lemma OnlyClaimsCount(c: Cluster, m: Move, id: nat)
    requires Inv(c) && Claims(c, m, id)
    ensures m.Try? || m.ClaimNow?
    ensures exists moment :: moment <= c.now && CanTake(c.jobs[id], moment)
  {
    if m.ClaimNow? && m.worker !in c.workers {
      CandidatesAreDue(c.jobs, c.now);
      assert CanTake(c.jobs[id], c.now);
    }
    if m.Try? && m.worker in c.workers && c.workers[m.worker].Trying? {
      assert CanTake(c.jobs[id], c.workers[m.worker].moment);
    }
  }

  // ---------- Exclusion ----------

  /** The worker holds the job under a lease that has not run out. */
  predicate Live(c: Cluster, worker: string, id: nat) {
    worker in c.workers && c.workers[worker].Holding? && c.workers[worker].id == id && c.now < c.workers[worker].until
  }

  /** The lease of a live holder is the one in the row, and there is one such holder. */
  ghost predicate Exclusive(c: Cluster)
    requires InTable(c)
  {
    && (forall w, id: nat :: Live(c, w, id) ==> c.jobs[id].leaseExpiresAt == Some(c.workers[w].until))
    && (forall v, w, id: nat :: Live(c, v, id) && Live(c, w, id) ==> v == w)
  }

  /** A worker settles a job on which another one holds a live lease. */
  ghost predicate Trespasses(c: Cluster, m: Move) {
    m.Settle? && m.worker in c.workers && c.workers[m.worker].Holding? &&
    exists v :: v != m.worker && Live(c, v, c.workers[m.worker].id)
  }

  lemma AttemptExclusive(c: Cluster, worker: string, moment: int, ids: seq<nat>)
    requires Inv(c) && Exclusive(c) && moment <= c.now && AreIds(c.jobs, ids)
    requires worker in c.workers ==> c.workers[worker].Trying?
    ensures InTable(Attempt(c, worker, moment, ids)) && Exclusive(Attempt(c, worker, moment, ids))
  {
    var c' := Attempt(c, worker, moment, ids);
    if ids != [] && CanTake(c.jobs[ids[0]], moment) {
      var id := ids[0];
      assert forall w :: !Live(c, w, id);
      assert forall w, i: nat :: w != worker ==> (Live(c', w, i) <==> Live(c, w, i));
    } else {
      assert forall w, i: nat :: Live(c', w, i) ==> Live(c, w, i);
    }
  }

  lemma SettleExclusive(c: Cluster, worker: string, outcome: Option<P.ServiceError>)
    requires Inv(c) && Exclusive(c) && worker in c.workers && c.workers[worker].Holding?
    ensures var c' := SettleJob(c, worker, c.workers[worker].id, outcome);
            InTable(c') && (Exclusive(c') <==> !Trespasses(c, Settle(worker, outcome)))
  {
    var id := c.workers[worker].id;
    var c' := SettleJob(c, worker, id, outcome);
    forall w, i: nat ensures Live(c', w, i) <==> Live(c, w, i) && w != worker {
    }
    if v :| v != worker && Live(c, v, id) {
      assert Live(c', v, id) && c'.jobs[id].leaseExpiresAt.None?;
    }
  }

  /** One move keeps exclusion if and only if it does not trespass. */
  lemma ExclusiveUnlessTrespass(c: Cluster, m: Move)
    requires Inv(c) && Exclusive(c)
    ensures InTable(Apply(c, m))
    ensures Exclusive(Apply(c, m)) <==> !Trespasses(c, m)
  {
    var c' := Apply(c, m);
    match m
    case Try(worker) =>
      if worker in c.workers && c.workers[worker].Trying? {
        AttemptExclusive(c, worker, c.workers[worker].moment, c.workers[worker].ids);
      }
    case ClaimNow(worker) =>
      if worker !in c.workers { AttemptExclusive(c, worker, c.now, Candidates(c.jobs, c.now)); }
    case Settle(worker, outcome) =>
      if worker in c.workers && c.workers[worker].Holding? { SettleExclusive(c, worker, outcome); }
    case _ =>
      assert forall w, i: nat :: Live(c', w, i) ==> Live(c, w, i);
  }

  ghost predicate NoTrespass(c: Cluster, moves: seq<Move>)
    requires Shaped(c) && InTable(c)
  {
    moves == [] ||
    (NoTrespass(c, moves[..|moves| - 1]) && !Trespasses(Run(c, moves[..|moves| - 1]), moves[|moves| - 1]))
  }

  ghost predicate AlwaysExclusive(c: Cluster, moves: seq<Move>)
    requires Shaped(c) && InTable(c)
  {
    Exclusive(Run(c, moves)) && (moves == [] || AlwaysExclusive(c, moves[..|moves| - 1]))
  }

  lemma StartExclusive(now: int, lease: nat)
    ensures Inv(Start(now, lease)) && Exclusive(Start(now, lease))
  {
  }

  /** Lease exclusion, exactly: throughout a run the row names the live holder and there is one, if and only if nobody
      in the run settles a job that another worker holds live. */
  lemma {:induction false} ExclusiveExactlyWithoutTrespass(now: int, lease: nat, moves: seq<Move>)
    ensures AlwaysExclusive(Start(now, lease), moves) <==> NoTrespass(Start(now, lease), moves)
  {
    var start := Start(now, lease);
    StartExclusive(now, lease);
    if moves != [] {
      var before := moves[..|moves| - 1];
      ExclusiveExactlyWithoutTrespass(now, lease, before);
      if AlwaysExclusive(start, before) {
        assert Exclusive(Run(start, before));
        RunKeeps(start, before);
        ExclusiveUnlessTrespass(Run(start, before), moves[|moves| - 1]);
      }
    }
  }

  /** At most one worker holds a live lease on a job, however many workers query and update between each other's
      steps, stop, or come late to jobs that nobody else works on. */
  lemma {:induction false} AtMostOneLiveLease(
    now: int, lease: nat, moves: seq<Move>, v: string, w: string, id: nat)
    requires NoTrespass(Start(now, lease), moves)
    requires Live(Run(Start(now, lease), moves), v, id) && Live(Run(Start(now, lease), moves), w, id)
    ensures v == w
  {
    ExclusiveExactlyWithoutTrespass(now, lease, moves);
    assert Exclusive(Run(Start(now, lease), moves));
  }

  /** A worker that settles does so before its own lease has run out. */
  predicate Timely(c: Cluster, m: Move) {
    m.Settle? && m.worker in c.workers && c.workers[m.worker].Holding? ==> c.now < c.workers[m.worker].until
  }

  ghost predicate TimelyRun(c: Cluster, moves: seq<Move>)
    requires Shaped(c) && InTable(c)
  {
    moves == [] ||
    (TimelyRun(c, moves[..|moves| - 1]) && Timely(Run(c, moves[..|moves| - 1]), moves[|moves| - 1]))
  }

  /** What a worker can see to by itself is enough: who settles in time does not trespass. */
  lemma {:induction false} TimelyIsNoTrespass(now: int, lease: nat, moves: seq<Move>)
    requires TimelyRun(Start(now, lease), moves)
    ensures NoTrespass(Start(now, lease), moves)
  {
    if moves != [] {
      var before, m := moves[..|moves| - 1], moves[|moves| - 1];
      TimelyIsNoTrespass(now, lease, before);
      ExclusiveExactlyWithoutTrespass(now, lease, before);
      var c := Run(Start(now, lease), before);
      assert Exclusive(c);
      if m.Settle? && m.worker in c.workers && c.workers[m.worker].Holding? {
        assert Live(c, m.worker, c.workers[m.worker].id);
      }
    }
  }

  // ---------- Backoff over a whole run ----------

  /** A guarded update that takes this job finds it due. The query has seen to that, and the update does not look
      again. */
  predicate Punctual(c: Cluster, m: Move, id: nat)
    requires Shaped(c)
  {
    m.Try? && m.worker in c.workers && c.workers[m.worker].Trying? ==>
      var w := c.workers[m.worker];
      w.ids != [] && w.ids[0] == id && CanTake(c.jobs[id], w.moment) ==> c.jobs[id].runAt <= c.now
  }

  ghost predicate PunctualRun(c: Cluster, moves: seq<Move>, id: nat)
    requires Shaped(c) && InTable(c)
  {
    moves == [] ||
    (PunctualRun(c, moves[..|moves| - 1], id) && Punctual(Run(c, moves[..|moves| - 1]), moves[|moves| - 1], id))
  }

  /** Query and update in one step. */
  predicate Atomic(m: Move) { !m.Select? && !m.Try? }

  lemma {:induction false} AtomicIsPunctual(c: Cluster, moves: seq<Move>, id: nat)
    requires Shaped(c) && InTable(c) && forall m <- moves :: Atomic(m)
    ensures PunctualRun(c, moves, id)
  {
    if moves != [] {
      assert moves[|moves| - 1] in moves && forall m <- moves[..|moves| - 1] :: m in moves;
      AtomicIsPunctual(c, moves[..|moves| - 1], id);
    }
  }

  /** The moment before which the claim after `claims` earlier ones cannot come. */
  function Earliest(h: History, claims: nat): int {
    h.firstRun + BASE_BACKOFF * (Pow2(claims) - 1)
  }

  /** A job whose leases have never been taken over keeps the sum of the delays so far. */
  predicate Paced(job: Job, h: History, now: int) {
    h.takeovers == 0 ==>
      && (job.status == Pending ==> job.runAt >= Earliest(h, job.attempts))
      && (job.status == Running ==> job.attempts > 0 && now >= Earliest(h, job.attempts - 1))
  }

  predicate Holder(c: Cluster, worker: string, id: nat) {
    worker in c.workers && c.workers[worker].Holding? && c.workers[worker].id == id
  }

  ghost predicate HeldOnce(c: Cluster, id: nat)
    requires InTable(c)
  {
    && (forall w :: Holder(c, w, id) && c.history[id].takeovers == 0 ==> c.jobs[id].status == Running)
    && (forall v, w :: Holder(c, v, id) && Holder(c, w, id) && c.history[id].takeovers == 0 ==> v == w)
  }

  ghost predicate PacedJob(c: Cluster, id: nat)
    requires InTable(c)
  {
    HeldOnce(c, id) && (id < |c.jobs| ==> Paced(c.jobs[id], c.history[id], c.now))
  }

  lemma FailurePaced(job: Job, h: History, now: int, error: P.ServiceError)
    requires Paced(job, h, now) && h.takeovers == 0 && job.status == Running
    ensures Paced(FailedWith(job, error, now), h.(owedUntil := None), now)
  {
    assert Pow2(job.attempts) == 2 * Pow2(job.attempts - 1);
  }

  lemma AttemptPaced(c: Cluster, worker: string, moment: int, ids: seq<nat>, id: nat)
    requires Inv(c) && PacedJob(c, id) && AreIds(c.jobs, ids)
    requires worker in c.workers ==> c.workers[worker].Trying?
    requires ids != [] && ids[0] == id && CanTake(c.jobs[id], moment) ==> c.jobs[id].runAt <= c.now
    ensures var c' := Attempt(c, worker, moment, ids); InTable(c') && PacedJob(c', id)
  {
    var c' := Attempt(c, worker, moment, ids);
    assert forall w :: w != worker ==> (Holder(c', w, id) <==> Holder(c, w, id));
  }

  lemma SettlePaced(c: Cluster, worker: string, outcome: Option<P.ServiceError>, id: nat)
    requires Inv(c) && PacedJob(c, id) && worker in c.workers && c.workers[worker].Holding?
    ensures var c' := SettleJob(c, worker, c.workers[worker].id, outcome); InTable(c') && PacedJob(c', id)
  {
    var c' := SettleJob(c, worker, c.workers[worker].id, outcome);
    assert forall w :: Holder(c', w, id) ==> Holder(c, w, id) && w != worker;
    if c.workers[worker].id == id {
      assert Holder(c, worker, id);
      if outcome.Some? && c.history[id].takeovers == 0 {
        FailurePaced(c.jobs[id], c.history[id], c.now, outcome.value);
      }
    }
  }

  lemma MovePaced(c: Cluster, m: Move, id: nat)
    requires Inv(c) && PacedJob(c, id) && Punctual(c, m, id)
    ensures InTable(Apply(c, m)) && PacedJob(Apply(c, m), id)
  {
    if m.ClaimNow? && m.worker !in c.workers {
      CandidatesAreDue(c.jobs, c.now);
      AttemptPaced(c, m.worker, c.now, Candidates(c.jobs, c.now), id);
    } else if m.Try? && m.worker in c.workers && c.workers[m.worker].Trying? {
      AttemptPaced(c, m.worker, c.workers[m.worker].moment, c.workers[m.worker].ids, id);
    } else if m.Settle? && m.worker in c.workers && c.workers[m.worker].Holding? {
      SettlePaced(c, m.worker, m.outcome, id);
    } else {
      assert forall w :: Holder(Apply(c, m), w, id) ==> Holder(c, w, id);
    }
  }

  lemma {:induction false} RunPaced(now: int, lease: nat, moves: seq<Move>, id: nat)
    requires PunctualRun(Start(now, lease), moves, id)
    ensures PacedJob(Run(Start(now, lease), moves), id)
  {
    if moves != [] {
      var n := |moves| - 1;
      RunPaced(now, lease, moves[..n], id);
      RunKeeps(Start(now, lease), moves[..n]);
      MovePaced(Run(Start(now, lease), moves[..n]), moves[n], id);
    }
  }

  lemma ClaimTakes(c: Cluster, m: Move, id: nat)
    requires Inv(c) && Claims(c, m, id)
    ensures var c' := Apply(c, m);
            c'.jobs[id].status == Running && c'.now == c.now && c'.history[id].firstRun == c.history[id].firstRun
  {
    OnlyClaimsCount(c, m, id);
  }

  lemma ClaimBacksOff(c: Cluster, m: Move, id: nat)
    requires Inv(c) && PacedJob(c, id) && Punctual(c, m, id) && Claims(c, m, id)
    requires Apply(c, m).history[id].takeovers == 0
    ensures var n := Apply(c, m).jobs[id].attempts; n > 0 && c.now >= Earliest(c.history[id], n - 1)
  {
    hide JobHolds, HeldOnce, Candidates, Apply;
    ClaimTakes(c, m, id);
    MovePaced(c, m, id);
    var c' := Apply(c, m);
    assert Paced(c'.jobs[id], c'.history[id], c'.now);
  }

  /** Backoff over a whole run, with any number of workers between each other's queries and updates: as long as no
      update takes this job before its `run_at`, and none of its leases has been taken over, its n-th claim comes no
      earlier than its first run time plus base * (2^(n-1) - 1), the sum of the doubling delays. */
  lemma {:induction false} ClaimsBackOff(now: int, lease: nat, moves: seq<Move>, m: Move, id: nat)
    requires PunctualRun(Start(now, lease), moves, id) && Punctual(Run(Start(now, lease), moves), m, id)
    requires Claims(Run(Start(now, lease), moves), m, id)
    requires Apply(Run(Start(now, lease), moves), m).history[id].takeovers == 0
    ensures var c := Run(Start(now, lease), moves);
            var n := Apply(c, m).jobs[id].attempts;
            n > 0 && c.now >= Earliest(c.history[id], n - 1)
  {
    hide PacedJob, Apply, Punctual;
    RunPaced(now, lease, moves, id);
    RunKeeps(Start(now, lease), moves);
    ClaimBacksOff(Run(Start(now, lease), moves), m, id);
  }

  /** With claims in one step, nothing is left to assume about them. */
  lemma {:induction false} AtomicClaimsBackOff(now: int, lease: nat, moves: seq<Move>, m: Move, id: nat)
    requires forall x <- moves + [m] :: Atomic(x)
    requires Claims(Run(Start(now, lease), moves), m, id)
    requires Apply(Run(Start(now, lease), moves), m).history[id].takeovers == 0
    ensures var c := Run(Start(now, lease), moves);
            var n := Apply(c, m).jobs[id].attempts;
            n > 0 && c.now >= Earliest(c.history[id], n - 1)
  {
    hide PacedJob, Apply;
    assert m in moves + [m] && forall x <- moves :: x in moves + [m];
    AtomicIsPunctual(Start(now, lease), moves, id);
    ClaimsBackOff(now, lease, moves, m, id);
  }

  // ---------- What the hypotheses are for ----------

  predicate Terminal(job: Job) { job.status == Succeeded || job.status == Failed }

  /** A worker that still takes itself for the holder settles a job to something else than it is. */
  predicate Overrules(c: Cluster, m: Move, id: nat)
    requires id < |c.jobs|
  {
    m.Settle? && Holder(c, m.worker, id) && SettledWith(c.jobs[id], m.outcome, c.now) != c.jobs[id]
  }

  /** A settled job is changed by a holder that settles it again, and by nothing else. */
  lemma SettledStaysUnlessOverruled(c: Cluster, m: Move, id: nat)
    requires Inv(c) && id < |c.jobs| && Terminal(c.jobs[id])
    ensures id < |Apply(c, m).jobs|
    ensures Apply(c, m).jobs[id] == c.jobs[id] <==> !Overrules(c, m, id)
  {
    assert JobHolds(c.jobs[id], c.history[id], c.now);
  }

  ghost predicate NotOverruled(c: Cluster, moves: seq<Move>, id: nat)
    requires Shaped(c) && InTable(c)
  {
    moves == [] ||
    (NotOverruled(c, moves[..|moves| - 1], id) &&
     var before := Run(c, moves[..|moves| - 1]);
     id < |before.jobs| && !Overrules(before, moves[|moves| - 1], id))
  }

  ghost predicate Stands(c: Cluster, moves: seq<Move>, id: nat)
    requires Shaped(c) && InTable(c) && id < |c.jobs|
  {
    && id < |Run(c, moves).jobs| && Run(c, moves).jobs[id] == c.jobs[id]
    && (moves == [] || Stands(c, moves[..|moves| - 1], id))
  }

  /** From any reachable state on, a job that has succeeded or failed stays as it is throughout, if and only if no
      holder from before settles it again. */
  lemma {:induction false} SettledIsFinal(c: Cluster, moves: seq<Move>, id: nat)
    requires Inv(c) && id < |c.jobs| && Terminal(c.jobs[id])
    ensures Stands(c, moves, id) <==> NotOverruled(c, moves, id)
  {
    if moves != [] {
      var before := moves[..|moves| - 1];
      SettledIsFinal(c, before, id);
      if Stands(c, before, id) {
        RunKeeps(c, before);
        assert id < |Run(c, before).jobs| && Run(c, before).jobs[id] == c.jobs[id];
        SettledStaysUnlessOverruled(Run(c, before), moves[|moves| - 1], id);
      }
    }
  }

  /** In time means in time here too: while leases exclude, a timely settlement never meets a settled job. */
  lemma TimelyDoesNotOverrule(c: Cluster, m: Move, id: nat)
    requires Inv(c) && Exclusive(c) && id < |c.jobs| && Terminal(c.jobs[id]) && Timely(c, m)
    ensures !Overrules(c, m, id)
  {
    LiveMeansRunning(c);
  }

  lemma LiveMeansRunning(c: Cluster)
    requires Inv(c) && Exclusive(c)
    ensures forall w <- c.workers :: c.workers[w].Holding? && c.now < c.workers[w].until ==>
                                       c.jobs[c.workers[w].id].status == Running
  {
    forall w | w in c.workers && c.workers[w].Holding? && c.now < c.workers[w].until
      ensures c.jobs[c.workers[w].id].status == Running
    {
      assert Live(c, w, c.workers[w].id);
      assert JobHolds(c.jobs[c.workers[w].id], c.history[c.workers[w].id], c.now);
    }
  }

  /** In a run without late settlements, a job stays as it was settled. */
  lemma {:induction false} TimelyRunIsFinal(now: int, lease: nat, moves: seq<Move>, later: seq<Move>, id: nat)
    requires TimelyRun(Start(now, lease), moves) && TimelyRun(Run(Start(now, lease), moves), later)
    requires var c := Run(Start(now, lease), moves); id < |c.jobs| && Terminal(c.jobs[id])
    ensures var c := Run(Start(now, lease), moves); Exclusive(Run(c, later)) && Stands(c, later, id)
  {
    var c := Run(Start(now, lease), moves);
    RunKeeps(Start(now, lease), moves);
    if later == [] {
      TimelyIsNoTrespass(now, lease, moves);
      ExclusiveExactlyWithoutTrespass(now, lease, moves);
    } else {
      var before, m := later[..|later| - 1], later[|later| - 1];
      TimelyRunIsFinal(now, lease, moves, before, id);
      RunKeeps(c, before);
      TimelyKeepsExclusive(Run(c, before), m);
      TimelyDoesNotOverrule(Run(c, before), m, id);
      SettledStaysUnlessOverruled(Run(c, before), m, id);
    }
  }

  lemma TimelyKeepsExclusive(c: Cluster, m: Move)
    requires Inv(c) && Exclusive(c) && Timely(c, m)
    ensures InTable(Apply(c, m)) && Exclusive(Apply(c, m))
  {
    ExclusiveUnlessTrespass(c, m);
    if m.Settle? && m.worker in c.workers && c.workers[m.worker].Holding? {
      assert Live(c, m.worker, c.workers[m.worker].id);
    }
  }

  /** One more move, and what it leads to. */
  lemma Then(start: Cluster, moves: seq<Move>, c: Cluster, m: Move) returns (moves': seq<Move>, c': Cluster)
    requires Shaped(start) && InTable(start) && c == Run(start, moves)
    ensures Shaped(c) && InTable(c) && c' == Apply(c, m) && c' == Run(start, moves')
    ensures TimelyRun(start, moves) && Timely(c, m) ==> TimelyRun(start, moves')
    ensures NoTrespass(start, moves) && !Trespasses(c, m) ==> NoTrespass(start, moves')
  {
    moves' := moves + [m];
    assert moves'[..|moves|] == moves;
    c' := Run(start, moves');
  }

  lemma OneJobIsCandidate(c: Cluster, moment: int)
    requires |c.jobs| == 1
    ensures Candidates(c.jobs, moment) == if Claimable(c.jobs[0], moment) then [0] else []
  {
    assert Due(c.jobs, moment, 0) == [];
    assert Due(c.jobs, moment, 1) == if Claimable(c.jobs[0], moment) then [0] else [];
  }

  lemma FirstDelay(job: Job, moment: int)
    requires job.maxAttempts == 4 && 1 <= job.attempts <= 2
    ensures FailedWith(job, P.Provider(P.ProviderTimeout), moment) ==
            job.(lastError := Some(P.Provider(P.ProviderTimeout)), leaseExpiresAt := None, lockedBy := None,
                 status := Pending, runAt := moment + job.attempts * BASE_BACKOFF)
  {
    assert Pow2(0) == 1 && Pow2(1) == 2 * Pow2(0);
  }

  lemma TimeoutPutsBack(c: Cluster, worker: string)
    requires Shaped(c) && InTable(c) && |c.jobs| == 1 && c.jobs[0].maxAttempts == 4 && 1 <= c.jobs[0].attempts <= 2
    requires worker in c.workers && c.workers[worker].Holding?
    ensures Apply(c, Settle(worker, TIMEOUT)) ==
            Idle(c, worker).(
              jobs := [c.jobs[0].(lastError := TIMEOUT, leaseExpiresAt := None, lockedBy := None, status := Pending,
                                  runAt := c.now + c.jobs[0].attempts * BASE_BACKOFF)],
              history := [c.history[0].(owedUntil := None)])
  {
    hide FailedWith, Backoff;
    FirstDelay(c.jobs[0], c.now);
  }

  const TIMEOUT: Option<P.ServiceError> := Some(P.Provider(P.ProviderTimeout))
  const LEASE: nat := 60_000_000

  function Row(d: DocumentId, status: JobStatus, attempts: nat, runAt: int, lease: Option<int>, holder: Option<string>)
    : Job
  {
    Job(ExtractJob, d, status, attempts, 4, runAt, lease, holder, None, None)
  }

  lemma TwoClaimALease(d: DocumentId) returns (moves: seq<Move>, c: Cluster)
    ensures c == Run(Start(0, LEASE), moves) && TimelyRun(Start(0, LEASE), moves)
    ensures c.now == LEASE && c.lease == LEASE
    ensures c.jobs == [Row(d, Running, 2, 0, Some(2 * LEASE), Some("b"))]
    ensures c.workers == map["a" := Holding(0, LEASE), "b" := Holding(0, 2 * LEASE)]
  {
    var start := Start(0, LEASE);
    moves, c := [], start;
    assert c == Run(start, moves);
    hide Inv, Candidates, Run;
    moves, c := Then(start, moves, c, Enqueue(ExtractJob, d, 0, 4));
    OneJobIsCandidate(c, 0);
    moves, c := Then(start, moves, c, ClaimNow("a"));
    assert c.jobs == [Row(d, Running, 1, 0, Some(LEASE), Some("a"))];
    moves, c := Then(start, moves, c, Tick(LEASE));
    OneJobIsCandidate(c, LEASE);
    moves, c := Then(start, moves, c, ClaimNow("b"));
  }

  /** `fail` does not look at who holds the lease: a worker that comes late puts the job back while another works on
      it, and a third claims it. One late settlement, and two live leases on one job. */
  lemma LateSettlementBreaksExclusion(d: DocumentId) returns (moves: seq<Move>, c: Cluster)
    ensures c == Run(Start(0, LEASE), moves)
    ensures Live(c, "b", 0) && Live(c, "c", 0)
  {
    var start := Start(0, LEASE);
    hide Inv, FailedWith, Backoff, Candidates, Run;
    moves, c := TwoClaimALease(d);
    TimeoutPutsBack(c, "a");
    moves, c := Then(start, moves, c, Settle("a", TIMEOUT));
    assert c.jobs == [Row(d, Pending, 2, LEASE + 2 * BASE_BACKOFF, None, None).(lastError := TIMEOUT)];
    moves, c := Then(start, moves, c, Tick(2 * BASE_BACKOFF));
    OneJobIsCandidate(c, c.now);
    moves, c := Then(start, moves, c, ClaimNow("c"));
  }

  /** And a job that has succeeded goes back to the queue without any trespass: the late worker meets nobody. */
  lemma LateSettlementReopens(d: DocumentId) returns (moves: seq<Move>, c: Cluster, late: Move)
    ensures c == Run(Start(0, LEASE), moves) && NoTrespass(Start(0, LEASE), moves) && !Trespasses(c, late)
    ensures |c.jobs| == 1 == |Apply(c, late).jobs|
    ensures c.jobs[0].status == Succeeded && Apply(c, late).jobs[0].status == Pending
  {
    var start := Start(0, LEASE);
    moves, c := TwoClaimALease(d);
    TimelyIsNoTrespass(0, LEASE, moves);
    hide Inv, FailedWith, Backoff, Candidates, Run;
    moves, c := Then(start, moves, c, Settle("b", None));
    late := Settle("a", TIMEOUT);
    TimeoutPutsBack(c, "a");
  }

  lemma OneSelectsOneClaims(d: DocumentId) returns (moves: seq<Move>, c: Cluster)
    ensures c == Run(Start(0, LEASE), moves) && TimelyRun(Start(0, LEASE), moves)
    ensures c.now == 0 && c.jobs == [Row(d, Running, 1, 0, Some(LEASE), Some("a"))]
    ensures c.history == [History(1, 0, Some(LEASE), 0)]
    ensures c.workers == map["b" := Trying(0, [0]), "a" := Holding(0, LEASE)]
  {
    var start := Start(0, LEASE);
    moves, c := [], start;
    assert c == Run(start, moves);
    hide Inv, Candidates, Run;
    moves, c := Then(start, moves, c, Enqueue(ExtractJob, d, 0, 4));
    OneJobIsCandidate(c, 0);
    moves, c := Then(start, moves, c, Select("b"));
    assert c.jobs == [Row(d, Pending, 0, 0, None, None)];
    OneJobIsCandidate(c, 0);
    moves, c := Then(start, moves, c, ClaimNow("a"));
  }

  /** The guarded update does not look at `run_at`: a worker whose candidates are out of date claims a job during its
      backoff. No lease was taken over and nobody settled late; only the claim was not atomic. */
  lemma {:induction false} StaleCandidateClaimsEarly(d: DocumentId) returns (moves: seq<Move>, c: Cluster)
    ensures c == Run(Start(0, LEASE), moves) && TimelyRun(Start(0, LEASE), moves)
    ensures |c.jobs| == 1 && Claims(c, Try("b"), 0) && Apply(c, Try("b")).history[0].takeovers == 0
    ensures !Punctual(c, Try("b"), 0) && c.now < c.jobs[0].runAt && c.now < Earliest(c.history[0], 1)
  {
    moves, c := OneSelectsOneClaims(d);
    hide Inv, FailedWith, Backoff, Candidates, Run;
    TimeoutPutsBack(c, "a");
    moves, c := Then(Start(0, LEASE), moves, c, Settle("a", TIMEOUT));
    assert c.jobs == [Row(d, Pending, 1, BASE_BACKOFF, None, None).(lastError := TIMEOUT)];
    assert Pow2(1) == 2 * Pow2(0);
  }
}
