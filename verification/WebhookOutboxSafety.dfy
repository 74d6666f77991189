/** What every run of workers, claims, crashes and recorded attempts keeps. */
module WebhookOutboxSafety {
  import opened Wrappers
  import opened WebhookOutbox

  /** The recorded attempts of one job, in order. */
  function Attempts(deliveries: seq<Delivery>, id: JobId): seq<Delivery> {
    if deliveries == [] then []
    else
      var last := deliveries[|deliveries| - 1];
      Attempts(deliveries[..|deliveries| - 1], id) + if last.job == id then [last] else []
  }

  /** No more attempts than this; the first is always allowed. */
  function Limit(maxAttempts: int): nat {
    if maxAttempts < 1 then 1 else maxAttempts
  }

  predicate Final(status: Status) {
    status == Delivered || status == Failed
  }

  /** The rows of a job's attempts are numbered 1, 2, ..., up to its count; all
      but the last ask for a retry, and the last agrees with the job's status. */
  ghost predicate Numbered(rows: seq<Delivery>, job: Job) {
    && |rows| == job.attempts
    && (forall k | 0 <= k < |rows| :: rows[k].number == k + 1)
    && (forall k | 0 <= k < |rows| - 1 :: rows[k].status == AttemptRetry)
    && (rows != [] ==>
          rows[|rows| - 1].status ==
          (match job.status case Delivered => AttemptDelivered case Failed => AttemptFailed case _ => AttemptRetry))
  }

  ghost predicate JobOk(rows: seq<Delivery>, job: Job, maxAttempts: int) {
    && (job.status == Processing <==> job.owner.Some?)
    && Numbered(rows, job)
    && (if Final(job.status) then 1 <= job.attempts <= Limit(maxAttempts) else job.attempts < Limit(maxAttempts))
  }

  ghost predicate JobsOk(store: Store, maxAttempts: int) {
    && (forall id | id in store.jobs :: JobOk(Attempts(store.deliveries, id), store.jobs[id], maxAttempts))
    && (forall d | d in store.deliveries :: d.job in store.jobs)
  }

  /** An unexpired holding is the lease in the row, and a holding of the present owner is up to date. */
  ghost predicate HoldingOk(s: System, h: Holding) {
    && h.job in s.store.jobs && h.worker !in s.dead
    && (h.until > s.clock ==> Owns(s.store.jobs, h.job, h.worker))
    && (Owns(s.store.jobs, h.job, h.worker) ==>
          s.store.jobs[h.job].leaseUntil == h.until && s.store.jobs[h.job].attempts == h.attemptCount)
  }

  ghost predicate HoldingsOk(s: System) {
    && (forall h | h in s.inFlight :: HoldingOk(s, h))
    && (forall h, h' | h in s.inFlight && h' in s.inFlight && h.worker == h'.worker && h.job == h'.job :: h == h')
  }

  ghost predicate Inv(s: System, maxAttempts: int) {
    JobsOk(s.store, maxAttempts) && HoldingsOk(s)
  }

  lemma AttemptsOfOneMore(deliveries: seq<Delivery>, d: Delivery, id: JobId)
    ensures Attempts(deliveries + [d], id) == if d.job == id then Attempts(deliveries, id) + [d]
              else Attempts(deliveries, id)
  {
    assert (deliveries + [d])[..|deliveries|] == deliveries;
    assert Attempts(deliveries, id) + [] == Attempts(deliveries, id);
  }

  lemma {:induction false} NoAttemptsYet(deliveries: seq<Delivery>, id: JobId)
    requires forall d | d in deliveries :: d.job != id
    ensures Attempts(deliveries, id) == []
  {
    if deliveries != [] {
      assert deliveries[|deliveries| - 1] in deliveries;
      NoAttemptsYet(deliveries[..|deliveries| - 1], id);
    }
  }

  lemma OneAttemptMore(rows: seq<Delivery>, job: Job, maxAttempts: int, id: JobId, outcome: Outcome, retryAt: nat)
    requires JobOk(rows, job, maxAttempts) && job.status == Processing
    ensures var status := AttemptOf(outcome, job.attempts + 1, maxAttempts);
            JobOk(rows + [Delivery(id, job.attempts + 1, status)], JobAfter(job, job.attempts + 1, status, retryAt),
                  maxAttempts)
  {
  }

  lemma RecordedRowsOk(store: Store, t: Store, maxAttempts: int, id: JobId, outcome: Outcome, retryAt: nat)
    requires JobsOk(store, maxAttempts) && id in store.jobs && store.jobs[id].status == Processing
    requires var number := store.jobs[id].attempts + 1;
             var status := AttemptOf(outcome, number, maxAttempts);
             t == Store(store.jobs[id := JobAfter(store.jobs[id], number, status, retryAt)],
                        store.deliveries + [Delivery(id, number, status)])
    ensures JobsOk(t, maxAttempts)
  {
    var number := store.jobs[id].attempts + 1;
    var d := Delivery(id, number, AttemptOf(outcome, number, maxAttempts));
    forall x | x in t.jobs
      ensures JobOk(Attempts(t.deliveries, x), t.jobs[x], maxAttempts)
    {
      assert JobOk(Attempts(store.deliveries, x), store.jobs[x], maxAttempts);
      AttemptsOfOneMore(store.deliveries, d, x);
      if x == id {
        OneAttemptMore(Attempts(store.deliveries, x), store.jobs[x], maxAttempts, x, outcome, retryAt);
      }
    }
    forall x | x in t.deliveries
      ensures x.job in t.jobs
    {
      assert x in store.deliveries || x == d;
    }
  }

  lemma RecordKeepsJobs(store: Store, maxAttempts: int, h: Holding, outcome: Outcome, retryAt: nat)
    requires JobsOk(store, maxAttempts)
             && (Owns(store.jobs, h.job, h.worker) ==> store.jobs[h.job].attempts == h.attemptCount)
    ensures var number := h.attemptCount + 1;
            JobsOk(Recorded(store, h.job, h.worker, number, AttemptOf(outcome, number, maxAttempts), retryAt),
                   maxAttempts)
  {
    if Owns(store.jobs, h.job, h.worker) {
      var number := h.attemptCount + 1;
      RecordedRowsOk(store, Recorded(store, h.job, h.worker, number, AttemptOf(outcome, number, maxAttempts), retryAt),
                     maxAttempts, h.job, outcome, retryAt);
    }
  }

  lemma ClaimKeepsJobs(store: Store, maxAttempts: int, chosen: seq<JobId>, worker: WorkerId, now: nat, until: nat)
    requires JobsOk(store, maxAttempts)
    ensures JobsOk(store.(jobs := Claimed(store.jobs, chosen, worker, now, until)), maxAttempts)
  {
    forall id | id in store.jobs
      ensures JobOk(Attempts(store.deliveries, id), Claimed(store.jobs, chosen, worker, now, until)[id], maxAttempts)
    {
      assert JobOk(Attempts(store.deliveries, id), store.jobs[id], maxAttempts);
    }
  }

  lemma EnqueueKeepsInv(s: System, maxAttempts: int, id: JobId, timestamp: nat)
    requires Inv(s, maxAttempts)
    ensures Inv(Apply(s, maxAttempts, Enqueue(id, timestamp)), maxAttempts)
  {
    if id !in s.store.jobs {
      NoAttemptsYet(s.store.deliveries, id);
      var t := Apply(s, maxAttempts, Enqueue(id, timestamp));
      forall h | h in t.inFlight
        ensures HoldingOk(t, h)
      {
        assert HoldingOk(s, h);
      }
    }
  }

  lemma ClaimKeepsHoldings(s: System, maxAttempts: int, worker: WorkerId, limit: int, chosen: seq<JobId>)
    requires Inv(s, maxAttempts)
    ensures HoldingsOk(Apply(s, maxAttempts, Claim(worker, limit, chosen)))
  {
    var t := Apply(s, maxAttempts, Claim(worker, limit, chosen));
    if t != s {
      forall h | h in t.inFlight
        ensures HoldingOk(t, h)
      {
        if h in s.inFlight {
          assert HoldingOk(s, h) && h.worker != worker;
        } else {
          assert h in Taken(s, worker, chosen);
        }
      }
    }
  }

  lemma FinishKeepsHoldings(s: System, maxAttempts: int, h: Holding, outcome: Outcome, retryAt: nat)
    requires Inv(s, maxAttempts) && h in s.inFlight
    ensures HoldingsOk(Apply(s, maxAttempts, Finish(h, outcome, retryAt)))
  {
    var t := Apply(s, maxAttempts, Finish(h, outcome, retryAt));
    forall x | x in t.inFlight
      ensures HoldingOk(t, x)
    {
      assert HoldingOk(s, x) && HoldingOk(s, h) && x != h;
    }
  }

  lemma ClaimKeepsStoredJobs(s: System, maxAttempts: int, worker: WorkerId, limit: int, chosen: seq<JobId>)
    requires JobsOk(s.store, maxAttempts)
    ensures JobsOk(Apply(s, maxAttempts, Claim(worker, limit, chosen)).store, maxAttempts)
  {
    var claimed := s.store.(jobs := Claimed(s.store.jobs, chosen, worker, s.clock, s.clock + LEASE_MS));
    assert JobsOk(claimed, maxAttempts) by {
      ClaimKeepsJobs(s.store, maxAttempts, chosen, worker, s.clock, s.clock + LEASE_MS);
    }
    var t := Apply(s, maxAttempts, Claim(worker, limit, chosen)).store;
    assert t == s.store || t == claimed;
  }

  lemma ClaimKeepsInv(s: System, maxAttempts: int, worker: WorkerId, limit: int, chosen: seq<JobId>)
    requires Inv(s, maxAttempts)
    ensures Inv(Apply(s, maxAttempts, Claim(worker, limit, chosen)), maxAttempts)
  {
    ClaimKeepsStoredJobs(s, maxAttempts, worker, limit, chosen);
    ClaimKeepsHoldings(s, maxAttempts, worker, limit, chosen);
  }

  lemma FinishKeepsJobs(s: System, maxAttempts: int, h: Holding, outcome: Outcome, retryAt: nat)
    requires JobsOk(s.store, maxAttempts) && h in s.inFlight
    requires Owns(s.store.jobs, h.job, h.worker) ==> s.store.jobs[h.job].attempts == h.attemptCount
    ensures JobsOk(Apply(s, maxAttempts, Finish(h, outcome, retryAt)).store, maxAttempts)
  {
    var number := h.attemptCount + 1;
    var t := Recorded(s.store, h.job, h.worker, number, AttemptOf(outcome, number, maxAttempts), retryAt);
    assert Apply(s, maxAttempts, Finish(h, outcome, retryAt)).store == t;
    assert JobsOk(t, maxAttempts) by {
      RecordKeepsJobs(s.store, maxAttempts, h, outcome, retryAt);
    }
  }

  lemma FinishKeepsInv(s: System, maxAttempts: int, h: Holding, outcome: Outcome, retryAt: nat)
    requires Inv(s, maxAttempts)
    ensures Inv(Apply(s, maxAttempts, Finish(h, outcome, retryAt)), maxAttempts)
  {
    if h in s.inFlight {
      assert HoldingOk(s, h);
      FinishKeepsJobs(s, maxAttempts, h, outcome, retryAt);
      FinishKeepsHoldings(s, maxAttempts, h, outcome, retryAt);
    }
  }

  lemma OthersKeepInv(s: System, maxAttempts: int, step: Step)
    requires Inv(s, maxAttempts) && (step.Wait? || step.Lose? || step.Die?)
    ensures Inv(Apply(s, maxAttempts, step), maxAttempts)
  {
    FewerHoldings(s, Apply(s, maxAttempts, step));
  }

  lemma StepKeepsInv(s: System, maxAttempts: int, step: Step)
    requires Inv(s, maxAttempts)
    ensures Inv(Apply(s, maxAttempts, step), maxAttempts)
  {
    match step
    case Enqueue(id, timestamp) => EnqueueKeepsInv(s, maxAttempts, id, timestamp);
    case Claim(worker, limit, chosen) => ClaimKeepsInv(s, maxAttempts, worker, limit, chosen);
    case Finish(h, outcome, retryAt) => FinishKeepsInv(s, maxAttempts, h, outcome, retryAt);
    case Wait(_) => OthersKeepInv(s, maxAttempts, step);
    case Lose(_) => OthersKeepInv(s, maxAttempts, step);
    case Die(_) => OthersKeepInv(s, maxAttempts, step);
  }

  lemma FewerHoldings(s: System, t: System)
    requires HoldingsOk(s) && t.store == s.store && t.inFlight <= s.inFlight && t.clock >= s.clock
    requires forall h | h in t.inFlight :: h.worker !in t.dead
    ensures HoldingsOk(t)
  {
    forall h | h in t.inFlight
      ensures HoldingOk(t, h)
    {
      assert HoldingOk(s, h);
    }
  }

  lemma {:induction false} RunKeepsInv(s: System, maxAttempts: int, steps: seq<Step>)
    requires Inv(s, maxAttempts)
    ensures Inv(Run(s, maxAttempts, steps), maxAttempts)
  {
    if steps != [] {
      RunKeepsInv(s, maxAttempts, steps[..|steps| - 1]);
      StepKeepsInv(Run(s, maxAttempts, steps[..|steps| - 1]), maxAttempts, steps[|steps| - 1]);
    }
  }

  // ----- the promises -----

  /** No job is held under two unexpired claims. */
  lemma OneUnexpiredClaim(maxAttempts: int, steps: seq<Step>, h: Holding, h': Holding)
    requires var s := Run(INIT, maxAttempts, steps);
             h in s.inFlight && h' in s.inFlight && h.job == h'.job && h.until > s.clock && h'.until > s.clock
    ensures h == h'
  {
    RunKeepsInv(INIT, maxAttempts, steps);
    var s := Run(INIT, maxAttempts, steps);
    assert HoldingOk(s, h) && HoldingOk(s, h');
  }

  /** What finishing an attempt does to the store. */
  ghost predicate RecordsNext(s: System, t: System, maxAttempts: int, h: Holding, outcome: Outcome) {
    if Owns(s.store.jobs, h.job, h.worker) then
      var number := s.store.jobs[h.job].attempts + 1;
      && t.store.deliveries == s.store.deliveries + [Delivery(h.job, number, AttemptOf(outcome, number, maxAttempts))]
      && h.job in t.store.jobs && t.store.jobs[h.job].attempts == number && !Owns(t.store.jobs, h.job, h.worker)
    else t.store == s.store
  }

  lemma FinishRecordsNext(s: System, maxAttempts: int, h: Holding, outcome: Outcome, retryAt: nat)
    requires h in s.inFlight && HoldingOk(s, h)
    ensures RecordsNext(s, Apply(s, maxAttempts, Finish(h, outcome, retryAt)), maxAttempts, h, outcome)
  {
  }

  /** An attempt is recorded just when its worker still owns the job, under the
      number that follows the recorded ones, and gives the job up; otherwise
      nothing in the store changes. */
  lemma OnlyTheOwnerRecords(maxAttempts: int, steps: seq<Step>, h: Holding, outcome: Outcome, retryAt: nat)
    requires h in Run(INIT, maxAttempts, steps).inFlight
    ensures var s := Run(INIT, maxAttempts, steps);
            RecordsNext(s, Apply(s, maxAttempts, Finish(h, outcome, retryAt)), maxAttempts, h, outcome)
  {
    RunKeepsInv(INIT, maxAttempts, steps);
    FinishRecordsNext(Run(INIT, maxAttempts, steps), maxAttempts, h, outcome, retryAt);
  }

  /** While its lease has not expired, the holder of a claim can record. */
  lemma UnexpiredHolderRecords(maxAttempts: int, steps: seq<Step>, h: Holding)
    requires var s := Run(INIT, maxAttempts, steps); h in s.inFlight && h.until > s.clock
    ensures Owns(Run(INIT, maxAttempts, steps).store.jobs, h.job, h.worker)
  {
    RunKeepsInv(INIT, maxAttempts, steps);
    assert HoldingOk(Run(INIT, maxAttempts, steps), h);
  }

  /** The attempts recorded for a job are exactly 1 to its attempt count, which stays within the limit. */
  lemma AttemptsAreNumbered(maxAttempts: int, steps: seq<Step>, id: JobId)
    requires id in Run(INIT, maxAttempts, steps).store.jobs
    ensures var store := Run(INIT, maxAttempts, steps).store;
            Numbered(Attempts(store.deliveries, id), store.jobs[id]) && store.jobs[id].attempts <= Limit(maxAttempts)
  {
    RunKeepsInv(INIT, maxAttempts, steps);
    var store := Run(INIT, maxAttempts, steps).store;
    assert JobOk(Attempts(store.deliveries, id), store.jobs[id], maxAttempts);
  }

  lemma OthersLeaveStore(s: System, maxAttempts: int, step: Step)
    requires !step.Enqueue? && !step.Claim? && !step.Finish?
    ensures Apply(s, maxAttempts, step).store == s.store
  {
  }

  lemma ClaimLeavesFinal(s: System, maxAttempts: int, step: Step, id: JobId)
    requires step.Claim? && id in s.store.jobs
    ensures var t := Apply(s, maxAttempts, step);
            && id in t.store.jobs && t.store.deliveries == s.store.deliveries
            && t.store.jobs[id].attempts == s.store.jobs[id].attempts
            && Final(t.store.jobs[id].status) == Final(s.store.jobs[id].status)
            && (Final(s.store.jobs[id].status) ==> t.store.jobs[id] == s.store.jobs[id])
  {
  }

  lemma StepKeepsFinal(s: System, maxAttempts: int, step: Step, id: JobId)
    requires id in s.store.jobs && Final(s.store.jobs[id].status)
    ensures var t := Apply(s, maxAttempts, step); id in t.store.jobs && t.store.jobs[id] == s.store.jobs[id]
  {
    if step.Claim? {
      ClaimLeavesFinal(s, maxAttempts, step, id);
    } else if !step.Enqueue? && !step.Finish? {
      OthersLeaveStore(s, maxAttempts, step);
    }
  }

  /** A delivered or failed job never changes again. */
  lemma {:induction false} FinalJobsAreFrozen(maxAttempts: int, steps: seq<Step>, more: seq<Step>, id: JobId)
    requires var s := Run(INIT, maxAttempts, steps); id in s.store.jobs && Final(s.store.jobs[id].status)
    ensures var s := Run(INIT, maxAttempts, steps);
            var t := Run(s, maxAttempts, more);
            id in t.store.jobs && t.store.jobs[id] == s.store.jobs[id]
  {
    RunKeepsInv(INIT, maxAttempts, steps);
    if more != [] {
      var s, before := Run(INIT, maxAttempts, steps), more[..|more| - 1];
      FinalJobsAreFrozen(maxAttempts, steps, before, id);
      RunKeepsInv(s, maxAttempts, before);
      StepKeepsFinal(Run(s, maxAttempts, before), maxAttempts, more[|more| - 1], id);
    }
  }

  /** What is left of a job's attempts; zero exactly for no further attempt. */
  function Remaining(job: Job, maxAttempts: int): int {
    if Final(job.status) then 0 else Limit(maxAttempts) - job.attempts
  }

  lemma RowAfter(s: System, maxAttempts: int, step: Step, id: JobId)
    requires HoldingsOk(s) && id in s.store.jobs
    ensures var t := Apply(s, maxAttempts, step);
            && id in t.store.jobs
            && var before, after := s.store.jobs[id], t.store.jobs[id];
               || (after.attempts == before.attempts && Final(after.status) == Final(before.status))
               || (after.attempts == before.attempts + 1 && !Final(before.status))
  {
    if step.Claim? {
      ClaimLeavesFinal(s, maxAttempts, step, id);
    } else if step.Finish? {
      if step.holding in s.inFlight {
        assert HoldingOk(s, step.holding);
      }
    } else if !step.Enqueue? {
      OthersLeaveStore(s, maxAttempts, step);
    }
  }

  /** Every recorded attempt uses up one of the remaining ones, and no other step
      changes how many remain; so a job is recorded at most `maxAttempts` times. */
  lemma RecordingUsesUpAttempts(maxAttempts: int, steps: seq<Step>, step: Step, id: JobId)
    requires id in Run(INIT, maxAttempts, steps).store.jobs
    ensures var s := Run(INIT, maxAttempts, steps);
            var t := Apply(s, maxAttempts, step);
            && id in t.store.jobs
            && 0 <= Remaining(t.store.jobs[id], maxAttempts) <= Remaining(s.store.jobs[id], maxAttempts)
            && (Remaining(t.store.jobs[id], maxAttempts) < Remaining(s.store.jobs[id], maxAttempts) <==>
                  |Attempts(t.store.deliveries, id)| > |Attempts(s.store.deliveries, id)|)
            && (Remaining(s.store.jobs[id], maxAttempts) == 0 <==> Final(s.store.jobs[id].status))
  {
    RunKeepsInv(INIT, maxAttempts, steps);
    var s := Run(INIT, maxAttempts, steps);
    StepKeepsInv(s, maxAttempts, step);
    RowAfter(s, maxAttempts, step, id);
    var t := Apply(s, maxAttempts, step);
    assert JobOk(Attempts(s.store.deliveries, id), s.store.jobs[id], maxAttempts);
    assert JobOk(Attempts(t.store.deliveries, id), t.store.jobs[id], maxAttempts);
  }
}
