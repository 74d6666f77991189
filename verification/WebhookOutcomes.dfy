/** What becomes of a webhook job: who gets it, how an attempt ends it, and how long a
    retry waits. */
module WebhookOutcomes {
  import opened Wrappers
  import opened WebhookOutbox

  // ----- claims -----

  /** A job that waits is due from its next attempt on, one that is being delivered from
      the end of its lease on, and one that has ended never. */
  lemma DueIff(job: Job, now: nat)
    ensures Due(job, now) <==>
              match job.status
              case Pending => now >= job.nextAttempt
              case Processing => now >= job.leaseUntil
              case Delivered => false
              case Failed => false
  {
  }

  /** Due jobs that are not chosen yet. */
  function Left(jobs: map<JobId, Job>, chosen: seq<JobId>, now: nat): set<JobId> {
    set id | id in jobs && Due(jobs[id], now) && id !in chosen
  }

  lemma {:induction false} FirstOf(jobs: map<JobId, Job>, ids: set<JobId>) returns (first: JobId)
    requires ids != {} && forall id | id in ids :: id in jobs
    ensures first in ids && forall id | id in ids :: Before(jobs[first], jobs[id])
    decreases |ids|
  {
    var some :| some in ids;
    var rest := ids - {some};
    if rest == {} {
      assert ids == {some};
      first := some;
    } else {
      var other := FirstOf(jobs, rest);
      first := if Before(jobs[some], jobs[other]) then some else other;
      assert forall id | id in ids :: id == some || id in rest;
    }
  }

  /** Whatever is due, there is a choice that the SELECT may make; it is empty only if nothing is due. */
  lemma {:induction false} SelectionExists(jobs: map<JobId, Job>, now: nat, limit: nat) returns (chosen: seq<JobId>)
    ensures Selection(jobs, chosen, now, limit)
    ensures limit > 0 && (exists id :: id in jobs && Due(jobs[id], now)) ==> chosen != []
    decreases limit
  {
    chosen := [];
    if limit > 0 {
      chosen := SelectionExists(jobs, now, limit - 1);
      var left := Left(jobs, chosen, now);
      if left != {} {
        var first := FirstOf(jobs, left);
        assert |chosen| == limit - 1;
        chosen := chosen + [first];
        assert forall id | id in Left(jobs, chosen, now) :: id in left;
      } else {
        forall id | id in jobs && Due(jobs[id], now)
          ensures id in chosen
        {
          assert id !in left;
        }
      }
    }
  }

  /** A worker that is free gets what it chose: the rows are its own for thirty seconds,
      with the attempt count it read, and other rows are as before. */
  lemma ClaimHolds(s: System, maxAttempts: int, worker: WorkerId, limit: int, chosen: seq<JobId>, id: JobId)
    requires !Busy(s, worker) && worker !in s.dead && id in s.store.jobs
    requires Selection(s.store.jobs, chosen, s.clock, ClampLimit(limit))
    ensures var t, job := Apply(s, maxAttempts, Claim(worker, limit, chosen)), s.store.jobs[id];
            && id in t.store.jobs && t.store.deliveries == s.store.deliveries && t.clock == s.clock
            && if id in chosen then
                 && t.store.jobs[id] == job.(status := Processing, owner := Some(worker),
                                             leaseUntil := s.clock + 30_000)
                 && Holding(worker, id, job.attempts, s.clock + 30_000) in t.inFlight
               else t.store.jobs[id] == job
  {
    if id in chosen {
      var i :| 0 <= i < |chosen| && chosen[i] == id;
      assert Due(s.store.jobs[chosen[i]], s.clock);
      assert Holding(worker, id, s.store.jobs[id].attempts, s.clock + LEASE_MS) in Taken(s, worker, chosen);
    }
  }

  // ----- attempts -----

  /** What the owner's attempt writes: a success ends the job as delivered, a terminal
      error or the last allowed attempt as failed, and after any other error it waits
      until the retry time. The attempt is recorded under its number. */
  lemma AttemptDecides(s: System, maxAttempts: int, h: Holding, outcome: Outcome, retryAt: nat)
    requires h in s.inFlight && Owns(s.store.jobs, h.job, h.worker)
    ensures var t := Apply(s, maxAttempts, Finish(h, outcome, retryAt));
            var number, job := h.attemptCount + 1, s.store.jobs[h.job];
            var retries := outcome == Retryable && number < maxAttempts;
            && h.job in t.store.jobs && t.inFlight == s.inFlight - {h}
            && t.store.jobs[h.job]
               == Job(if outcome == Succeeded then Delivered else if retries then Pending else Failed, number,
                      if retries then retryAt else job.nextAttempt, job.createdAt, None, 0)
            && t.store.deliveries
               == s.store.deliveries + [Delivery(h.job, number, if outcome == Succeeded then AttemptDelivered
                                                                else if retries then AttemptRetry else AttemptFailed)]
  {
  }

  /** A new job that one free worker claims and delivers is done, after one attempt. */
  lemma DeliveredAtOnce(s: System, maxAttempts: int, id: JobId, worker: WorkerId, retryAt: nat, chosen: seq<JobId>,
                        limit: int)
    requires !Busy(s, worker) && worker !in s.dead && id !in s.store.jobs
    requires var queued := Apply(s, maxAttempts, Enqueue(id, s.clock));
             Selection(queued.store.jobs, chosen, queued.clock, ClampLimit(limit)) && id in chosen
    ensures var queued := Apply(s, maxAttempts, Enqueue(id, s.clock));
            var claimed := Apply(queued, maxAttempts, Claim(worker, limit, chosen));
            var t := Apply(claimed, maxAttempts, Finish(Holding(worker, id, 0, s.clock + 30_000), Succeeded, retryAt));
            && id in t.store.jobs && t.store.jobs[id].status == Delivered && t.store.jobs[id].attempts == 1
            && t.store.deliveries == s.store.deliveries + [Delivery(id, 1, AttemptDelivered)]
  {
    var queued := Apply(s, maxAttempts, Enqueue(id, s.clock));
    var claimed := Apply(queued, maxAttempts, Claim(worker, limit, chosen));
    ClaimHolds(queued, maxAttempts, worker, limit, chosen, id);
    AttemptDecides(claimed, maxAttempts, Holding(worker, id, 0, s.clock + 30_000), Succeeded, retryAt);
  }

  // ----- backoff -----

  /** One second at first, then twice as long each time, and never more than a minute. */
  lemma BackoffDoubles(attempt: int)
    ensures attempt <= 1 ==> Backoff(attempt) == 1000
    ensures attempt >= 1 ==> Backoff(attempt + 1) == if 2 * Backoff(attempt) < 60_000 then 2 * Backoff(attempt)
              else 60_000
  {
    if attempt >= 1 {
      assert Power(attempt) == 2 * Power(attempt - 1);
    }
  }

  /** The delay is the base times the drawn factor, which runs from three quarters to
      five, rounded to whole milliseconds. */
  lemma DelayIsRounded(attempt: int, random: real)
    requires 0.0 <= random < 1.0
    ensures var exact := Backoff(attempt) as real * (0.75 + random / 2.0);
            exact - 0.5 < RetryDelay(attempt, random) as real <= exact + 0.5
  {
    assert random * 0.5 == random / 2.0;
  }
}
