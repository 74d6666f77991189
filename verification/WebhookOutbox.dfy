/** Delivery of webhook jobs by any number of workers: claims with a lease,
    recorded attempts, retries with backoff. */
module WebhookOutbox {
  import opened Wrappers

  type JobId = string
  type WorkerId = string

  datatype Status = Pending | Processing | Delivered | Failed

  datatype Job = Job(status: Status, attempts: nat, nextAttempt: nat, createdAt: nat, owner: Option<WorkerId>,
                     leaseUntil: nat)

  datatype AttemptStatus = AttemptDelivered | AttemptRetry | AttemptFailed

  /** A row of `webhook_deliveries`. */
  datatype Delivery = Delivery(job: JobId, number: nat, status: AttemptStatus)

  datatype Store = Store(jobs: map<JobId, Job>, deliveries: seq<Delivery>)

  const LEASE_MS := 30_000
  const MAX_BACKOFF_MS := 60_000

  predicate Due(job: Job, now: nat) {
    (job.status == Pending && job.nextAttempt <= now) || (job.status == Processing && job.leaseUntil <= now)
  }

  function Leased(job: Job, worker: WorkerId, until: nat): Job {
    job.(status := Processing, owner := Some(worker), leaseUntil := until)
  }

  /** `claimReady`: the UPDATE of each selected row that is still due. */
  function Claimed(jobs: map<JobId, Job>, chosen: seq<JobId>, worker: WorkerId, now: nat, until: nat): map<JobId, Job> {
    map id | id in jobs :: if id in chosen && Due(jobs[id], now) then Leased(jobs[id], worker, until) else jobs[id]
  }

  /** `ORDER BY next_attempt_at, created_at` */
  predicate Before(a: Job, b: Job) {
    a.nextAttempt < b.nextAttempt || (a.nextAttempt == b.nextAttempt && a.createdAt <= b.createdAt)
  }

  function ClampLimit(limit: int): nat {
    if limit < 1 then 1 else if limit > 100 then 100 else limit
  }

  /** What the SELECT may return: due rows in order, as many as the limit allows, the earliest first. */
  ghost predicate Selection(jobs: map<JobId, Job>, chosen: seq<JobId>, now: nat, limit: nat) {
    && |chosen| <= limit
    && (forall i | 0 <= i < |chosen| :: chosen[i] in jobs && Due(jobs[chosen[i]], now))
    && (forall i, j | 0 <= i < j < |chosen| :: chosen[i] != chosen[j] && Before(jobs[chosen[i]], jobs[chosen[j]]))
    && (forall id | id in jobs && Due(jobs[id], now) && id !in chosen ::
          |chosen| == limit && forall c | c in chosen :: Before(jobs[c], jobs[id]))
  }

  /** How a delivery attempt ended. */
  datatype Outcome = Succeeded | Retryable | Terminal

  function AttemptOf(outcome: Outcome, number: nat, maxAttempts: int): AttemptStatus {
    if outcome == Succeeded then AttemptDelivered
    else if outcome == Terminal || number >= maxAttempts then AttemptFailed
    else AttemptRetry
  }

  function JobAfter(job: Job, number: nat, status: AttemptStatus, retryAt: nat): Job {
    Job(match status case AttemptDelivered => Delivered case AttemptFailed => Failed case AttemptRetry => Pending,
        number, if status == AttemptRetry then retryAt else job.nextAttempt, job.createdAt, None, 0)
  }

  predicate Owns(jobs: map<JobId, Job>, id: JobId, worker: WorkerId) {
    id in jobs && jobs[id].status == Processing && jobs[id].owner == Some(worker)
  }

  /** `recordAttempt`: only for a row that is processing and still leased to this worker. */
  function Recorded(s: Store, id: JobId, worker: WorkerId, number: nat, status: AttemptStatus, retryAt: nat): Store {
    if Owns(s.jobs, id, worker) then
      Store(s.jobs[id := JobAfter(s.jobs[id], number, status, retryAt)], s.deliveries + [Delivery(id, number, status)])
    else s
  }

  // ----- backoff -----

  function Power(n: nat): nat {
    if n == 0 then 1 else 2 * Power(n - 1)
  }

  function Backoff(attempt: int): nat {
    var base := 1000 * Power(if attempt > 1 then attempt - 1 else 0);
    if base < MAX_BACKOFF_MS then base else MAX_BACKOFF_MS
  }

  /** `Math.round` of the base times a factor from 0.75 up to 1.25; `random` is the draw from [0, 1). */
  function RetryDelay(attempt: int, random: real): (delay: nat)
    requires 0.0 <= random < 1.0
  {
    var base := Backoff(attempt) as real;
    Between(base, 0.75, 0.75 + random * 0.5, 1.25);
    (base * (0.75 + random * 0.5) + 0.5).Floor
  }

  /** A retry waits at least three quarters of the base and at most a quarter more
      than it, so never less than 750 nor more than 75000 milliseconds. */
  lemma DelayIsBounded(attempt: int, random: real)
    requires 0.0 <= random < 1.0
    ensures 3 * Backoff(attempt) <= 4 * RetryDelay(attempt, random) <= 5 * Backoff(attempt)
    ensures 750 <= RetryDelay(attempt, random) <= 75_000
  {
    BackoffBounds(attempt);
    DelayInQuarters(attempt, random, Backoff(attempt) / 4);
  }

  lemma DelayInQuarters(attempt: int, random: real, quarter: int)
    requires 0.0 <= random < 1.0 && Backoff(attempt) == 4 * quarter
    ensures 3 * quarter <= RetryDelay(attempt, random) <= 5 * quarter
  {
    var base, factor := Backoff(attempt) as real, 0.75 + random * 0.5;
    assert base == 4.0 * quarter as real;
    Between(base, 0.75, factor, 1.25);
    assert base * 0.75 == (3 * quarter) as real && base * 1.25 == (5 * quarter) as real;
    RoundsBetween(base * factor, 3 * quarter, 5 * quarter);
  }

  lemma RoundsBetween(x: real, low: int, high: int)
    requires low as real <= x <= high as real
    ensures low <= (x + 0.5).Floor <= high
  {
  }

  lemma Between(base: real, low: real, factor: real, high: real)
    requires base >= 0.0 && low <= factor <= high
    ensures base * low <= base * factor <= base * high
  {
  }

  lemma {:induction false} PowerIsPositive(n: nat)
    ensures Power(n) >= 1
  {
    if n > 0 {
      PowerIsPositive(n - 1);
    }
  }

  lemma BackoffBounds(attempt: int)
    ensures Backoff(attempt) % 4 == 0 && 1000 <= Backoff(attempt) <= MAX_BACKOFF_MS
  {
    PowerIsPositive(if attempt > 1 then attempt - 1 else 0);
    var p := Power(if attempt > 1 then attempt - 1 else 0);
    assert 1000 * p == 4 * (250 * p);
  }

  // ----- the store and the worker -----

  class OutboxStore {
    var jobs: map<JobId, Job>
    var deliveries: seq<Delivery>

    function Contents(): Store
      reads this
    {
      Store(jobs, deliveries)
    }

    constructor ()
      ensures Contents() == Store(map[], [])
    {
      jobs, deliveries := map[], [];
    }

    /** The transaction after its SELECT returned `due`. */
    method ClaimReady(due: seq<JobId>, worker: WorkerId, now: nat, until: nat, limit: int)
      requires Selection(jobs, due, now, ClampLimit(limit))
      modifies this`jobs
      ensures jobs == Claimed(old(jobs), due, worker, now, until)
    {
      var i := 0;
      while i < |due|
        invariant 0 <= i <= |due|
        invariant jobs == Claimed(old(jobs), due[..i], worker, now, until)
      {
        assert due[i] !in due[..i];
        if due[i] in jobs && Due(jobs[due[i]], now) {
          jobs := jobs[due[i] := Leased(jobs[due[i]], worker, until)];
        }
        i := i + 1;
      }
      assert due[..i] == due;
    }

    method RecordAttempt(id: JobId, worker: WorkerId, number: nat, status: AttemptStatus, retryAt: Option<nat>)
      returns (recorded: bool)
      requires status == AttemptRetry <==> retryAt.Some?
      modifies this
      ensures Contents() == Recorded(old(Contents()), id, worker, number, status,
                                     if retryAt.Some? then retryAt.value else 0)
      ensures recorded <==> Owns(old(jobs), id, worker)
    {
      if id !in jobs || jobs[id].status != Processing || jobs[id].owner != Some(worker) {
        return false;
      }
      var next :=
        match status case AttemptDelivered => Delivered case AttemptFailed => Failed case AttemptRetry => Pending;
      var job := jobs[id];
      jobs := jobs[id := Job(next, number, if retryAt.Some? then retryAt.value else job.nextAttempt, job.createdAt,
                             None, 0)];
      deliveries := deliveries + [Delivery(id, number, status)];
      return true;
    }
  }

  /** What a worker holds after a claim: the job and the attempt count it read. */
  datatype Holding = Holding(worker: WorkerId, job: JobId, attemptCount: nat, until: nat)

  /** What the system adds to the store: attempts under way, and workers that died. */
  datatype System = System(store: Store, inFlight: set<Holding>, dead: set<WorkerId>, clock: nat)

  const INIT := System(Store(map[], []), {}, {}, 0)

  datatype Step =
    | Wait(time: nat)
    | Enqueue(id: JobId, timestamp: nat)
    | Claim(worker: WorkerId, limit: int, chosen: seq<JobId>)
    | Finish(holding: Holding, outcome: Outcome, retryAt: nat)
    | Lose(holding: Holding)
    | Die(worker: WorkerId)

  /** `processing`: a worker that still has attempts under way claims nothing. */
  predicate Busy(s: System, worker: WorkerId) {
    exists h | h in s.inFlight :: h.worker == worker
  }

  function Taken(s: System, worker: WorkerId, chosen: seq<JobId>): set<Holding> {
    set id | id in chosen && id in s.store.jobs :: Holding(worker, id, s.store.jobs[id].attempts, s.clock + LEASE_MS)
  }

  function Except(holdings: set<Holding>, worker: WorkerId): set<Holding> {
    set h | h in holdings && h.worker != worker
  }

  ghost function Apply(s: System, maxAttempts: int, step: Step): System {
    match step
    case Wait(time) => s.(clock := s.clock + time)
    case Enqueue(id, timestamp) =>
      if id in s.store.jobs then s
      else s.(store := s.store.(jobs := s.store.jobs[id := Job(Pending, 0, timestamp, timestamp, None, 0)]))
    case Claim(worker, limit, chosen) =>
      if Busy(s, worker) || worker in s.dead || !Selection(s.store.jobs, chosen, s.clock, ClampLimit(limit)) then s
      else s.(store := s.store.(jobs := Claimed(s.store.jobs, chosen, worker, s.clock, s.clock + LEASE_MS)),
              inFlight := s.inFlight + Taken(s, worker, chosen))
    case Finish(h, outcome, retryAt) =>
      if h !in s.inFlight then s
      else
        var number := h.attemptCount + 1;
        s.(store := Recorded(s.store, h.job, h.worker, number, AttemptOf(outcome, number, maxAttempts), retryAt),
           inFlight := s.inFlight - {h})
    case Lose(h) => s.(inFlight := s.inFlight - {h})
    case Die(worker) => s.(inFlight := Except(s.inFlight, worker), dead := s.dead + {worker})
  }

  ghost function Run(s: System, maxAttempts: int, steps: seq<Step>): System {
    if steps == [] then s else Apply(Run(s, maxAttempts, steps[..|steps| - 1]), maxAttempts, steps[|steps| - 1])
  }

  class Worker {
    const workerId: WorkerId
    const maxAttempts: int

    constructor (workerId: WorkerId, maxAttempts: int)
      ensures this.workerId == workerId && this.maxAttempts == maxAttempts
    {
      this.workerId, this.maxAttempts := workerId, maxAttempts;
    }

    /** One delivery, once the endpoint has answered. */
    method Deliver(store: OutboxStore, h: Holding, outcome: Outcome, attemptedAt: nat, random: real)
      requires 0.0 <= random < 1.0 && h.worker == workerId
      modifies store
      ensures store.Contents() == Recorded(old(store.Contents()), h.job, workerId, h.attemptCount + 1,
                                           AttemptOf(outcome, h.attemptCount + 1, maxAttempts),
                                           attemptedAt + RetryDelay(h.attemptCount + 1, random))
    {
      var number := h.attemptCount + 1;
      var terminal := outcome == Terminal || (outcome == Retryable && number >= maxAttempts);
      var delay := RetryDelay(number, random);
      var retryAt := if outcome == Retryable && !terminal then Some(attemptedAt + delay) else None;
      var status := if outcome == Succeeded then AttemptDelivered else if terminal then AttemptFailed else AttemptRetry;
      var recorded := store.RecordAttempt(h.job, workerId, number, status, retryAt);
    }
  }
}
