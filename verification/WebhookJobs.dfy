/** Webhook jobs: the transaction that appends an event also enqueues one job for
    every endpoint that subscribes to it. */
module WebhookJobs {
  import opened Wrappers
  import opened DepositIngest

  type WebhookId = string

  /** `since` is the length of the log when the endpoint was registered. */
  datatype Webhook = Webhook(id: WebhookId, filters: seq<string>, since: nat)

  /** One row per event, given by its position in the log, and endpoint. */
  datatype Job = Job(event: nat, webhook: WebhookId)

  predicate EndsWith(s: string, suffix: string) {
    |suffix| <= |s| && s[|s| - |suffix|..] == suffix
  }

  predicate FilterMatches(eventType: string, filter: string) {
    filter == "*" || filter == eventType || (EndsWith(filter, ".*") && filter[..|filter| - 1] <= eventType)
  }

  predicate Subscribed(eventType: string, filters: seq<string>) {
    exists f | f in filters :: FilterMatches(eventType, f)
  }

  /** An endpoint gets an event if one of its filters is a star, the event's type, or a
      prefix of it that ends with a dot, followed by a star; no other filter selects anything. */
  lemma SubscribedIff(eventType: string, filters: seq<string>)
    ensures Subscribed(eventType, filters) <==>
              exists f | f in filters ::
                f == "*" || f == eventType || exists p: string :: f == p + ".*" && p + "." <= eventType
  {
    forall f
      ensures FilterMatches(eventType, f) <==>
                f == "*" || f == eventType || exists p: string :: f == p + ".*" && p + "." <= eventType
    {
      if EndsWith(f, ".*") {
        var p := f[..|f| - 2];
        assert f == p + ".*" && f[..|f| - 1] == p + ".";
      }
      forall p: string | f == p + ".*"
        ensures EndsWith(f, ".*") && f[..|f| - 1] == p + "."
      {
      }
    }
  }

  function JobsFor(webhooks: seq<Webhook>, eventType: string, n: nat): seq<Job> {
    if webhooks == [] then []
    else
      var last := webhooks[|webhooks| - 1];
      JobsFor(webhooks[..|webhooks| - 1], eventType, n) + if Subscribed(eventType, last.filters) then [Job(n, last.id)]
        else []
  }

  /** The jobs of events that are appended to a log of length `n`. */
  function Enqueued(webhooks: seq<Webhook>, added: seq<Event>, n: nat): seq<Job> {
    if added == [] then []
    else
      var rest := added[..|added| - 1];
      Enqueued(webhooks, rest, n) + JobsFor(webhooks, TypeOf(added[|added| - 1]), n + |rest|)
  }

  lemma EnqueuedOneMore(webhooks: seq<Webhook>, added: seq<Event>, e: Event, n: nat)
    ensures Enqueued(webhooks, added + [e], n)
              == Enqueued(webhooks, added, n) + JobsFor(webhooks, TypeOf(e), n + |added|)
  {
    var all := added + [e];
    assert all[..|all| - 1] == added;
  }

  datatype Db = Db(core: State, webhooks: seq<Webhook>, outbox: seq<Job>)

  const EMPTY_DB := Db(EMPTY, [], [])

  /** Deleting an endpoint deletes its jobs with it; ids are never reused. */
  datatype DbOp = Core(op: Op) | AddWebhook(id: WebhookId, filters: seq<string>) | RemoveWebhook(id: WebhookId)

  function WebhooksWithout(webhooks: seq<Webhook>, id: WebhookId): seq<Webhook> {
    if webhooks == [] then []
    else
      var last := webhooks[|webhooks| - 1];
      WebhooksWithout(webhooks[..|webhooks| - 1], id) + if last.id == id then [] else [last]
  }

  function JobsWithout(jobs: seq<Job>, id: WebhookId): seq<Job> {
    if jobs == [] then []
    else
      var last := jobs[|jobs| - 1];
      JobsWithout(jobs[..|jobs| - 1], id) + if last.webhook == id then [] else [last]
  }

  /** The events one operation appends. */
  function Added(s: State, op: Op): seq<Event> {
    LogGrows(s, op);
    Apply(s, op).events[|s.events|..]
  }

  function ApplyDb(db: Db, op: DbOp): Db {
    match op
    case Core(core) =>
      var after := Apply(db.core, core);
      Db(after, db.webhooks, db.outbox + Enqueued(db.webhooks, Added(db.core, core), |db.core.events|))
    case AddWebhook(id, filters) =>
      if exists w | w in db.webhooks :: w.id == id then db
      else db.(webhooks := db.webhooks + [Webhook(id, filters, |db.core.events|)])
    case RemoveWebhook(id) => db.(webhooks := WebhooksWithout(db.webhooks, id), outbox := JobsWithout(db.outbox, id))
  }

  function RunDb(ops: seq<DbOp>): Db {
    if ops == [] then EMPTY_DB else ApplyDb(RunDb(ops[..|ops| - 1]), ops[|ops| - 1])
  }

  /** A new endpoint is registered from the present end of the log on; a known id changes nothing. */
  lemma RegisteredIff(db: Db, id: WebhookId, filters: seq<string>)
    ensures var t := ApplyDb(db, AddWebhook(id, filters));
            if exists w | w in db.webhooks :: w.id == id then t == db
            else t == db.(webhooks := db.webhooks + [Webhook(id, filters, |db.core.events|)])
  {
  }

  // ----- the log only grows -----

  lemma SettleAppends(s: State, block: ConfirmedBlock, id: InvoiceId, now: nat)
    requires id in s.invoices
    ensures s.events <= Settle(s, block, id, now).events
  {
  }

  lemma IngestAppends(s: State, block: ConfirmedBlock, now: nat, paused: bool, cap: nat)
    ensures s.events <= Ingest(s, block, now, paused, cap).0.events
  {
    var id := InvoiceFor(s, block);
    if Refusal(s, block, paused, cap).None? && id.Some? {
      SettleAppends(Observe(s, DepositFor(s, block, id), block.confirmedAt), block, id.value, now);
    }
  }

  lemma LogGrows(s: State, op: Op)
    ensures s.events <= Apply(s, op).events
  {
    if op.IngestOp? {
      IngestAppends(s, op.block, op.now, op.paused, op.cap);
    }
  }

  // ----- exactly one job per event and subscriber -----

  function Times(jobs: seq<Job>, job: Job): nat {
    if jobs == [] then 0
    else Times(jobs[..|jobs| - 1], job) + if jobs[|jobs| - 1] == job then 1 else 0
  }

  ghost predicate Wanted(webhooks: seq<Webhook>, events: seq<Event>, job: Job) {
    && job.event < |events|
    && exists w | w in webhooks ::
         w.id == job.webhook && w.since <= job.event && Subscribed(TypeOf(events[job.event]), w.filters)
  }

  ghost predicate IdsDiffer(webhooks: seq<Webhook>) {
    forall i, j | 0 <= i < j < |webhooks| :: webhooks[i].id != webhooks[j].id
  }

  ghost predicate WebhooksOk(db: Db) {
    IdsDiffer(db.webhooks) && forall w | w in db.webhooks :: w.since <= |db.core.events|
  }

  ghost predicate OutboxOk(db: Db) {
    forall job :: Times(db.outbox, job) == if Wanted(db.webhooks, db.core.events, job) then 1 else 0
  }

  lemma {:induction false} TimesOfConcat(jobs: seq<Job>, more: seq<Job>, job: Job)
    ensures Times(jobs + more, job) == Times(jobs, job) + Times(more, job)
  {
    if more == [] {
      assert jobs + more == jobs;
    } else {
      assert (jobs + more)[..|jobs + more| - 1] == jobs + more[..|more| - 1];
      TimesOfConcat(jobs, more[..|more| - 1], job);
    }
  }

  ghost predicate Wants(webhooks: seq<Webhook>, eventType: string, id: WebhookId) {
    exists w | w in webhooks :: w.id == id && Subscribed(eventType, w.filters)
  }

  lemma {:induction false} JobsForOneEvent(webhooks: seq<Webhook>, eventType: string, n: nat, job: Job)
    requires IdsDiffer(webhooks)
    ensures Times(JobsFor(webhooks, eventType, n), job) == if job.event == n && Wants(webhooks, eventType, job.webhook)
              then 1 else 0
  {
    if webhooks != [] {
      var rest, last := webhooks[..|webhooks| - 1], webhooks[|webhooks| - 1];
      JobsForOneEvent(rest, eventType, n, job);
      var added := if Subscribed(eventType, last.filters) then [Job(n, last.id)] else [];
      TimesOfConcat(JobsFor(rest, eventType, n), added, job);
      assert added != [] ==> added[..0] == [];
      assert webhooks == rest + [last];
      assert forall w | w in rest :: w.id != last.id;
    }
  }

  lemma {:induction false} EnqueuedExactly(webhooks: seq<Webhook>, added: seq<Event>, n: nat, job: Job)
    requires IdsDiffer(webhooks)
    ensures Times(Enqueued(webhooks, added, n), job)
         == if n <= job.event < n + |added| && Wants(webhooks, TypeOf(added[job.event - n]), job.webhook) then 1 else 0
  {
    if added != [] {
      var rest, last := added[..|added| - 1], added[|added| - 1];
      EnqueuedExactly(webhooks, rest, n, job);
      JobsForOneEvent(webhooks, TypeOf(last), n + |rest|, job);
      TimesOfConcat(Enqueued(webhooks, rest, n), JobsFor(webhooks, TypeOf(last), n + |rest|), job);
    }
  }

  lemma {:induction false} WithoutKeepsOthers(webhooks: seq<Webhook>, id: WebhookId)
    ensures forall w :: w in WebhooksWithout(webhooks, id) <==> w in webhooks && w.id != id
    ensures IdsDiffer(webhooks) ==> IdsDiffer(WebhooksWithout(webhooks, id))
  {
    if webhooks != [] {
      var rest, last := webhooks[..|webhooks| - 1], webhooks[|webhooks| - 1];
      WithoutKeepsOthers(rest, id);
      assert webhooks == rest + [last];
      var kept := WebhooksWithout(rest, id);
      forall i | 0 <= i < |kept| && IdsDiffer(webhooks)
        ensures kept[i].id != last.id
      {
        assert kept[i] in kept && kept[i] in rest;
      }
    }
  }

  lemma TimesOfOneMore(jobs: seq<Job>, last: Job, job: Job)
    ensures Times(jobs + [last], job) == Times(jobs, job) + if last == job then 1 else 0
  {
    assert (jobs + [last])[..|jobs|] == jobs;
  }

  lemma {:induction false} JobsWithoutKeepsOthers(jobs: seq<Job>, id: WebhookId, job: Job)
    ensures Times(JobsWithout(jobs, id), job) == if job.webhook == id then 0 else Times(jobs, job)
  {
    if jobs != [] {
      var rest, last := jobs[..|jobs| - 1], jobs[|jobs| - 1];
      JobsWithoutKeepsOthers(rest, id, job);
      if last.webhook == id {
        assert JobsWithout(jobs, id) == JobsWithout(rest, id);
      } else {
        TimesOfOneMore(JobsWithout(rest, id), last, job);
      }
    }
  }

  lemma AppendKeepsWanted(webhooks: seq<Webhook>, events: seq<Event>, added: seq<Event>, job: Job)
    requires forall w | w in webhooks :: w.since <= |events|
    ensures Wanted(webhooks, events + added, job) <==>
              || Wanted(webhooks, events, job)
              || (|events| <= job.event < |events| + |added|
                  && Wants(webhooks, TypeOf(added[job.event - |events|]), job.webhook))
  {
  }

  lemma LongerLogKeepsOutbox(db: Db, t: Db, added: seq<Event>)
    requires WebhooksOk(db) && OutboxOk(db) && t.webhooks == db.webhooks
    requires t.core.events == db.core.events + added
    requires t.outbox == db.outbox + Enqueued(db.webhooks, added, |db.core.events|)
    ensures WebhooksOk(t) && OutboxOk(t)
  {
    forall job
      ensures Times(t.outbox, job) == if Wanted(t.webhooks, t.core.events, job) then 1 else 0
    {
      TimesOfConcat(db.outbox, Enqueued(db.webhooks, added, |db.core.events|), job);
      EnqueuedExactly(db.webhooks, added, |db.core.events|, job);
      AppendKeepsWanted(db.webhooks, db.core.events, added, job);
    }
  }

  lemma CoreKeepsOutbox(db: Db, op: Op)
    requires WebhooksOk(db) && OutboxOk(db)
    ensures WebhooksOk(ApplyDb(db, Core(op))) && OutboxOk(ApplyDb(db, Core(op)))
  {
    LogGrows(db.core, op);
    LongerLogKeepsOutbox(db, ApplyDb(db, Core(op)), Added(db.core, op));
  }

  lemma AddKeepsOutbox(db: Db, id: WebhookId, filters: seq<string>)
    requires WebhooksOk(db) && OutboxOk(db)
    ensures WebhooksOk(ApplyDb(db, AddWebhook(id, filters))) && OutboxOk(ApplyDb(db, AddWebhook(id, filters)))
  {
    var t := ApplyDb(db, AddWebhook(id, filters));
    if t != db {
      var w := t.webhooks[|db.webhooks|];
      assert forall x :: x in t.webhooks <==> x in db.webhooks || x == w;
      forall i | 0 <= i < |db.webhooks|
        ensures db.webhooks[i].id != id
      {
        assert db.webhooks[i] in db.webhooks;
      }
      forall job
        ensures Wanted(t.webhooks, t.core.events, job) <==> Wanted(db.webhooks, db.core.events, job)
      {
      }
    }
  }

  lemma RemoveKeepsOutbox(db: Db, id: WebhookId)
    requires WebhooksOk(db) && OutboxOk(db)
    ensures WebhooksOk(ApplyDb(db, RemoveWebhook(id))) && OutboxOk(ApplyDb(db, RemoveWebhook(id)))
  {
    var t := ApplyDb(db, RemoveWebhook(id));
    WithoutKeepsOthers(db.webhooks, id);
    forall job
      ensures Times(t.outbox, job) == if Wanted(t.webhooks, t.core.events, job) then 1 else 0
    {
      JobsWithoutKeepsOthers(db.outbox, id, job);
    }
  }

  /** In every reachable state the outbox holds exactly one job for each event of
      the log and each endpoint that subscribes to it and was registered when it
      was appended, and no other job. */
  lemma {:induction false} OneJobPerEventAndSubscriber(ops: seq<DbOp>)
    ensures WebhooksOk(RunDb(ops))
    ensures forall job :: Times(RunDb(ops).outbox, job) == if Wanted(RunDb(ops).webhooks, RunDb(ops).core.events, job)
              then 1 else 0
  {
    if ops != [] {
      var before, op := ops[..|ops| - 1], ops[|ops| - 1];
      OneJobPerEventAndSubscriber(before);
      match op
      case Core(core) => CoreKeepsOutbox(RunDb(before), core);
      case AddWebhook(id, filters) => AddKeepsOutbox(RunDb(before), id, filters);
      case RemoveWebhook(id) => RemoveKeepsOutbox(RunDb(before), id);
    }
  }

  function CoreOps(ops: seq<DbOp>): seq<Op> {
    if ops == [] then []
    else CoreOps(ops[..|ops| - 1]) + if ops[|ops| - 1].Core? then [ops[|ops| - 1].op] else []
  }

  /** Endpoints do not disturb the tables, so whatever holds of the runs of
      `DepositIngest` holds of these tables too. */
  lemma {:induction false} TablesIgnoreWebhooks(ops: seq<DbOp>)
    ensures RunDb(ops).core == Run(EMPTY, CoreOps(ops))
  {
    if ops != [] {
      var before := ops[..|ops| - 1];
      TablesIgnoreWebhooks(before);
      if ops[|ops| - 1].Core? {
        assert CoreOps(ops)[..|CoreOps(ops)| - 1] == CoreOps(before);
      } else {
        assert CoreOps(ops) == CoreOps(before);
      }
    }
  }
}
