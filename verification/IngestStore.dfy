/** The ingest transaction as it updates its tables, statement by statement. */
module IngestStore {
  import opened Wrappers
  import opened DepositIngest
  import opened WebhookJobs

  class Database {
    var invoices: map<InvoiceId, Invoice>
    var invoiceOrder: seq<InvoiceId>
    var deposits: map<Hash, Deposit>
    var payments: seq<Payment>
    var events: seq<Event>
    var outbox: seq<Job>
    var tasks: map<Hash, ReceiveTask>
    var webhooks: seq<Webhook>
    var custody: Custody
    ghost var base: seq<Event>   // the log when the running transaction began,
    ghost var jobs: seq<Job>     // the outbox then,
    ghost var added: seq<Event>  // and the events it has appended

    function Contents(): State
      reads this
    {
      State(invoices, invoiceOrder, deposits, payments, events)
    }

    constructor (custody: Custody)
      ensures Contents() == EMPTY && outbox == [] && tasks == map[] && webhooks == [] && this.custody == custody
    {
      invoices, invoiceOrder, deposits, payments, events := map[], [], map[], [], [];
      outbox, tasks, webhooks := [], map[], [];
      this.custody := custody;
    }

    /** `appendEvent` with `enqueueWebhookOutbox`: the event and its jobs. */
    method Append(e: Event)
      modifies this`events, this`outbox
      ensures events == old(events) + [e]
      ensures outbox == old(outbox) + JobsFor(webhooks, TypeOf(e), |old(events)|)
    {
      var n := |events|;
      events := events + [e];
      var i := 0;
      while i < |webhooks|
        invariant 0 <= i <= |webhooks| && events == old(events) + [e]
        invariant outbox == old(outbox) + JobsFor(webhooks[..i], TypeOf(e), n)
      {
        assert webhooks[..i + 1][..i] == webhooks[..i];
        if Subscribed(TypeOf(e), webhooks[i].filters) {
          outbox := outbox + [Job(n, webhooks[i].id)];
        }
        i := i + 1;
      }
      assert webhooks[..i] == webhooks;
    }

    /** What this transaction appended is in the outbox. */
    ghost predicate InStep()
      reads this
    {
      events == base + added && outbox == jobs + Enqueued(webhooks, added, |base|)
    }

    method AppendInStep(e: Event)
      requires InStep()
      modifies this`events, this`outbox, this`added
      ensures InStep() && events == old(events) + [e] && added == old(added) + [e]
    {
      ghost var n := |events|;
      Append(e);
      JobsInStep(webhooks, jobs, added, e, |base|, n);
      assert base + added + [e] == base + (added + [e]);
      added := added + [e];
    }

    method AppendUnlessPresent(present: bool, e: Event)
      requires InStep()
      modifies this`events, this`outbox, this`added
      ensures InStep() && events == if present then old(events) else old(events) + [e]
    {
      if !present {
        AppendInStep(e);
      }
    }

    method SumConfirmed(id: InvoiceId) returns (total: nat)
      ensures total == Paid(payments, id)
    {
      total := 0;
      var i := 0;
      while i < |payments|
        invariant 0 <= i <= |payments|
        invariant total == Paid(payments[..i], id)
      {
        assert payments[..i + 1][..i] == payments[..i];
        if payments[i].invoiceId == id && payments[i].status == PaymentConfirmed {
          total := total + payments[i].amount;
        }
        i := i + 1;
      }
      assert payments[..i] == payments;
    }

    method EnsureReceiveTask(block: ConfirmedBlock)
      modifies this`tasks
      ensures tasks == EnsureTask(old(tasks), custody, block)
    {
      if block.alreadyReceived {
        return;
      }
      var index: nat;
      if block.recipient in custody.invoiceAccounts {
        index := custody.invoiceAccounts[block.recipient];
      } else if block.recipient in custody.managed {
        index := custody.managed[block.recipient];
      } else {
        return;
      }
      if block.hash !in tasks {
        tasks := tasks[block.hash := ReceiveTask(block.hash, block.recipient, index, block.amount)];
      }
    }

    method DispositionOf(block: ConfirmedBlock, id: Option<InvoiceId>) returns (disposition: Disposition)
      requires id.Some? ==> id.value in invoices
      ensures disposition == Classify(Contents(), block, id)
    {
      if block.hash in deposits {
        return deposits[block.hash].disposition;
      }
      if id.None? {
        return Unmatched;
      }
      if invoices[id.value].status != Open {
        return Late;
      }
      var prior := SumConfirmed(id.value);
      var existing := FindPayment(payments, block.hash);
      var projected := prior + if existing.Some? then 0 else block.amount;
      var expected := invoices[id.value].expected;
      return if projected > expected then Excess else if projected < expected then Partial else Matched;
    }

    /** Inserts the deposit, or fills in the invoice of the stored one. */
    method StoreDeposit(block: ConfirmedBlock, id: Option<InvoiceId>) returns (deposit: Deposit)
      requires id.Some? ==> id.value in invoices
      modifies this`deposits
      ensures deposit == DepositFor(old(Contents()), block, id)
      ensures deposits == old(deposits)[block.hash := deposit]
    {
      var disposition := DispositionOf(block, id);
      if block.hash in deposits {
        deposit := deposits[block.hash];
        if deposit.invoiceId.None? && id.Some? {
          deposit := deposit.(invoiceId := id);
          deposits := deposits[block.hash := deposit];
        }
        assert deposits == old(deposits)[block.hash := deposit];
      } else {
        var sender := if block.sender == "" then None else Some(block.sender);
        deposit := Deposit(block.hash, block.recipient, sender, block.amount, id, disposition, block.confirmedAt);
        deposits := deposits[block.hash := deposit];
      }
    }

    method RecordPayment(block: ConfirmedBlock, id: InvoiceId) returns (payment: Payment)
      modifies this`payments
      ensures payment == PaymentFor(old(Contents()), block, id)
      ensures payments == WithPayment(old(Contents()), payment).payments
    {
      PaymentKeepsHash(payments, block.hash);
      var existing := FindPayment(payments, block.hash);
      if existing.Some? {
        return existing.value;
      }
      var sender := if block.sender == "" then None else Some(block.sender);
      payment := Payment(block.hash, id, PaymentConfirmed, sender, block.amount, block.confirmedAt);
      payments := payments + [payment];
    }

    /** The invoice with its new total, and with its new status as well. */
    method UpdateInvoice(id: InvoiceId, now: nat) returns (before: Invoice, after: Invoice)
      requires id in invoices
      modifies this`invoices
      ensures before == old(invoices[id]).(received := Paid(payments, id))
      ensures after == Settled(old(invoices[id]), Paid(payments, id), now)
      ensures invoices == old(invoices)[id := after]
    {
      var received := SumConfirmed(id);
      var invoice := invoices[id];
      var complete := if invoice.policy == Exact then received == invoice.expected else received >= invoice.expected;
      var status := if invoice.status == Open && complete then Completed else invoice.status;
      var completedAt := if status == Completed && invoice.completedAt.None? then Some(now) else invoice.completedAt;
      before := invoice.(received := received);
      after := before.(status := status, completedAt := completedAt);
      invoices := invoices[id := after];
    }

    method AnnouncePayment(block: ConfirmedBlock, id: InvoiceId, payment: Payment, before: Invoice, after: Invoice)
      requires InStep()
      modifies this`events, this`outbox, this`added
      ensures InStep()
      ensures Contents() == Announced(old(Contents()), block, id, payment, before, after)
    {
      var present := HasReceived(events, block.hash);
      AppendUnlessPresent(present, InvoicePaymentReceived(payment, before, block.confirmedAt));
      present := HasConfirmed(events, block.hash);
      AppendUnlessPresent(present, InvoicePaymentConfirmed(payment, before, block.confirmedAt));
      present := HasCompleted(events, id);
      AppendUnlessPresent(after.status != Completed || present, InvoiceCompleted(after, block.confirmedAt));
    }

    /** The payment row, the new total and status of the invoice, and their events. */
    method SettleInvoice(block: ConfirmedBlock, id: InvoiceId, now: nat)
      requires InStep() && id in invoices
      modifies this`payments, this`invoices, this`events, this`outbox, this`added
      ensures InStep()
      ensures Contents() == Settle(old(Contents()), block, id, now)
    {
      var payment := RecordPayment(block, id);
      var before, after := UpdateInvoice(id, now);
      AnnouncePayment(block, id, payment, before, after);
    }

    /** The deposit row, the receive task and the `deposit.observed` event. */
    method ObserveBlock(block: ConfirmedBlock, id: Option<InvoiceId>) returns (deposit: DepositIngest.Deposit)
      requires InStep() && (id.Some? ==> id.value in invoices)
      requires forall h | h in deposits :: deposits[h].hash == h
      modifies this`deposits, this`events, this`outbox, this`added, this`tasks
      ensures InStep() && tasks == EnsureTask(old(tasks), custody, block)
      ensures deposit == DepositFor(old(Contents()), block, id)
      ensures Contents() == Observe(old(Contents()), deposit, block.confirmedAt)
    {
      deposit := StoreDeposit(block, id);
      EnsureReceiveTask(block);
      var present := HasObserved(events, deposit.hash);
      AppendUnlessPresent(present, DepositObserved(deposit, block.confirmedAt));
    }

    /** The transaction once nothing can refuse the block any more. */
    method WriteBlock(block: ConfirmedBlock, id: Option<InvoiceId>, now: nat) returns (deposit: DepositIngest.Deposit)
      requires InStep() && (id.Some? ==> id.value in invoices)
      requires forall h | h in deposits :: deposits[h].hash == h
      modifies this`deposits, this`payments, this`invoices, this`events, this`outbox, this`added, this`tasks
      ensures InStep()
      ensures deposit == DepositFor(old(Contents()), block, id)
      ensures var s1 := Observe(old(Contents()), deposit, block.confirmedAt);
              Contents() == if id.None? || deposit.disposition == Late then s1 else Settle(s1, block, id.value, now)
      ensures tasks == EnsureTask(old(tasks), custody, block)
    {
      deposit := ObserveBlock(block, id);
      if id.Some? && deposit.disposition != Late {
        SettleInvoice(block, id.value, now);
      }
    }

    /** The invoice the block belongs to, and why it is refused, if it is. */
    method FindInvoice(block: ConfirmedBlock, paused: bool, cap: nat)
      returns (id: Option<InvoiceId>, refusal: Option<IngestError>)
      ensures id == InvoiceFor(Contents(), block) && refusal == Refusal(Contents(), block, paused, cap)
    {
      id := InvoiceFor(Contents(), block);
      if id.Some? && id.value !in invoices {
        return id, Some(InvoiceMissing);
      }
      if block.hash !in deposits {
        if paused {
          return id, Some(GlobalBudget);
        }
        var rows := AccountDeposits(Contents(), block.recipient);
        if |rows| >= cap {
          return id, Some(AccountBudget);
        }
      }
      return id, None;
    }

    /** The transaction; it returns the events it appended. A refused block rolls
        back to the tables as they were. */
    method IngestBlock(block: ConfirmedBlock, now: nat, paused: bool, cap: nat)
      returns (r: Result<DepositIngest.Deposit, IngestError>, emitted: seq<Event>)
      requires forall h | h in deposits :: deposits[h].hash == h
      modifies this
      ensures (Contents(), r) == Ingest(old(Contents()), block, now, paused, cap)
      ensures tasks == if r.Ok? then EnsureTask(old(tasks), custody, block) else old(tasks)
      ensures webhooks == old(webhooks) && custody == old(custody)
      ensures events == old(events) + emitted && outbox == old(outbox) + Enqueued(webhooks, emitted, |old(events)|)
    {
      var length := |events|;
      base, jobs, added := events, outbox, [];
      r := Attempt(block, now, paused, cap);
      emitted := events[length..];
      assert emitted == added;
    }

    method Attempt(block: ConfirmedBlock, now: nat, paused: bool, cap: nat)
      returns (r: Result<DepositIngest.Deposit, IngestError>)
      requires InStep() && forall h | h in deposits :: deposits[h].hash == h
      modifies this`deposits, this`payments, this`invoices, this`events, this`outbox, this`added, this`tasks
      ensures InStep() && base == old(base) && jobs == old(jobs) && webhooks == old(webhooks) && custody == old(custody)
      ensures (Contents(), r) == Ingest(old(Contents()), block, now, paused, cap)
      ensures tasks == if r.Ok? then EnsureTask(old(tasks), custody, block) else old(tasks)
    {
      var id, refusal := FindInvoice(block, paused, cap);
      if refusal.Some? {
        return Err(refusal.value);
      }
      IngestUnlessRefused(Contents(), block, now, paused, cap);
      var deposit := WriteBlock(block, id, now);
      return Ok(deposit);
    }

    /** `transition` of one listed invoice to `expired`, announced if it happened:
        two writes, of which the process may only get to the first or to none. */
    method ExpireOne(id: InvoiceId, now: nat, writes: nat) returns (left: nat, ghost ops: seq<Op>)
      requires InStep()
      modifies this`invoices, this`events, this`outbox, this`added
      ensures InStep() && Contents() == Run(old(Contents()), ops)
      ensures invoices == if writes > 0 then WithExpired(old(invoices), id, now) else old(invoices)
      ensures added == if Due(old(Contents()), id, now) && writes > 1
                then old(added) + [OtherEvent("invoice.expired", id, now)] else old(added)
      ensures left == if !Due(old(Contents()), id, now) then writes else if writes > 1 then writes - 2 else 0
    {
      if !Due(Contents(), id, now) || writes == 0 {
        return writes, [];
      }
      invoices := invoices[id := invoices[id].(status := Expired)];
      assert Contents() == Apply(old(Contents()), Expire(id, now));
      if writes == 1 {
        ops := [Expire(id, now)];
        assert ops[..0] == [];
        return 0, ops;
      }
      var e := OtherEvent("invoice.expired", id, now);
      AppendInStep(e);
      assert Contents() == Apply(Apply(old(Contents()), Expire(id, now)), Emit(e));
      RunOfTwo(old(Contents()), Expire(id, now), Emit(e));
      return writes - 2, [Expire(id, now), Emit(e)];
    }

    /** The loop of `runExpiryCheck` over the open invoices it listed; the process
        dies when it has made so many writes. */
    method ExpireDue(listed: seq<InvoiceId>, now: nat, writes: nat)
      returns (ghost reached: nat, ghost silent: Option<InvoiceId>, ghost ops: seq<Op>)
      requires InStep()
      modifies this`invoices, this`events, this`outbox, this`added
      ensures InStep() && Contents() == Run(old(Contents()), ops)
      ensures reached <= |listed| && invoices == WithAllExpired(old(invoices), listed[..reached], now)
      ensures writes >= 2 * |listed| ==> reached == |listed| && silent.None?
      ensures forall id | id in old(invoices) && id in invoices && invoices[id] != old(invoices)[id]
              && silent != Some(id) ::
                OtherEvent("invoice.expired", id, now) in added
    {
      ops, reached, silent := [], 0, None;
      var left, i := writes, 0;
      while i < |listed| && left > 0
        invariant 0 <= i <= |listed| && reached == i
        invariant InStep() && Contents() == Run(old(Contents()), ops)
        invariant invoices == WithAllExpired(old(invoices), listed[..i], now)
        invariant left + 2 * i >= writes
        invariant silent.Some? ==> left == 0 && writes < 2 * i
        invariant forall id | id in old(invoices) && id in invoices && invoices[id] != old(invoices)[id]
                  && silent != Some(id) ::
                    OtherEvent("invoice.expired", id, now) in added
      {
        assert listed[..i + 1][..i] == listed[..i];
        if left == 1 && Due(Contents(), listed[i], now) {
          silent := Some(listed[i]);
        }
        ghost var more;
        left, more := ExpireOne(listed[i], now, left);
        RunOfConcat(old(Contents()), ops, more);
        ops, reached := ops + more, reached + 1;
        i := i + 1;
      }
      assert listed[..|listed|] == listed;
    }

    /** The periodic check: afterwards every due invoice is expired, nothing else
        changed, and each expiry was announced and enqueued. If the process dies in
        between, only some are expired, and the last of these may lack its event. */
    method RunExpiryCheck(now: nat, writes: nat) returns (ghost silent: Option<InvoiceId>, ghost ops: seq<Op>)
      requires forall id | id in invoices :: id in invoiceOrder
      modifies this`invoices, this`events, this`outbox, this`added, this`base, this`jobs
      ensures Contents() == Run(old(Contents()), ops)
      ensures events == old(events) + added && outbox == old(outbox) + Enqueued(webhooks, added, |old(events)|)
      ensures invoices.Keys == old(invoices).Keys
      ensures forall id | id in old(invoices) :: invoices[id] == old(invoices[id])
                || (Due(old(Contents()), id, now) && invoices[id] == old(invoices[id]).(status := Expired)
                    && (silent == Some(id) || OtherEvent("invoice.expired", id, now) in added))
      ensures writes >= 2 * |invoiceOrder| ==>
                silent.None? && forall id | id in old(invoices) && Due(old(Contents()), id, now) ::
                  invoices[id] == old(invoices[id]).(status := Expired)
    {
      base, jobs, added := events, outbox, [];
      var listed := OpenInvoices(invoices, invoiceOrder);
      ghost var reached;
      reached, silent, ops := ExpireDue(listed, now, writes);
      ExpiresExactly(old(invoices), listed[..reached], now);
      assert listed[..|listed|] == listed;
    }
  }

  predicate Overdue(invoice: Invoice, now: nat) {
    invoice.status == Open && invoice.expiresAt.Some? && invoice.expiresAt.value <= now
  }

  function WithExpired(invoices: map<InvoiceId, Invoice>, id: InvoiceId, now: nat): map<InvoiceId, Invoice> {
    if id in invoices && Overdue(invoices[id], now) then invoices[id := invoices[id].(status := Expired)] else invoices
  }

  function WithAllExpired(invoices: map<InvoiceId, Invoice>, listed: seq<InvoiceId>,
                          now: nat): map<InvoiceId, Invoice> {
    if listed == [] then invoices
    else WithExpired(WithAllExpired(invoices, listed[..|listed| - 1], now), listed[|listed| - 1], now)
  }

  lemma {:induction false} ExpiresExactly(invoices: map<InvoiceId, Invoice>, listed: seq<InvoiceId>, now: nat)
    ensures WithAllExpired(invoices, listed, now).Keys == invoices.Keys
    ensures forall id | id in invoices ::
              WithAllExpired(invoices, listed, now)[id]
                == if id in listed && Overdue(invoices[id], now) then invoices[id].(status := Expired) else invoices[id]
  {
    if listed != [] {
      var rest, last := listed[..|listed| - 1], listed[|listed| - 1];
      ExpiresExactly(invoices, rest, now);
      assert listed == rest + [last];
    }
  }

  function OpenInvoices(invoices: map<InvoiceId, Invoice>, order: seq<InvoiceId>): (listed: seq<InvoiceId>)
    ensures |listed| <= |order|
    ensures forall id :: id in listed <==> id in order && id in invoices && invoices[id].status == Open
  {
    if order == [] then []
    else
      var rest, last := order[..|order| - 1], order[|order| - 1];
      assert order == rest + [last];
      OpenInvoices(invoices, rest) + if last in invoices && invoices[last].status == Open then [last] else []
  }

  lemma RunOfTwo(s: State, first: Op, second: Op)
    ensures Run(s, [first, second]) == Apply(Apply(s, first), second)
  {
    assert [first, second][..1] == [first] && [first][..0] == [];
    assert Run(s, [first]) == Apply(s, first);
  }

  lemma JobsInStep(webhooks: seq<Webhook>, jobs: seq<Job>, added: seq<Event>, e: Event, base: nat, n: nat)
    requires n == base + |added|
    ensures jobs + Enqueued(webhooks, added, base) + JobsFor(webhooks, TypeOf(e), n)
              == jobs + Enqueued(webhooks, added + [e], base)
  {
    EnqueuedOneMore(webhooks, added, e, base);
  }

  lemma IngestUnlessRefused(s: State, block: ConfirmedBlock, now: nat, paused: bool, cap: nat)
    requires Refusal(s, block, paused, cap).None?
    ensures var id := InvoiceFor(s, block);
            && (id.Some? ==> id.value in s.invoices)
            && var deposit := DepositFor(s, block, id);
               var s1 := Observe(s, deposit, block.confirmedAt);
               Ingest(s, block, now, paused, cap)
                 == (if id.None? || deposit.disposition == Late then s1 else Settle(s1, block, id.value, now),
                     Ok(deposit))
  {
  }

  lemma {:induction false} PaymentKeepsHash(payments: seq<Payment>, hash: Hash)
    ensures FindPayment(payments, hash).Some? ==> FindPayment(payments, hash).value.hash == hash
  {
    if payments != [] {
      PaymentKeepsHash(payments[..|payments| - 1], hash);
    }
  }
}
