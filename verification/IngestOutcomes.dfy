/** Which invoice a confirmed block goes to, what it does there, when it is refused,
    and when an open invoice expires: in terms of the rows alone. */
module IngestOutcomes {
  import opened Wrappers
  import opened DepositIngest
  import opened IngestSafety
  import opened IngestInvariant
  import opened IngestTheorems

  // ----- the invoice of an address -----

  predicate Pays(s: State, id: InvoiceId, address: Address) {
    id in s.invoices && s.invoices[id].payAddress == address
  }

  /** The i-th listed invoice pays the address, no other that does is older, and of
      the equally old ones it stands first. Its status plays no part. */
  ghost predicate OldestAt(s: State, order: seq<InvoiceId>, i: nat, address: Address) {
    && i < |order| && Pays(s, order[i], address)
    && forall j | 0 <= j < |order| && Pays(s, order[j], address) ::
         s.invoices[order[i]].createdAt < s.invoices[order[j]].createdAt
         || (s.invoices[order[i]].createdAt == s.invoices[order[j]].createdAt && i <= j)
  }

  lemma {:induction false} CandidateIsOldest(s: State, order: seq<InvoiceId>, address: Address) returns (i: nat)
    ensures Candidate(s, order, address).None? <==> forall j | 0 <= j < |order| :: !Pays(s, order[j], address)
    ensures Candidate(s, order, address).Some? ==>
              OldestAt(s, order, i, address) && order[i] == Candidate(s, order, address).value
  {
    i := 0;
    if order != [] {
      var rest, last := order[..|order| - 1], order[|order| - 1];
      i := CandidateIsOldest(s, rest, address);
      assert forall j | 0 <= j < |rest| :: order[j] == rest[j];
      if Candidate(s, order, address) != Candidate(s, rest, address) {
        i := |rest|;
      }
    }
  }

  lemma OldestIsCandidate(s: State, order: seq<InvoiceId>, i: nat, address: Address)
    requires OldestAt(s, order, i, address)
    ensures Candidate(s, order, address) == Some(order[i])
  {
    var j := CandidateIsOldest(s, order, address);
  }

  ghost predicate AllListed(s: State) {
    && (forall id :: id in s.invoiceOrder <==> id in s.invoices)
    && forall i, j | 0 <= i < j < |s.invoiceOrder| :: s.invoiceOrder[i] != s.invoiceOrder[j]
  }

  lemma IngestKeepsListed(s: State, op: Op)
    requires Inv(s) && AllListed(s) && op.IngestOp?
    ensures AllListed(Apply(s, op))
  {
    var o := IngestCases(s, op.block, op.now, op.paused, op.cap);
    if o.PaidIn? {
      PayWrites(s, o.deposit, o.id, op.now);
    }
    assert Apply(s, op).invoiceOrder == s.invoiceOrder && Apply(s, op).invoices.Keys == s.invoices.Keys;
  }

  lemma OthersKeepListed(s: State, op: Op)
    requires AllListed(s) && !op.IngestOp?
    ensures AllListed(Apply(s, op))
  {
  }

  /** In every run the list has every invoice, once. */
  lemma {:induction false} EveryInvoiceIsListed(ops: seq<Op>)
    ensures AllListed(Run(EMPTY, ops))
  {
    if ops != [] {
      var before, op := ops[..|ops| - 1], ops[|ops| - 1];
      EveryInvoiceIsListed(before);
      ReachableInv(before);
      if op.IngestOp? {
        IngestKeepsListed(Run(EMPTY, before), op);
      } else {
        OthersKeepListed(Run(EMPTY, before), op);
      }
    }
  }

  // ----- what a new block does -----

  /** A block no row knows yet. */
  ghost predicate IsNew(s: State, hash: Hash) {
    hash !in s.deposits && forall p | p in s.payments :: p.hash != hash
  }

  /** A stored block is never refused. A new one is refused while storage is paused, or
      once its account has as many deposits as the cap allows, and for no other reason. */
  lemma RefusedIff(s: State, block: ConfirmedBlock, now: nat, paused: bool, cap: nat)
    requires Inv(s)
    ensures var r := Ingest(s, block, now, paused, cap).1;
            && (r == Err(GlobalBudget) <==> block.hash !in s.deposits && paused)
            && (r == Err(AccountBudget) <==>
                  && block.hash !in s.deposits && !paused
                  && |set h | h in s.deposits && s.deposits[h].recipient == block.recipient| >= cap)
            && (r.Err? ==> r.error in {GlobalBudget, AccountBudget} && Ingest(s, block, now, paused, cap).0 == s)
  {
    FindIsExact(s.payments, block.hash);
    var j := CandidateIsOldest(s, s.invoiceOrder, block.recipient);
    var rows := set h | h in s.deposits && s.deposits[h].recipient == block.recipient;
    assert AccountDeposits(s, block.recipient) == rows;
  }

  function NewDeposit(block: ConfirmedBlock, id: Option<InvoiceId>, disposition: Disposition): Deposit {
    Deposit(block.hash, block.recipient, if block.sender == "" then None else Some(block.sender), block.amount,
            id, disposition, block.confirmedAt)
  }

  lemma NewBlockHasNoPayment(s: State, block: ConfirmedBlock)
    requires IsNew(s, block.hash)
    ensures InvoiceFor(s, block) == Candidate(s, s.invoiceOrder, block.recipient)
  {
    FindIsExact(s.payments, block.hash);
  }

  /** A new block to an address that no invoice has is noted as unmatched, and no money is booked. */
  lemma UnmatchedIsNoted(s: State, block: ConfirmedBlock, now: nat, paused: bool, cap: nat)
    requires Inv(s) && IsNew(s, block.hash) && Ingest(s, block, now, paused, cap).1.Ok?
    requires forall j | 0 <= j < |s.invoiceOrder| :: !Pays(s, s.invoiceOrder[j], block.recipient)
    ensures var (t, r) := Ingest(s, block, now, paused, cap);
            && r == Ok(NewDeposit(block, None, Unmatched))
            && t == s.(deposits := s.deposits[block.hash := r.value],
                       events := s.events + [DepositObserved(r.value, block.confirmedAt)])
  {
    NewBlockHasNoPayment(s, block);
    var j := CandidateIsOldest(s, s.invoiceOrder, block.recipient);
  }

  /** A new block whose oldest invoice is not open any more is late for that invoice,
      even if a younger one of the address is open, and no money is booked. */
  lemma LateIsNoted(s: State, block: ConfirmedBlock, now: nat, paused: bool, cap: nat, i: nat)
    requires Inv(s) && IsNew(s, block.hash) && Ingest(s, block, now, paused, cap).1.Ok?
    requires OldestAt(s, s.invoiceOrder, i, block.recipient) && s.invoices[s.invoiceOrder[i]].status != Open
    ensures var (t, r) := Ingest(s, block, now, paused, cap);
            && r == Ok(NewDeposit(block, Some(s.invoiceOrder[i]), Late))
            && t == s.(deposits := s.deposits[block.hash := r.value],
                       events := s.events + [DepositObserved(r.value, block.confirmedAt)])
  {
    NewBlockHasNoPayment(s, block);
    OldestIsCandidate(s, s.invoiceOrder, i, block.recipient);
  }

  /** A total meets an exact invoice if it is the expected amount, any other if it is at least that. */
  predicate Meets(invoice: Invoice, total: nat) {
    total == invoice.expected || (invoice.policy == AtLeast && total > invoice.expected)
  }

  function Booked(invoice: Invoice, amount: nat, now: nat): Invoice {
    var total := invoice.received + amount;
    if Meets(invoice, total) then invoice.(received := total, status := Completed, completedAt := Some(now))
    else invoice.(received := total)
  }

  function Compared(total: nat, expected: nat): Disposition {
    if total < expected then Partial else if total == expected then Matched else Excess
  }

  /** What the log says of a payment: the deposit, the payment twice, with the new total,
      and the completion if there is one. */
  function PaymentEvents(d: Deposit, p: Payment, before: Invoice, after: Invoice): seq<Event> {
    [DepositObserved(d, d.confirmedAt), InvoicePaymentReceived(p, before.(received := after.received), d.confirmedAt),
     InvoicePaymentConfirmed(p, before.(received := after.received), d.confirmedAt)]
    + if after.status == Completed then [InvoiceCompleted(after, d.confirmedAt)] else []
  }

  lemma SettledIsBooked(payments: seq<Payment>, invoice: Invoice, amount: nat, now: nat)
    requires InvoiceOk(payments, invoice) && invoice.status == Open
    ensures Settled(invoice, invoice.received + amount, now) == Booked(invoice, amount, now)
  {
  }

  /** A new block whose oldest invoice is open is a payment to it: the total rises by the
      amount, the disposition compares the new total with the expected one, and the
      invoice is completed exactly if the total meets its policy. No other invoice changes. */
  lemma PaymentIsBooked(s: State, block: ConfirmedBlock, now: nat, paused: bool, cap: nat, i: nat)
    requires Inv(s) && IsNew(s, block.hash) && Ingest(s, block, now, paused, cap).1.Ok?
    requires OldestAt(s, s.invoiceOrder, i, block.recipient) && s.invoices[s.invoiceOrder[i]].status == Open
    ensures var (t, r) := Ingest(s, block, now, paused, cap);
            var id, invoice := s.invoiceOrder[i], s.invoices[s.invoiceOrder[i]];
            && r == Ok(NewDeposit(block, Some(id), Compared(invoice.received + block.amount, invoice.expected)))
            && t.deposits == s.deposits[block.hash := r.value]
            && t.payments
               == s.payments
                 + [Payment(block.hash, id, PaymentConfirmed, r.value.sender, block.amount, block.confirmedAt)]
            && t.invoices == s.invoices[id := Booked(invoice, block.amount, now)]
            && t.events == s.events + PaymentEvents(r.value, t.payments[|s.payments|], invoice, t.invoices[id])
  {
    NewBlockHasNoPayment(s, block);
    OldestIsCandidate(s, s.invoiceOrder, i, block.recipient);
    FindIsExact(s.payments, block.hash);
    BookedAs(s, block, now, paused, cap, s.invoiceOrder[i]);
  }

  lemma BookedAs(s: State, block: ConfirmedBlock, now: nat, paused: bool, cap: nat, id: InvoiceId)
    requires Inv(s) && block.hash !in s.deposits && Ingest(s, block, now, paused, cap).1.Ok?
    requires InvoiceFor(s, block) == Some(id) && id in s.invoices && s.invoices[id].status == Open
    requires FindPayment(s.payments, block.hash).None?
    ensures var (t, r) := Ingest(s, block, now, paused, cap);
            var d := NewDeposit(block, Some(id),
                                Compared(s.invoices[id].received + block.amount, s.invoices[id].expected));
            && r == Ok(d) && t.deposits == s.deposits[block.hash := d]
            && t.payments == s.payments + [Payment(block.hash, id, PaymentConfirmed, d.sender, d.amount, d.confirmedAt)]
            && t.invoices == s.invoices[id := Booked(s.invoices[id], block.amount, now)]
            && t.events == s.events + PaymentEvents(d, t.payments[|s.payments|], s.invoices[id], t.invoices[id])
  {
    assert InvoiceOk(s.payments, s.invoices[id]);
    PaysTheCandidate(s, block, now, paused, cap, id);
    PayBooks(s, DepositFor(s, block, Some(id)), id, now);
  }

  lemma PayBooks(s: State, d: Deposit, id: InvoiceId, now: nat)
    requires id in s.invoices && s.invoices[id].status == Open && InvoiceOk(s.payments, s.invoices[id])
    ensures var t := Pay(Unpaid(s, d), PaymentOf(d, id), id, now);
            && t.deposits == s.deposits[d.hash := d]
            && t.payments == s.payments + [Payment(d.hash, id, PaymentConfirmed, d.sender, d.amount, d.confirmedAt)]
            && t.invoices == s.invoices[id := Booked(s.invoices[id], d.amount, now)]
            && t.events == s.events + PaymentEvents(d, PaymentOf(d, id), s.invoices[id], t.invoices[id])
  {
    PayWrites(s, d, id, now);
    PayAppends(Unpaid(s, d), PaymentOf(d, id), id, now);
    SettledIsBooked(s.payments, s.invoices[id], d.amount, now);
  }

  lemma PaysTheCandidate(s: State, block: ConfirmedBlock, now: nat, paused: bool, cap: nat, id: InvoiceId)
    requires Inv(s) && block.hash !in s.deposits && Ingest(s, block, now, paused, cap).1.Ok?
    requires InvoiceFor(s, block) == Some(id) && id in s.invoices && s.invoices[id].status == Open
    requires FindPayment(s.payments, block.hash).None?
    ensures var d := DepositFor(s, block, Some(id));
            && Ingest(s, block, now, paused, cap) == (Pay(Unpaid(s, d), PaymentOf(d, id), id, now), Ok(d))
            && d == NewDeposit(block, Some(id),
                               Compared(s.invoices[id].received + block.amount, s.invoices[id].expected))
  {
    NewPayment(s, block, now, paused, cap);
    assert InvoiceOk(s.payments, s.invoices[id]);
  }

  // ----- the types of events -----

  lemma IngestKeepsTypes(s: State, op: Op)
    requires Inv(s) && op.IngestOp?
    ensures forall e | e in Apply(s, op).events && e.OtherEvent? :: e in s.events
  {
    var o := IngestCases(s, op.block, op.now, op.paused, op.cap);
    if o.PaidIn? {
      PayAppends(Unpaid(s, o.deposit), PaymentOf(o.deposit, o.id), o.id, op.now);
    }
  }

  /** In every log the type of an event tells what it is about: no other writer uses
      the types of the ingest. */
  lemma {:induction false} TypeTellsTheEvent(ops: seq<Op>, e: Event)
    requires e in Run(EMPTY, ops).events
    ensures e.DepositObserved? <==> TypeOf(e) == "deposit.observed"
    ensures e.InvoicePaymentReceived? <==> TypeOf(e) == "invoice.payment_received"
    ensures e.InvoicePaymentConfirmed? <==> TypeOf(e) == "invoice.payment_confirmed"
    ensures e.InvoiceCompleted? <==> TypeOf(e) == "invoice.completed"
  {
    if e.OtherEvent? {
      var before, op := ops[..|ops| - 1], ops[|ops| - 1];
      if op.IngestOp? {
        ReachableInv(before);
        IngestKeepsTypes(Run(EMPTY, before), op);
      }
      if e in Run(EMPTY, before).events {
        TypeTellsTheEvent(before, e);
      }
    }
  }

  // ----- the receive task -----

  /** A block that has not been received yet leaves one task for a custodial recipient:
      to sign with the index of its invoice account, or else of its managed account. */
  lemma TaskIff(tasks: map<Hash, ReceiveTask>, custody: Custody, block: ConfirmedBlock)
    requires block.hash !in tasks
    ensures var t := EnsureTask(tasks, custody, block);
            var index := if block.recipient in custody.invoiceAccounts
                         then Some(custody.invoiceAccounts[block.recipient])
                         else if block.recipient in custody.managed
                         then Some(custody.managed[block.recipient]) else None;
            && (block.hash in t <==> !block.alreadyReceived && index.Some?)
            && (block.hash in t
                ==> t[block.hash] == ReceiveTask(block.hash, block.recipient, index.value, block.amount))
            && forall h | h != block.hash :: (h in t <==> h in tasks) && (h in t ==> t[h] == tasks[h])
  {
  }

  lemma TaskIsKept(tasks: map<Hash, ReceiveTask>, custody: Custody, block: ConfirmedBlock)
    requires block.hash in tasks
    ensures EnsureTask(tasks, custody, block) == tasks
  {
  }

  // ----- the other writers -----

  /** An invoice is created open and unpaid, under an id of its own, and listed last. */
  lemma CreatedIff(s: State, invoice: Invoice)
    ensures var creates := && invoice.id !in s.invoices && invoice.status == Open && invoice.received == 0
                           && invoice.expected > 0 && invoice.completedAt.None? && invoice.canceledAt.None?;
            Apply(s, CreateInvoice(invoice))
            == if creates then s.(invoices := s.invoices[invoice.id := invoice],
                                  invoiceOrder := s.invoiceOrder + [invoice.id])
               else s
  {
  }

  /** Any event of another type can be appended, and of these types by the ingest only. */
  lemma EmittedIff(s: State, eventType: string, resourceId: string, timestamp: nat)
    ensures var e := OtherEvent(eventType, resourceId, timestamp);
            var reserved := {"deposit.observed", "invoice.payment_received", "invoice.payment_confirmed",
                             "invoice.completed"};
            Apply(s, Emit(e)) == if eventType in reserved then s else s.(events := s.events + [e])
  {
  }

  // ----- leaving `open` -----

  /** An open invoice expires from its expiry time on, and one without such a time never;
      it can be canceled at any time. One that is not open stays as it is. */
  lemma LeavesOpenIff(s: State, id: InvoiceId, now: nat)
    requires id in s.invoices
    ensures var t, invoice := Apply(s, Expire(id, now)), s.invoices[id];
            t == if invoice.status == Open && invoice.expiresAt.Some? && now >= invoice.expiresAt.value
                 then s.(invoices := s.invoices[id := invoice.(status := Expired)]) else s
    ensures var t, invoice := Apply(s, Cancel(id, now)), s.invoices[id];
            t == if invoice.status == Open
                 then s.(invoices := s.invoices[id := invoice.(status := Canceled, canceledAt := Some(now))]) else s
  {
  }
}
