/** The second ingest: `handleConfirmedBlock` over in-memory stores, with a
    minimum filter, a set of processed hashes and a running total per invoice. */
module InMemoryIngest {
  import opened Wrappers
  import opened DepositIngest
  import opened IngestSafety
  import opened IngestInvariant
  import opened IngestTheorems

  datatype Memory = Memory(tables: State, processed: set<Hash>)

  const EMPTY_MEMORY := Memory(EMPTY, {})

  function OldestInvoice(s: State, address: Address): Option<Invoice> {
    var id := Candidate(s, s.invoiceOrder, address);
    if id.Some? && id.value in s.invoices then Some(s.invoices[id.value]) else None
  }

  function DispositionNow(invoice: Option<Invoice>, amount: nat): Disposition {
    if invoice.None? then Unmatched
    else if invoice.value.status != Open then Late
    else if invoice.value.received + amount > invoice.value.expected then Excess
    else if invoice.value.received + amount < invoice.value.expected then Partial
    else Matched
  }

  /** `createIfAbsent` */
  function Created(deposits: map<Hash, Deposit>, d: Deposit): Deposit {
    if d.hash !in deposits then d
    else if deposits[d.hash].invoiceId.None? then deposits[d.hash].(invoiceId := d.invoiceId)
    else deposits[d.hash]
  }

  function InvoiceIdOf(invoice: Option<Invoice>, payment: Option<Payment>): Option<InvoiceId> {
    if invoice.Some? then Some(invoice.value.id)
    else if payment.Some? then Some(payment.value.invoiceId)
    else None
  }

  function NoteDeposit(s: State, block: ConfirmedBlock): State {
    var invoice := OldestInvoice(s, block.recipient);
    var disposition := if block.hash in s.deposits then s.deposits[block.hash].disposition
      else DispositionNow(invoice, block.amount);
    var id := InvoiceIdOf(invoice, FindPayment(s.payments, block.hash));
    var d := Created(s.deposits, Deposit(block.hash, block.recipient, SenderOf(block), block.amount, id, disposition,
                                         block.confirmedAt));
    AppendUnless(s.(deposits := s.deposits[block.hash := d]), block.hash in s.deposits,
                 DepositObserved(d, block.confirmedAt))
  }

  /** The payment and the running total, the events, and perhaps the completion. */
  function CreditInvoice(s: State, block: ConfirmedBlock, invoice: Invoice, now: nat): State {
    var payment := Payment(block.hash, invoice.id, PaymentConfirmed, SenderOf(block), block.amount, block.confirmedAt);
    var received := invoice.received + block.amount;
    var updated := invoice.(received := received);
    var s1 := s.(payments := s.payments + [payment], invoices := s.invoices[invoice.id := updated]);
    var s2 := AppendEvent(AppendEvent(s1, InvoicePaymentReceived(payment, updated, now)),
                          InvoicePaymentConfirmed(payment, updated, now));
    if Complete(invoice.policy, received, invoice.expected) then
      var completed := updated.(status := Completed, completedAt := Some(now));
      AppendEvent(s2.(invoices := s2.invoices[invoice.id := completed]), InvoiceCompleted(completed, now))
    else s2
  }

  function IngestInMemory(s: State, block: ConfirmedBlock, now: nat): State {
    var invoice := OldestInvoice(s, block.recipient);
    var s1 := NoteDeposit(s, block);
    if FindPayment(s.payments, block.hash).None? && invoice.Some? && invoice.value.status == Open
    then CreditInvoice(s1, block, invoice.value, now)
    else s1
  }

  function HandleConfirmedBlock(m: Memory, block: ConfirmedBlock, now: nat, minimum: nat): Memory {
    if block.hash in m.processed || block.amount < minimum then m
    else Memory(IngestInMemory(m.tables, block, now), m.processed + {block.hash})
  }

  /** Dust and processed hashes are passed over; anything else is ingested and remembered. */
  lemma HandledIff(m: Memory, block: ConfirmedBlock, now: nat, minimum: nat)
    ensures var t := HandleConfirmedBlock(m, block, now, minimum);
            && (t.processed == m.processed + if block.amount >= minimum then {block.hash} else {})
            && (block.amount < minimum || block.hash in m.processed ==> t == m)
            && (block.amount >= minimum && block.hash !in m.processed
                ==> t.tables == IngestInMemory(m.tables, block, now))
  {
  }

  function ApplyInMemory(m: Memory, op: Op, minimum: nat): Memory {
    if op.IngestOp? then HandleConfirmedBlock(m, op.block, op.now, minimum)
    else m.(tables := Apply(m.tables, op))
  }

  function RunInMemory(ops: seq<Op>, minimum: nat): Memory {
    if ops == [] then EMPTY_MEMORY else ApplyInMemory(RunInMemory(ops[..|ops| - 1], minimum), ops[|ops| - 1], minimum)
  }

  // ----- the imperative form -----

  class Runtime {
    var invoices: map<InvoiceId, Invoice>
    var invoiceOrder: seq<InvoiceId>
    var deposits: map<Hash, Deposit>
    var payments: seq<Payment>
    var events: seq<Event>
    var processed: set<Hash>
    var processing: set<Hash>
    const minimum: nat

    function Contents(): Memory
      reads this
    {
      Memory(State(invoices, invoiceOrder, deposits, payments, events), processed)
    }

    constructor (minimum: nat)
      ensures Contents() == EMPTY_MEMORY && processing == {} && this.minimum == minimum
    {
      invoices, invoiceOrder, deposits, payments, events := map[], [], map[], [], [];
      processed, processing := {}, {};
      this.minimum := minimum;
    }

    /** One call at a time: no other call is under way when it starts. */
    method Handle(block: ConfirmedBlock, now: nat)
      requires processing == {}
      modifies this
      ensures Contents() == HandleConfirmedBlock(old(Contents()), block, now, minimum) && processing == {}
    {
      if block.hash in processed || block.hash in processing {
        return;
      }
      processing := processing + {block.hash};
      IngestConfirmedBlock(block, now);
      if block.amount >= minimum {
        processed := processed + {block.hash};
      }
      processing := processing - {block.hash};
    }

    method IngestConfirmedBlock(block: ConfirmedBlock, now: nat)
      modifies this`invoices, this`deposits, this`payments, this`events
      ensures Contents() == if block.amount < minimum then old(Contents())
                            else old(Contents()).(tables := IngestInMemory(old(Contents().tables), block, now))
    {
      if block.amount < minimum {
        return;
      }
      var invoice := OldestInvoice(Contents().tables, block.recipient);
      var existingPayment := FindPayment(payments, block.hash);
      SaveDeposit(block, invoice, existingPayment);
      if existingPayment.None? && invoice.Some? && invoice.value.status == Open {
        Credit(block, invoice.value, now);
      }
    }

    method SaveDeposit(block: ConfirmedBlock, invoice: Option<Invoice>, existingPayment: Option<Payment>)
      requires invoice == OldestInvoice(Contents().tables, block.recipient)
               && existingPayment == FindPayment(payments, block.hash)
      modifies this`deposits, this`events
      ensures Contents().tables == NoteDeposit(old(Contents().tables), block)
    {
      var existing := block.hash in deposits;
      var disposition := DispositionNow(invoice, block.amount);
      var id := if invoice.Some? then Some(invoice.value.id)
                else if existingPayment.Some? then Some(existingPayment.value.invoiceId) else None;
      var sender := if block.sender == "" then None else Some(block.sender);
      var deposit := Deposit(block.hash, block.recipient, sender, block.amount, id,
                             if existing then deposits[block.hash].disposition else disposition, block.confirmedAt);
      if existing {
        deposit := if deposits[block.hash].invoiceId.None? then deposits[block.hash].(invoiceId := id)
          else deposits[block.hash];
      }
      deposits := deposits[block.hash := deposit];
      if !existing {
        events := events + [DepositObserved(deposit, block.confirmedAt)];
      }
    }

    method Credit(block: ConfirmedBlock, invoice: Invoice, now: nat)
      modifies this`invoices, this`payments, this`events
      ensures Contents().tables == CreditInvoice(old(Contents().tables), block, invoice, now)
    {
      var sender := if block.sender == "" then None else Some(block.sender);
      var payment := Payment(block.hash, invoice.id, PaymentConfirmed, sender, block.amount, block.confirmedAt);
      payments := payments + [payment];
      var received := invoice.received + block.amount;
      var updated := invoice.(received := received);
      invoices := invoices[invoice.id := updated];
      events := events + [InvoicePaymentReceived(payment, updated, now)];
      events := events + [InvoicePaymentConfirmed(payment, updated, now)];
      var complete := if invoice.policy == Exact then received == invoice.expected else received >= invoice.expected;
      if complete {
        var completed := updated.(status := Completed, completedAt := Some(now));
        invoices := invoices[invoice.id := completed];
        events := events + [InvoiceCompleted(completed, now)];
      }
    }
  }

  // ----- both ingests do the same -----

  /** The two paths stamp the payment and completion events with different clocks. */
  function Untimed(e: Event): Event {
    e.(timestamp := 0)
  }

  ghost predicate SameEvents(a: seq<Event>, b: seq<Event>) {
    |a| == |b| && forall i | 0 <= i < |a| :: Untimed(a[i]) == Untimed(b[i])
  }

  ghost predicate SameTables(a: State, b: State) {
    && a.invoices == b.invoices && a.invoiceOrder == b.invoiceOrder && a.deposits == b.deposits
       && a.payments == b.payments
    && SameEvents(a.events, b.events)
  }

  /** The trace as the transactional store sees it: no block below the minimum,
      no pause, and room for every deposit. */
  function Admitted(ops: seq<Op>, minimum: nat, cap: nat): seq<Op> {
    if ops == [] then []
    else
      var rest, last := Admitted(ops[..|ops| - 1], minimum, cap), ops[|ops| - 1];
      if last.IngestOp? && last.block.amount < minimum then rest
      else rest + [if last.IngestOp? then last.(paused := false, cap := cap) else last]
  }

  lemma {:induction false} CandidateReadsInvoices(a: State, b: State, order: seq<InvoiceId>, address: Address)
    requires a.invoices == b.invoices
    ensures Candidate(a, order, address) == Candidate(b, order, address)
  {
    if order != [] {
      CandidateReadsInvoices(a, b, order[..|order| - 1], address);
    }
  }

  ghost predicate Simulates(m: Memory, s: State) {
    && SameTables(m.tables, s) && m.processed == s.deposits.Keys
  }

  /** A new block that pays an open invoice. */
  lemma CreditIsPay(s: State, d: Deposit, block: ConfirmedBlock, invoice: Invoice, now: nat)
    requires invoice.id in s.invoices && s.invoices[invoice.id] == invoice
    requires invoice.status == Open && invoice.completedAt.None?
    requires d == Deposit(block.hash, block.recipient, SenderOf(block), block.amount, Some(invoice.id), d.disposition,
                          block.confirmedAt)
    ensures SameTables(CreditInvoice(s, block, invoice, now), Pay(s, PaymentOf(d, invoice.id), invoice.id, now))
  {
    var t := Pay(s, PaymentOf(d, invoice.id), invoice.id, now);
    PayAppends(s, PaymentOf(d, invoice.id), invoice.id, now);
    var c := CreditInvoice(s, block, invoice, now);
    assert c.invoices == t.invoices;
  }

  lemma SamePay(a: State, b: State, p: Payment, id: InvoiceId, now: nat)
    requires SameTables(a, b) && id in a.invoices
    ensures SameTables(Pay(a, p, id, now), Pay(b, p, id, now))
  {
    PayAppends(a, p, id, now);
    PayAppends(b, p, id, now);
  }

  lemma SameIsTransitive(a: State, b: State, c: State)
    requires SameTables(a, b) && SameTables(b, c)
    ensures SameTables(a, c)
  {
    forall i | 0 <= i < |a.events|
      ensures Untimed(a.events[i]) == Untimed(c.events[i])
    {
      assert Untimed(a.events[i]) == Untimed(b.events[i]);
    }
  }

  /** Both find the same invoice for a block that is new. */
  lemma SameInvoice(a: State, s: State, block: ConfirmedBlock)
    requires SameTables(a, s) && Inv(s) && block.hash !in s.deposits
    ensures var id := InvoiceFor(s, block);
            && (id.Some? ==> id.value in s.invoices)
            && OldestInvoice(a, block.recipient) == (if id.None? then None else Some(s.invoices[id.value]))
            && FindPayment(a.payments, block.hash).None?
  {
    FindIsExact(s.payments, block.hash);
    CandidateExists(s, s.invoiceOrder, block.recipient);
    CandidateReadsInvoices(a, s, s.invoiceOrder, block.recipient);
  }

  lemma SameUnpaid(a: State, s: State, block: ConfirmedBlock)
    requires SameTables(a, s) && Inv(s) && block.hash !in s.deposits
    ensures var id := InvoiceFor(s, block);
            && (id.Some? ==> id.value in s.invoices)
            && NoteDeposit(a, block) == Unpaid(a, DepositFor(s, block, id))
            && SameTables(NoteDeposit(a, block), Unpaid(s, DepositFor(s, block, id)))
  {
    SameInvoice(a, s, block);
    var id := InvoiceFor(s, block);
    NothingYet(s, block.hash);
    assert id.Some? ==> s.invoices[id.value].id == id.value && InvoiceOk(s.payments, s.invoices[id.value]);
    assert Classify(s, block, id) == DispositionNow(OldestInvoice(a, block.recipient), block.amount);
  }

  lemma SameIngest(a: State, s: State, block: ConfirmedBlock, now: nat, cap: nat)
    requires SameTables(a, s) && Inv(s) && block.hash !in s.deposits
    requires Refusal(s, block, false, cap).None?
    ensures SameTables(IngestInMemory(a, block, now), Ingest(s, block, now, false, cap).0)
  {
    SameInvoice(a, s, block);
    SameUnpaid(a, s, block);
    var id := InvoiceFor(s, block);
    var d := DepositFor(s, block, id);
    if id.None? || s.invoices[id.value].status != Open {
      NewUnpaid(s, block, now, false, cap);
    } else {
      NewPayment(s, block, now, false, cap);
      var u := Unpaid(a, d);
      assert InvoiceOk(s.payments, s.invoices[id.value]);
      CreditIsPay(u, d, block, s.invoices[id.value], now);
      SamePay(u, Unpaid(s, d), PaymentOf(d, id.value), id.value, now);
      SameIsTransitive(CreditInvoice(u, block, s.invoices[id.value], now),
                       Pay(u, PaymentOf(d, id.value), id.value, now),
                       Pay(Unpaid(s, d), PaymentOf(d, id.value), id.value, now));
    }
  }

  lemma RoomForOneMore(s: State, block: ConfirmedBlock, cap: nat)
    requires Inv(s) && |s.deposits| < cap
    ensures Refusal(s, block, false, cap).None?
  {
    var held := AccountDeposits(s, block.recipient);
    FewerElements(held, s.deposits.Keys);
    FindIsExact(s.payments, block.hash);
    CandidateExists(s, s.invoiceOrder, block.recipient);
  }

  lemma {:induction false} FewerElements<T>(a: set<T>, b: set<T>)
    requires a <= b
    ensures |a| <= |b|
  {
    if a != {} {
      var x :| x in a;
      FewerElements(a - {x}, b - {x});
    }
  }

  lemma IngestStores(s: State, block: ConfirmedBlock, now: nat, cap: nat)
    requires Inv(s) && Refusal(s, block, false, cap).None?
    ensures Ingest(s, block, now, false, cap).0.deposits.Keys == s.deposits.Keys + {block.hash}
  {
    var o := IngestCases(s, block, now, false, cap);
    if o.PaidIn? {
      PayWrites(s, o.deposit, o.id, now);
    }
  }

  /** One confirmed block, on both sides. */
  lemma HandleSimulates(m: Memory, s: State, block: ConfirmedBlock, now: nat, minimum: nat, cap: nat)
    requires Simulates(m, s) && Inv(s) && |s.deposits| < cap && block.amount >= minimum
    ensures Simulates(HandleConfirmedBlock(m, block, now, minimum), Ingest(s, block, now, false, cap).0)
  {
    RoomForOneMore(s, block, cap);
    IngestStores(s, block, now, cap);
    if block.hash in s.deposits {
      ReplayIsAbsorbed(s, block, now, false, cap);
    } else {
      SameIngest(m.tables, s, block, now, cap);
    }
  }

  lemma OthersSimulate(m: Memory, s: State, op: Op)
    requires Simulates(m, s) && !op.IngestOp?
    ensures Simulates(m.(tables := Apply(m.tables, op)), Apply(s, op))
  {
  }

  lemma OthersStoreNothing(s: State, op: Op)
    requires !op.IngestOp?
    ensures Apply(s, op).deposits == s.deposits
  {
  }

  lemma {:induction false} Refines(ops: seq<Op>, minimum: nat, cap: nat)
    requires |ops| < cap
    ensures Simulates(RunInMemory(ops, minimum), Run(EMPTY, Admitted(ops, minimum, cap)))
    ensures |Run(EMPTY, Admitted(ops, minimum, cap)).deposits| <= |ops|
  {
    if ops != [] {
      var before, op := ops[..|ops| - 1], ops[|ops| - 1];
      var kept := Admitted(before, minimum, cap);
      Refines(before, minimum, cap);
      ReachableInv(kept);
      var s := Run(EMPTY, kept);
      if !op.IngestOp? {
        AdmitsOneMore(ops, minimum, cap, op);
        OthersSimulate(RunInMemory(before, minimum), s, op);
        OthersStoreNothing(s, op);
      } else if op.block.amount >= minimum {
        AdmitsOneMore(ops, minimum, cap, op.(paused := false, cap := cap));
        RoomForOneMore(s, op.block, cap);
        IngestStores(s, op.block, op.now, cap);
        HandleSimulates(RunInMemory(before, minimum), s, op.block, op.now, minimum, cap);
      }
    }
  }

  lemma AdmitsOneMore(ops: seq<Op>, minimum: nat, cap: nat, admitted: Op)
    requires ops != [] && (ops[|ops| - 1].IngestOp? ==> ops[|ops| - 1].block.amount >= minimum)
    requires admitted == if ops[|ops| - 1].IngestOp? then ops[|ops| - 1].(paused := false, cap := cap)
               else ops[|ops| - 1]
    ensures Run(EMPTY, Admitted(ops, minimum, cap))
              == Apply(Run(EMPTY, Admitted(ops[..|ops| - 1], minimum, cap)), admitted)
  {
    var kept := Admitted(ops[..|ops| - 1], minimum, cap);
    assert (kept + [admitted])[..|kept|] == kept;
  }

  /** For every sequential trace the in-memory path ends with the deposits,
      payments and invoices of the transactional one, and with the same events in
      the same order, up to the clock that stamped them. */
  lemma InMemoryRefinesTransactional(ops: seq<Op>, minimum: nat, cap: nat)
    requires |ops| < cap
    ensures SameTables(RunInMemory(ops, minimum).tables, Run(EMPTY, Admitted(ops, minimum, cap)))
    ensures RunInMemory(ops, minimum).processed == Run(EMPTY, Admitted(ops, minimum, cap)).deposits.Keys
  {
    Refines(ops, minimum, cap);
  }
}
