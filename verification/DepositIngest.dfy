/** The one transaction that turns a confirmed incoming block into a deposit, a
    payment, an invoice total, events, webhook jobs and a receive task. */
module DepositIngest {
  import opened Wrappers

  type Hash = string
  type Address = string
  type InvoiceId = string

  datatype InvoiceStatus = Open | Completed | Expired | Canceled

  datatype Policy = AtLeast | Exact

  datatype Invoice = Invoice(
    id: InvoiceId, payAddress: Address, expected: nat, received: nat, policy: Policy, status: InvoiceStatus,
    createdAt: nat, expiresAt: Option<nat>, completedAt: Option<nat>, canceledAt: Option<nat>)

  datatype Disposition = Matched | Partial | Excess | Late | Unmatched

  datatype Deposit = Deposit(
    hash: Hash, recipient: Address, sender: Option<Address>, amount: nat,
    invoiceId: Option<InvoiceId>, disposition: Disposition, confirmedAt: nat)

  datatype PaymentStatus = PaymentPending | PaymentConfirmed | PaymentFailed

  datatype Payment = Payment(
    hash: Hash, invoiceId: InvoiceId, status: PaymentStatus, sender: Option<Address>, amount: nat, confirmedAt: nat)

  datatype ConfirmedBlock = ConfirmedBlock(
    hash: Hash, sender: Address, recipient: Address, amount: nat, confirmedAt: nat, alreadyReceived: bool)

  datatype Event =
    | DepositObserved(deposit: Deposit, timestamp: nat)
    | InvoicePaymentReceived(payment: Payment, invoice: Invoice, timestamp: nat)
    | InvoicePaymentConfirmed(payment: Payment, invoice: Invoice, timestamp: nat)
    | InvoiceCompleted(invoice: Invoice, timestamp: nat)
    | OtherEvent(eventType: string, resourceId: string, timestamp: nat)

  function TypeOf(e: Event): string {
    match e
    case DepositObserved(_, _) => "deposit.observed"
    case InvoicePaymentReceived(_, _, _) => "invoice.payment_received"
    case InvoicePaymentConfirmed(_, _, _) => "invoice.payment_confirmed"
    case InvoiceCompleted(_, _) => "invoice.completed"
    case OtherEvent(t, _, _) => t
  }

  datatype ReceiveTask = ReceiveTask(pendingHash: Hash, recipient: Address, derivationIndex: nat, amount: nat)

  /** The tables an ingest reads; `invoiceOrder` is the order of insertion. */
  datatype State = State(
    invoices: map<InvoiceId, Invoice>,
    invoiceOrder: seq<InvoiceId>,
    deposits: map<Hash, Deposit>,
    payments: seq<Payment>,
    events: seq<Event>)

  const EMPTY := State(map[], [], map[], [], [])

  /** The oldest invoice of an address; of equally old ones the first inserted. */
  function Candidate(s: State, order: seq<InvoiceId>, address: Address): Option<InvoiceId> {
    if order == [] then None
    else
      var best, last := Candidate(s, order[..|order| - 1], address), order[|order| - 1];
      if last !in s.invoices || s.invoices[last].payAddress != address then best
      else if best.Some? && best.value in s.invoices && s.invoices[best.value].createdAt <= s.invoices[last].createdAt
        then best
      else Some(last)
  }

  function FindPayment(payments: seq<Payment>, hash: Hash): Option<Payment> {
    if payments == [] then None
    else if payments[|payments| - 1].hash == hash then Some(payments[|payments| - 1])
    else FindPayment(payments[..|payments| - 1], hash)
  }

  /** `SUM` over the confirmed payments of one invoice. */
  function Paid(payments: seq<Payment>, id: InvoiceId): nat {
    if payments == [] then 0
    else
      var last := payments[|payments| - 1];
      Paid(payments[..|payments| - 1], id) + if last.invoiceId == id && last.status == PaymentConfirmed then last.amount
        else 0
  }

  predicate Complete(policy: Policy, received: nat, expected: nat) {
    match policy
    case Exact => received == expected
    case AtLeast => received >= expected
  }

  function AppendEvent(s: State, e: Event): State {
    s.(events := s.events + [e])
  }

  predicate HasObserved(events: seq<Event>, hash: Hash) {
    exists e | e in events :: e.DepositObserved? && e.deposit.hash == hash
  }

  predicate HasReceived(events: seq<Event>, hash: Hash) {
    exists e | e in events :: e.InvoicePaymentReceived? && e.payment.hash == hash
  }

  predicate HasConfirmed(events: seq<Event>, hash: Hash) {
    exists e | e in events :: e.InvoicePaymentConfirmed? && e.payment.hash == hash
  }

  predicate HasCompleted(events: seq<Event>, id: InvoiceId) {
    exists e | e in events :: e.InvoiceCompleted? && e.invoice.id == id
  }

  datatype IngestError = InvoiceMissing | GlobalBudget | AccountBudget

  function AccountDeposits(s: State, address: Address): set<Hash> {
    set h | h in s.deposits && s.deposits[h].recipient == address
  }

  /** The invoice this block belongs to: that of its payment, else of its
      deposit, else, for a new deposit, the oldest invoice of the address. */
  function InvoiceFor(s: State, block: ConfirmedBlock): Option<InvoiceId> {
    var payment := FindPayment(s.payments, block.hash);
    if payment.Some? then Some(payment.value.invoiceId)
    else if block.hash in s.deposits then s.deposits[block.hash].invoiceId
    else Candidate(s, s.invoiceOrder, block.recipient)
  }

  function Refusal(s: State, block: ConfirmedBlock, paused: bool, cap: nat): Option<IngestError> {
    var id := InvoiceFor(s, block);
    if id.Some? && id.value !in s.invoices then Some(InvoiceMissing)
    else if block.hash in s.deposits then None
    else if paused then Some(GlobalBudget)
    else if |AccountDeposits(s, block.recipient)| >= cap then Some(AccountBudget)
    else None
  }

  function Classify(s: State, block: ConfirmedBlock, id: Option<InvoiceId>): Disposition
    requires id.Some? ==> id.value in s.invoices
  {
    if block.hash in s.deposits then s.deposits[block.hash].disposition
    else if id.None? then Unmatched
    else if s.invoices[id.value].status != Open then Late
    else
      var projected := Paid(s.payments, id.value) + if FindPayment(s.payments, block.hash).Some? then 0
        else block.amount;
      if projected > s.invoices[id.value].expected then Excess
      else if projected < s.invoices[id.value].expected then Partial
      else Matched
  }

  /** `senderAccount || null` */
  function SenderOf(block: ConfirmedBlock): Option<Address> {
    if block.sender == "" then None else Some(block.sender)
  }

  function DepositFor(s: State, block: ConfirmedBlock, id: Option<InvoiceId>): Deposit
    requires id.Some? ==> id.value in s.invoices
  {
    if block.hash in s.deposits then
      var d := s.deposits[block.hash];
      if d.invoiceId.None? then d.(invoiceId := id) else d
    else
      Deposit(block.hash, block.recipient, SenderOf(block), block.amount, id, Classify(s, block, id), block.confirmedAt)
  }

  /** The deposit row and its event. */
  function Observe(s: State, deposit: Deposit, timestamp: nat): State {
    var s1 := s.(deposits := s.deposits[deposit.hash := deposit]);
    if HasObserved(s.events, deposit.hash) then s1 else AppendEvent(s1, DepositObserved(deposit, timestamp))
  }

  function PaymentFor(s: State, block: ConfirmedBlock, id: InvoiceId): Payment {
    var existing := FindPayment(s.payments, block.hash);
    if existing.Some? then existing.value
    else Payment(block.hash, id, PaymentConfirmed, SenderOf(block), block.amount, block.confirmedAt)
  }

  function WithPayment(s: State, payment: Payment): State {
    if FindPayment(s.payments, payment.hash).Some? then s else s.(payments := s.payments + [payment])
  }

  function AppendUnless(s: State, present: bool, e: Event): State {
    if present then s else AppendEvent(s, e)
  }

  /** Total and status of an invoice, re-summed from its payments. */
  function Settled(invoice: Invoice, received: nat, now: nat): Invoice {
    var status := if invoice.status == Open && Complete(invoice.policy, received, invoice.expected) then Completed
      else invoice.status;
    invoice.(received := received, status := status,
      completedAt := if status == Completed && invoice.completedAt.None? then Some(now) else invoice.completedAt)
  }

  /** The events of a payment, as far as the log does not have them. */
  function Announced(s2: State, block: ConfirmedBlock, id: InvoiceId, payment: Payment, before: Invoice,
                     after: Invoice): State {
    var s3 := AppendUnless(s2, HasReceived(s2.events, block.hash),
                           InvoicePaymentReceived(payment, before, block.confirmedAt));
    var s4 := AppendUnless(s3, HasConfirmed(s3.events, block.hash),
                           InvoicePaymentConfirmed(payment, before, block.confirmedAt));
    AppendUnless(s4, after.status != Completed || HasCompleted(s4.events, id),
                 InvoiceCompleted(after, block.confirmedAt))
  }

  /** The payment row, the invoice row, and their events. */
  function Settle(s: State, block: ConfirmedBlock, id: InvoiceId, now: nat): State
    requires id in s.invoices
  {
    var payment := PaymentFor(s, block, id);
    var s1 := WithPayment(s, payment);
    var received := Paid(s1.payments, id);
    var before := s.invoices[id].(received := received);
    var after := Settled(s.invoices[id], received, now);
    var s2 := s1.(invoices := s1.invoices[id := after]);
    Announced(s2, block, id, payment, before, after)
  }

  function Ingest(s: State, block: ConfirmedBlock, now: nat, paused: bool, cap: nat)
    : (State, Result<Deposit, IngestError>)
  {
    var refusal := Refusal(s, block, paused, cap);
    if refusal.Some? then (s, Err(refusal.value))
    else
      var id := InvoiceFor(s, block);
      var deposit := DepositFor(s, block, id);
      var s1 := Observe(s, deposit, block.confirmedAt);
      if id.None? || deposit.disposition == Late then (s1, Ok(deposit))
      else (Settle(s1, block, id.value, now), Ok(deposit))
  }

  /** Where an address is custodial, the derivation index that signs for it. */
  datatype Custody = Custody(invoiceAccounts: map<Address, nat>, managed: map<Address, nat>)

  function TaskFor(custody: Custody, block: ConfirmedBlock): Option<ReceiveTask> {
    if block.alreadyReceived then None
    else if block.recipient in custody.invoiceAccounts then
      Some(ReceiveTask(block.hash, block.recipient, custody.invoiceAccounts[block.recipient], block.amount))
    else if block.recipient in custody.managed then
      Some(ReceiveTask(block.hash, block.recipient, custody.managed[block.recipient], block.amount))
    else None
  }

  /** `ON CONFLICT(pending_block_hash) DO NOTHING` */
  function EnsureTask(tasks: map<Hash, ReceiveTask>, custody: Custody, block: ConfirmedBlock): map<Hash, ReceiveTask> {
    var task := TaskFor(custody, block);
    if task.None? || block.hash in tasks then tasks else tasks[block.hash := task.value]
  }

  // ----- the other writers of these tables -----

  /** `transition`: only an invoice that still has the expected status is patched. */
  function Leave(s: State, id: InvoiceId, status: InvoiceStatus, now: nat): State {
    if id in s.invoices && s.invoices[id].status == Open then
      s.(invoices := s.invoices[id := s.invoices[id].(
        status := status, canceledAt := if status == Canceled then Some(now) else s.invoices[id].canceledAt)])
    else s
  }

  predicate Due(s: State, id: InvoiceId, now: nat) {
    id in s.invoices && s.invoices[id].status == Open
    && s.invoices[id].expiresAt.Some? && s.invoices[id].expiresAt.value <= now
  }

  datatype Op =
    | IngestOp(block: ConfirmedBlock, now: nat, paused: bool, cap: nat)
    | CreateInvoice(invoice: Invoice)
    | Cancel(id: InvoiceId, now: nat)
    | Expire(id: InvoiceId, now: nat)
    | Emit(event: Event)

  const INGEST_TYPES := {"deposit.observed", "invoice.payment_received", "invoice.payment_confirmed",
                         "invoice.completed"}

  predicate NewInvoice(s: State, invoice: Invoice) {
    && invoice.id !in s.invoices && invoice.status == Open && invoice.received == 0 && invoice.expected > 0
    && invoice.completedAt == None && invoice.canceledAt == None
  }

  function Apply(s: State, op: Op): State {
    match op
    case IngestOp(block, now, paused, cap) => Ingest(s, block, now, paused, cap).0
    case CreateInvoice(invoice) =>
      if NewInvoice(s, invoice) then
        s.(invoices := s.invoices[invoice.id := invoice], invoiceOrder := s.invoiceOrder + [invoice.id])
      else s
    case Cancel(id, now) => Leave(s, id, Canceled, now)
    case Expire(id, now) => if Due(s, id, now) then Leave(s, id, Expired, now) else s
    case Emit(e) => if e.OtherEvent? && e.eventType !in INGEST_TYPES then AppendEvent(s, e) else s
  }

  function Run(s: State, ops: seq<Op>): State {
    if ops == [] then s else Apply(Run(s, ops[..|ops| - 1]), ops[|ops| - 1])
  }

  lemma {:induction false} RunOfConcat(s: State, first: seq<Op>, rest: seq<Op>)
    ensures Run(s, first + rest) == Run(Run(s, first), rest)
  {
    if rest == [] {
      assert first + rest == first;
    } else {
      assert (first + rest)[..|first + rest| - 1] == first + rest[..|rest| - 1];
      RunOfConcat(s, first, rest[..|rest| - 1]);
    }
  }
}
