/** What every run of ingests, cancellations, expiries and other writers keeps. */
module IngestSafety {
  import opened Wrappers
  import opened DepositIngest

  // ----- the tables -----

  ghost predicate PaymentsOk(s: State) {
    && (forall i, j | 0 <= i < j < |s.payments| :: s.payments[i].hash != s.payments[j].hash)
    && (forall p | p in s.payments ::
          && p.status == PaymentConfirmed && p.invoiceId in s.invoices && p.hash in s.deposits
          && s.deposits[p.hash].invoiceId == Some(p.invoiceId) && s.deposits[p.hash].amount == p.amount
          && s.deposits[p.hash].disposition != Late)
  }

  ghost predicate DepositsOk(s: State) {
    forall h | h in s.deposits ::
      var d := s.deposits[h];
      && d.hash == h
      && (d.invoiceId.None? <==> d.disposition == Unmatched)
      && (d.invoiceId.Some? ==> d.invoiceId.value in s.invoices)
      && (d.invoiceId.Some? && d.disposition != Late ==> FindPayment(s.payments, h).Some?)
  }

  /** The stored total is the sum of the payments, and the status follows from the total. */
  ghost predicate InvoiceOk(payments: seq<Payment>, invoice: Invoice) {
    && invoice.received == Paid(payments, invoice.id) && invoice.expected > 0
    && (invoice.status == Open ==>
          !Complete(invoice.policy, invoice.received, invoice.expected) && invoice.completedAt.None?)
    && (invoice.status == Completed ==>
          Complete(invoice.policy, invoice.received, invoice.expected) && invoice.completedAt.Some?)
  }

  ghost predicate InvoicesOk(s: State) {
    forall id | id in s.invoices :: s.invoices[id].id == id && InvoiceOk(s.payments, s.invoices[id])
  }

  ghost predicate RowsOk(s: State) {
    PaymentsOk(s) && DepositsOk(s) && InvoicesOk(s)
  }

  // ----- the event log -----

  datatype Key =
    | ObservedKey(hash: Hash)
    | ReceivedKey(hash: Hash)
    | ConfirmedKey(hash: Hash)
    | CompletedKey(id: InvoiceId)
    | NoKey

  function KeyOf(e: Event): Key {
    match e
    case DepositObserved(d, _) => ObservedKey(d.hash)
    case InvoicePaymentReceived(p, _, _) => ReceivedKey(p.hash)
    case InvoicePaymentConfirmed(p, _, _) => ConfirmedKey(p.hash)
    case InvoiceCompleted(i, _) => CompletedKey(i.id)
    case OtherEvent(_, _, _) => NoKey
  }

  ghost predicate KeysUnique(events: seq<Event>) {
    forall i, j | 0 <= i < j < |events| && KeyOf(events[i]) != NoKey :: KeyOf(events[i]) != KeyOf(events[j])
  }

  /** Each event describes a row as it is stored. */
  ghost predicate Truthful(s: State, e: Event) {
    match e
    case DepositObserved(d, _) => d.hash in s.deposits && s.deposits[d.hash] == d
    case InvoicePaymentReceived(p, _, _) => p in s.payments
    case InvoicePaymentConfirmed(p, _, _) => p in s.payments
    case InvoiceCompleted(i, _) => i.id in s.invoices && s.invoices[i.id] == i && i.status == Completed
    case OtherEvent(_, _, _) => true
  }

  /** The three events of a payment, in this order and with nothing in between. */
  ghost predicate PaidAt(events: seq<Event>, i: nat, p: Payment) {
    && i + 2 < |events|
    && events[i].DepositObserved? && events[i].deposit.hash == p.hash
    && events[i + 1].InvoicePaymentReceived? && events[i + 1].payment == p
    && events[i + 2].InvoicePaymentConfirmed? && events[i + 2].payment == p
  }

  /** The completion follows at once on the events of the payment that caused it. */
  ghost predicate CompletedAt(events: seq<Event>, i: nat, p: Payment, invoice: Invoice) {
    && PaidAt(events, i, p) && p.invoiceId == invoice.id
    && i + 3 < |events| && events[i + 3].InvoiceCompleted? && events[i + 3].invoice == invoice
  }

  ghost predicate LogTrue(s: State) {
    KeysUnique(s.events) && forall e | e in s.events :: Truthful(s, e)
  }

  /** No row without its events. */
  ghost predicate LogFull(s: State) {
    && (forall h | h in s.deposits :: HasObserved(s.events, h))
    && (forall p | p in s.payments :: exists i :: PaidAt(s.events, i, p))
    && (forall id | id in s.invoices && s.invoices[id].status == Completed ::
          exists i, p :: CompletedAt(s.events, i, p, s.invoices[id]))
  }

  ghost predicate LogOk(s: State) {
    LogTrue(s) && LogFull(s)
  }

  ghost predicate Inv(s: State) {
    RowsOk(s) && LogOk(s)
  }

  // ----- lookups -----

  lemma {:induction false} FindIsExact(payments: seq<Payment>, hash: Hash)
    ensures FindPayment(payments, hash).None? <==> forall p | p in payments :: p.hash != hash
    ensures FindPayment(payments, hash).Some? ==>
              FindPayment(payments, hash).value in payments && FindPayment(payments, hash).value.hash == hash
  {
    if payments != [] {
      var rest, last := payments[..|payments| - 1], payments[|payments| - 1];
      assert payments == rest + [last];
      FindIsExact(rest, hash);
    }
  }

  lemma {:induction false} CandidateExists(s: State, order: seq<InvoiceId>, address: Address)
    ensures var c := Candidate(s, order, address);
            c.Some? ==> c.value in s.invoices && c.value in order && s.invoices[c.value].payAddress == address
  {
    if order != [] {
      CandidateExists(s, order[..|order| - 1], address);
    }
  }

  lemma PaidByOneMore(payments: seq<Payment>, p: Payment, id: InvoiceId)
    ensures Paid(payments + [p], id) == Paid(payments, id) + if p.invoiceId == id && p.status == PaymentConfirmed
              then p.amount else 0
  {
    assert (payments + [p])[..|payments|] == payments;
  }

  // ----- the three things an ingest can do -----

  /** Settling again a payment that is settled writes what is there already. */
  lemma SettlingAgain(s: State, block: ConfirmedBlock, id: InvoiceId, now: nat)
    requires id in s.invoices && InvoiceOk(s.payments, s.invoices[id]) && s.invoices[id].id == id
    requires FindPayment(s.payments, block.hash).Some? && FindPayment(s.payments, block.hash).value.hash == block.hash
    requires HasReceived(s.events, block.hash) && HasConfirmed(s.events, block.hash)
    requires s.invoices[id].status == Completed ==> HasCompleted(s.events, id)
    ensures Settle(s, block, id, now) == s
  {
    var invoice := s.invoices[id];
    assert Settled(invoice, Paid(s.payments, id), now) == invoice;
    assert s.invoices[id := invoice] == s.invoices;
  }

  lemma PaymentHasItsEvents(s: State, p: Payment)
    requires LogOk(s) && p in s.payments
    ensures HasReceived(s.events, p.hash) && HasConfirmed(s.events, p.hash)
  {
    var i :| PaidAt(s.events, i, p);
    assert s.events[i + 1] in s.events && s.events[i + 2] in s.events;
  }

  lemma CompletionHasItsEvent(s: State, id: InvoiceId)
    requires LogOk(s) && id in s.invoices && s.invoices[id].id == id && s.invoices[id].status == Completed
    ensures HasCompleted(s.events, id)
  {
    var i, p :| CompletedAt(s.events, i, p, s.invoices[id]);
    assert s.events[i + 3] in s.events;
  }

  /** A block that is refused, or whose deposit is already stored, changes nothing. */
  lemma ReplayIsAbsorbed(s: State, block: ConfirmedBlock, now: nat, paused: bool, cap: nat)
    requires Inv(s)
    requires block.hash in s.deposits || Ingest(s, block, now, paused, cap).1.Err?
    ensures Ingest(s, block, now, paused, cap).0 == s
  {
    if block.hash in s.deposits {
      var d := s.deposits[block.hash];
      FindIsExact(s.payments, block.hash);
      assert InvoiceFor(s, block) == d.invoiceId && DepositFor(s, block, d.invoiceId) == d;
      assert s.deposits[block.hash := d] == s.deposits;
      assert HasObserved(s.events, block.hash);
      if d.invoiceId.Some? && d.disposition != Late {
        PaymentHasItsEvents(s, FindPayment(s.payments, block.hash).value);
        if s.invoices[d.invoiceId.value].status == Completed {
          CompletionHasItsEvent(s, d.invoiceId.value);
        }
        SettlingAgain(s, block, d.invoiceId.value, now);
      }
    }
  }

  /** A new deposit that pays nothing: its row and one event. */
  function Unpaid(s: State, d: Deposit): State {
    AppendEvent(s.(deposits := s.deposits[d.hash := d]), DepositObserved(d, d.confirmedAt))
  }

  /** The rows of a first payment, before their events. */
  function PayRows(s: State, p: Payment, id: InvoiceId, now: nat): State
    requires id in s.invoices
  {
    s.(payments := s.payments + [p],
       invoices := s.invoices[id := Settled(s.invoices[id], s.invoices[id].received + p.amount, now)])
  }

  /** The two events every payment has. */
  function Announce(s: State, p: Payment, invoice: Invoice): State {
    AppendEvent(AppendEvent(s, InvoicePaymentReceived(p, invoice, p.confirmedAt)),
                InvoicePaymentConfirmed(p, invoice, p.confirmedAt))
  }

  /** A first payment: its row, the invoice's row, and two or three events. */
  function Pay(s: State, p: Payment, id: InvoiceId, now: nat): State
    requires id in s.invoices
  {
    var s1 := PayRows(s, p, id, now);
    var s2 := Announce(s1, p, s.invoices[id].(received := s.invoices[id].received + p.amount));
    if s1.invoices[id].status == Completed then AppendEvent(s2, InvoiceCompleted(s1.invoices[id], p.confirmedAt))
      else s2
  }

  function PaymentOf(d: Deposit, id: InvoiceId): Payment {
    Payment(d.hash, id, PaymentConfirmed, d.sender, d.amount, d.confirmedAt)
  }

  lemma HasAfterAppend(events: seq<Event>, e: Event, hash: Hash, id: InvoiceId)
    ensures HasConfirmed(events + [e], hash)
            <==> HasConfirmed(events, hash) || (e.InvoicePaymentConfirmed? && e.payment.hash == hash)
    ensures HasCompleted(events + [e], id) <==> HasCompleted(events, id) || (e.InvoiceCompleted? && e.invoice.id == id)
  {
    forall x
      ensures x in events + [e] <==> x in events || x == e
    {
    }
  }

  lemma AnnouncedFirst(s: State, block: ConfirmedBlock, id: InvoiceId, p: Payment, before: Invoice, after: Invoice)
    requires !HasReceived(s.events, block.hash) && !HasConfirmed(s.events, block.hash) && !HasCompleted(s.events, id)
    ensures var r := InvoicePaymentReceived(p, before, block.confirmedAt);
            var c := InvoicePaymentConfirmed(p, before, block.confirmedAt);
            var two := AppendEvent(AppendEvent(s, r), c);
            Announced(s, block, id, p, before, after)
              == if after.status == Completed then AppendEvent(two, InvoiceCompleted(after, block.confirmedAt)) else two
  {
    var r := InvoicePaymentReceived(p, before, block.confirmedAt);
    var c := InvoicePaymentConfirmed(p, before, block.confirmedAt);
    HasAfterAppend(s.events, r, block.hash, id);
    HasAfterAppend(s.events + [r], c, block.hash, id);
  }

  lemma SettlingFirst(s: State, block: ConfirmedBlock, id: InvoiceId, now: nat)
    requires id in s.invoices && s.invoices[id].status == Open && s.invoices[id].received == Paid(s.payments, id)
    requires FindPayment(s.payments, block.hash).None?
    requires !HasReceived(s.events, block.hash) && !HasConfirmed(s.events, block.hash) && !HasCompleted(s.events, id)
    ensures Settle(s, block, id, now) == Pay(s, PaymentFor(s, block, id), id, now)
  {
    var p := PaymentFor(s, block, id);
    PaidByOneMore(s.payments, p, id);
    var received := s.invoices[id].received + p.amount;
    var s2 := PayRows(s, p, id, now);
    AnnouncedFirst(s2, block, id, p, s.invoices[id].(received := received), s2.invoices[id]);
    assert WithPayment(s, p) == s.(payments := s.payments + [p]);
    assert Settle(s, block, id, now) == Announced(s2, block, id, p, s.invoices[id].(received := received),
                                                  s2.invoices[id]);
  }

  lemma NothingYet(s: State, hash: Hash)
    requires Inv(s) && hash !in s.deposits
    ensures FindPayment(s.payments, hash).None?
    ensures !HasObserved(s.events, hash) && !HasReceived(s.events, hash) && !HasConfirmed(s.events, hash)
  {
    FindIsExact(s.payments, hash);
    forall e | e in s.events
      ensures !(e.DepositObserved? && e.deposit.hash == hash)
      ensures !(e.InvoicePaymentReceived? && e.payment.hash == hash)
      ensures !(e.InvoicePaymentConfirmed? && e.payment.hash == hash)
    {
      assert Truthful(s, e);
    }
  }

  lemma NewUnpaid(s: State, block: ConfirmedBlock, now: nat, paused: bool, cap: nat)
    requires Inv(s) && block.hash !in s.deposits && Refusal(s, block, paused, cap).None?
    requires var id := InvoiceFor(s, block); id.None? || s.invoices[id.value].status != Open
    ensures var id := InvoiceFor(s, block);
            var d := DepositFor(s, block, id);
            && d.hash == block.hash && d.invoiceId == id && d.disposition == (if id.None? then Unmatched else Late)
            && (id.Some? ==> id.value in s.invoices)
            && Ingest(s, block, now, paused, cap) == (Unpaid(s, d), Ok(d))
  {
    NothingYet(s, block.hash);
    CandidateExists(s, s.invoiceOrder, block.recipient);
  }

  lemma NothingPaidInOneMore(s: State, d: Deposit, hash: Hash, id: InvoiceId)
    requires !HasReceived(s.events, hash) && !HasConfirmed(s.events, hash) && !HasCompleted(s.events, id)
    ensures var events := Unpaid(s, d).events;
            !HasReceived(events, hash) && !HasConfirmed(events, hash) && !HasCompleted(events, id)
  {
    var e := DepositObserved(d, d.confirmedAt);
    forall x | x in Unpaid(s, d).events
      ensures x in s.events || x == e
    {
    }
  }

  /** Settling an open invoice for a deposit that was just stored is a first payment. */
  lemma SettlingNew(s: State, block: ConfirmedBlock, d: Deposit, id: InvoiceId, now: nat)
    requires Inv(s) && block.hash !in s.deposits && id in s.invoices && s.invoices[id].status == Open
    requires d == Deposit(block.hash, block.recipient, SenderOf(block), block.amount, Some(id), d.disposition,
                          block.confirmedAt)
    ensures Settle(Unpaid(s, d), block, id, now) == Pay(Unpaid(s, d), PaymentOf(d, id), id, now)
  {
    NothingYet(s, block.hash);
    assert InvoiceOk(s.payments, s.invoices[id]);
    forall e | e in s.events
      ensures !(e.InvoiceCompleted? && e.invoice.id == id)
    {
      assert Truthful(s, e);
    }
    NothingPaidInOneMore(s, d, block.hash, id);
    SettlingFirst(Unpaid(s, d), block, id, now);
  }

  lemma NewPayment(s: State, block: ConfirmedBlock, now: nat, paused: bool, cap: nat)
    requires Inv(s) && block.hash !in s.deposits && Refusal(s, block, paused, cap).None?
    requires var id := InvoiceFor(s, block); id.Some? && id.value in s.invoices && s.invoices[id.value].status == Open
    ensures var id := InvoiceFor(s, block);
            var d := DepositFor(s, block, id);
            var invoice := s.invoices[id.value];
            var total := invoice.received + block.amount;
            && d.hash == block.hash && d.invoiceId == id && d.amount == block.amount
            && d.disposition
               == (if total > invoice.expected then Excess else if total < invoice.expected then Partial else Matched)
            && Ingest(s, block, now, paused, cap) == (Pay(Unpaid(s, d), PaymentOf(d, id.value), id.value, now), Ok(d))
  {
    var id := InvoiceFor(s, block).value;
    var d := DepositFor(s, block, Some(id));
    assert s.invoices[id].received == Paid(s.payments, id) && FindPayment(s.payments, block.hash).None? by {
      NothingYet(s, block.hash);
      assert InvoiceOk(s.payments, s.invoices[id]);
    }
    assert Observe(s, d, block.confirmedAt) == Unpaid(s, d) by {
      NothingYet(s, block.hash);
    }
    SettlingNew(s, block, d, id, now);
  }
}
