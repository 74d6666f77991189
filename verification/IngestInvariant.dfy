/** Every operation on the tables keeps the invariant of `IngestSafety`. */
module IngestInvariant {
  import opened Wrappers
  import opened DepositIngest
  import opened IngestSafety

  // ----- the log tells the truth -----

  lemma AppendKeepsTrue(s: State, e: Event)
    requires LogTrue(s) && Truthful(s, e)
    requires KeyOf(e) != NoKey ==> forall x | x in s.events :: KeyOf(x) != KeyOf(e)
    ensures LogTrue(AppendEvent(s, e))
  {
    var t := AppendEvent(s, e);
    forall i | 0 <= i < |s.events|
      ensures s.events[i] in s.events
    {
    }
    forall x | x in t.events
      ensures Truthful(t, x)
    {
      assert x in s.events || x == e;
      assert Truthful(s, x);
    }
  }

  lemma KeysOfNewHash(s: State, hash: Hash)
    requires Inv(s) && hash !in s.deposits
    ensures forall e | e in s.events :: KeyOf(e) !in {ObservedKey(hash), ReceivedKey(hash), ConfirmedKey(hash)}
  {
    forall e | e in s.events
      ensures KeyOf(e) !in {ObservedKey(hash), ReceivedKey(hash), ConfirmedKey(hash)}
    {
      assert Truthful(s, e);
    }
  }

  lemma UnpaidKeepsTrue(s: State, d: Deposit)
    requires Inv(s) && d.hash !in s.deposits
    ensures LogTrue(Unpaid(s, d))
  {
    var s1 := s.(deposits := s.deposits[d.hash := d]);
    forall e | e in s.events
      ensures Truthful(s1, e)
    {
      assert Truthful(s, e);
    }
    KeysOfNewHash(s, d.hash);
    AppendKeepsTrue(s1, DepositObserved(d, d.confirmedAt));
  }

  lemma PayRowsKeepTrue(s: State, p: Payment, id: InvoiceId, now: nat)
    requires LogTrue(s) && id in s.invoices && s.invoices[id].status == Open
    ensures LogTrue(PayRows(s, p, id, now))
  {
    forall e | e in s.events
      ensures Truthful(PayRows(s, p, id, now), e)
    {
      assert Truthful(s, e);
    }
  }

  lemma NoCompletionYet(s: State, id: InvoiceId)
    requires LogTrue(s) && id in s.invoices && s.invoices[id].status == Open
    ensures forall e | e in s.events :: KeyOf(e) != CompletedKey(id)
  {
    forall e | e in s.events
      ensures KeyOf(e) != CompletedKey(id)
    {
      assert Truthful(s, e);
    }
  }

  lemma AnnounceKeepsTrue(s: State, p: Payment, invoice: Invoice)
    requires LogTrue(s) && p in s.payments
    requires forall e | e in s.events :: KeyOf(e) !in {ReceivedKey(p.hash), ConfirmedKey(p.hash)}
    ensures LogTrue(Announce(s, p, invoice))
    ensures forall x | x in Announce(s, p, invoice).events ::
              x in s.events || KeyOf(x) in {ReceivedKey(p.hash), ConfirmedKey(p.hash)}
  {
    var r := InvoicePaymentReceived(p, invoice, p.confirmedAt);
    AppendKeepsTrue(s, r);
    var s1 := AppendEvent(s, r);
    assert forall x | x in s1.events :: x in s.events || x == r;
    var c := InvoicePaymentConfirmed(p, invoice, p.confirmedAt);
    AppendKeepsTrue(s1, c);
    assert forall x | x in AppendEvent(s1, c).events :: x in s.events || x == r || x == c;
  }

  lemma CompletionKeepsTrue(s: State, before: State, p: Payment, id: InvoiceId)
    requires LogTrue(s) && id in s.invoices && s.invoices[id].id == id && s.invoices[id].status == Completed
    requires forall e | e in before.events :: KeyOf(e) != CompletedKey(id)
    requires forall e | e in s.events :: e in before.events || KeyOf(e) in {ReceivedKey(p.hash), ConfirmedKey(p.hash)}
    ensures LogTrue(AppendEvent(s, InvoiceCompleted(s.invoices[id], p.confirmedAt)))
  {
    AppendKeepsTrue(s, InvoiceCompleted(s.invoices[id], p.confirmedAt));
  }

  lemma PayKeepsTrue(s: State, p: Payment, id: InvoiceId, now: nat)
    requires LogTrue(s) && id in s.invoices && s.invoices[id].status == Open && s.invoices[id].id == id
    requires forall e | e in s.events :: KeyOf(e) !in {ReceivedKey(p.hash), ConfirmedKey(p.hash)}
    ensures LogTrue(Pay(s, p, id, now))
  {
    var before := s.invoices[id].(received := s.invoices[id].received + p.amount);
    var s1 := PayRows(s, p, id, now);
    PayRowsKeepTrue(s, p, id, now);
    NoCompletionYet(s, id);
    AnnounceKeepsTrue(s1, p, before);
    var s2 := Announce(s1, p, before);
    if s1.invoices[id].status == Completed {
      CompletionKeepsTrue(s2, s, p, id);
      assert Pay(s, p, id, now) == AppendEvent(s2, InvoiceCompleted(s2.invoices[id], p.confirmedAt));
    } else {
      assert Pay(s, p, id, now) == s2;
    }
  }

  // ----- no row without its events -----

  lemma AppendKeepsPaidAt(events: seq<Event>, more: seq<Event>, p: Payment)
    requires exists i :: PaidAt(events, i, p)
    ensures exists i :: PaidAt(events + more, i, p)
  {
    var i :| PaidAt(events, i, p);
    assert PaidAt(events + more, i, p);
  }

  lemma AppendKeepsCompletedAt(events: seq<Event>, more: seq<Event>, invoice: Invoice)
    requires exists i, p :: CompletedAt(events, i, p, invoice)
    ensures exists i, p :: CompletedAt(events + more, i, p, invoice)
  {
    var i, p :| CompletedAt(events, i, p, invoice);
    assert PaidAt(events + more, i, p);
    assert CompletedAt(events + more, i, p, invoice);
  }

  /** Everything that had its events still has them in a longer log. */
  lemma LongerLogIsFull(s: State, t: State, more: seq<Event>)
    requires LogFull(s) && t.events == s.events + more
    ensures forall h | h in s.deposits :: HasObserved(t.events, h)
    ensures forall p | p in s.payments :: exists i :: PaidAt(t.events, i, p)
    ensures forall id | id in s.invoices && s.invoices[id].status == Completed ::
              exists i, p :: CompletedAt(t.events, i, p, s.invoices[id])
  {
    forall h | h in s.deposits
      ensures HasObserved(t.events, h)
    {
      var e :| e in s.events && e.DepositObserved? && e.deposit.hash == h;
      assert e in t.events;
    }
    forall p | p in s.payments
      ensures exists i :: PaidAt(t.events, i, p)
    {
      AppendKeepsPaidAt(s.events, more, p);
    }
    forall id | id in s.invoices && s.invoices[id].status == Completed
      ensures exists i, p :: CompletedAt(t.events, i, p, s.invoices[id])
    {
      AppendKeepsCompletedAt(s.events, more, s.invoices[id]);
    }
  }

  lemma UnpaidKeepsFull(s: State, d: Deposit)
    requires LogFull(s)
    ensures LogFull(Unpaid(s, d))
  {
    var t := Unpaid(s, d);
    var e := DepositObserved(d, d.confirmedAt);
    LongerLogIsFull(s, t, [e]);
    assert e in t.events;
  }

  lemma PayAppends(s: State, p: Payment, id: InvoiceId, now: nat)
    requires id in s.invoices
    ensures var t := Pay(s, p, id, now);
            var before := s.invoices[id].(received := s.invoices[id].received + p.amount);
            && t == PayRows(s, p, id, now).(events := t.events)
            && t.events == s.events + [InvoicePaymentReceived(p, before, p.confirmedAt),
                                       InvoicePaymentConfirmed(p, before, p.confirmedAt)]
                         + if t.invoices[id].status == Completed then [InvoiceCompleted(t.invoices[id], p.confirmedAt)]
                           else []
  {
  }

  lemma PayKeepsFull(s: State, d: Deposit, id: InvoiceId, now: nat)
    requires LogFull(s) && id in s.invoices && s.invoices[id].status == Open && s.invoices[id].id == id
    ensures LogFull(Pay(Unpaid(s, d), PaymentOf(d, id), id, now))
  {
    var p, n := PaymentOf(d, id), |s.events|;
    var u := Unpaid(s, d);
    var t := Pay(u, p, id, now);
    PayAppends(u, p, id, now);
    var more := t.events[n..];
    assert t.events == s.events + more;
    LongerLogIsFull(s, t, more);
    assert t.events[n] == DepositObserved(d, d.confirmedAt);
    assert t.events[n] in t.events;
    assert PaidAt(t.events, n, p);
    if t.invoices[id].status == Completed {
      assert CompletedAt(t.events, n, p, t.invoices[id]);
    }
  }

  // ----- the rows -----

  lemma UnpaidKeepsRows(s: State, d: Deposit)
    requires RowsOk(s) && d.hash !in s.deposits
    requires if d.invoiceId.None? then d.disposition == Unmatched
             else d.disposition == Late && d.invoiceId.value in s.invoices
    ensures RowsOk(Unpaid(s, d))
  {
  }

  lemma PaymentsWithOneMore(s: State, d: Deposit, id: InvoiceId)
    requires RowsOk(s) && d.hash !in s.deposits && id in s.invoices
    ensures var xs := s.payments + [PaymentOf(d, id)];
            && (forall i, j | 0 <= i < j < |xs| :: xs[i].hash != xs[j].hash)
            && (forall h :: FindPayment(xs, h) == if h == d.hash then Some(PaymentOf(d, id))
                else FindPayment(s.payments, h))
            && (forall x :: Paid(xs, x) == Paid(s.payments, x) + if x == id then d.amount else 0)
  {
    var p := PaymentOf(d, id);
    var xs := s.payments + [p];
    forall i | 0 <= i < |s.payments|
      ensures s.payments[i].hash != d.hash
    {
      assert s.payments[i] in s.payments;
    }
    assert xs[..|s.payments|] == s.payments;
    forall x
      ensures Paid(xs, x) == Paid(s.payments, x) + if x == id then d.amount else 0
    {
      PaidByOneMore(s.payments, p, x);
    }
  }

  lemma RowsIgnoreTheLog(s: State, t: State)
    requires RowsOk(s) && t.deposits == s.deposits && t.payments == s.payments && t.invoices == s.invoices
    ensures RowsOk(t)
  {
  }

  lemma PayRowsKeepPayments(s: State, d: Deposit, id: InvoiceId, now: nat)
    requires PaymentsOk(s) && d.hash !in s.deposits && id in s.invoices
    requires d.invoiceId == Some(id) && d.disposition in {Matched, Partial, Excess}
    ensures PaymentsOk(PayRows(s.(deposits := s.deposits[d.hash := d]), PaymentOf(d, id), id, now))
  {
    var p := PaymentOf(d, id);
    var xs := s.payments + [p];
    forall i, j | 0 <= i < j < |xs|
      ensures xs[i].hash != xs[j].hash
    {
      assert s.payments[i] in s.payments;
    }
    assert forall x | x in xs :: x in s.payments || x == p;
  }

  lemma PayRowsKeepDeposits(s: State, d: Deposit, id: InvoiceId, now: nat)
    requires RowsOk(s) && d.hash !in s.deposits && id in s.invoices
    requires d.invoiceId == Some(id) && d.disposition in {Matched, Partial, Excess}
    ensures DepositsOk(PayRows(s.(deposits := s.deposits[d.hash := d]), PaymentOf(d, id), id, now))
  {
    PaymentsWithOneMore(s, d, id);
  }

  lemma PayRowsKeepInvoices(s: State, d: Deposit, id: InvoiceId, now: nat)
    requires RowsOk(s) && d.hash !in s.deposits && id in s.invoices && s.invoices[id].status == Open
    ensures InvoicesOk(PayRows(s.(deposits := s.deposits[d.hash := d]), PaymentOf(d, id), id, now))
  {
    PaymentsWithOneMore(s, d, id);
    forall x | x in s.invoices
      ensures InvoiceOk(s.payments, s.invoices[x])
    {
    }
  }

  lemma PayRowsKeepRows(s: State, d: Deposit, id: InvoiceId, now: nat)
    requires RowsOk(s) && d.hash !in s.deposits && id in s.invoices && s.invoices[id].status == Open
    requires d.invoiceId == Some(id) && d.disposition in {Matched, Partial, Excess}
    ensures RowsOk(PayRows(s.(deposits := s.deposits[d.hash := d]), PaymentOf(d, id), id, now))
  {
    PayRowsKeepPayments(s, d, id, now);
    PayRowsKeepDeposits(s, d, id, now);
    PayRowsKeepInvoices(s, d, id, now);
  }

  lemma PayHasTheRows(s: State, d: Deposit, id: InvoiceId, now: nat)
    requires id in s.invoices
    ensures var rows := PayRows(s.(deposits := s.deposits[d.hash := d]), PaymentOf(d, id), id, now);
            var t := Pay(Unpaid(s, d), PaymentOf(d, id), id, now);
            t.deposits == rows.deposits && t.payments == rows.payments && t.invoices == rows.invoices
  {
    PayAppends(Unpaid(s, d), PaymentOf(d, id), id, now);
  }

  lemma PayKeepsRows(s: State, d: Deposit, id: InvoiceId, now: nat)
    requires RowsOk(s) && d.hash !in s.deposits && id in s.invoices && s.invoices[id].status == Open
    requires d.invoiceId == Some(id) && d.disposition in {Matched, Partial, Excess}
    ensures RowsOk(Pay(Unpaid(s, d), PaymentOf(d, id), id, now))
  {
    PayRowsKeepRows(s, d, id, now);
    PayHasTheRows(s, d, id, now);
    RowsIgnoreTheLog(PayRows(s.(deposits := s.deposits[d.hash := d]), PaymentOf(d, id), id, now),
                     Pay(Unpaid(s, d), PaymentOf(d, id), id, now));
  }

  // ----- every operation -----

  lemma IngestKeepsInv(s: State, block: ConfirmedBlock, now: nat, paused: bool, cap: nat)
    requires Inv(s)
    ensures Inv(Ingest(s, block, now, paused, cap).0)
  {
    var id := InvoiceFor(s, block);
    var d := if Refusal(s, block, paused, cap).None? then DepositFor(s, block, id)
             else Deposit(block.hash, block.recipient, None, 0, None, Unmatched, 0);
    if block.hash in s.deposits || Refusal(s, block, paused, cap).Some? {
      ReplayIsAbsorbed(s, block, now, paused, cap);
    } else if id.None? || s.invoices[id.value].status != Open {
      NewUnpaid(s, block, now, paused, cap);
      UnpaidKeepsRows(s, d);
      UnpaidKeepsTrue(s, d);
      UnpaidKeepsFull(s, d);
    } else {
      NewPayment(s, block, now, paused, cap);
      PayingKeepsInv(s, d, id.value, now);
    }
  }

  lemma PayingKeepsInv(s: State, d: Deposit, id: InvoiceId, now: nat)
    requires Inv(s) && d.hash !in s.deposits && id in s.invoices && s.invoices[id].status == Open
    requires d.invoiceId == Some(id) && d.disposition in {Matched, Partial, Excess}
    ensures Inv(Pay(Unpaid(s, d), PaymentOf(d, id), id, now))
  {
    PayKeepsRows(s, d, id, now);
    UnpaidKeepsTrue(s, d);
    KeysOfNewHash(s, d.hash);
    PayKeepsTrue(Unpaid(s, d), PaymentOf(d, id), id, now);
    PayKeepsFull(s, d, id, now);
  }

  lemma {:induction false} NothingPaidYet(payments: seq<Payment>, id: InvoiceId)
    requires forall p | p in payments :: p.invoiceId != id
    ensures Paid(payments, id) == 0
  {
    if payments != [] {
      assert payments[|payments| - 1] in payments;
      NothingPaidYet(payments[..|payments| - 1], id);
    }
  }

  lemma CreateKeepsInv(s: State, invoice: Invoice)
    requires Inv(s)
    ensures Inv(Apply(s, CreateInvoice(invoice)))
  {
    var t := Apply(s, CreateInvoice(invoice));
    if NewInvoice(s, invoice) {
      NothingPaidYet(s.payments, invoice.id);
      forall e | e in s.events
        ensures Truthful(t, e)
      {
        assert Truthful(s, e);
      }
    }
  }

  lemma LeaveKeepsInv(s: State, id: InvoiceId, status: InvoiceStatus, now: nat)
    requires Inv(s) && (status == Canceled || status == Expired)
    ensures Inv(Leave(s, id, status, now))
  {
    var t := Leave(s, id, status, now);
    if id in s.invoices && s.invoices[id].status == Open {
      forall e | e in s.events
        ensures Truthful(t, e)
      {
        assert Truthful(s, e);
      }
      forall x | x in s.invoices
        ensures InvoiceOk(t.payments, t.invoices[x])
      {
        assert InvoiceOk(s.payments, s.invoices[x]);
      }
    }
  }

  lemma EmitKeepsInv(s: State, e: Event)
    requires Inv(s) && e.OtherEvent?
    ensures Inv(AppendEvent(s, e))
  {
    AppendKeepsTrue(s, e);
    LongerLogIsFull(s, AppendEvent(s, e), [e]);
    RowsIgnoreTheLog(s, AppendEvent(s, e));
  }

  lemma StepKeepsInv(s: State, op: Op)
    requires Inv(s)
    ensures Inv(Apply(s, op))
  {
    match op
    case IngestOp(block, now, paused, cap) => IngestKeepsInv(s, block, now, paused, cap);
    case CreateInvoice(invoice) => CreateKeepsInv(s, invoice);
    case Cancel(id, now) => LeaveKeepsInv(s, id, Canceled, now);
    case Expire(id, now) => if Due(s, id, now) { LeaveKeepsInv(s, id, Expired, now); }
    case Emit(e) => if e.OtherEvent? { EmitKeepsInv(s, e); }
  }

  lemma {:induction false} RunKeepsInv(s: State, ops: seq<Op>)
    requires Inv(s)
    ensures Inv(Run(s, ops))
  {
    if ops != [] {
      RunKeepsInv(s, ops[..|ops| - 1]);
      StepKeepsInv(Run(s, ops[..|ops| - 1]), ops[|ops| - 1]);
    }
  }
}
