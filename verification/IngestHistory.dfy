/** The order in which the deposits of one invoice are classified, over whole runs. */
module IngestHistory {
  import opened Wrappers
  import opened DepositIngest
  import opened IngestSafety
  import opened IngestInvariant
  import opened IngestTheorems

  /** What one event adds to the history of an invoice. */
  function Entry(e: Event, id: InvoiceId): seq<Disposition> {
    if e.DepositObserved? && e.deposit.invoiceId == Some(id) then [e.deposit.disposition] else []
  }

  /** The dispositions of an invoice's deposits, in the order of the log. */
  function History(events: seq<Event>, id: InvoiceId): seq<Disposition> {
    if events == [] then [] else History(events[..|events| - 1], id) + Entry(events[|events| - 1], id)
  }

  lemma {:induction false} HistoryOfConcat(events: seq<Event>, more: seq<Event>, id: InvoiceId)
    ensures History(events + more, id) == History(events, id) + History(more, id)
  {
    if more == [] {
      assert events + more == events;
    } else {
      assert (events + more)[..|events + more| - 1] == events + more[..|more| - 1];
      HistoryOfConcat(events, more[..|more| - 1], id);
    }
  }

  lemma {:induction false} HistoryIgnores(events: seq<Event>, id: InvoiceId)
    requires forall e | e in events :: Entry(e, id) == []
    ensures History(events, id) == []
  {
    if events != [] {
      assert events[|events| - 1] in events;
      HistoryIgnores(events[..|events| - 1], id);
    }
  }

  /** The amount of the newest confirmed payment of an invoice. */
  function LastAmount(payments: seq<Payment>, id: InvoiceId): nat {
    if payments == [] then 0
    else
      var last := payments[|payments| - 1];
      if last.invoiceId == id && last.status == PaymentConfirmed then last.amount
      else LastAmount(payments[..|payments| - 1], id)
  }

  /** Partial deposits up to `i`, the ones that fill or overfill the invoice up
      to `j`, late ones after that. In between there is at most one deposit,
      except that an exact invoice can be overpaid any number of times. */
  ghost predicate Shaped(policy: Policy, ds: seq<Disposition>, i: nat, j: nat) {
    && i <= j <= |ds|
    && (forall k | 0 <= k < i :: ds[k] == Partial)
    && (forall k | i <= k < j :: ds[k] == Matched || ds[k] == Excess)
    && (forall k | j <= k < |ds| :: ds[k] == Late)
    && (j <= i + 1 || (policy == Exact && forall k | i <= k < j :: ds[k] == Excess))
  }

  /** Where an invoice with this history can stand. */
  ghost predicate Consistent(invoice: Invoice, ds: seq<Disposition>, i: nat, j: nat) {
    && Shaped(invoice.policy, ds, i, j)
    && (invoice.status == Open ==>
          && j == |ds|
          && (i < j ==> invoice.policy == Exact && invoice.received > invoice.expected
                        && forall k | i <= k < j :: ds[k] == Excess))
    && (invoice.policy == Exact && invoice.status == Completed ==> Excess !in ds)
  }

  ghost predicate HistoryOk(s: State, id: InvoiceId)
    requires id in s.invoices
  {
    var invoice := s.invoices[id];
    && (exists i, j :: Consistent(invoice, History(s.events, id), i, j))
    && (invoice.policy == AtLeast && invoice.received >= invoice.expected ==>
          invoice.received < invoice.expected + LastAmount(s.payments, id))
  }

  ghost predicate HistoriesOk(s: State) {
    forall id | id in s.invoices :: HistoryOk(s, id)
  }

  lemma HistoryOfUnpaid(s: State, d: Deposit, id: InvoiceId)
    ensures History(Unpaid(s, d).events, id) == History(s.events, id) + if d.invoiceId == Some(id) then [d.disposition]
              else []
  {
    var e := DepositObserved(d, d.confirmedAt);
    assert [e][..0] == [];
    HistoryOfConcat(s.events, [e], id);
  }

  lemma HistoryOfPay(s: State, d: Deposit, paid: InvoiceId, now: nat, id: InvoiceId)
    requires paid in s.invoices && d.invoiceId == Some(paid)
    ensures History(Pay(Unpaid(s, d), PaymentOf(d, paid), paid, now).events, id)
         == History(s.events, id) + if paid == id then [d.disposition] else []
  {
    var u := Unpaid(s, d);
    var t := Pay(u, PaymentOf(d, paid), paid, now);
    HistoryOfUnpaid(s, d, id);
    PayAppends(u, PaymentOf(d, paid), paid, now);
    var more := t.events[|u.events|..];
    HistoryOfConcat(u.events, more, id);
    HistoryIgnores(more, id);
    assert t.events == u.events + more;
  }

  /** A late deposit extends a history that is closed. */
  lemma LateExtends(invoice: Invoice, ds: seq<Disposition>, i: nat, j: nat)
    requires Consistent(invoice, ds, i, j) && invoice.status != Open
    ensures Consistent(invoice, ds + [Late], i, j)
  {
  }

  function DispositionFor(invoice: Invoice, total: nat): Disposition {
    if total > invoice.expected then Excess else if total < invoice.expected then Partial else Matched
  }

  /** A payment extends the history of an open invoice. */
  lemma PaymentExtends(invoice: Invoice, ds: seq<Disposition>, i: nat, j: nat, total: nat, now: nat)
    requires Consistent(invoice, ds, i, j) && invoice.status == Open && total >= invoice.received
    requires !Complete(invoice.policy, invoice.received, invoice.expected)
    ensures exists k, l :: Consistent(Settled(invoice, total, now), ds + [DispositionFor(invoice, total)], k, l)
  {
    var d := DispositionFor(invoice, total);
    if d == Partial {
      assert Consistent(Settled(invoice, total, now), ds + [d], i + 1, j + 1);
    } else {
      assert Consistent(Settled(invoice, total, now), ds + [d], i, j + 1);
    }
  }

  lemma LastOfOneMore(payments: seq<Payment>, p: Payment, id: InvoiceId)
    ensures LastAmount(payments + [p], id) == if p.invoiceId == id && p.status == PaymentConfirmed then p.amount
              else LastAmount(payments, id)
  {
    assert (payments + [p])[..|payments|] == payments;
  }

  lemma UnpaidKeepsHistory(s: State, d: Deposit, id: InvoiceId)
    requires id in s.invoices && HistoryOk(s, id)
    requires d.invoiceId == Some(id) ==> d.disposition == Late && s.invoices[id].status != Open
    ensures HistoryOk(Unpaid(s, d), id)
  {
    HistoryOfUnpaid(s, d, id);
    var ds := History(s.events, id);
    var i, j :| Consistent(s.invoices[id], ds, i, j);
    if d.invoiceId == Some(id) {
      LateExtends(s.invoices[id], ds, i, j);
    } else {
      assert ds + [] == ds;
    }
  }

  lemma PayKeepsHistory(s: State, d: Deposit, paid: InvoiceId, now: nat, id: InvoiceId)
    requires id in s.invoices && HistoryOk(s, id) && InvoiceOk(s.payments, s.invoices[id])
    requires paid in s.invoices && s.invoices[paid].status == Open && d.invoiceId == Some(paid)
    requires d.disposition == DispositionFor(s.invoices[paid], s.invoices[paid].received + d.amount)
    ensures id in Pay(Unpaid(s, d), PaymentOf(d, paid), paid, now).invoices
    ensures HistoryOk(Pay(Unpaid(s, d), PaymentOf(d, paid), paid, now), id)
  {
    HistoryOfPay(s, d, paid, now, id);
    PayWrites(s, d, paid, now);
    LastOfOneMore(s.payments, PaymentOf(d, paid), id);
    var ds := History(s.events, id);
    var i, j :| Consistent(s.invoices[id], ds, i, j);
    if paid == id {
      PaymentExtends(s.invoices[id], ds, i, j, s.invoices[id].received + d.amount, now);
    } else {
      assert ds + [] == ds;
    }
  }

  lemma IngestKeepsHistory(s: State, block: ConfirmedBlock, now: nat, paused: bool, cap: nat, id: InvoiceId)
    requires Inv(s) && id in s.invoices && HistoryOk(s, id)
    ensures var t := Ingest(s, block, now, paused, cap).0; id in t.invoices && HistoryOk(t, id)
  {
    var o := IngestCases(s, block, now, paused, cap);
    match o
    case Nothing =>
    case Noted(d) => UnpaidKeepsHistory(s, d, id);
    case PaidIn(d, paid) => PayKeepsHistory(s, d, paid, now, id);
  }

  lemma NoHistoryYet(s: State, id: InvoiceId)
    requires Inv(s) && id !in s.invoices
    ensures History(s.events, id) == []
  {
    forall e | e in s.events
      ensures Entry(e, id) == []
    {
      assert Truthful(s, e);
    }
    HistoryIgnores(s.events, id);
  }

  lemma CreateKeepsHistories(s: State, invoice: Invoice)
    requires Inv(s) && HistoriesOk(s)
    ensures HistoriesOk(Apply(s, CreateInvoice(invoice)))
  {
    if NewInvoice(s, invoice) {
      var t := Apply(s, CreateInvoice(invoice));
      NoHistoryYet(s, invoice.id);
      assert Consistent(invoice, [], 0, 0);
      forall id | id in s.invoices
        ensures HistoryOk(t, id)
      {
        assert HistoryOk(s, id);
      }
    }
  }

  lemma LeaveKeepsHistory(s: State, x: InvoiceId, status: InvoiceStatus, now: nat, id: InvoiceId)
    requires id in s.invoices && HistoryOk(s, id) && (status == Canceled || status == Expired)
    ensures id in Leave(s, x, status, now).invoices && HistoryOk(Leave(s, x, status, now), id)
  {
    var t := Leave(s, x, status, now);
    var i, j :| Consistent(s.invoices[id], History(s.events, id), i, j);
    assert Consistent(t.invoices[id], History(t.events, id), i, j);
  }

  lemma EmitKeepsHistory(s: State, e: Event, id: InvoiceId)
    requires id in s.invoices && HistoryOk(s, id) && e.OtherEvent?
    ensures HistoryOk(AppendEvent(s, e), id)
  {
    HistoryOfConcat(s.events, [e], id);
    HistoryIgnores([e], id);
    assert History(s.events, id) + [] == History(s.events, id);
  }

  lemma StepKeepsHistory(s: State, op: Op, id: InvoiceId)
    requires Inv(s) && id in s.invoices && HistoryOk(s, id) && !op.CreateInvoice?
    ensures id in Apply(s, op).invoices && HistoryOk(Apply(s, op), id)
  {
    match op
    case IngestOp(block, now, paused, cap) => IngestKeepsHistory(s, block, now, paused, cap, id);
    case Cancel(x, now) => LeaveKeepsHistory(s, x, Canceled, now, id);
    case Expire(x, now) => LeaveKeepsHistory(s, x, Expired, now, id);
    case Emit(e) => if e.OtherEvent? { EmitKeepsHistory(s, e, id); }
  }

  lemma StepAddsNoInvoice(s: State, op: Op)
    requires Inv(s) && !op.CreateInvoice?
    ensures Apply(s, op).invoices.Keys == s.invoices.Keys
  {
    if op.IngestOp? {
      var o := IngestCases(s, op.block, op.now, op.paused, op.cap);
      if o.PaidIn? {
        PayWrites(s, o.deposit, o.id, op.now);
      }
    }
  }

  lemma {:induction false} RunKeepsHistories(ops: seq<Op>)
    ensures HistoriesOk(Run(EMPTY, ops))
  {
    if ops != [] {
      var before, op := Run(EMPTY, ops[..|ops| - 1]), ops[|ops| - 1];
      RunKeepsHistories(ops[..|ops| - 1]);
      ReachableInv(ops[..|ops| - 1]);
      if op.CreateInvoice? {
        CreateKeepsHistories(before, op.invoice);
      } else {
        StepAddsNoInvoice(before, op);
        forall id | id in before.invoices
          ensures HistoryOk(Apply(before, op), id)
        {
          StepKeepsHistory(before, op, id);
        }
      }
    }
  }

  /** Over any run the deposits of an invoice are first partial, then fill it,
      and then are late. */
  lemma DepositsComeInPhases(ops: seq<Op>, id: InvoiceId)
    requires id in Run(EMPTY, ops).invoices
    ensures var s := Run(EMPTY, ops);
            exists i, j :: Shaped(s.invoices[id].policy, History(s.events, id), i, j)
  {
    RunKeepsHistories(ops);
    var s := Run(EMPTY, ops);
    assert HistoryOk(s, id);
    var i, j :| Consistent(s.invoices[id], History(s.events, id), i, j);
    assert Shaped(s.invoices[id].policy, History(s.events, id), i, j);
  }

  lemma IngestOnlyAddsToHistory(s: State, block: ConfirmedBlock, now: nat, paused: bool, cap: nat, id: InvoiceId)
    requires Inv(s)
    ensures var t := Ingest(s, block, now, paused, cap).0;
            && History(s.events, id) <= History(t.events, id)
            && (id in s.invoices ==> id in t.invoices && t.invoices[id].policy == s.invoices[id].policy)
  {
    var o := IngestCases(s, block, now, paused, cap);
    match o
    case Nothing =>
    case Noted(d) => HistoryOfUnpaid(s, d, id);
    case PaidIn(d, paid) =>
      HistoryOfPay(s, d, paid, now, id);
      PayWrites(s, d, paid, now);
  }

  lemma OthersOnlyAddToHistory(s: State, op: Op, id: InvoiceId)
    requires !op.IngestOp?
    ensures History(s.events, id) <= History(Apply(s, op).events, id)
    ensures id in s.invoices ==>
              id in Apply(s, op).invoices && Apply(s, op).invoices[id].policy == s.invoices[id].policy
  {
    if op.Emit? {
      HistoryOfConcat(s.events, [op.event], id);
    }
  }

  lemma StepOnlyAddsToHistory(s: State, op: Op, id: InvoiceId)
    requires Inv(s)
    ensures History(s.events, id) <= History(Apply(s, op).events, id)
    ensures id in s.invoices ==>
              id in Apply(s, op).invoices && Apply(s, op).invoices[id].policy == s.invoices[id].policy
  {
    if op.IngestOp? {
      IngestOnlyAddsToHistory(s, op.block, op.now, op.paused, op.cap, id);
    } else {
      OthersOnlyAddToHistory(s, op, id);
    }
  }

  ghost predicate Overpaid(s: State, id: InvoiceId) {
    id in s.invoices && s.invoices[id].policy == Exact && Excess in History(s.events, id)
  }

  lemma StepKeepsOverpaid(s: State, op: Op, id: InvoiceId)
    requires Inv(s) && Overpaid(s, id)
    ensures Overpaid(Apply(s, op), id)
  {
    StepOnlyAddsToHistory(s, op, id);
  }

  lemma {:induction false} RunKeepsOverpaid(s: State, more: seq<Op>, id: InvoiceId)
    requires Inv(s) && Overpaid(s, id)
    ensures Overpaid(Run(s, more), id)
  {
    if more != [] {
      var before := more[..|more| - 1];
      RunKeepsOverpaid(s, before, id);
      RunKeepsInv(s, before);
      StepKeepsOverpaid(Run(s, before), more[|more| - 1], id);
    }
  }

  /** An exact invoice that was overpaid once never completes, whatever follows. */
  lemma OverpaidExactNeverCompletes(ops: seq<Op>, more: seq<Op>, id: InvoiceId)
    requires Overpaid(Run(EMPTY, ops), id)
    ensures id in Run(EMPTY, ops + more).invoices && Run(EMPTY, ops + more).invoices[id].status != Completed
  {
    ReachableInv(ops);
    RunKeepsOverpaid(Run(EMPTY, ops), more, id);
    RunOfConcat(EMPTY, ops, more);
    RunKeepsHistories(ops + more);
    assert HistoryOk(Run(EMPTY, ops + more), id);
  }

  /** An at-least invoice that reached its amount was below it before its last payment. */
  lemma OnlyTheLastPaymentOverfills(ops: seq<Op>, id: InvoiceId)
    requires id in Run(EMPTY, ops).invoices && Run(EMPTY, ops).invoices[id].policy == AtLeast
    requires Complete(AtLeast, Run(EMPTY, ops).invoices[id].received, Run(EMPTY, ops).invoices[id].expected)
    ensures var s := Run(EMPTY, ops);
            s.invoices[id].received < s.invoices[id].expected + LastAmount(s.payments, id)
  {
    RunKeepsHistories(ops);
    assert HistoryOk(Run(EMPTY, ops), id);
  }
}
