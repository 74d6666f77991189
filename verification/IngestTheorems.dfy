/** The promises of the deposit ingest over whole runs from an empty database. */
module IngestTheorems {
  import opened Wrappers
  import opened DepositIngest
  import opened IngestSafety
  import opened IngestInvariant

  lemma ReachableInv(ops: seq<Op>)
    ensures Inv(Run(EMPTY, ops))
  {
    RunKeepsInv(EMPTY, ops);
  }

  // ----- replays -----

  /** Everything but a refused ingest and an ingest of a hash that is stored already. */
  predicate Counts(s: State, op: Op) {
    op.IngestOp? ==> op.block.hash !in s.deposits && Ingest(s, op.block, op.now, op.paused, op.cap).1.Ok?
  }

  /** The trace with only the first successful ingest of each hash. */
  function FirstOnly(ops: seq<Op>): seq<Op> {
    if ops == [] then []
    else
      var before, last := ops[..|ops| - 1], ops[|ops| - 1];
      FirstOnly(before) + if Counts(Run(EMPTY, before), last) then [last] else []
  }

  lemma UncountedChangesNothing(ops: seq<Op>, op: Op)
    requires !Counts(Run(EMPTY, ops), op)
    ensures Apply(Run(EMPTY, ops), op) == Run(EMPTY, ops)
  {
    ReachableInv(ops);
    ReplayIsAbsorbed(Run(EMPTY, ops), op.block, op.now, op.paused, op.cap);
  }

  /** Duplicates, whatever they claim and wherever they fall between payments,
      cancellations and expiries, leave no trace in deposits, payments, invoices or events. */
  lemma {:induction false} ReplaysAreAbsorbed(ops: seq<Op>)
    ensures Run(EMPTY, ops) == Run(EMPTY, FirstOnly(ops))
  {
    if ops != [] {
      var before, last := ops[..|ops| - 1], ops[|ops| - 1];
      ReplaysAreAbsorbed(before);
      if Counts(Run(EMPTY, before), last) {
        var kept := FirstOnly(before) + [last];
        assert kept[..|kept| - 1] == FirstOnly(before);
      } else {
        UncountedChangesNothing(before, last);
        assert FirstOnly(ops) == FirstOnly(before);
      }
    }
  }

  datatype Outcome = Nothing | Noted(deposit: Deposit) | PaidIn(deposit: Deposit, id: InvoiceId)

  /** An ingest does one of three things. */
  lemma IngestCases(s: State, block: ConfirmedBlock, now: nat, paused: bool, cap: nat) returns (o: Outcome)
    requires Inv(s)
    ensures o == Nothing <==> block.hash in s.deposits || Ingest(s, block, now, paused, cap).1.Err?
    ensures o.Noted? || o.PaidIn? ==> o.deposit.hash == block.hash
    ensures match o
            case Nothing => Ingest(s, block, now, paused, cap).0 == s
            case Noted(d) =>
              && Ingest(s, block, now, paused, cap).0 == Unpaid(s, d)
              && (d.invoiceId.Some? ==>
                    && d.disposition == Late && d.invoiceId.value in s.invoices
                    && s.invoices[d.invoiceId.value].status != Open)
            case PaidIn(d, id) =>
              && id in s.invoices && s.invoices[id].status == Open && d.invoiceId == Some(id)
              && Ingest(s, block, now, paused, cap).0 == Pay(Unpaid(s, d), PaymentOf(d, id), id, now)
              && var total := s.invoices[id].received + d.amount;
                 d.disposition == (if total > s.invoices[id].expected then Excess
                                   else if total < s.invoices[id].expected then Partial else Matched)
  {
    var id := InvoiceFor(s, block);
    if block.hash in s.deposits || Refusal(s, block, paused, cap).Some? {
      ReplayIsAbsorbed(s, block, now, paused, cap);
      return Nothing;
    }
    if id.None? || s.invoices[id.value].status != Open {
      NewUnpaid(s, block, now, paused, cap);
      return Noted(DepositFor(s, block, id));
    }
    NewPayment(s, block, now, paused, cap);
    return PaidIn(DepositFor(s, block, id), id.value);
  }

  lemma DepositsGrow(s: State, op: Op)
    requires Inv(s)
    ensures s.deposits.Keys <= Apply(s, op).deposits.Keys
    ensures op.IngestOp? && Counts(s, op) ==> op.block.hash in Apply(s, op).deposits
  {
    if op.IngestOp? {
      var o := IngestCases(s, op.block, op.now, op.paused, op.cap);
    }
  }

  lemma {:induction false} FirstOnlyIsFirst(ops: seq<Op>)
    ensures forall op | op in FirstOnly(ops) && op.IngestOp? :: op.block.hash in Run(EMPTY, ops).deposits
    ensures forall i, j | 0 <= i < j < |FirstOnly(ops)| && FirstOnly(ops)[i].IngestOp? && FirstOnly(ops)[j].IngestOp? ::
              FirstOnly(ops)[i].block.hash != FirstOnly(ops)[j].block.hash
  {
    if ops != [] {
      var before, last := ops[..|ops| - 1], ops[|ops| - 1];
      FirstOnlyIsFirst(before);
      ReachableInv(before);
      DepositsGrow(Run(EMPTY, before), last);
      forall i | 0 <= i < |FirstOnly(before)|
        ensures FirstOnly(before)[i] in FirstOnly(before)
      {
      }
    }
  }

  // ----- conservation and status -----

  /** In every reachable state an invoice's total is the sum of its payments, an
      open invoice does not meet its policy, and a completed one does. */
  lemma TotalsAndStatuses(ops: seq<Op>, id: InvoiceId)
    requires id in Run(EMPTY, ops).invoices
    ensures var s := Run(EMPTY, ops);
            var invoice := s.invoices[id];
            && invoice.received == Paid(s.payments, id)
            && (invoice.status == Open ==> !Complete(invoice.policy, invoice.received, invoice.expected))
            && (invoice.status == Completed ==> Complete(invoice.policy, invoice.received, invoice.expected))
  {
    ReachableInv(ops);
    assert InvoiceOk(Run(EMPTY, ops).payments, Run(EMPTY, ops).invoices[id]);
  }

  /** A payment is a deposit that was matched to the same invoice with the same amount, and conversely. */
  lemma PaymentsAreDeposits(ops: seq<Op>, hash: Hash)
    ensures var s := Run(EMPTY, ops);
            FindPayment(s.payments, hash).Some? <==>
              hash in s.deposits && s.deposits[hash].disposition in {Matched, Partial, Excess}
    ensures var s := Run(EMPTY, ops);
            FindPayment(s.payments, hash).Some? ==>
              var p := FindPayment(s.payments, hash).value;
              s.deposits[hash].invoiceId == Some(p.invoiceId) && s.deposits[hash].amount == p.amount
  {
    ReachableInv(ops);
    FindIsExact(Run(EMPTY, ops).payments, hash);
  }

  /** What a payment writes to the tables of rows. */
  lemma PayWrites(s: State, d: Deposit, id: InvoiceId, now: nat)
    requires id in s.invoices
    ensures var t := Pay(Unpaid(s, d), PaymentOf(d, id), id, now);
            && t.deposits == s.deposits[d.hash := d]
            && t.payments == s.payments + [PaymentOf(d, id)]
            && t.invoices == s.invoices[id := Settled(s.invoices[id], s.invoices[id].received + d.amount, now)]
            && t.invoiceOrder == s.invoiceOrder
  {
    PayAppends(Unpaid(s, d), PaymentOf(d, id), id, now);
  }

  lemma IngestKeepsClosed(s: State, block: ConfirmedBlock, now: nat, paused: bool, cap: nat, id: InvoiceId)
    requires Inv(s) && id in s.invoices && s.invoices[id].status != Open
    ensures var t := Ingest(s, block, now, paused, cap).0;
            id in t.invoices && t.invoices[id] == s.invoices[id]
  {
    var o := IngestCases(s, block, now, paused, cap);
    if o.PaidIn? {
      PayWrites(s, o.deposit, o.id, now);
    }
  }

  lemma StepKeepsClosed(s: State, op: Op, id: InvoiceId)
    requires Inv(s) && id in s.invoices && s.invoices[id].status != Open
    ensures id in Apply(s, op).invoices && Apply(s, op).invoices[id] == s.invoices[id]
  {
    match op
    case IngestOp(block, now, paused, cap) => IngestKeepsClosed(s, block, now, paused, cap, id);
    case CreateInvoice(_) =>
    case Cancel(_, _) =>
    case Expire(_, _) =>
    case Emit(_) =>
  }

  /** Once an invoice has left `open`, neither its total nor its status ever changes. */
  lemma {:induction false} ClosedInvoicesAreFrozen(ops: seq<Op>, more: seq<Op>, id: InvoiceId)
    requires id in Run(EMPTY, ops).invoices && Run(EMPTY, ops).invoices[id].status != Open
    ensures id in Run(Run(EMPTY, ops), more).invoices
    ensures Run(Run(EMPTY, ops), more).invoices[id] == Run(EMPTY, ops).invoices[id]
  {
    ReachableInv(ops);
    if more != [] {
      var before := more[..|more| - 1];
      ClosedInvoicesAreFrozen(ops, before, id);
      RunKeepsInv(Run(EMPTY, ops), before);
      StepKeepsClosed(Run(Run(EMPTY, ops), before), more[|more| - 1], id);
    }
  }

  // ----- events -----

  function Count(events: seq<Event>, key: Key): nat {
    if events == [] then 0
    else Count(events[..|events| - 1], key) + if KeyOf(events[|events| - 1]) == key then 1 else 0
  }

  lemma {:induction false} CountNone(events: seq<Event>, key: Key)
    requires forall e | e in events :: KeyOf(e) != key
    ensures Count(events, key) == 0
  {
    if events != [] {
      assert events[|events| - 1] in events;
      CountNone(events[..|events| - 1], key);
    }
  }

  lemma {:induction false} CountOne(events: seq<Event>, key: Key, i: nat)
    requires KeysUnique(events) && key != NoKey && i < |events| && KeyOf(events[i]) == key
    ensures Count(events, key) == 1
  {
    var rest := events[..|events| - 1];
    if i < |rest| {
      CountOne(rest, key, i);
    } else {
      forall e | e in rest
        ensures KeyOf(e) != key
      {
        var j :| 0 <= j < |rest| && rest[j] == e;
        assert events[j] == e;
      }
      CountNone(rest, key);
    }
  }

  ghost predicate ExactlyOnce(events: seq<Event>, key: Key, stored: bool) {
    Count(events, key) == if stored then 1 else 0
  }

  lemma OnceIfStored(s: State, key: Key, stored: bool)
    requires LogTrue(s) && key != NoKey
    requires stored <==> exists e :: e in s.events && KeyOf(e) == key
    ensures ExactlyOnce(s.events, key, stored)
  {
    if stored {
      var e :| e in s.events && KeyOf(e) == key;
      var i :| 0 <= i < |s.events| && s.events[i] == e;
      CountOne(s.events, key, i);
    } else {
      CountNone(s.events, key);
    }
  }

  /** One `deposit.observed` for each stored hash, and no other. */
  lemma DepositEventsExactlyOnce(ops: seq<Op>, hash: Hash)
    ensures var s := Run(EMPTY, ops); ExactlyOnce(s.events, ObservedKey(hash), hash in s.deposits)
  {
    var s := Run(EMPTY, ops);
    ReachableInv(ops);
    if hash in s.deposits {
      var e :| e in s.events && e.DepositObserved? && e.deposit.hash == hash;
      assert KeyOf(e) == ObservedKey(hash);
    } else {
      KeysOfNewHash(s, hash);
    }
    OnceIfStored(s, ObservedKey(hash), hash in s.deposits);
  }

  lemma PaymentKeys(s: State, hash: Hash)
    requires Inv(s)
    ensures FindPayment(s.payments, hash).Some? <==> exists e :: e in s.events && KeyOf(e) == ReceivedKey(hash)
    ensures FindPayment(s.payments, hash).Some? <==> exists e :: e in s.events && KeyOf(e) == ConfirmedKey(hash)
  {
    FindIsExact(s.payments, hash);
    if FindPayment(s.payments, hash).Some? {
      var p := FindPayment(s.payments, hash).value;
      var i :| PaidAt(s.events, i, p);
      assert s.events[i + 1] in s.events && KeyOf(s.events[i + 1]) == ReceivedKey(hash);
      assert s.events[i + 2] in s.events && KeyOf(s.events[i + 2]) == ConfirmedKey(hash);
    } else {
      forall e | e in s.events
        ensures KeyOf(e) != ReceivedKey(hash) && KeyOf(e) != ConfirmedKey(hash)
      {
        assert Truthful(s, e);
      }
    }
  }

  /** One `invoice.payment_received` and one `invoice.payment_confirmed` for each
      payment, right behind the `deposit.observed` of the same block. */
  lemma PaymentEventsExactlyOnce(ops: seq<Op>, hash: Hash)
    ensures var s := Run(EMPTY, ops);
            var p := FindPayment(s.payments, hash);
            && ExactlyOnce(s.events, ReceivedKey(hash), p.Some?)
            && ExactlyOnce(s.events, ConfirmedKey(hash), p.Some?)
            && (p.Some? ==> exists i :: PaidAt(s.events, i, p.value))
  {
    var s := Run(EMPTY, ops);
    ReachableInv(ops);
    PaymentKeys(s, hash);
    FindIsExact(s.payments, hash);
    OnceIfStored(s, ReceivedKey(hash), FindPayment(s.payments, hash).Some?);
    OnceIfStored(s, ConfirmedKey(hash), FindPayment(s.payments, hash).Some?);
  }

  /** One `invoice.completed` for each completed invoice, carrying the row as it
      stays, right behind the events of the payment that completed it. */
  lemma CompletionEventsExactlyOnce(ops: seq<Op>, id: InvoiceId)
    ensures var s := Run(EMPTY, ops);
            var completed := id in s.invoices && s.invoices[id].status == Completed;
            && ExactlyOnce(s.events, CompletedKey(id), completed)
            && (completed ==> exists i, p :: CompletedAt(s.events, i, p, s.invoices[id]))
  {
    var s := Run(EMPTY, ops);
    ReachableInv(ops);
    var completed := id in s.invoices && s.invoices[id].status == Completed;
    if completed {
      var i, p :| CompletedAt(s.events, i, p, s.invoices[id]);
      assert s.events[i + 3] in s.events && KeyOf(s.events[i + 3]) == CompletedKey(id);
    } else {
      forall e | e in s.events
        ensures KeyOf(e) != CompletedKey(id)
      {
        assert Truthful(s, e);
      }
    }
    OnceIfStored(s, CompletedKey(id), completed);
  }
}
