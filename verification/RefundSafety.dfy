/** Refunds and the send protocol together, over whole runs. */
module RefundSafety {
  import opened Wrappers
  import opened Ledger
  import opened SendProtocol
  import opened SendSafety
  import opened SendTheorems
  import opened Refunds

  datatype System = System(core: State, deposits: map<DepositId, nat>, refunds: seq<Refund>)

  const START: System := System(INIT, map[], [])

  datatype Op =
    | Core(step: Step)
    | Deposited(id: DepositId, amount: nat)
    | Queue(deposit: Deposit, refund: Refund, sendId: SendId, send: Send)

  function TablesOf(s: System): Tables {
    Tables(s.core.sends, s.deposits, s.refunds)
  }

  function Outcome(s: System, op: Op): Result<QueueResult, QueueError>
    requires op.Queue?
  {
    Refunds.Queue(TablesOf(s), op.deposit, op.refund, op.sendId, op.send).1
  }

  function Do(s: System, op: Op): System {
    match op
    case Core(step) => s.(core := Apply(s.core, step))
    case Deposited(id, amount) => if id in s.deposits then s else s.(deposits := s.deposits[id := amount])
    case Queue(deposit, refund, sendId, send) =>
      var t := Refunds.Queue(TablesOf(s), deposit, refund, sendId, send).0;
      s.(core := s.core.(sends := t.sends), refunds := t.refunds)
  }

  function DoAll(s: System, ops: seq<Op>): System {
    if ops == [] then s else Do(DoAll(s, ops[..|ops| - 1]), ops[|ops| - 1])
  }

  ghost predicate RowsOk(s: System) {
    && (forall r | r in s.refunds ::
          r.sendId in s.core.sends && s.core.sends[r.sendId].amount == r.amount && r.depositId in s.deposits)
    && (forall i, j | 0 <= i < j < |s.refunds| ::
          s.refunds[i].sendId != s.refunds[j].sendId
          && !(s.refunds[i].depositId == s.refunds[j].depositId && s.refunds[i].key == s.refunds[j].key))
  }

  /** No deposit is promised out above its amount. */
  ghost predicate WithinDeposits(s: System) {
    forall d | d in s.deposits :: ActiveTotal(s.core.sends, s.refunds, d) <= s.deposits[d]
  }

  ghost predicate RefundInv(s: System) {
    RowsOk(s) && WithinDeposits(s)
  }

  /** Statuses that only advance never raise what a deposit has promised. */
  lemma {:induction false} AdvancingLowersTotal(sends: map<SendId, Send>, sends': map<SendId, Send>,
                                                refunds: seq<Refund>, d: DepositId)
    requires forall r | r in refunds ::
               r.sendId in sends && r.sendId in sends' && CanBecome(sends[r.sendId].status, sends'[r.sendId].status)
    ensures ActiveTotal(sends', refunds, d) <= ActiveTotal(sends, refunds, d)
  {
    if refunds != [] {
      var last := refunds[|refunds| - 1];
      assert last in refunds;
      AdvancingLowersTotal(sends, sends', refunds[..|refunds| - 1], d);
    }
  }

  lemma {:induction false} NoRefundsNoTotal(sends: map<SendId, Send>, refunds: seq<Refund>, d: DepositId)
    requires forall r | r in refunds :: r.depositId != d
    ensures ActiveTotal(sends, refunds, d) == 0
  {
    if refunds != [] {
      assert refunds[|refunds| - 1] in refunds;
      NoRefundsNoTotal(sends, refunds[..|refunds| - 1], d);
    }
  }

  lemma {:induction false} FindIsExact(refunds: seq<Refund>, d: DepositId, key: string)
    ensures Find(refunds, d, key).None? <==> forall r | r in refunds :: !(r.depositId == d && r.key == key)
    ensures Find(refunds, d, key).Some? ==>
              var r := Find(refunds, d, key).value; r in refunds && r.depositId == d && r.key == key
  {
    if refunds != [] {
      var rest, last := refunds[..|refunds| - 1], refunds[|refunds| - 1];
      assert refunds == rest + [last];
      FindIsExact(rest, d, key);
    }
  }

  lemma CoreKeepsRefunds(s: System, step: Step)
    requires StatusesOk(s.core) && OpOk(s.core) && ConfirmingOk(s.core) && RefundInv(s)
    ensures RefundInv(Do(s, Core(step)))
  {
    var s' := Do(s, Core(step));
    forall r | r in s.refunds
      ensures r.sendId in s'.core.sends && s'.core.sends[r.sendId].amount == r.amount
      ensures CanBecome(s.core.sends[r.sendId].status, s'.core.sends[r.sendId].status)
    {
      StatusMoves(s.core, step, r.sendId);
    }
    forall d | d in s'.deposits
      ensures ActiveTotal(s'.core.sends, s'.refunds, d) <= s'.deposits[d]
    {
      AdvancingLowersTotal(s.core.sends, s'.core.sends, s.refunds, d);
    }
  }

  lemma DepositedKeepsRefunds(s: System, id: DepositId, amount: nat)
    requires RefundInv(s)
    ensures RefundInv(Do(s, Deposited(id, amount)))
  {
    if id !in s.deposits {
      NoRefundsNoTotal(s.core.sends, s.refunds, id);
    }
  }

  lemma QueueKeepsRows(s: System, op: Op)
    requires RowsOk(s) && op.Queue?
    ensures RowsOk(Do(s, op))
  {
    FindIsExact(s.refunds, op.deposit.id, op.refund.key);
  }

  lemma QueueKeepsTotals(s: System, op: Op)
    requires RefundInv(s) && op.Queue?
    ensures WithinDeposits(Do(s, op))
  {
    var s' := Do(s, op);
    if Outcome(s, op).Ok? && Outcome(s, op).value.created {
      assert s'.refunds[..|s'.refunds| - 1] == s.refunds;
      forall d | d in s'.deposits
        ensures ActiveTotal(s'.core.sends, s'.refunds, d) <= s'.deposits[d]
      {
        AdvancingLowersTotal(s.core.sends, s'.core.sends, s.refunds, d);
      }
    }
  }

  /** Queueing a refund is, for the send protocol, queueing a send. */
  lemma QueueIsQueueSend(s: System, op: Op)
    requires op.Queue?
    ensures Do(s, op).core == s.core
         || Do(s, op).core == Apply(s.core, QueueSend(op.sendId, op.send))
  {
    if !(Outcome(s, op).Ok? && Outcome(s, op).value.created) {
      assert s.core.(sends := s.core.sends) == s.core;
    }
  }

  lemma {:induction false} RunKeepsRefunds(ops: seq<Op>)
    ensures RefundInv(DoAll(START, ops))
    ensures Inv(DoAll(START, ops).core)
  {
    if ops != [] {
      var s, op := DoAll(START, ops[..|ops| - 1]), ops[|ops| - 1];
      RunKeepsRefunds(ops[..|ops| - 1]);
      match op
      case Core(step) => CoreKeepsRefunds(s, step); StepKeepsInv(s.core, step);
      case Deposited(id, amount) => DepositedKeepsRefunds(s, id, amount);
      case Queue(_, _, id, send) =>
        QueueKeepsRows(s, op);
        QueueKeepsTotals(s, op);
        QueueIsQueueSend(s, op);
        StepKeepsInv(s.core, QueueSend(id, send));
    }
  }

  /** In every run, the queued, published and confirmed refunds of a deposit never sum above it. */
  lemma ActiveRefundsWithinDeposit(ops: seq<Op>, d: DepositId)
    requires d in DoAll(START, ops).deposits
    ensures ActiveTotal(DoAll(START, ops).core.sends, DoAll(START, ops).refunds, d) <= DoAll(START, ops).deposits[d]
  {
    RunKeepsRefunds(ops);
  }

  // ----- what actually left the account -----

  ghost predicate HasLanded(s: State, id: SendId) {
    exists h :: h in s.landed && s.landed[h].id == id
  }

  /** The refund blocks of a deposit that are on the ledger, summed. */
  ghost function LandedTotal(s: State, refunds: seq<Refund>, d: DepositId): nat {
    if refunds == [] then 0
    else
      var last := refunds[|refunds| - 1];
      LandedTotal(s, refunds[..|refunds| - 1], d)
      + if last.depositId == d && HasLanded(s, last.sendId) then last.amount else 0
  }

  lemma {:induction false} LandedIsActive(s: State, refunds: seq<Refund>, d: DepositId)
    requires FailedDead(s) && LandedOk(s)
    requires forall r | r in refunds :: r.sendId in s.sends
    ensures LandedTotal(s, refunds, d) <= ActiveTotal(s.sends, refunds, d)
  {
    if refunds != [] {
      assert refunds[|refunds| - 1] in refunds;
      LandedIsActive(s, refunds[..|refunds| - 1], d);
    }
  }

  /** In every run, the refund blocks on the ledger never sum above the deposit,
      although a failed send gives its reservation back. */
  lemma LandedRefundsWithinDeposit(ops: seq<Op>, d: DepositId)
    requires d in DoAll(START, ops).deposits
    ensures LandedTotal(DoAll(START, ops).core, DoAll(START, ops).refunds, d) <= DoAll(START, ops).deposits[d]
  {
    RunKeepsRefunds(ops);
    LandedIsActive(DoAll(START, ops).core, DoAll(START, ops).refunds, d);
  }

  /** A refund's ledger block takes exactly the refund's amount out of the account, and there is one such block. */
  lemma LandedRefundSpendsItsAmount(ops: seq<Op>, r: Refund, h: Hash, h': Hash)
    requires var s := DoAll(START, ops);
             r in s.refunds && h in s.core.landed && s.core.landed[h].id == r.sendId
             && h' in s.core.landed && s.core.landed[h'].id == r.sendId
    ensures h == h' && h.HashOf? && h.body.balance + r.amount == BalanceAt(h.body.previous)
  {
    RunKeepsRefunds(ops);
    var s := DoAll(START, ops);
    assert IntentMatches(s.core.sends[r.sendId], s.core.intents[r.sendId]);
  }

  // ----- idempotency -----

  lemma FoundStays(s: System, op: Op, r: Refund)
    requires RefundInv(s) && r in s.refunds
    requires StatusesOk(s.core) && OpOk(s.core) && ConfirmingOk(s.core)
    ensures r in Do(s, op).refunds && r.sendId in Do(s, op).core.sends
    ensures Do(s, op).core.sends[r.sendId].source == s.core.sends[r.sendId].source
  {
    if op.Core? {
      StatusMoves(s.core, op.step, r.sendId);
    }
  }

  lemma {:induction false} RowsArePermanent(ops: seq<Op>, more: seq<Op>, r: Refund)
    requires r in DoAll(START, ops).refunds
    ensures var s, t := DoAll(START, ops), DoAll(START, ops + more);
            r in t.refunds && r.sendId in s.core.sends && r.sendId in t.core.sends
            && t.core.sends[r.sendId].source == s.core.sends[r.sendId].source
  {
    RunKeepsRefunds(ops);
    if more == [] {
      assert ops + more == ops;
    } else {
      var fewer, op := more[..|more| - 1], more[|more| - 1];
      assert (ops + more)[..|ops + more| - 1] == ops + fewer;
      RowsArePermanent(ops, fewer, r);
      RunKeepsRefunds(ops + fewer);
      FoundStays(DoAll(START, ops + fewer), op, r);
    }
  }

  lemma {:induction false} FindTheRow(refunds: seq<Refund>, r: Refund)
    requires r in refunds
    requires forall i, j | 0 <= i < j < |refunds| ::
               !(refunds[i].depositId == refunds[j].depositId && refunds[i].key == refunds[j].key)
    ensures Find(refunds, r.depositId, r.key) == Some(r)
  {
    var rest, last := refunds[..|refunds| - 1], refunds[|refunds| - 1];
    assert refunds == rest + [last];
    if last != r {
      FindTheRow(rest, r);
    }
  }

  /** The same key with the same parameters returns the same refund and the same
      send, however much happened in between, and writes nothing. */
  lemma ReplayReturnsTheSameRefund(ops: seq<Op>, more: seq<Op>, first: Op, again: Op)
    requires first.Queue? && again.Queue?
    requires Outcome(DoAll(START, ops), first).Ok?
    requires Matches(again.deposit, again.refund, again.sendId, again.send)
    requires again.deposit.id == first.deposit.id && again.refund.key == first.refund.key
    requires again.refund.destination == first.refund.destination && again.refund.amount == first.refund.amount
    requires again.send.source.address == first.send.source.address
    ensures var r := Outcome(DoAll(START, ops), first).value.refund;
            var t := DoAll(START, (ops + [first]) + more);
            && Outcome(t, again).Ok? && Outcome(t, again).value.refund == r && !Outcome(t, again).value.created
            && r.sendId in t.core.sends && Outcome(t, again).value.send == t.core.sends[r.sendId]
            && Do(t, again) == t
  {
    var s := DoAll(START, ops);
    var r := Outcome(s, first).value.refund;
    var mid := ops + [first];
    assert mid[..|mid| - 1] == ops;
    FindIsExact(s.refunds, first.deposit.id, first.refund.key);
    RunKeepsRefunds(ops);
    assert r in DoAll(START, mid).refunds;
    RowsArePermanent(mid, more, r);
    RunKeepsRefunds(mid + more);
    FindTheRow(DoAll(START, mid + more).refunds, r);
    var t := DoAll(START, mid + more);
    assert t.core.(sends := t.core.sends) == t.core;
  }
}
