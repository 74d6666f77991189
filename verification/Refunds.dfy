/** Refund reservations: one transaction that checks what is still unrefunded
    and inserts the refund together with the send that will pay it. */
module Refunds {
  import opened Wrappers
  import opened Ledger
  import opened SendProtocol

  type DepositId = string

  datatype Deposit = Deposit(id: DepositId, invoiceId: Option<string>, recipient: Address)

  datatype Refund = Refund(id: string, depositId: DepositId, invoiceId: Option<string>, sendId: SendId,
                           destination: Address, amount: nat, key: string)

  datatype QueueError = Mismatch | KeyReused | SourceReused | UnknownDeposit | ExceedsDeposit | Duplicate

  datatype QueueResult = QueueResult(refund: Refund, send: Send, created: bool)

  /** The three tables the transaction reads and writes. */
  datatype Tables = Tables(sends: map<SendId, Send>, deposits: map<DepositId, nat>, refunds: seq<Refund>)

  predicate SourceMatches(deposit: Deposit, source: Source) {
    && source.address == deposit.recipient
    && if deposit.invoiceId.Some? && deposit.invoiceId.value != "" then
         source.InvoiceSource? && source.invoiceId == deposit.invoiceId.value
       else
         source.AccountSource?
  }

  /** Refund row and send row describe one payment out of this deposit. */
  predicate Matches(deposit: Deposit, refund: Refund, sendId: SendId, send: Send) {
    && refund.depositId == deposit.id && refund.invoiceId == deposit.invoiceId
    && refund.sendId == sendId && refund.destination == send.destination
    && refund.amount == send.amount && refund.key != ""
    && SourceMatches(deposit, send.source)
    && send.status == Status.Queued && send.blockHash == None
  }

  predicate Active(status: Status) {
    status == Status.Queued || status == Published || status == Confirmed
  }

  /** What the refunds of one deposit still hold, or have already paid out. */
  function ActiveTotal(sends: map<SendId, Send>, refunds: seq<Refund>, deposit: DepositId): nat {
    if refunds == [] then 0
    else
      var last := refunds[|refunds| - 1];
      ActiveTotal(sends, refunds[..|refunds| - 1], deposit)
      + if last.depositId == deposit && last.sendId in sends && Active(sends[last.sendId].status) then last.amount
        else 0
  }

  /** The row stored for this deposit and key, if any. */
  function Find(refunds: seq<Refund>, deposit: DepositId, key: string): Option<Refund> {
    if refunds == [] then None
    else
      var last := refunds[|refunds| - 1];
      if last.depositId == deposit && last.key == key then Some(last)
      else Find(refunds[..|refunds| - 1], deposit, key)
  }

  predicate Unused(t: Tables, refund: Refund, sendId: SendId, send: Send) {
    && sendId !in t.sends
    && (forall id | id in t.sends :: t.sends[id].key != send.key)
    && (forall r | r in t.refunds :: r.id != refund.id && r.sendId != sendId)
  }

  function Replay(t: Tables, existing: Refund, refund: Refund, send: Send): Result<QueueResult, QueueError> {
    if existing.destination != refund.destination || existing.amount != refund.amount then Err(KeyReused)
    else if existing.sendId !in t.sends then Err(Mismatch)
    else if t.sends[existing.sendId].source.address != send.source.address then Err(SourceReused)
    else Ok(QueueResult(existing, t.sends[existing.sendId], false))
  }

  function Queue(t: Tables, deposit: Deposit, refund: Refund, sendId: SendId, send: Send)
    : (Tables, Result<QueueResult, QueueError>)
  {
    if !Matches(deposit, refund, sendId, send) then (t, Err(Mismatch))
    else
      match Find(t.refunds, deposit.id, refund.key)
      case Some(existing) => (t, Replay(t, existing, refund, send))
      case None =>
        if deposit.id !in t.deposits then (t, Err(UnknownDeposit))
        else if ActiveTotal(t.sends, t.refunds, deposit.id) + refund.amount > t.deposits[deposit.id]
          then (t, Err(ExceedsDeposit))
        else if !Unused(t, refund, sendId, send) then (t, Err(Duplicate))
        else (t.(sends := t.sends[sendId := send], refunds := t.refunds + [refund]),
              Ok(QueueResult(refund, send, true)))
  }

  /** The store over its tables, with the running sum of the transaction. */
  class RefundStore {
    var sends: map<SendId, Send>
    var deposits: map<DepositId, nat>
    var refunds: seq<Refund>

    function Contents(): Tables
      reads this
    {
      Tables(sends, deposits, refunds)
    }

    constructor (tables: Tables)
      ensures Contents() == tables
    {
      sends, deposits, refunds := tables.sends, tables.deposits, tables.refunds;
    }

    method SumActive(deposit: DepositId) returns (total: nat)
      ensures total == ActiveTotal(sends, refunds, deposit)
    {
      total := 0;
      var i := 0;
      while i < |refunds|
        invariant 0 <= i <= |refunds|
        invariant total == ActiveTotal(sends, refunds[..i], deposit)
      {
        var row := refunds[i];
        assert refunds[..i + 1][..i] == refunds[..i];
        if row.depositId == deposit && row.sendId in sends && Active(sends[row.sendId].status) {
          total := total + row.amount;
        }
        i := i + 1;
      }
      assert refunds[..i] == refunds;
    }

    method Submit(deposit: Deposit, refund: Refund, sendId: SendId, send: Send)
      returns (r: Result<QueueResult, QueueError>)
      modifies this
      ensures (Contents(), r) == Queue(old(Contents()), deposit, refund, sendId, send)
    {
      if !Matches(deposit, refund, sendId, send) {
        return Err(Mismatch);
      }
      var existing := Find(refunds, deposit.id, refund.key);
      if existing.Some? {
        return Replay(Contents(), existing.value, refund, send);
      }
      if deposit.id !in deposits {
        return Err(UnknownDeposit);
      }
      var refunded := SumActive(deposit.id);
      if refunded + refund.amount > deposits[deposit.id] {
        return Err(ExceedsDeposit);
      }
      if !Unused(Contents(), refund, sendId, send) {
        return Err(Duplicate);
      }
      sends := sends[sendId := send];
      refunds := refunds + [refund];
      return Ok(QueueResult(refund, send, true));
    }
  }
}
