/** When a refund is accepted, when it is refused and why, and what a deposit has left. */
module RefundOutcomes {
  import opened Wrappers
  import opened Ledger
  import opened SendProtocol
  import opened Refunds
  import opened RefundSafety

  /** What one refund holds of its deposit. */
  function Held(sends: map<SendId, Send>, r: Refund, d: DepositId): nat {
    if r.depositId == d && r.sendId in sends && sends[r.sendId].status != Failed then r.amount else 0
  }

  lemma TotalOfOneMore(sends: map<SendId, Send>, refunds: seq<Refund>, r: Refund, d: DepositId)
    ensures ActiveTotal(sends, refunds + [r], d) == ActiveTotal(sends, refunds, d) + Held(sends, r, d)
  {
    assert (refunds + [r])[..|refunds|] == refunds;
  }

  lemma {:induction false} TotalReadsItsSends(sends: map<SendId, Send>, sends': map<SendId, Send>, refunds: seq<Refund>,
                                              d: DepositId)
    requires forall r | r in refunds :: Held(sends', r, d) == Held(sends, r, d)
    ensures ActiveTotal(sends', refunds, d) == ActiveTotal(sends, refunds, d)
  {
    if refunds != [] {
      var rest, last := refunds[..|refunds| - 1], refunds[|refunds| - 1];
      assert refunds == rest + [last] && last in refunds;
      TotalReadsItsSends(sends, sends', rest, d);
      TotalOfOneMore(sends, rest, last, d);
      TotalOfOneMore(sends', rest, last, d);
    }
  }

  /** A deposit holds nothing back exactly if each of its refunds has failed or is for nothing. */
  lemma {:induction false} NothingHeldIff(sends: map<SendId, Send>, refunds: seq<Refund>, d: DepositId)
    ensures ActiveTotal(sends, refunds, d) == 0 <==> forall r | r in refunds :: Held(sends, r, d) == 0
  {
    if refunds != [] {
      var rest, last := refunds[..|refunds| - 1], refunds[|refunds| - 1];
      assert refunds == rest + [last];
      NothingHeldIff(sends, rest, d);
      TotalOfOneMore(sends, rest, last, d);
    }
  }

  ghost predicate OneRowPerSend(refunds: seq<Refund>) {
    forall i, j | 0 <= i < j < |refunds| :: refunds[i].sendId != refunds[j].sendId
  }

  /** When a send moves on, its refund keeps what it holds, until it fails and gives all of it back. */
  lemma {:induction false} MovingOn(sends: map<SendId, Send>, refunds: seq<Refund>, r: Refund, after: Send)
    requires r in refunds && OneRowPerSend(refunds) && r.sendId in sends && sends[r.sendId].status != Failed
    ensures ActiveTotal(sends[r.sendId := after], refunds, r.depositId)
            == ActiveTotal(sends, refunds, r.depositId) - if after.status == Failed then r.amount else 0
    ensures forall d | d != r.depositId ::
              ActiveTotal(sends[r.sendId := after], refunds, d) == ActiveTotal(sends, refunds, d)
  {
    var d, moved := r.depositId, sends[r.sendId := after];
    var rest, last := refunds[..|refunds| - 1], refunds[|refunds| - 1];
    assert refunds == rest + [last];
    TotalOfOneMore(sends, rest, last, d);
    TotalOfOneMore(moved, rest, last, d);
    if r == last {
      TotalReadsItsSends(sends, moved, rest, d);
    } else {
      MovingOn(sends, rest, r, after);
    }
    forall d' | d' != d
      ensures ActiveTotal(moved, refunds, d') == ActiveTotal(sends, refunds, d')
    {
      forall x | x in refunds
        ensures Held(moved, x, d') == Held(sends, x, d')
      {
        if x.sendId == r.sendId {
          var i :| 0 <= i < |refunds| && refunds[i] == x;
          var j :| 0 <= j < |refunds| && refunds[j] == r;
        }
      }
      TotalReadsItsSends(sends, moved, refunds, d');
    }
  }

  /** What a request has to say: one payment of one amount to one destination, out of
      the address of the deposit and under a key, that has not been tried yet. */
  ghost predicate Describes(deposit: Deposit, refund: Refund, sendId: SendId, send: Send) {
    && refund.depositId == deposit.id && refund.invoiceId == deposit.invoiceId
    && refund.sendId == sendId && refund.destination == send.destination && refund.amount == send.amount
    && |refund.key| > 0
    && send.source.address == deposit.recipient
    && (deposit.invoiceId in {None, Some("")} ==> send.source.AccountSource?)
    && (deposit.invoiceId !in {None, Some("")} ==>
          send.source.InvoiceSource? && Some(send.source.invoiceId) == deposit.invoiceId)
    && send.status == Queued && send.blockHash.None?
  }

  ghost predicate KeyIsNew(t: Tables, d: DepositId, key: string) {
    forall r | r in t.refunds && r.depositId == d :: r.key != key
  }

  ghost predicate IdsAreNew(t: Tables, refund: Refund, sendId: SendId, send: Send) {
    && sendId !in t.sends && (forall x | x in t.sends :: t.sends[x].key != send.key)
    && (forall r | r in t.refunds :: r.id != refund.id && r.sendId != sendId)
  }

  /** A request under a new key is accepted exactly if it describes a payment out of a
      stored deposit that, together with what its refunds still hold, does not exceed
      it, and its ids are new; each of the refusals has its own condition. */
  lemma AcceptedIff(t: Tables, deposit: Deposit, refund: Refund, sendId: SendId, send: Send)
    requires KeyIsNew(t, deposit.id, refund.key)
    ensures var (t', r) := Refunds.Queue(t, deposit, refund, sendId, send);
            var total := ActiveTotal(t.sends, t.refunds, deposit.id) + refund.amount;
            var described, stored := Describes(deposit, refund, sendId, send), deposit.id in t.deposits;
            && (r == Err(Mismatch) <==> !described)
            && (r == Err(UnknownDeposit) <==> described && !stored)
            && (r == Err(ExceedsDeposit) <==> described && stored && total > t.deposits[deposit.id])
            && (r == Err(Duplicate) <==>
                  described && stored && total <= t.deposits[deposit.id] && !IdsAreNew(t, refund, sendId, send))
            && (r == Ok(QueueResult(refund, send, true)) <==>
                  described && stored && total <= t.deposits[deposit.id] && IdsAreNew(t, refund, sendId, send))
            && (r.Ok? ==> r.value.created)
            && t' == if r.Err? then t else t.(sends := t.sends[sendId := send], refunds := t.refunds + [refund])
  {
    FindIsExact(t.refunds, deposit.id, refund.key);
    assert Matches(deposit, refund, sendId, send) <==> Describes(deposit, refund, sendId, send);
  }

  /** Whatever the key, a request that describes no such payment is refused first. */
  lemma UndescribedIsRefused(t: Tables, deposit: Deposit, refund: Refund, sendId: SendId, send: Send)
    requires !Describes(deposit, refund, sendId, send)
    ensures Refunds.Queue(t, deposit, refund, sendId, send) == (t, Err(Mismatch))
  {
    assert !Matches(deposit, refund, sendId, send);
  }

  /** What an accepted refund takes is held from then on. */
  lemma AcceptedIsHeld(t: Tables, deposit: Deposit, refund: Refund, sendId: SendId, send: Send, d: DepositId)
    requires Refunds.Queue(t, deposit, refund, sendId, send).1 == Ok(QueueResult(refund, send, true))
    requires KeyIsNew(t, deposit.id, refund.key)
    ensures var t' := Refunds.Queue(t, deposit, refund, sendId, send).0;
            ActiveTotal(t'.sends, t'.refunds, d)
            == ActiveTotal(t.sends, t.refunds, d) + if d == deposit.id then refund.amount else 0
  {
    AcceptedIff(t, deposit, refund, sendId, send);
    var t' := Refunds.Queue(t, deposit, refund, sendId, send).0;
    TotalOfOneMore(t'.sends, t.refunds, refund, d);
    TotalReadsItsSends(t.sends, t'.sends, t.refunds, d);
  }

  /** A deposit none of whose refunds holds anything can be refunded in full, in part, but not beyond. */
  lemma RefundableInFull(t: Tables, deposit: Deposit, refund: Refund, sendId: SendId, send: Send)
    requires Describes(deposit, refund, sendId, send) && deposit.id in t.deposits
    requires KeyIsNew(t, deposit.id, refund.key) && IdsAreNew(t, refund, sendId, send)
    requires forall r | r in t.refunds && r.depositId == deposit.id && r.sendId in t.sends ::
               t.sends[r.sendId].status == Failed
    ensures Refunds.Queue(t, deposit, refund, sendId, send).1
            == if refund.amount <= t.deposits[deposit.id] then Ok(QueueResult(refund, send, true))
              else Err(ExceedsDeposit)
  {
    NothingHeldIff(t.sends, t.refunds, deposit.id);
    AcceptedIff(t, deposit, refund, sendId, send);
  }

  /** A request under a key that its deposit has seen writes nothing. It is answered with
      the stored refund exactly if destination, amount and source address are the stored
      ones; otherwise the first of these that differs is the reason to refuse it. */
  lemma ReusedKeyIff(t: Tables, deposit: Deposit, refund: Refund, sendId: SendId, send: Send, existing: Refund)
    requires Describes(deposit, refund, sendId, send)
    requires existing in t.refunds && existing.depositId == deposit.id && existing.key == refund.key
             && existing.sendId in t.sends
    requires forall i, j | 0 <= i < j < |t.refunds| ::
               !(t.refunds[i].depositId == t.refunds[j].depositId && t.refunds[i].key == t.refunds[j].key)
    ensures var (t', r) := Refunds.Queue(t, deposit, refund, sendId, send);
            var stored := t.sends[existing.sendId];
            && t' == t
            && (r == Err(KeyReused) <==> existing.destination != refund.destination || existing.amount != refund.amount)
            && (r == Err(SourceReused) <==>
                  && existing.destination == refund.destination && existing.amount == refund.amount
                  && stored.source.address != send.source.address)
            && (r == Ok(QueueResult(existing, stored, false)) <==>
                  && existing.destination == refund.destination && existing.amount == refund.amount
                  && stored.source.address == send.source.address)
            && (r.Err? ==> r.error in {KeyReused, SourceReused})
  {
    FindTheRow(t.refunds, existing);
    assert Matches(deposit, refund, sendId, send);
  }
}
