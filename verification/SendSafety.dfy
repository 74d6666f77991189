/** What every run of the send protocol keeps. */
module SendSafety {
  import opened Wrappers
  import opened Ledger
  import opened SendProtocol

  /** A saved intent is the signed block of exactly its own send. */
  ghost predicate IntentMatches(send: Send, intent: Intent) {
    var body := intent.block.body;
    && intent.hash == HashOf(body)
    && body.account == send.source.address
    && body.link == ToAccount(send.destination)
    && body.previous == intent.frontier
    && body.balance == intent.resultingBalance
    && body.balance + send.amount == BalanceAt(intent.frontier)
  }

  ghost predicate IntentsOk(s: State) {
    forall id | id in s.intents :: id in s.sends && IntentMatches(s.sends[id], s.intents[id])
  }

  /** Every broadcast carries the hash of its send's saved intent. */
  ghost predicate BroadcastsOk(s: State) {
    forall b | b in s.sent :: b.id in s.intents && HashOf(b.block.body) == s.intents[b.id].hash
  }

  /** A JSON version is only ever replaced after the node rejected its work. */
  ghost predicate OldVersionsDead(s: State) {
    forall b | b in s.sent && b.id in s.intents :: b.block == s.intents[b.id].block || !b.block.work.ok
  }

  /** Nothing a failed send ever broadcast can be accepted. */
  ghost predicate FailedDead(s: State) {
    forall b | b in s.sent && b.id in s.sends :: s.sends[b.id].status == Failed ==> !b.block.work.ok
  }

  ghost predicate StatusOk(s: State, id: SendId)
    requires id in s.sends
  {
    var send := s.sends[id];
    if send.status == Published || send.status == Confirmed then
      id in s.intents && send.blockHash == Some(s.intents[id].hash) && OnLedger(s.chains, s.intents[id].hash)
    else
      send.blockHash == None
  }

  ghost predicate StatusesOk(s: State) {
    forall id | id in s.sends :: StatusOk(s, id)
  }

  ghost predicate OpOk(s: State) {
    s.op != Idle ==>
      && IsQueued(s, s.op.id)
      && s.op.id !in s.todo
      && match s.op
         case Preparing(id) => id !in s.intents
         case FailingUnfunded(id) => id !in s.intents
         case SavingIntent(id, intent) => id !in s.intents && IntentMatches(s.sends[id], intent)
         case Broadcasting(id, intent, block, _) =>
           id in s.intents && intent.hash == s.intents[id].hash && block == s.intents[id].block
         case Reworking(id, intent, block) =>
           id in s.intents && intent.hash == s.intents[id].hash && block == s.intents[id].block && !block.work.ok
         case FailingWork(id) => id in s.intents && !s.intents[id].block.work.ok
         case Publishing(id, hash) => id in s.intents && hash == s.intents[id].hash && OnLedger(s.chains, hash)
         case _ => true
  }

  ghost predicate TodoOk(s: State) {
    Distinct(s.todo) && forall id | id in s.todo :: IsQueued(s, id)
  }

  ghost predicate ConfirmingOk(s: State) {
    forall p | p in s.confirming ::
      && p.0 in s.sends && (s.sends[p.0].status == Published || s.sends[p.0].status == Confirmed)
  }

  /** Every spend on the ledger was put there by a recorded broadcast with valid work. */
  ghost predicate LandedOk(s: State) {
    && (forall h | h in s.landed ::
          s.landed[h] in s.sent && s.landed[h].block.work.ok && HashOf(s.landed[h].block.body) == h)
    && (forall h | OnLedger(s.chains, h) && h.body.link.ToAccount? :: h in s.landed)
  }

  /** What holds of intents, broadcasts and the ledger. */
  ghost predicate BlocksInv(s: State) {
    IntentsOk(s) && BroadcastsOk(s) && OldVersionsDead(s) && FailedDead(s) && LandedOk(s) && Linked(s.chains)
  }

  /** What holds of the statuses and of the orchestrator's memory. */
  ghost predicate StatusInv(s: State) {
    StatusesOk(s) && OpOk(s) && TodoOk(s) && ConfirmingOk(s)
  }

  ghost predicate Inv(s: State) {
    BlocksInv(s) && StatusInv(s)
  }

  lemma AcceptedKeepsBlocks(s: State)
    requires Inv(s) && Enabled(s, Process(Accepted))
    ensures BlocksInv(ProcessEffect(s, Accepted))
  {
    var b := Broadcast(s.op.id, s.op.block);
    var s1 := s.(sent := s.sent + {b});
    SentKeepsBlocks(s, b);
    LandKeepsBlocks(s1, b);
    SameTablesKeepBlocks(PutOnLedger(s1, b), ProcessEffect(s, Accepted));
  }

  lemma AcceptedKeepsStatuses(s: State)
    requires Inv(s) && Enabled(s, Process(Accepted))
    ensures StatusInv(ProcessEffect(s, Accepted))
  {
    var b := Broadcast(s.op.id, s.op.block);
    LandKeepsLedger(s.(sent := s.sent + {b}), b);
  }

  // ----- frames -----

  lemma SameTablesKeepBlocks(s: State, t: State)
    requires BlocksInv(s) && t.sends == s.sends && t.intents == s.intents && t.sent == s.sent && t.landed == s.landed
             && t.chains == s.chains
    ensures BlocksInv(t)
  {
  }

  lemma SameTablesKeepStatuses(s: State, t: State)
    requires StatusesOk(s) && t.sends == s.sends && t.intents == s.intents && t.chains == s.chains
    ensures StatusesOk(t)
  {
    forall id | id in t.sends
      ensures StatusOk(t, id)
    {
      assert StatusOk(s, id);
    }
  }

  lemma FewerListedKeepOk(s: State, t: State)
    requires TodoOk(s) && ConfirmingOk(s) && t.sends == s.sends && t.confirming <= s.confirming
             && (t.todo == s.todo || t.todo == [])
    ensures TodoOk(t) && ConfirmingOk(t)
  {
    forall id | id in t.todo
      ensures IsQueued(t, id)
    {
      assert IsQueued(s, id);
    }
  }

  /** A row that still asks for the same transfer; only a queued or failed send may be marked failed. */
  lemma RowChangeKeepsBlocks(s: State, id: SendId, row: Send, op: Op)
    requires BlocksInv(s) && id in s.sends && row.status != Failed
    requires row.source == s.sends[id].source && row.destination == s.sends[id].destination
             && row.amount == s.sends[id].amount
    ensures BlocksInv(s.(sends := s.sends[id := row], op := op))
  {
  }

  lemma SentKeepsBlocks(s: State, b: Broadcast)
    requires BlocksInv(s) && b.id in s.intents && b.block == s.intents[b.id].block && s.sends[b.id].status == Queued
    ensures BlocksInv(s.(sent := s.sent + {b}))
  {
  }

  lemma RefusedKeepsOp(s: State, reply: Reply)
    requires StatusInv(s) && reply != Accepted && Enabled(s, Process(reply))
    ensures OpOk(ProcessEffect(s, reply))
  {
  }

  lemma RefusedKeepsInv(s: State, reply: Reply)
    requires Inv(s) && reply != Accepted && Enabled(s, Process(reply))
    ensures Inv(Effect(s, Process(reply)))
  {
    var t, b := ProcessEffect(s, reply), Broadcast(s.op.id, s.op.block);
    SentKeepsBlocks(s, b);
    SameTablesKeepBlocks(s.(sent := s.sent + {b}), t);
    SameTablesKeepStatuses(s, t);
    RefusedKeepsOp(s, reply);
    FewerListedKeepOk(s, t);
  }

  lemma LandKeepsLedger(s: State, b: Broadcast)
    requires Linked(s.chains) && LandedOk(s) && b in s.sent && Accepts(s.chains, b.block)
    ensures var s' := PutOnLedger(s, b);
            && Linked(s'.chains) && LandedOk(s')
            && (forall h :: OnLedger(s.chains, h) ==> OnLedger(s'.chains, h))
            && OnLedger(s'.chains, HashOf(b.block.body))
  {
    var s' := PutOnLedger(s, b);
    AppendKeepsLinked(s.chains, b.block.body);
    forall h
      ensures OnLedger(s'.chains, h) <==> OnLedger(s.chains, h) || h == HashOf(b.block.body)
    {
      AppendGrows(s.chains, b.block.body, h);
    }
  }

  lemma ReceiveKeepsInv(s: State, body: Body)
    requires Inv(s) && Enabled(s, LandReceive(body))
    ensures Inv(Effect(s, LandReceive(body)))
  {
    var s' := Effect(s, LandReceive(body));
    AppendKeepsLinked(s.chains, body);
    forall h
      ensures OnLedger(s'.chains, h) <==> OnLedger(s.chains, h) || h == HashOf(body)
    {
      AppendGrows(s.chains, body, h);
    }
  }

  lemma QueueSendKeepsBlocks(s: State, id: SendId, send: Send)
    requires BlocksInv(s) && Enabled(s, QueueSend(id, send))
    ensures BlocksInv(s.(sends := s.sends[id := send]))
  {
  }

  lemma QueueSendKeepsStatuses(s: State, id: SendId, send: Send)
    requires Inv(s) && Enabled(s, QueueSend(id, send))
    ensures StatusInv(s.(sends := s.sends[id := send]))
  {
    var t := s.(sends := s.sends[id := send]);
    forall x | x in s.sends
      ensures StatusOk(t, x)
    {
      assert StatusOk(s, x);
    }
    forall x | x in s.todo
      ensures IsQueued(t, x)
    {
      assert IsQueued(s, x);
    }
  }

  lemma QueueSendKeepsInv(s: State, id: SendId, send: Send)
    requires Inv(s) && Enabled(s, QueueSend(id, send))
    ensures Inv(s.(sends := s.sends[id := send]))
  {
    QueueSendKeepsBlocks(s, id, send);
    QueueSendKeepsStatuses(s, id, send);
  }

  lemma TickStartKeepsInv(s: State, order: seq<SendId>)
    requires Inv(s) && Enabled(s, TickStart(order))
    ensures Inv(Effect(s, TickStart(order)))
  {
  }

  lemma BeginKeepsInv(s: State, leased: bool)
    requires Inv(s) && Enabled(s, Begin(leased))
    ensures Inv(Effect(s, Begin(leased)))
  {
    var t := Effect(s, Begin(leased));
    var id, rest := s.todo[0], s.todo[1..];
    SameTablesKeepBlocks(s, t);
    SameTablesKeepStatuses(s, t);
    assert s.todo == [id] + rest;
    assert id in s.todo && IsQueued(s, id);
    assert forall x | x in rest :: x in s.todo && x != id;
  }

  lemma ReadIntentKeepsInv(s: State)
    requires Inv(s) && Enabled(s, ReadIntent)
    ensures Inv(Effect(s, ReadIntent))
  {
  }

  lemma ReadAccountKeepsBlocks(s: State, frontier: Hash, work: Work)
    requires Inv(s) && Enabled(s, ReadAccount(frontier, work))
    ensures BlocksInv(ReadAccountEffect(s, frontier, work))
  {
    var t := ReadAccountEffect(s, frontier, work);
    assert t == s.(op := t.op);
    SameTablesKeepBlocks(s, t);
  }

  lemma ReadAccountKeepsStatuses(s: State, frontier: Hash, work: Work)
    requires Inv(s) && Enabled(s, ReadAccount(frontier, work))
    ensures StatusInv(ReadAccountEffect(s, frontier, work))
  {
    SameTablesKeepStatuses(s, ReadAccountEffect(s, frontier, work));
    FewerListedKeepOk(s, ReadAccountEffect(s, frontier, work));
  }

  lemma NoIntentMeansNoBroadcast(s: State, id: SendId)
    requires BroadcastsOk(s) && id !in s.intents
    ensures forall b | b in s.sent :: b.id != id
  {
  }

  lemma FailUnfundedKeepsBlocks(s: State)
    requires Inv(s) && Enabled(s, FailUnfunded)
    ensures BlocksInv(Effect(s, FailUnfunded))
  {
    NoIntentMeansNoBroadcast(s, s.op.id);
  }

  lemma FailKeepsStatuses(s: State)
    requires StatusInv(s) && (s.op.FailingUnfunded? || s.op.FailingWork?)
    ensures StatusInv(SetStatus(s, s.op.id, Failed).(op := Idle))
  {
    var t := SetStatus(s, s.op.id, Failed).(op := Idle);
    forall x | x in t.sends
      ensures StatusOk(t, x)
    {
      assert StatusOk(s, x);
    }
    forall x | x in t.todo
      ensures IsQueued(t, x)
    {
      assert IsQueued(s, x);
    }
  }

  lemma FailUnfundedKeepsInv(s: State)
    requires Inv(s) && Enabled(s, FailUnfunded)
    ensures Inv(Effect(s, FailUnfunded))
  {
    FailUnfundedKeepsBlocks(s);
    FailKeepsStatuses(s);
  }

  /** Saving the first intent of a send, or new work in place of work that was rejected. */
  lemma IntentChangeKeepsBlocks(s: State, id: SendId, intent: Intent, op: Op)
    requires BlocksInv(s) && id in s.sends && IntentMatches(s.sends[id], intent)
    requires id in s.intents ==> intent.hash == s.intents[id].hash && !s.intents[id].block.work.ok
    ensures BlocksInv(s.(intents := s.intents[id := intent], op := op))
  {
    var t := s.(intents := s.intents[id := intent], op := op);
    IntentChangeKeepsBroadcasts(s, t, id, intent);
  }

  lemma IntentChangeKeepsBroadcasts(s: State, t: State, id: SendId, intent: Intent)
    requires BroadcastsOk(s) && OldVersionsDead(s) && t.sent == s.sent && t.intents == s.intents[id := intent]
    requires id in s.intents ==> intent.hash == s.intents[id].hash && !s.intents[id].block.work.ok
    ensures BroadcastsOk(t) && OldVersionsDead(t)
  {
  }

  lemma IntentChangeKeepsStatuses(s: State, id: SendId, intent: Intent, op: Op)
    requires StatusesOk(s) && (id in s.intents ==> intent.hash == s.intents[id].hash) && IsQueued(s, id)
    ensures StatusesOk(s.(intents := s.intents[id := intent], op := op))
  {
    var t := s.(intents := s.intents[id := intent], op := op);
    forall x | x in t.sends
      ensures StatusOk(t, x)
    {
      assert StatusOk(s, x);
    }
  }

  lemma SaveIntentKeepsBlocks(s: State)
    requires Inv(s) && Enabled(s, SaveIntent)
    ensures BlocksInv(Effect(s, SaveIntent))
  {
    IntentChangeKeepsBlocks(s, s.op.id, s.op.intent, Effect(s, SaveIntent).op);
  }

  lemma SaveIntentKeepsStatuses(s: State)
    requires Inv(s) && Enabled(s, SaveIntent)
    ensures StatusInv(Effect(s, SaveIntent))
  {
    IntentChangeKeepsStatuses(s, s.op.id, s.op.intent, Effect(s, SaveIntent).op);
    FewerListedKeepOk(s, Effect(s, SaveIntent));
  }

  /** The version that `updateWork` throws away was rejected a moment ago. */
  lemma UpdateWorkKeepsBlocks(s: State, work: Work)
    requires Inv(s) && Enabled(s, UpdateWork(work))
    ensures BlocksInv(UpdateWorkEffect(s, work))
  {
    var id := s.op.id;
    IntentChangeKeepsBlocks(s, id, s.intents[id].(block := Block(s.op.block.body, work)), UpdateWorkEffect(s, work).op);
  }

  lemma UpdateWorkKeepsStatuses(s: State, work: Work)
    requires Inv(s) && Enabled(s, UpdateWork(work))
    ensures StatusInv(UpdateWorkEffect(s, work))
  {
    var id := s.op.id;
    IntentChangeKeepsStatuses(s, id, s.intents[id].(block := Block(s.op.block.body, work)),
                              UpdateWorkEffect(s, work).op);
    FewerListedKeepOk(s, UpdateWorkEffect(s, work));
  }

  lemma FailWorkKeepsBlocks(s: State)
    requires Inv(s) && Enabled(s, FailWork)
    ensures BlocksInv(Effect(s, FailWork))
  {
  }

  lemma FailWorkKeepsStatuses(s: State)
    requires Inv(s) && Enabled(s, FailWork)
    ensures StatusInv(Effect(s, FailWork))
  {
    FailKeepsStatuses(s);
  }

  lemma PublishKeepsBlocks(s: State, announced: bool)
    requires Inv(s) && Enabled(s, Publish(announced))
    ensures BlocksInv(PublishEffect(s, announced))
  {
    var t := PublishEffect(s, announced);
    RowChangeKeepsBlocks(s, s.op.id, t.sends[s.op.id], Idle);
    SameTablesKeepBlocks(s.(sends := t.sends, op := Idle), t);
  }

  lemma PublishKeepsStatuses(s: State, announced: bool)
    requires Inv(s) && Enabled(s, Publish(announced))
    ensures StatusInv(PublishEffect(s, announced))
  {
    var t := PublishEffect(s, announced);
    forall x | x in t.sends
      ensures StatusOk(t, x)
    {
      assert StatusOk(s, x);
    }
    forall x | x in t.todo
      ensures IsQueued(t, x)
    {
      assert IsQueued(s, x);
    }
  }

  lemma ConfirmedKeepsBlocks(s: State, id: SendId)
    requires BlocksInv(s) && id in s.sends
    ensures BlocksInv(SetStatus(s, id, Confirmed))
  {
    RowChangeKeepsBlocks(s, id, s.sends[id].(status := Confirmed), s.op);
  }

  lemma ConfirmedKeepsStatuses(s: State, id: SendId)
    requires StatusInv(s) && id in s.sends && s.sends[id].status in {Published, Confirmed}
    ensures StatusInv(SetStatus(s, id, Confirmed))
  {
    var t := SetStatus(s, id, Confirmed);
    forall x | x in t.sends
      ensures StatusOk(t, x)
    {
      assert StatusOk(s, x);
    }
    forall x | x in t.todo
      ensures IsQueued(t, x)
    {
      assert IsQueued(s, x);
    }
  }

  lemma ForgetKeepsInv(s: State, t: State)
    requires Inv(s) && t.op == Idle && (t == s.(op := Idle) || t == s.(op := Idle, todo := [], confirming := {}))
    ensures Inv(t)
  {
    SameTablesKeepBlocks(s, t);
    SameTablesKeepStatuses(s, t);
    FewerListedKeepOk(s, t);
  }

  lemma GiveUpKeepsInv(s: State, p: (SendId, Hash))
    requires Inv(s)
    ensures Inv(s.(confirming := s.confirming - {p}))
  {
    var t := s.(confirming := s.confirming - {p});
    SameTablesKeepBlocks(s, t);
    SameTablesKeepStatuses(s, t);
  }

  lemma LetGoKeepsInv(s: State, step: Step)
    requires Inv(s) && (step.Abort? || step.Crash? || step.ConfirmGiveUp?) && Enabled(s, step)
    ensures Inv(Effect(s, step))
  {
    match step
    case Abort => ForgetKeepsInv(s, Effect(s, step));
    case Crash => ForgetKeepsInv(s, Effect(s, step));
    case ConfirmGiveUp(p) => GiveUpKeepsInv(s, p);
  }

  lemma ConfirmPollKeepsInv(s: State, p: (SendId, Hash))
    requires Inv(s) && Enabled(s, ConfirmPoll(p))
    ensures Inv(Effect(s, ConfirmPoll(p)))
  {
    ConfirmedKeepsBlocks(s, p.0);
    ConfirmedKeepsStatuses(s, p.0);
  }

  /** The steps of a running `publishSend`. */
  lemma PublishingStepKeepsInv(s: State, step: Step)
    requires Inv(s) && Enabled(s, step)
    requires step.ReadAccount? || step.SaveIntent? || step.UpdateWork? || step.FailWork? || step.Publish?
             || step == Process(Accepted)
    ensures Inv(Effect(s, step))
  {
    match step
    case ReadAccount(frontier, work) =>
      ReadAccountKeepsBlocks(s, frontier, work);
      ReadAccountKeepsStatuses(s, frontier, work);
    case SaveIntent => SaveIntentKeepsBlocks(s); SaveIntentKeepsStatuses(s);
    case UpdateWork(work) => UpdateWorkKeepsBlocks(s, work); UpdateWorkKeepsStatuses(s, work);
    case FailWork => FailWorkKeepsBlocks(s); FailWorkKeepsStatuses(s);
    case Publish(announced) => PublishKeepsBlocks(s, announced); PublishKeepsStatuses(s, announced);
    case Process(_) => AcceptedKeepsBlocks(s); AcceptedKeepsStatuses(s);
  }

  lemma LandKeepsBlocks(s: State, b: Broadcast)
    requires BlocksInv(s) && b in s.sent && Accepts(s.chains, b.block)
    ensures BlocksInv(PutOnLedger(s, b))
  {
    LandKeepsLedger(s, b);
  }

  lemma LandKeepsStatuses(s: State, b: Broadcast)
    requires Inv(s) && Enabled(s, Land(b))
    ensures StatusInv(PutOnLedger(s, b))
  {
    var t := PutOnLedger(s, b);
    LandKeepsLedger(s, b);
    forall id | id in t.sends
      ensures StatusOk(t, id)
    {
      assert StatusOk(s, id);
    }
    FewerListedKeepOk(s, t);
  }

  lemma LandKeepsInv(s: State, b: Broadcast)
    requires Inv(s) && Enabled(s, Land(b))
    ensures Inv(Effect(s, Land(b)))
  {
    LandKeepsBlocks(s, b);
    LandKeepsStatuses(s, b);
  }

  lemma StepKeepsInv(s: State, step: Step)
    requires Inv(s)
    ensures Inv(Apply(s, step))
  {
    if Enabled(s, step) {
      match step
      case QueueSend(id, send) => QueueSendKeepsInv(s, id, send);
      case TickStart(order) => TickStartKeepsInv(s, order);
      case Begin(leased) => BeginKeepsInv(s, leased);
      case ReadIntent => ReadIntentKeepsInv(s);
      case FailUnfunded => FailUnfundedKeepsInv(s);
      case Process(reply) =>
        if reply == Accepted {
          PublishingStepKeepsInv(s, step);
        } else {
          RefusedKeepsInv(s, reply);
        }
      case ConfirmPoll(p) => ConfirmPollKeepsInv(s, p);
      case WatchConfirmed(id) => ConfirmedKeepsBlocks(s, id); ConfirmedKeepsStatuses(s, id);
      case Land(b) => LandKeepsInv(s, b);
      case LandReceive(body) => ReceiveKeepsInv(s, body);
      case Abort => LetGoKeepsInv(s, step);
      case Crash => LetGoKeepsInv(s, step);
      case ConfirmGiveUp(_) => LetGoKeepsInv(s, step);
      case _ => PublishingStepKeepsInv(s, step);
    }
  }
}
