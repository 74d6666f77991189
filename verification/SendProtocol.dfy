/** Outgoing sends: durable signed intents, broadcast, and the ledger, as a
    state machine whose steps are the stretches between two awaits. */
module SendProtocol {
  import opened Wrappers
  import opened Ledger

  type SendId = string

  datatype Status = Queued | Published | Confirmed | Failed

  datatype Source =
    | AccountSource(accountId: string, address: Address)
    | InvoiceSource(invoiceId: string, address: Address)

  datatype Send = Send(source: Source, destination: Address, amount: nat,
                       status: Status, blockHash: Option<Hash>, key: string)

  datatype Intent = Intent(hash: Hash, block: Block, frontier: Hash, resultingBalance: nat)

  datatype Broadcast = Broadcast(id: SendId, block: Block)

  datatype Attempt = First | Second

  /** Where the one running `publishSend` stands. */
  datatype Op =
    | Idle
    | Loading(id: SendId)
    | Preparing(id: SendId)
    | SavingIntent(id: SendId, intent: Intent)
    | FailingUnfunded(id: SendId)
    | Broadcasting(id: SendId, intent: Intent, block: Block, attempt: Attempt)
    | Reworking(id: SendId, intent: Intent, block: Block)
    | FailingWork(id: SendId)
    | Publishing(id: SendId, hash: Hash)

  /** The stores, the orchestrator's memory, and the node. `sent` and `landed`
      record every broadcast and which broadcast put a block on the ledger. */
  datatype State = State(
    sends: map<SendId, Send>,
    intents: map<SendId, Intent>,
    todo: seq<SendId>,
    op: Op,
    confirming: set<(SendId, Hash)>,
    chains: Chains,
    sent: set<Broadcast>,
    landed: map<Hash, Broadcast>)

  const INIT: State := State(map[], map[], [], Idle, {}, map[], {}, map[])

  /** What the node answers to `process`, and `blockInfo` after "Old block". */
  datatype Reply = Accepted | OldBlock(known: bool) | WorkRejected | Ambiguous

  datatype Step =
    | QueueSend(id: SendId, send: Send)
    | TickStart(order: seq<SendId>)
    | Begin(leased: bool)
    | ReadIntent
    | ReadAccount(frontier: Hash, work: Work)
    | FailUnfunded
    | SaveIntent
    | Process(reply: Reply)
    | UpdateWork(work: Work)
    | FailWork
    | Publish(announced: bool)
    | Abort
    | Crash
    | ConfirmPoll(pending: (SendId, Hash))
    | ConfirmGiveUp(pending: (SendId, Hash))
    | WatchConfirmed(id: SendId)
    | Land(broadcast: Broadcast)
    | LandReceive(body: Body)

  /** The block that spends `send.amount` on top of `frontier`. */
  function SpendBody(send: Send, frontier: Hash): Body
    requires send.amount <= BalanceAt(frontier)
  {
    Body(send.source.address, frontier, BalanceAt(frontier) - send.amount, ToAccount(send.destination))
  }

  predicate IsQueued(s: State, id: SendId) {
    id in s.sends && s.sends[id].status == Queued
  }

  predicate KeyUnused(s: State, key: string) {
    forall id | id in s.sends :: s.sends[id].key != key
  }

  predicate Distinct(ids: seq<SendId>) {
    forall i, j | 0 <= i < j < |ids| :: ids[i] != ids[j]
  }

  predicate Enabled(s: State, step: Step) {
    match step
    case QueueSend(id, send) =>
      id !in s.sends && KeyUnused(s, send.key) && send.status == Queued && send.blockHash == None
    case TickStart(order) =>
      && s.op == Idle && s.todo == [] && Distinct(order)
      && (forall id | id in order :: IsQueued(s, id))
      && (forall id | id in s.sends :: IsQueued(s, id) ==> id in order)
    case Begin(_) => s.op == Idle && s.todo != []
    case ReadIntent => s.op.Loading?
    case ReadAccount(frontier, _) =>
      s.op.Preparing? && s.op.id in s.sends && Reported(s.chains, s.sends[s.op.id].source.address, frontier)
    case FailUnfunded => s.op.FailingUnfunded? && s.op.id in s.sends
    case SaveIntent => s.op.SavingIntent?
    case Process(reply) =>
      && s.op.Broadcasting?
      && (reply.Accepted? ==> Accepts(s.chains, s.op.block))
      && (reply.OldBlock? && reply.known ==> OnLedger(s.chains, s.op.intent.hash))
      && (reply.WorkRejected? ==> !s.op.block.work.ok)
    case UpdateWork(_) => s.op.Reworking?
    case FailWork => s.op.FailingWork? && s.op.id in s.sends
    case Publish(_) => s.op.Publishing? && s.op.id in s.sends
    case Abort => s.op != Idle
    case Crash => true
    case ConfirmPoll(p) => p in s.confirming && p.0 in s.sends && OnLedger(s.chains, p.1)
    case ConfirmGiveUp(p) => p in s.confirming
    case WatchConfirmed(id) =>
      && id in s.sends && s.sends[id].status == Published
      && s.sends[id].blockHash.Some? && OnLedger(s.chains, s.sends[id].blockHash.value)
    case Land(b) => b in s.sent && Accepts(s.chains, b.block)
    case LandReceive(body) => body.link.FromBlock? && body.previous == Frontier(s.chains, body.account)
  }

  function SetStatus(s: State, id: SendId, status: Status): State
    requires id in s.sends
  {
    s.(sends := s.sends[id := s.sends[id].(status := status)])
  }

  function PutOnLedger(s: State, b: Broadcast): State {
    s.(chains := Append(s.chains, b.block.body), landed := s.landed[HashOf(b.block.body) := b])
  }

  /** `createIfAbsent`: the first intent saved for a send is the one that stays. */
  function SavedIntent(s: State, id: SendId, intent: Intent): Intent {
    if id in s.intents then s.intents[id] else intent
  }

  function PublishedToConfirm(s: State): set<(SendId, Hash)> {
    set id | id in s.sends && s.sends[id].status == Published && s.sends[id].blockHash.Some?
      :: (id, s.sends[id].blockHash.value)
  }

  function ProcessEffect(s: State, reply: Reply): State
    requires Enabled(s, Process(reply))
  {
    var Broadcasting(id, intent, block, attempt) := s.op;
    var s1 := s.(sent := s.sent + {Broadcast(id, block)});
    match reply
    case Accepted =>
      PutOnLedger(s1, Broadcast(id, block)).(
        op := if HashOf(block.body) == intent.hash then Publishing(id, intent.hash) else Idle)
    case OldBlock(known) => s1.(op := if known then Publishing(id, intent.hash) else Idle)
    case WorkRejected => s1.(op := if attempt == First then Reworking(id, intent, block) else FailingWork(id))
    case Ambiguous => s1.(op := Idle)
  }

  function ReadAccountEffect(s: State, frontier: Hash, work: Work): State
    requires Enabled(s, ReadAccount(frontier, work))
  {
    var id := s.op.id;
    var send := s.sends[id];
    if BalanceAt(frontier) < send.amount then
      s.(op := FailingUnfunded(id))
    else
      var body := SpendBody(send, frontier);
      s.(op := SavingIntent(id, Intent(HashOf(body), Block(body, work), frontier, body.balance)))
  }

  function UpdateWorkEffect(s: State, work: Work): State
    requires Enabled(s, UpdateWork(work))
  {
    var Reworking(id, intent, block) := s.op;
    var block' := Block(block.body, work);
    if id in s.intents && s.intents[id].hash == intent.hash then
      s.(intents := s.intents[id := s.intents[id].(block := block')],
         op := Broadcasting(id, intent, block', Second))
    else
      s.(op := Idle)
  }

  function PublishEffect(s: State, announced: bool): State
    requires Enabled(s, Publish(announced))
  {
    var Publishing(id, hash) := s.op;
    s.(sends := s.sends[id := s.sends[id].(status := Published, blockHash := Some(hash))],
       op := Idle,
       confirming := if announced then s.confirming + {(id, hash)} else s.confirming)
  }

  function Effect(s: State, step: Step): State
    requires Enabled(s, step)
  {
    match step
    case QueueSend(id, send) => s.(sends := s.sends[id := send])
    case TickStart(order) => s.(todo := order, confirming := s.confirming + PublishedToConfirm(s))
    case Begin(leased) => s.(todo := s.todo[1..], op := if leased then Loading(s.todo[0]) else Idle)
    case ReadIntent =>
      var id := s.op.id;
      s.(op := if id in s.intents then Broadcasting(id, s.intents[id], s.intents[id].block, First) else Preparing(id))
    case ReadAccount(frontier, work) => ReadAccountEffect(s, frontier, work)
    case FailUnfunded => SetStatus(s, s.op.id, Failed).(op := Idle)
    case SaveIntent =>
      var SavingIntent(id, signed) := s.op;
      var intent := SavedIntent(s, id, signed);
      s.(intents := s.intents[id := intent], op := Broadcasting(id, intent, intent.block, First))
    case Process(reply) => ProcessEffect(s, reply)
    case UpdateWork(work) => UpdateWorkEffect(s, work)
    case FailWork => SetStatus(s, s.op.id, Failed).(op := Idle)
    case Publish(announced) => PublishEffect(s, announced)
    case Abort => s.(op := Idle)
    case Crash => s.(op := Idle, todo := [], confirming := {})
    case ConfirmPoll(p) => SetStatus(s, p.0, Confirmed).(confirming := s.confirming - {p})
    case ConfirmGiveUp(p) => s.(confirming := s.confirming - {p})
    case WatchConfirmed(id) => SetStatus(s, id, Confirmed)
    case Land(b) => PutOnLedger(s, b)
    case LandReceive(body) => s.(chains := Append(s.chains, body))
  }

  /** A step that cannot happen now changes nothing. */
  function Apply(s: State, step: Step): State {
    if Enabled(s, step) then Effect(s, step) else s
  }

  /** Any interleaving of ticks, crashes, node answers and late landings. */
  function Run(s: State, steps: seq<Step>): State {
    if steps == [] then s else Apply(Run(s, steps[..|steps| - 1]), steps[|steps| - 1])
  }

  lemma {:induction false} RunOfConcat(s: State, first: seq<Step>, rest: seq<Step>)
    ensures Run(s, first + rest) == Run(Run(s, first), rest)
  {
    if rest == [] {
      assert first + rest == first;
    } else {
      assert (first + rest)[..|first + rest| - 1] == first + rest[..|rest| - 1];
      RunOfConcat(s, first, rest[..|rest| - 1]);
    }
  }

  lemma RunOfOneMore(s: State, steps: seq<Step>, step: Step)
    ensures Run(s, steps + [step]) == Apply(Run(s, steps), step)
  {
    assert (steps + [step])[..|steps + [step]| - 1] == steps;
  }
}
