/** Receiving pending sends: one task per source block, a durable signed intent,
    a bounded number of retries, and the ledger. */
module ReceiveProtocol {
  import opened Wrappers
  import opened Ledger

  type TaskId = string

  datatype Status = Pending | Processing | Published | Confirmed | Failed

  datatype Task = Task(account: Address, source: Hash, amount: nat,
                       status: Status, receiveBlockHash: Option<Hash>, retryCount: nat)

  datatype Intent = Intent(hash: Hash, block: Block, frontier: Hash, resultingBalance: nat)

  datatype Broadcast = Broadcast(id: TaskId, block: Block)

  datatype Attempt = First | Second

  const MAX_RETRIES := 3

  /** Where the one running `processTaskUnderLease` stands; `retries` is the count
      in the row it was called with. */
  datatype Op =
    | Idle
    | Loading(id: TaskId, retries: nat)
    | Preparing(id: TaskId, retries: nat)
    | SavingIntent(id: TaskId, retries: nat, intent: Intent)
    | Broadcasting(id: TaskId, retries: nat, intent: Intent, block: Block, attempt: Attempt)
    | Reworking(id: TaskId, retries: nat, intent: Intent, block: Block)
    | CountingFailure(id: TaskId, retries: nat)
    | Publishing(id: TaskId, hash: Hash)

  datatype State = State(
    tasks: map<TaskId, Task>,
    intents: map<TaskId, Intent>,
    todo: seq<TaskId>,
    op: Op,
    chains: Chains,
    sent: set<Broadcast>,
    landed: map<Hash, Broadcast>)

  const INIT := State(map[], map[], [], Idle, map[], {}, map[])

  datatype Reply = Accepted | OldBlock(known: bool) | WorkRejected | Ambiguous

  datatype Step =
    | Enqueue(id: TaskId, task: Task)
    | TickStart(order: seq<TaskId>)
    | Next(leased: bool, minimum: nat)
    | ReadIntent
    | ReadThrows
    | ReadAccount(frontier: Hash, work: Work)
    | PrepareThrows
    | SaveIntent
    | SaveThrows(saved: bool)
    | CheckThrows
    | Process(reply: Reply)
    | UpdateWork(work: Work)
    | CountFailure
    | Publish
    | Abort
    | Crash
    | Confirm(id: TaskId)
    | Land(broadcast: Broadcast)
    | LandSend(body: Body)

  function ReceiveBody(task: Task, frontier: Hash): Body {
    Body(task.account, frontier, BalanceAt(frontier) + task.amount, FromBlock(task.source))
  }

  predicate Selectable(s: State, id: TaskId) {
    id in s.tasks && (s.tasks[id].status == Pending || s.tasks[id].status == Processing)
  }

  predicate Distinct(ids: seq<TaskId>) {
    forall i, j | 0 <= i < j < |ids| :: ids[i] != ids[j]
  }

  predicate Enabled(s: State, step: Step) {
    match step
    case Enqueue(id, task) =>
      && id !in s.tasks && (forall x | x in s.tasks :: s.tasks[x].source != task.source)
      && task.status == Pending && task.receiveBlockHash == None && task.retryCount == 0
    case TickStart(order) =>
      && s.op == Idle && s.todo == [] && Distinct(order)
      && (forall id | id in order :: Selectable(s, id))
      && (forall id | id in s.tasks :: Selectable(s, id) ==> id in order)
    case Next(_, _) => s.op == Idle && s.todo != [] && s.todo[0] in s.tasks
    case ReadIntent => s.op.Loading?
    case ReadThrows => s.op.Loading?
    case ReadAccount(frontier, _) =>
      s.op.Preparing? && s.op.id in s.tasks && Reported(s.chains, s.tasks[s.op.id].account, frontier)
    case PrepareThrows => s.op.Preparing?
    case SaveIntent => s.op.SavingIntent?
    case SaveThrows(_) => s.op.SavingIntent?
    case CheckThrows => s.op.Broadcasting? && s.op.attempt == First
    case Process(reply) =>
      && s.op.Broadcasting?
      && (reply.Accepted? ==> Accepts(s.chains, s.op.block))
      && (reply.OldBlock? && reply.known ==> OnLedger(s.chains, s.op.intent.hash))
      && (reply.WorkRejected? ==> !s.op.block.work.ok)
    case UpdateWork(_) => s.op.Reworking?
    case CountFailure => s.op.CountingFailure? && s.op.id in s.tasks
    case Publish => s.op.Publishing? && s.op.id in s.tasks
    case Abort => s.op != Idle
    case Crash => true
    case Confirm(id) =>
      && id in s.tasks && s.tasks[id].status == Published
      && s.tasks[id].receiveBlockHash.Some? && OnLedger(s.chains, s.tasks[id].receiveBlockHash.value)
    case Land(b) => b in s.sent && Accepts(s.chains, b.block)
    case LandSend(body) => body.link.ToAccount? && body.previous == Frontier(s.chains, body.account)
  }

  function PutOnLedger(s: State, b: Broadcast): State {
    s.(chains := Append(s.chains, b.block.body), landed := s.landed[HashOf(b.block.body) := b])
  }

  /** `createIfAbsent` */
  function SavedIntent(s: State, id: TaskId, intent: Intent): Intent {
    if id in s.intents then s.intents[id] else intent
  }

  /** A task below the minimum is passed over unless it has a saved intent. */
  predicate PassedOver(s: State, id: TaskId, minimum: nat)
    requires id in s.tasks
  {
    s.tasks[id].amount < minimum && id !in s.intents
  }

  /** The first task whose lease is acquired is processed, and no other in this tick. */
  function NextEffect(s: State, leased: bool, minimum: nat): State
    requires Enabled(s, Next(leased, minimum))
  {
    var id := s.todo[0];
    if PassedOver(s, id, minimum) || !leased then s.(todo := s.todo[1..])
    else
      s.(tasks := s.tasks[id := s.tasks[id].(status := Processing)], todo := [],
         op := Loading(id, s.tasks[id].retryCount))
  }

  function ReadAccountEffect(s: State, frontier: Hash, work: Work): State
    requires Enabled(s, ReadAccount(frontier, work))
  {
    var body := ReceiveBody(s.tasks[s.op.id], frontier);
    s.(op := SavingIntent(s.op.id, s.op.retries, Intent(HashOf(body), Block(body, work), frontier, body.balance)))
  }

  /** Only a work rejection leads on; every other error leaves the receive processing. */
  function ProcessEffect(s: State, reply: Reply): State
    requires Enabled(s, Process(reply))
  {
    var Broadcasting(id, retries, intent, block, attempt) := s.op;
    var s1 := s.(sent := s.sent + {Broadcast(id, block)});
    match reply
    case Accepted =>
      PutOnLedger(s1, Broadcast(id, block)).(op := if HashOf(block.body) == intent.hash then Publishing(id, intent.hash)
                                             else Idle)
    case OldBlock(known) => s1.(op := if known then Publishing(id, intent.hash) else Idle)
    case WorkRejected => s1.(op := if attempt == First then Reworking(id, retries, intent, block)
                             else CountingFailure(id, retries))
    case Ambiguous => s1.(op := Idle)
  }

  function UpdateWorkEffect(s: State, work: Work): State
    requires Enabled(s, UpdateWork(work))
  {
    var Reworking(id, retries, intent, block) := s.op;
    var block' := Block(block.body, work);
    if id in s.intents && s.intents[id].hash == intent.hash then
      s.(intents := s.intents[id := s.intents[id].(block := block')],
         op := Broadcasting(id, retries, intent, block', Second))
    else
      s.(op := Idle)
  }

  function CountFailureEffect(s: State): State
    requires Enabled(s, CountFailure)
  {
    var CountingFailure(id, retries) := s.op;
    var status := if retries + 1 >= MAX_RETRIES then Failed else Pending;
    s.(tasks := s.tasks[id := s.tasks[id].(status := status, retryCount := retries + 1)], op := Idle)
  }

  function Effect(s: State, step: Step): State
    requires Enabled(s, step)
  {
    match step
    case Enqueue(id, task) => s.(tasks := s.tasks[id := task])
    case TickStart(order) => s.(todo := order)
    case Next(leased, minimum) => NextEffect(s, leased, minimum)
    case ReadIntent =>
      var Loading(id, retries) := s.op;
      s.(op := if id in s.intents then Broadcasting(id, retries, s.intents[id], s.intents[id].block, First)
         else Preparing(id, retries))
    case ReadThrows => s.(op := CountingFailure(s.op.id, s.op.retries))
    case ReadAccount(frontier, work) => ReadAccountEffect(s, frontier, work)
    case PrepareThrows => s.(op := CountingFailure(s.op.id, s.op.retries))
    case SaveIntent =>
      var SavingIntent(id, retries, signed) := s.op;
      var intent := SavedIntent(s, id, signed);
      s.(intents := s.intents[id := intent], op := Broadcasting(id, retries, intent, intent.block, First))
    case SaveThrows(saved) =>
      var SavingIntent(id, retries, signed) := s.op;
      s.(intents := if saved then s.intents[id := SavedIntent(s, id, signed)] else s.intents,
         op := CountingFailure(id, retries))
    case CheckThrows => s.(op := CountingFailure(s.op.id, s.op.retries))
    case Process(reply) => ProcessEffect(s, reply)
    case UpdateWork(work) => UpdateWorkEffect(s, work)
    case CountFailure => CountFailureEffect(s)
    case Publish =>
      var Publishing(id, hash) := s.op;
      s.(tasks := s.tasks[id := s.tasks[id].(status := Published, receiveBlockHash := Some(hash))], op := Idle)
    case Abort => s.(op := Idle)
    case Crash => s.(op := Idle, todo := [])
    case Confirm(id) => s.(tasks := s.tasks[id := s.tasks[id].(status := Confirmed)])
    case Land(b) => PutOnLedger(s, b)
    case LandSend(body) => s.(chains := Append(s.chains, body))
  }

  /** A step that cannot happen now changes nothing. */
  function Apply(s: State, step: Step): State {
    if Enabled(s, step) then Effect(s, step) else s
  }

  function Run(s: State, steps: seq<Step>): State {
    if steps == [] then s else Apply(Run(s, steps[..|steps| - 1]), steps[|steps| - 1])
  }

  lemma {:induction false} RunOfConcat(s: State, first: seq<Step>, rest: seq<Step>)
    ensures Run(s, first + rest) == Run(Run(s, first), rest)
  {
    if rest == [] {
      assert first + rest == first;
    } else {
      assert (first + rest)[..|first + rest| - 1] == first + rest[..|rest| - 1];
      RunOfConcat(s, first, rest[..|rest| - 1]);
    }
  }

  lemma RunOfOneMore(s: State, steps: seq<Step>, step: Step)
    ensures Run(s, steps + [step]) == Apply(Run(s, steps), step)
  {
    assert (steps + [step])[..|steps + [step]| - 1] == steps;
  }
}
