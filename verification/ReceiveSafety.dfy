/** What every run of the receive protocol keeps. */
module ReceiveSafety {
  import opened Wrappers
  import opened Ledger
  import opened ReceiveProtocol

  ghost predicate SourcesDiffer(s: State) {
    forall id, id' | id in s.tasks && id' in s.tasks && s.tasks[id].source == s.tasks[id'].source :: id == id'
  }

  /** A saved intent is the signed receive block of exactly its own task. */
  ghost predicate IntentMatches(task: Task, intent: Intent) {
    intent.block.body == ReceiveBody(task, intent.frontier) && intent.hash == HashOf(intent.block.body)
  }

  ghost predicate IntentsOk(s: State) {
    forall id | id in s.intents :: id in s.tasks && IntentMatches(s.tasks[id], s.intents[id])
  }

  ghost predicate BroadcastsOk(s: State) {
    forall b | b in s.sent :: b.id in s.intents && HashOf(b.block.body) == s.intents[b.id].hash
  }

  /** Every receive on the ledger was put there by a recorded broadcast with valid work. */
  ghost predicate LandedOk(s: State) {
    && (forall h | h in s.landed ::
          s.landed[h] in s.sent && s.landed[h].block.work.ok && HashOf(s.landed[h].block.body) == h)
    && (forall h | OnLedger(s.chains, h) && h.body.link.FromBlock? :: h in s.landed)
  }

  ghost predicate BlocksInv(s: State) {
    SourcesDiffer(s) && IntentsOk(s) && BroadcastsOk(s) && LandedOk(s) && Linked(s.chains)
  }

  ghost predicate StatusOk(s: State, id: TaskId)
    requires id in s.tasks
  {
    var task := s.tasks[id];
    && (if task.status == Published || task.status == Confirmed then
          id in s.intents && task.receiveBlockHash == Some(s.intents[id].hash) && OnLedger(s.chains, s.intents[id].hash)
        else
          task.receiveBlockHash == None)
    && (if task.status == Failed then task.retryCount == MAX_RETRIES else task.retryCount < MAX_RETRIES)
  }

  ghost predicate StatusesOk(s: State) {
    forall id | id in s.tasks :: StatusOk(s, id)
  }

  ghost predicate OpOk(s: State) {
    s.op != Idle ==>
      && s.todo == [] && s.op.id in s.tasks && s.tasks[s.op.id].status == Processing
      && (!s.op.Publishing? ==> s.op.retries == s.tasks[s.op.id].retryCount)
      && match s.op
         case Preparing(id, _) => id !in s.intents
         case SavingIntent(id, _, intent) => id !in s.intents && IntentMatches(s.tasks[id], intent)
         case Broadcasting(id, _, intent, block, _) =>
           id in s.intents && intent.hash == s.intents[id].hash && block == s.intents[id].block
         case Reworking(id, _, intent, block) =>
           id in s.intents && intent.hash == s.intents[id].hash && block == s.intents[id].block && !block.work.ok
         case Publishing(id, hash) => id in s.intents && hash == s.intents[id].hash && OnLedger(s.chains, hash)
         case _ => true
  }

  ghost predicate TodoOk(s: State) {
    forall id | id in s.todo :: Selectable(s, id)
  }

  ghost predicate StatusInv(s: State) {
    StatusesOk(s) && OpOk(s) && TodoOk(s)
  }

  ghost predicate Inv(s: State) {
    BlocksInv(s) && StatusInv(s)
  }

  /** Nothing ever broadcast for this task can be accepted. */
  ghost predicate Silent(s: State, id: TaskId) {
    forall b | b in s.sent && b.id == id :: !b.block.work.ok
  }

  /** A JSON version is only replaced after its work was rejected. */
  ghost predicate VersionsOk(s: State) {
    forall b | b in s.sent && b.id in s.intents :: b.block == s.intents[b.id].block || !b.block.work.ok
  }

  predicate Counting(s: State, id: TaskId) {
    s.op.CountingFailure? && s.op.id == id
  }

  /** Only with nothing but dead versions a task goes back to pending or fails, and
      only then a failure is about to be counted, unless a throwing read is to blame. */
  ghost predicate DeadOk(s: State, id: TaskId, thrown: bool) {
    && (id in s.tasks && (s.tasks[id].status == Pending || s.tasks[id].status == Failed) ==> Silent(s, id))
    && (Counting(s, id) ==> Silent(s, id) || thrown)
  }

  lemma LandKeepsLedger(s: State, b: Broadcast)
    requires Linked(s.chains) && LandedOk(s) && b in s.sent && Accepts(s.chains, b.block)
    ensures var s' := PutOnLedger(s, b);
            && Linked(s'.chains) && LandedOk(s')
            && (forall h :: OnLedger(s'.chains, h) <==> OnLedger(s.chains, h) || h == HashOf(b.block.body))
  {
    var s' := PutOnLedger(s, b);
    AppendKeepsLinked(s.chains, b.block.body);
    forall h
      ensures OnLedger(s'.chains, h) <==> OnLedger(s.chains, h) || h == HashOf(b.block.body)
    {
      AppendGrows(s.chains, b.block.body, h);
    }
  }

  lemma PutKeepsBlocks(s: State, b: Broadcast)
    requires BlocksInv(s) && b in s.sent && Accepts(s.chains, b.block)
    ensures BlocksInv(PutOnLedger(s, b))
  {
    LandKeepsLedger(s, b);
  }

  lemma AcceptedKeepsBlocks(s: State)
    requires Inv(s) && Enabled(s, Process(Accepted))
    ensures BlocksInv(ProcessEffect(s, Accepted))
  {
    var b := Broadcast(s.op.id, s.op.block);
    var s1 := s.(sent := s.sent + {b});
    SentKeepsBlocks(s, b);
    PutKeepsBlocks(s1, b);
    SameTablesKeepBlocks(PutOnLedger(s1, b), ProcessEffect(s, Accepted));
  }

  lemma AcceptedKeepsStatuses(s: State)
    requires Inv(s) && Enabled(s, Process(Accepted))
    ensures StatusInv(ProcessEffect(s, Accepted))
  {
    var b := Broadcast(s.op.id, s.op.block);
    var t := ProcessEffect(s, Accepted);
    LandKeepsLedger(s.(sent := s.sent + {b}), b);
    forall id | id in t.tasks
      ensures StatusOk(t, id)
    {
      assert StatusOk(s, id);
    }
  }

  lemma RefusedKeepsOp(s: State, reply: Reply)
    requires StatusInv(s) && reply != Accepted && Enabled(s, Process(reply))
    ensures OpOk(ProcessEffect(s, reply)) && TodoOk(ProcessEffect(s, reply))
  {
  }

  lemma RefusedKeepsInv(s: State, reply: Reply)
    requires Inv(s) && reply != Accepted && Enabled(s, Process(reply))
    ensures Inv(ProcessEffect(s, reply))
  {
    SentKeepsBlocks(s, Broadcast(s.op.id, s.op.block));
    SameTablesKeepBlocks(s.(sent := s.sent + {Broadcast(s.op.id, s.op.block)}), ProcessEffect(s, reply));
    SameTablesKeepStatuses(s, ProcessEffect(s, reply));
    RefusedKeepsOp(s, reply);
  }

  lemma SentKeepsBlocks(s: State, b: Broadcast)
    requires BlocksInv(s) && b.id in s.intents && HashOf(b.block.body) == s.intents[b.id].hash
    ensures BlocksInv(s.(sent := s.sent + {b}))
  {
  }

  lemma EnqueueKeepsInv(s: State, id: TaskId, task: Task)
    requires Inv(s) && Enabled(s, Enqueue(id, task))
    ensures Inv(s.(tasks := s.tasks[id := task]))
  {
  }

  lemma SameTablesKeepBlocks(s: State, t: State)
    requires BlocksInv(s) && t.tasks == s.tasks && t.intents == s.intents && t.sent == s.sent && t.landed == s.landed
             && t.chains == s.chains
    ensures BlocksInv(t)
  {
  }

  lemma SameTablesKeepStatuses(s: State, t: State)
    requires StatusesOk(s) && t.tasks == s.tasks && t.intents == s.intents && t.chains == s.chains
    ensures StatusesOk(t)
  {
    forall id | id in t.tasks
      ensures StatusOk(t, id)
    {
      assert StatusOk(s, id);
    }
  }

  lemma SkipKeepsInv(s: State)
    requires Inv(s) && s.op == Idle && s.todo != []
    ensures Inv(s.(todo := s.todo[1..]))
  {
    var t := s.(todo := s.todo[1..]);
    SameTablesKeepBlocks(s, t);
    SameTablesKeepStatuses(s, t);
    forall id | id in t.todo
      ensures Selectable(t, id)
    {
      assert id in s.todo && Selectable(s, id);
    }
  }

  lemma TakeKeepsStatuses(s: State, id: TaskId)
    requires StatusesOk(s) && Selectable(s, id)
    ensures StatusInv(s.(tasks := s.tasks[id := s.tasks[id].(status := Processing)], todo := [],
                         op := Loading(id, s.tasks[id].retryCount)))
  {
    var t := s.(tasks := s.tasks[id := s.tasks[id].(status := Processing)], todo := [],
                op := Loading(id, s.tasks[id].retryCount));
    forall x | x in t.tasks
      ensures StatusOk(t, x)
    {
      assert StatusOk(s, x);
    }
  }

  lemma NextKeepsInv(s: State, leased: bool, minimum: nat)
    requires Inv(s) && Enabled(s, Next(leased, minimum))
    ensures Inv(NextEffect(s, leased, minimum))
  {
    var id := s.todo[0];
    assert Selectable(s, id);
    if PassedOver(s, id, minimum) || !leased {
      SkipKeepsInv(s);
    } else {
      var row, op := s.tasks[id].(status := Processing), Loading(id, s.tasks[id].retryCount);
      RowChangeKeepsBlocks(s, id, row, op);
      SameTablesKeepBlocks(s.(tasks := s.tasks[id := row], op := op),
                           s.(tasks := s.tasks[id := row], todo := [], op := op));
      TakeKeepsStatuses(s, id);
    }
  }

  lemma ReadAccountKeepsInv(s: State, frontier: Hash, work: Work)
    requires Inv(s) && Enabled(s, ReadAccount(frontier, work))
    ensures Inv(ReadAccountEffect(s, frontier, work))
  {
  }

  /** Saving the first intent of a task, or the same block with other work. */
  lemma IntentChangeKeepsBlocks(s: State, id: TaskId, intent: Intent, op: Op)
    requires BlocksInv(s) && id in s.tasks && IntentMatches(s.tasks[id], intent)
    requires id in s.intents ==> intent.hash == s.intents[id].hash
    ensures BlocksInv(s.(intents := s.intents[id := intent], op := op))
  {
  }

  lemma SaveKeepsBlocks(s: State, step: Step)
    requires Inv(s) && (step.SaveIntent? || step.SaveThrows?) && Enabled(s, step)
    ensures BlocksInv(Effect(s, step))
  {
    if step == SaveThrows(false) {
      SameTablesKeepBlocks(s, Effect(s, step));
    } else {
      IntentChangeKeepsBlocks(s, s.op.id, s.op.intent, Effect(s, step).op);
    }
  }

  lemma SaveKeepsStatuses(s: State, step: Step)
    requires Inv(s) && (step.SaveIntent? || step.SaveThrows?) && Enabled(s, step)
    ensures StatusInv(Effect(s, step))
  {
    forall id | id in s.tasks
      ensures StatusOk(Effect(s, step), id)
    {
      assert StatusOk(s, id);
    }
  }

  lemma UpdateWorkKeepsBlocks(s: State, work: Work)
    requires Inv(s) && Enabled(s, UpdateWork(work))
    ensures BlocksInv(UpdateWorkEffect(s, work))
  {
    var id := s.op.id;
    IntentChangeKeepsBlocks(s, id, s.intents[id].(block := Block(s.op.block.body, work)), UpdateWorkEffect(s, work).op);
  }

  lemma IntentChangeKeepsStatuses(s: State, id: TaskId, intent: Intent, op: Op)
    requires StatusesOk(s) && (id in s.intents ==> intent.hash == s.intents[id].hash)
    ensures StatusesOk(s.(intents := s.intents[id := intent], op := op))
  {
    var t := s.(intents := s.intents[id := intent], op := op);
    forall x | x in t.tasks
      ensures StatusOk(t, x)
    {
      assert StatusOk(s, x);
    }
  }

  lemma UpdateWorkKeepsStatuses(s: State, work: Work)
    requires Inv(s) && Enabled(s, UpdateWork(work))
    ensures StatusInv(UpdateWorkEffect(s, work))
  {
    var id := s.op.id;
    IntentChangeKeepsStatuses(s, id, s.intents[id].(block := Block(s.op.block.body, work)),
                              UpdateWorkEffect(s, work).op);
  }

  /** A change of one task's row that leaves alone what the intents refer to. */
  lemma RowChangeKeepsBlocks(s: State, id: TaskId, row: Task, op: Op)
    requires BlocksInv(s) && id in s.tasks
    requires row.account == s.tasks[id].account && row.source == s.tasks[id].source && row.amount == s.tasks[id].amount
    ensures BlocksInv(s.(tasks := s.tasks[id := row], op := op))
  {
  }

  lemma CountFailureKeepsStatuses(s: State)
    requires Inv(s) && Enabled(s, CountFailure)
    ensures StatusInv(CountFailureEffect(s))
  {
    assert StatusOk(s, s.op.id);
  }

  lemma PublishKeepsStatuses(s: State)
    requires Inv(s) && Enabled(s, Publish)
    ensures StatusInv(Effect(s, Publish))
  {
    var t := Effect(s, Publish);
    forall x | x in t.tasks
      ensures StatusOk(t, x)
    {
      assert StatusOk(s, x);
    }
  }

  lemma ConfirmKeepsStatuses(s: State, id: TaskId)
    requires Inv(s) && Enabled(s, Confirm(id))
    ensures StatusInv(Effect(s, Confirm(id)))
  {
    var t := Effect(s, Confirm(id));
    forall x | x in t.tasks
      ensures StatusOk(t, x)
    {
      assert StatusOk(s, x);
    }
  }

  lemma LandKeepsInv(s: State, b: Broadcast)
    requires Inv(s) && Enabled(s, Land(b))
    ensures Inv(PutOnLedger(s, b))
  {
    PutKeepsBlocks(s, b);
    LandKeepsLedger(s, b);
    forall id | id in s.tasks
      ensures StatusOk(PutOnLedger(s, b), id)
    {
      assert StatusOk(s, id);
    }
  }

  lemma LandSendKeepsInv(s: State, body: Body)
    requires Inv(s) && Enabled(s, LandSend(body))
    ensures Inv(Effect(s, LandSend(body)))
  {
    var s' := Effect(s, LandSend(body));
    AppendKeepsLinked(s.chains, body);
    forall h
      ensures OnLedger(s'.chains, h) <==> OnLedger(s.chains, h) || h == HashOf(body)
    {
      AppendGrows(s.chains, body, h);
    }
    forall id | id in s.tasks
      ensures StatusOk(s', id)
    {
      assert StatusOk(s, id);
    }
  }

  lemma OpChangeKeepsOp(s: State, step: Step)
    requires Inv(s) && Enabled(s, step)
    requires step.TickStart? || step.ReadIntent? || step.ReadThrows? || step.PrepareThrows? || step.CheckThrows?
             || step.Abort? || step.Crash?
    ensures OpOk(Effect(s, step)) && TodoOk(Effect(s, step))
  {
    match step
    case TickStart(order) =>
    case ReadIntent =>
    case ReadThrows =>
    case PrepareThrows =>
    case CheckThrows =>
    case Abort =>
    case Crash =>
  }

  lemma OpChangeKeepsInv(s: State, step: Step)
    requires Inv(s) && Enabled(s, step)
    requires step.TickStart? || step.ReadIntent? || step.ReadThrows? || step.PrepareThrows? || step.CheckThrows?
             || step.Abort? || step.Crash?
    ensures Inv(Effect(s, step))
  {
    SameTablesKeepBlocks(s, Effect(s, step));
    SameTablesKeepStatuses(s, Effect(s, step));
    OpChangeKeepsOp(s, step);
  }

  /** The steps that write the row of the running task. */
  lemma RowStepKeepsInv(s: State, step: Step)
    requires Inv(s) && Enabled(s, step) && (step.CountFailure? || step.Publish? || step.Confirm?)
    ensures Inv(Effect(s, step))
  {
    match step
    case CountFailure =>
      RowChangeKeepsBlocks(s, s.op.id, CountFailureEffect(s).tasks[s.op.id], Idle);
      CountFailureKeepsStatuses(s);
    case Publish =>
      RowChangeKeepsBlocks(s, s.op.id, Effect(s, step).tasks[s.op.id], Idle);
      PublishKeepsStatuses(s);
    case Confirm(id) =>
      RowChangeKeepsBlocks(s, id, Effect(s, step).tasks[id], s.op);
      ConfirmKeepsStatuses(s, id);
  }

  lemma StepKeepsInv(s: State, step: Step)
    requires Inv(s)
    ensures Inv(Apply(s, step))
  {
    if Enabled(s, step) {
      match step
      case Enqueue(id, task) => EnqueueKeepsInv(s, id, task);
      case Next(leased, minimum) => NextKeepsInv(s, leased, minimum);
      case ReadAccount(frontier, work) => ReadAccountKeepsInv(s, frontier, work);
      case SaveIntent => SaveKeepsBlocks(s, step); SaveKeepsStatuses(s, step);
      case SaveThrows(_) => SaveKeepsBlocks(s, step); SaveKeepsStatuses(s, step);
      case Process(reply) =>
        if reply == Accepted {
          AcceptedKeepsBlocks(s);
          AcceptedKeepsStatuses(s);
        } else {
          RefusedKeepsInv(s, reply);
        }
      case UpdateWork(work) => UpdateWorkKeepsBlocks(s, work); UpdateWorkKeepsStatuses(s, work);
      case CountFailure => RowStepKeepsInv(s, step);
      case Publish => RowStepKeepsInv(s, step);
      case Confirm(_) => RowStepKeepsInv(s, step);
      case Land(b) => LandKeepsInv(s, b);
      case LandSend(body) => LandSendKeepsInv(s, body);
      case _ => OpChangeKeepsInv(s, step);
    }
  }

  // ----- dead versions -----

  lemma ProcessKeepsVersions(s: State, reply: Reply)
    requires OpOk(s) && VersionsOk(s) && Enabled(s, Process(reply))
    ensures VersionsOk(ProcessEffect(s, reply))
  {
  }

  lemma UpdateWorkKeepsVersions(s: State, work: Work)
    requires OpOk(s) && VersionsOk(s) && Enabled(s, UpdateWork(work))
    ensures VersionsOk(UpdateWorkEffect(s, work))
  {
  }

  lemma StepKeepsVersions(s: State, step: Step)
    requires BroadcastsOk(s) && OpOk(s) && VersionsOk(s)
    ensures VersionsOk(Apply(s, step))
  {
    if Enabled(s, step) {
      match step
      case Process(reply) => ProcessKeepsVersions(s, reply);
      case UpdateWork(work) => UpdateWorkKeepsVersions(s, work);
      case _ =>
    }
  }

  /** Although a broadcast may be on its way, a read throws before this operation
      has begun one: of the saved intent, or of the lease right before the broadcast. */
  ghost predicate ReadFails(s: State, step: Step, id: TaskId) {
    && !Silent(s, id)
    && ((step == ReadThrows && s.op.Loading? && s.op.id == id)
        || (step == CheckThrows && s.op.Broadcasting? && s.op.attempt == First && s.op.id == id))
  }

  /** Whether such a read is about to be counted after the next step. */
  ghost predicate StaysThrown(s: State, step: Step, id: TaskId, thrown: bool) {
    ReadFails(s, step, id) || (thrown && !step.CountFailure? && !step.Abort? && !step.Crash?)
  }

  lemma NoIntentIsSilent(s: State, id: TaskId)
    requires BroadcastsOk(s) && id !in s.intents
    ensures Silent(s, id)
  {
  }

  /** Only a broadcast can end a task's silence. */
  lemma StepKeepsSilent(s: State, step: Step, id: TaskId)
    requires Silent(s, id) && !(step.Process? && s.op.Broadcasting? && s.op.id == id)
    ensures Silent(Apply(s, step), id)
  {
  }

  lemma ProcessKeepsDead(s: State, reply: Reply, id: TaskId, thrown: bool)
    requires OpOk(s) && BroadcastsOk(s) && VersionsOk(s) && DeadOk(s, id, thrown) && Enabled(s, Process(reply))
    ensures DeadOk(ProcessEffect(s, reply), id, false)
  {
  }

  /** The running task comes to counting a failure from a throwing read or without an intent. */
  lemma BeginsToCount(s: State, step: Step, id: TaskId)
    requires OpOk(s) && Enabled(s, step) && !step.Process? && Counting(Effect(s, step), id)
    ensures || (s.op == Effect(s, step).op && !step.CountFailure? && !step.Abort? && !step.Crash?)
            || id !in s.intents
            || (step == ReadThrows && s.op.Loading? && s.op.id == id)
            || (step == CheckThrows && s.op.Broadcasting? && s.op.attempt == First && s.op.id == id)
  {
  }

  lemma StepDemotes(s: State, step: Step, id: TaskId)
    requires OpOk(s) && TodoOk(s) && Enabled(s, step) && !step.Process?
    requires var t := Effect(s, step); id in t.tasks && (t.tasks[id].status == Pending || t.tasks[id].status == Failed)
    ensures || id !in s.tasks || s.tasks[id].status == Effect(s, step).tasks[id].status
            || (step.CountFailure? && Counting(s, id))
  {
  }

  lemma OtherStepKeepsCount(s: State, step: Step, id: TaskId, thrown: bool)
    requires OpOk(s) && BroadcastsOk(s) && DeadOk(s, id, thrown) && Enabled(s, step) && !step.Process?
    requires Counting(Effect(s, step), id)
    ensures Silent(s, id) || StaysThrown(s, step, id, thrown)
  {
    BeginsToCount(s, step, id);
    if id !in s.intents {
      NoIntentIsSilent(s, id);
    }
  }

  lemma OtherStepKeepsDemoted(s: State, step: Step, id: TaskId, thrown: bool)
    requires OpOk(s) && TodoOk(s) && IntentsOk(s) && BroadcastsOk(s) && DeadOk(s, id, thrown)
    requires Enabled(s, step) && !step.Process? && !(step.CountFailure? && thrown)
    requires var t := Effect(s, step); id in t.tasks && (t.tasks[id].status == Pending || t.tasks[id].status == Failed)
    ensures Silent(s, id)
  {
    StepDemotes(s, step, id);
    if id !in s.intents {
      NoIntentIsSilent(s, id);
    }
  }

  /** Every step other than counting a throwing read. */
  lemma StepKeepsDead(s: State, step: Step, id: TaskId, thrown: bool)
    requires Inv(s) && VersionsOk(s) && DeadOk(s, id, thrown) && !(step.CountFailure? && thrown)
    ensures DeadOk(Apply(s, step), id, StaysThrown(s, step, id, thrown))
  {
    if Enabled(s, step) {
      var t := Effect(s, step);
      if step.Process? {
        ProcessKeepsDead(s, step.reply, id, thrown);
      } else {
        if Counting(t, id) {
          OtherStepKeepsCount(s, step, id, thrown);
        }
        if id in t.tasks && (t.tasks[id].status == Pending || t.tasks[id].status == Failed) {
          OtherStepKeepsDemoted(s, step, id, thrown);
        }
        if Silent(s, id) {
          StepKeepsSilent(s, step, id);
        }
      }
    }
  }
}
