/** The promises of the receive protocol over whole runs. */
module ReceiveTheorems {
  import opened Wrappers
  import opened Ledger
  import opened ReceiveProtocol
  import opened ReceiveSafety

  lemma {:induction false} RunKeepsInv(s: State, steps: seq<Step>)
    requires Inv(s)
    ensures Inv(Run(s, steps))
  {
    if steps != [] {
      RunKeepsInv(s, steps[..|steps| - 1]);
      StepKeepsInv(Run(s, steps[..|steps| - 1]), steps[|steps| - 1]);
    }
  }

  /** All broadcasts for a task, in any run, carry the hash of its saved intent,
      and that block adds the amount of its source to its account. */
  lemma BroadcastsShareTheIntentHash(steps: seq<Step>, b: Broadcast)
    requires b in Run(INIT, steps).sent
    ensures var s := Run(INIT, steps);
            && b.id in s.intents && b.id in s.tasks && HashOf(b.block.body) == s.intents[b.id].hash
            && b.block.body.link == FromBlock(s.tasks[b.id].source) && b.block.body.account == s.tasks[b.id].account
            && b.block.body.balance == BalanceAt(b.block.body.previous) + s.tasks[b.id].amount
  {
    RunKeepsInv(INIT, steps);
    var s := Run(INIT, steps);
    assert IntentMatches(s.tasks[b.id], s.intents[b.id]);
  }

  lemma SourceHasOneBlock(s: State, h: Hash, h': Hash)
    requires BlocksInv(s) && OnLedger(s.chains, h) && OnLedger(s.chains, h')
    requires h.body.link.FromBlock? && h'.body.link == h.body.link
    ensures h == h'
  {
    var b, b' := s.landed[h], s.landed[h'];
    assert IntentMatches(s.tasks[b.id], s.intents[b.id]) && IntentMatches(s.tasks[b'.id], s.intents[b'.id]);
  }

  /** A source has one task at most, and whatever is retried, the ledger holds one receive of it at most. */
  lemma SourceIsReceivedOnce(steps: seq<Step>, a: Address, i: nat, a': Address, j: nat)
    requires var s := Run(INIT, steps);
             && a in s.chains && i < |s.chains[a]| && a' in s.chains && j < |s.chains[a']|
             && s.chains[a][i].link.FromBlock? && s.chains[a][i].link == s.chains[a'][j].link
    ensures a == a' && i == j
    ensures SourcesDiffer(Run(INIT, steps))
  {
    RunKeepsInv(INIT, steps);
    var s := Run(INIT, steps);
    assert ChainLinked(a, s.chains[a]) && ChainLinked(a', s.chains[a']);
    assert s.chains[a][i].account == a && s.chains[a'][j].account == a';
    SourceHasOneBlock(s, HashOf(s.chains[a][i]), HashOf(s.chains[a'][j]));
    BlockOccursOnce(s.chains, a, i, a', j);
  }

  /** A task that reads `published` or `confirmed` names its intent's block, and that block is on the ledger. */
  lemma PublishedIsOnLedger(steps: seq<Step>, id: TaskId)
    requires var s := Run(INIT, steps); id in s.tasks && s.tasks[id].status in {Published, Confirmed}
    ensures var s := Run(INIT, steps);
            id in s.intents && s.tasks[id].receiveBlockHash == Some(s.intents[id].hash)
              && OnLedger(s.chains, s.intents[id].hash)
  {
    RunKeepsInv(INIT, steps);
    assert StatusOk(Run(INIT, steps), id);
  }

  /** A task is retried at most three times, and it has failed exactly when it was. */
  lemma RetriesAreBounded(steps: seq<Step>, id: TaskId)
    requires id in Run(INIT, steps).tasks
    ensures var task := Run(INIT, steps).tasks[id];
            task.retryCount <= 3 && (task.status == Failed <==> task.retryCount == 3)
  {
    RunKeepsInv(INIT, steps);
    assert StatusOk(Run(INIT, steps), id);
  }

  predicate CanMove(before: Status, after: Status) {
    || before == after
    || (before == Pending && after == Processing)
    || (before == Processing && after in {Pending, Published, Failed})
    || (before == Published && after == Confirmed)
  }

  /** One step moves a task's status along these arrows only, never lowers its
      count, and changes neither what it receives nor where. */
  lemma TasksMove(steps: seq<Step>, step: Step, id: TaskId)
    requires id in Run(INIT, steps).tasks
    ensures var s := Run(INIT, steps);
            var t := Apply(s, step);
            && id in t.tasks && CanMove(s.tasks[id].status, t.tasks[id].status)
            && s.tasks[id].retryCount <= t.tasks[id].retryCount <= s.tasks[id].retryCount + 1
            && (t.tasks[id].retryCount > s.tasks[id].retryCount ==> t.tasks[id].status in {Pending, Failed})
            && t.tasks[id] == s.tasks[id].(status := t.tasks[id].status, retryCount := t.tasks[id].retryCount,
                                           receiveBlockHash := t.tasks[id].receiveBlockHash)
  {
    RunKeepsInv(INIT, steps);
    StepMovesTask(Run(INIT, steps), step, id);
  }

  lemma StepMovesTask(s: State, step: Step, id: TaskId)
    requires OpOk(s) && TodoOk(s) && id in s.tasks
    ensures var t := Apply(s, step);
            && id in t.tasks && CanMove(s.tasks[id].status, t.tasks[id].status)
            && s.tasks[id].retryCount <= t.tasks[id].retryCount <= s.tasks[id].retryCount + 1
            && (t.tasks[id].retryCount > s.tasks[id].retryCount ==> t.tasks[id].status in {Pending, Failed})
            && t.tasks[id] == s.tasks[id].(status := t.tasks[id].status, retryCount := t.tasks[id].retryCount,
                                           receiveBlockHash := t.tasks[id].receiveBlockHash)
  {
    if step.Next? && Enabled(s, step) {
      assert Selectable(s, s.todo[0]);
    }
  }

  // ----- unknown outcomes -----

  lemma {:induction false} RunKeepsVersions(s: State, steps: seq<Step>)
    requires Inv(s) && VersionsOk(s)
    ensures Inv(Run(s, steps)) && VersionsOk(Run(s, steps))
  {
    RunKeepsInv(s, steps);
    if steps != [] {
      var before := steps[..|steps| - 1];
      RunKeepsVersions(s, before);
      StepKeepsVersions(Run(s, before), steps[|steps| - 1]);
    }
  }

  /** The running operation is about to count a failure: a read threw while a
      broadcast could land, and nothing has ended the operation since. */
  ghost predicate Thrown(s: State, steps: seq<Step>, id: TaskId) {
    if steps == [] then Counting(s, id) && !Silent(s, id)
    else
      var before := steps[..|steps| - 1];
      StaysThrown(Run(s, before), steps[|steps| - 1], id, Thrown(s, before, id))
  }

  /** How many such reads are counted: neither a lost lease nor a crash comes
      between the read and the count. */
  ghost function CountedReads(s: State, steps: seq<Step>, id: TaskId): nat {
    if steps == [] then 0
    else
      var before := steps[..|steps| - 1];
      CountedReads(s, before, id) + if steps[|steps| - 1].CountFailure? && Thrown(s, before, id) then 1 else 0
  }

  lemma {:induction false} RunKeepsDead(steps: seq<Step>, id: TaskId)
    requires CountedReads(INIT, steps, id) == 0
    ensures DeadOk(Run(INIT, steps), id, Thrown(INIT, steps, id))
  {
    if steps != [] {
      var before := steps[..|steps| - 1];
      RunKeepsDead(before, id);
      RunKeepsVersions(INIT, before);
      StepKeepsDead(Run(INIT, before), steps[|steps| - 1], id, Thrown(INIT, before, id));
    }
  }

  lemma StepKeepsNoise(s: State, step: Step, id: TaskId)
    requires !Silent(s, id)
    ensures !Silent(Apply(s, step), id)
  {
    var b :| b in s.sent && b.id == id && b.block.work.ok;
    assert b in Apply(s, step).sent;
  }

  /** Such reads only throw where a broadcast may land, and then one may for ever. */
  lemma {:induction false} ThrownIsNoisy(s: State, steps: seq<Step>, id: TaskId)
    ensures Thrown(s, steps, id) || CountedReads(s, steps, id) > 0 ==> !Silent(Run(s, steps), id)
  {
    if steps != [] {
      var before := steps[..|steps| - 1];
      ThrownIsNoisy(s, before, id);
      if !Silent(Run(s, before), id) {
        StepKeepsNoise(Run(s, before), steps[|steps| - 1], id);
      }
    }
  }

  /** A broadcast that the ledger may yet accept, or has accepted. */
  ghost predicate Unknown(s: State, id: TaskId) {
    !Silent(s, id)
  }

  lemma SavedIntentIsBroadcast(s: State, id: TaskId, minimum: nat)
    requires s.op == Idle && s.todo != [] && s.todo[0] == id && id in s.tasks && id in s.intents
    ensures Run(s, [Next(true, minimum), ReadIntent]).op
         == Broadcasting(id, s.tasks[id].retryCount, s.intents[id], s.intents[id].block, First)
  {
    var two := [Next(true, minimum), ReadIntent];
    assert two[..1] == [Next(true, minimum)] && two[..1][..0] == [];
    assert Run(s, two[..1]) == Apply(s, two[0]);
  }

  /** Unless a throwing read is counted, a task whose broadcast may land never fails
      and never goes back to pending: until it is published, each tick lists it, and whatever the minimum is,
      acquiring its lease leads straight to another broadcast of the same block. */
  lemma UnknownOutcomeStaysSelectable(steps: seq<Step>, id: TaskId, minimum: nat)
    requires CountedReads(INIT, steps, id) == 0 && Unknown(Run(INIT, steps), id)
    ensures var s := Run(INIT, steps);
            && id in s.tasks && id in s.intents && s.tasks[id].status in {Processing, Published, Confirmed}
            && (s.tasks[id].status == Processing ==> Selectable(s, id) && !PassedOver(s, id, minimum))
            && (s.op == Idle && s.todo != [] && s.todo[0] == id ==>
                  Run(s, [Next(true, minimum), ReadIntent]).op
                    == Broadcasting(id, s.tasks[id].retryCount, s.intents[id], s.intents[id].block, First))
  {
    RunKeepsVersions(INIT, steps);
    RunKeepsDead(steps, id);
    var s := Run(INIT, steps);
    var b :| b in s.sent && b.id == id && b.block.work.ok;
    assert IntentMatches(s.tasks[id], s.intents[id]);
    if s.op == Idle && s.todo != [] && s.todo[0] == id {
      SavedIntentIsBroadcast(s, id, minimum);
    }
  }

  lemma FailedStays(s: State, step: Step, id: TaskId)
    requires OpOk(s) && TodoOk(s) && id in s.tasks && s.tasks[id].status == Failed && Silent(s, id)
    ensures id in Apply(s, step).tasks && Apply(s, step).tasks[id].status == Failed && Silent(Apply(s, step), id)
  {
    StepMovesTask(s, step, id);
    StepKeepsSilent(s, step, id);
  }

  lemma {:induction false} FailedForever(s: State, steps: seq<Step>, id: TaskId)
    requires Inv(s) && id in s.tasks && s.tasks[id].status == Failed && Silent(s, id)
    ensures id in Run(s, steps).tasks && Run(s, steps).tasks[id].status == Failed && Silent(Run(s, steps), id)
  {
    if steps != [] {
      var before := steps[..|steps| - 1];
      FailedForever(s, before, id);
      RunKeepsInv(s, before);
      FailedStays(Run(s, before), steps[|steps| - 1], id);
    }
  }

  /** Unless a throwing read was counted, the source of a failed task is not received on
      the ledger, at the time it failed or in any continuation of the run. */
  lemma FailedNeverLands(steps: seq<Step>, more: seq<Step>, id: TaskId, h: Hash)
    requires CountedReads(INIT, steps, id) == 0 && id in Run(INIT, steps).tasks
             && Run(INIT, steps).tasks[id].status == Failed
    requires h.HashOf? && h.body.link == FromBlock(Run(INIT, steps).tasks[id].source)
    ensures var t := Run(Run(INIT, steps), more);
            id in t.tasks && t.tasks[id].status == Failed && !OnLedger(t.chains, h)
  {
    var s := Run(INIT, steps);
    RunKeepsInv(INIT, steps);
    RunKeepsInv(s, more);
    RunKeepsDead(steps, id);
    FailedForever(s, more, id);
    SourceStays(s, more, id);
    var t := Run(s, more);
    forall b | b in t.sent && HashOf(b.block.body) == h
      ensures b.id == id
    {
      assert IntentMatches(t.tasks[b.id], t.intents[b.id]);
    }
  }

  lemma {:induction false} SourceStays(s: State, steps: seq<Step>, id: TaskId)
    requires Inv(s) && id in s.tasks
    ensures id in Run(s, steps).tasks && Run(s, steps).tasks[id].source == s.tasks[id].source
  {
    if steps != [] {
      var before := steps[..|steps| - 1];
      SourceStays(s, before, id);
      RunKeepsInv(s, before);
      StepMovesTask(Run(s, before), steps[|steps| - 1], id);
    }
  }

  // ----- when reads throw -----

  /** A failed task has a broadcast that may land exactly if a throwing read was counted. */
  lemma FailedMayLandIff(steps: seq<Step>, id: TaskId)
    requires id in Run(INIT, steps).tasks && Run(INIT, steps).tasks[id].status == Failed
    ensures Unknown(Run(INIT, steps), id) <==> CountedReads(INIT, steps, id) > 0
  {
    ThrownIsNoisy(INIT, steps, id);
    if CountedReads(INIT, steps, id) == 0 {
      RunKeepsDead(steps, id);
    }
  }

  lemma UnknownHasIntent(s: State, id: TaskId)
    requires BlocksInv(s) && VersionsOk(s) && Unknown(s, id)
    ensures id in s.tasks && id in s.intents && s.intents[id].block.work.ok
  {
  }

  /** The work of a broadcast that may land is not rejected. */
  lemma ProcessCountsNothing(s: State, reply: Reply, id: TaskId)
    requires OpOk(s) && id in s.intents && s.intents[id].block.work.ok && Enabled(s, Process(reply))
    ensures var op := ProcessEffect(s, reply).op; op.CountingFailure? ==> op.id != id
  {
  }

  lemma StepKeepsUnknown(s: State, step: Step, id: TaskId)
    requires Unknown(s, id)
    ensures Unknown(Apply(s, step), id)
  {
    var b :| b in s.sent && b.id == id && b.block.work.ok;
    assert b in Apply(s, step).sent;
  }

  lemma StepKeepsCounting(s: State, step: Step)
    requires s.op.CountingFailure? && !step.CountFailure? && !step.Abort? && !step.Crash?
    ensures Apply(s, step).op == s.op
  {
  }

  lemma StepBeginsCount(s: State, step: Step, id: TaskId)
    requires OpOk(s) && Unknown(s, id) && id in s.intents && s.intents[id].block.work.ok
    ensures Counting(Apply(s, step), id) <==> StaysThrown(s, step, id, Counting(s, id))
  {
    if Counting(s, id) && !step.CountFailure? && !step.Abort? && !step.Crash? {
      StepKeepsCounting(s, step);
    } else if Enabled(s, step) {
      if step.Process? {
        ProcessCountsNothing(s, step.reply, id);
      } else if Counting(Effect(s, step), id) {
        BeginsToCount(s, step, id);
      }
    }
  }

  lemma StepCountsRetries(s: State, step: Step, id: TaskId)
    requires OpOk(s) && TodoOk(s) && id in s.tasks
    ensures var t := Apply(s, step);
            id in t.tasks && t.tasks[id].retryCount == s.tasks[id].retryCount + if step.CountFailure? && Counting(s, id)
              then 1 else 0
  {
  }

  lemma {:induction false} RunCounts(s: State, steps: seq<Step>, id: TaskId)
    requires Inv(s) && VersionsOk(s) && Unknown(s, id)
    ensures var t := Run(s, steps);
            && Unknown(t, id) && id in s.tasks && id in t.tasks
            && (Counting(t, id) <==> Thrown(s, steps, id))
            && t.tasks[id].retryCount == s.tasks[id].retryCount + CountedReads(s, steps, id)
  {
    if steps == [] {
      UnknownHasIntent(s, id);
    } else {
      var before := steps[..|steps| - 1];
      RunCounts(s, before, id);
      RunKeepsVersions(s, before);
      var u, last := Run(s, before), steps[|steps| - 1];
      UnknownHasIntent(u, id);
      StepKeepsUnknown(u, last, id);
      StepBeginsCount(u, last, id);
      StepCountsRetries(u, last, id);
    }
  }

  /** A task with a broadcast that may land fails exactly if throwing reads are
      counted until its retries are used up. */
  lemma FailsIffReadsAreCounted(steps: seq<Step>, more: seq<Step>, id: TaskId)
    requires Unknown(Run(INIT, steps), id)
    ensures var s, t := Run(INIT, steps), Run(Run(INIT, steps), more);
            && id in s.tasks && id in t.tasks && t.tasks[id].retryCount
               == s.tasks[id].retryCount + CountedReads(s, more, id)
            && (t.tasks[id].status == Failed <==> CountedReads(s, more, id) == 3 - s.tasks[id].retryCount)
  {
    var s := Run(INIT, steps);
    RunKeepsVersions(INIT, steps);
    RunCounts(s, more, id);
    RunKeepsInv(s, more);
    assert StatusOk(Run(s, more), id);
  }

  /** One tick in which the read of the intent, or that of the lease right before the
      broadcast, throws: the attempt counts as failed although the block may be on its way. */
  function ThrowingTick(atLease: bool): seq<Step> {
    [TickStart(["t"]), Next(true, 0)] + if atLease then [ReadIntent, CheckThrows, CountFailure]
      else [ReadThrows, CountFailure]
  }

  lemma RunOfTwo(s: State, a: Step, b: Step)
    ensures Run(s, [a, b]) == Apply(Apply(s, a), b)
  {
    assert [a, b][..1] == [a] && [a][..0] == [];
    assert Run(s, [a]) == Apply(s, a);
  }

  lemma RunOfThree(s: State, a: Step, b: Step, c: Step)
    ensures Run(s, [a, b, c]) == Apply(Apply(Apply(s, a), b), c)
  {
    assert [a, b, c][..2] == [a, b];
    RunOfTwo(s, a, b);
  }

  function Counted(task: Task): Task {
    task.(status := if task.retryCount + 1 >= 3 then Failed else Pending, retryCount := task.retryCount + 1)
  }

  lemma TakeOnlyTask(s: State, task: Task)
    requires s.op == Idle && s.todo == [] && s.tasks == map["t" := task] && task.status in {Pending, Processing}
    ensures Apply(Apply(s, TickStart(["t"])), Next(true, 0))
         == s.(tasks := map["t" := task.(status := Processing)], op := Loading("t", task.retryCount))
  {
    assert Enabled(s, TickStart(["t"]));
    var s1 := s.(todo := ["t"]);
    assert Apply(s, TickStart(["t"])) == s1;
    assert s1.tasks["t" := task.(status := Processing)] == map["t" := task.(status := Processing)];
  }

  lemma CountOnlyTask(s: State, task: Task)
    requires s.op == CountingFailure("t", task.retryCount) && s.tasks == map["t" := task.(status := Processing)]
    ensures Apply(s, CountFailure) == s.(tasks := map["t" := Counted(task)], op := Idle)
  {
    assert s.tasks["t" := Counted(task)] == map["t" := Counted(task)];
  }

  lemma ThrowAndCount(s: State, task: Task)
    requires s.op == Loading("t", task.retryCount) && s.tasks == map["t" := task.(status := Processing)]
    ensures Run(s, [ReadThrows, CountFailure]) == s.(tasks := map["t" := Counted(task)], op := Idle)
  {
    RunOfTwo(s, ReadThrows, CountFailure);
    CountOnlyTask(s.(op := CountingFailure("t", task.retryCount)), task);
  }

  lemma ThrowAtLeaseAndCount(s: State, task: Task)
    requires s.op == Loading("t", task.retryCount) && s.tasks == map["t" := task.(status := Processing)]
    requires "t" in s.intents
    ensures Run(s, [ReadIntent, CheckThrows, CountFailure]) == s.(tasks := map["t" := Counted(task)], op := Idle)
  {
    RunOfThree(s, ReadIntent, CheckThrows, CountFailure);
    CountOnlyTask(s.(op := CountingFailure("t", task.retryCount)), task);
  }

  lemma OneThrowingTick(s: State, task: Task, atLease: bool)
    requires s.op == Idle && s.todo == [] && s.tasks == map["t" := task] && task.status in {Pending, Processing}
             && "t" in s.intents
    ensures Run(s, ThrowingTick(atLease)) == s.(tasks := map["t" := Counted(task)])
  {
    var steps := if atLease then [ReadIntent, CheckThrows, CountFailure] else [ReadThrows, CountFailure];
    RunOfConcat(s, [TickStart(["t"]), Next(true, 0)], steps);
    RunOfTwo(s, TickStart(["t"]), Next(true, 0));
    TakeOnlyTask(s, task);
    var taken := s.(tasks := map["t" := task.(status := Processing)], op := Loading("t", task.retryCount));
    if atLease {
      ThrowAtLeaseAndCount(taken, task);
    } else {
      ThrowAndCount(taken, task);
    }
  }

  function ThreeTicks(atLease: seq<bool>): seq<Step>
    requires |atLease| == 3
  {
    ThrowingTick(atLease[0]) + ThrowingTick(atLease[1]) + ThrowingTick(atLease[2])
  }

  lemma ThreeThrowingTicks(s: State, task: Task, atLease: seq<bool>)
    requires s.op == Idle && s.todo == [] && s.tasks == map["t" := task] && "t" in s.intents
    requires task.status == Processing && task.retryCount == 0 && |atLease| == 3
    ensures Run(s, ThreeTicks(atLease)) == s.(tasks := map["t" := Counted(Counted(Counted(task)))])
  {
    var once, twice := Counted(task), Counted(Counted(task));
    RunOfConcat(s, ThrowingTick(atLease[0]), ThrowingTick(atLease[1]));
    RunOfConcat(s, ThrowingTick(atLease[0]) + ThrowingTick(atLease[1]), ThrowingTick(atLease[2]));
    OneThrowingTick(s, task, atLease[0]);
    OneThrowingTick(s.(tasks := map["t" := once]), once, atLease[1]);
    OneThrowingTick(s.(tasks := map["t" := twice]), twice, atLease[2]);
  }

  /** A tick on an unopened account whose broadcast is answered by neither yes nor no. */
  function AmbiguousTick(task: Task): seq<Step> {
    [Enqueue("t", task)] + [TickStart(["t"]), Next(true, 0), ReadIntent]
    + [ReadAccount(Zero, Work(0, true)), SaveIntent, Process(Ambiguous)]
  }

  lemma LoadOnlyTask(task: Task)
    requires task.status == Pending && task.receiveBlockHash == None && task.retryCount == 0
    ensures Run(INIT, [Enqueue("t", task)] + [TickStart(["t"]), Next(true, 0), ReadIntent])
         == INIT.(tasks := map["t" := task.(status := Processing)], op := Preparing("t", 0))
  {
    var s := INIT.(tasks := map["t" := task]);
    RunOfConcat(INIT, [Enqueue("t", task)], [TickStart(["t"]), Next(true, 0), ReadIntent]);
    RunOfOneMore(INIT, [], Enqueue("t", task));
    assert [] + [Enqueue("t", task)] == [Enqueue("t", task)];
    assert Apply(INIT, Enqueue("t", task)) == s;
    RunOfThree(s, TickStart(["t"]), Next(true, 0), ReadIntent);
    TakeOnlyTask(s, task);
  }

  function AmbiguousBroadcast(task: Task): Broadcast {
    Broadcast("t", Block(ReceiveBody(task, Zero), Work(0, true)))
  }

  /** The broadcast is out, and the node would take it. */
  lemma AmbiguityIsReachable(task: Task)
    requires task.status == Pending && task.receiveBlockHash == None && task.retryCount == 0
    ensures var s, b := Run(INIT, AmbiguousTick(task)), AmbiguousBroadcast(task);
            && s.op == Idle && s.todo == [] && s.tasks == map["t" := task.(status := Processing)]
            && "t" in s.intents && b in s.sent && Accepts(s.chains, b.block)
  {
    var taken := task.(status := Processing);
    var s := INIT.(tasks := map["t" := taken], op := Preparing("t", 0));
    var body := ReceiveBody(taken, Zero);
    var intent := Intent(HashOf(body), Block(body, Work(0, true)), Zero, body.balance);
    RunOfConcat(INIT, [Enqueue("t", task)] + [TickStart(["t"]), Next(true, 0), ReadIntent],
                [ReadAccount(Zero, Work(0, true)), SaveIntent, Process(Ambiguous)]);
    LoadOnlyTask(task);
    RunOfThree(s, ReadAccount(Zero, Work(0, true)), SaveIntent, Process(Ambiguous));
    assert Apply(s, ReadAccount(Zero, Work(0, true))) == s.(op := SavingIntent("t", 0, intent));
    var s2 := s.(intents := map["t" := intent], op := Broadcasting("t", 0, intent, intent.block, First));
    assert Apply(s.(op := SavingIntent("t", 0, intent)), SaveIntent) == s2;
    assert Apply(s2, Process(Ambiguous)) == s2.(sent := {Broadcast("t", intent.block)}, op := Idle);
  }

  lemma LandsAfterAll(s: State, task: Task, b: Broadcast)
    requires b in s.sent && Accepts(s.chains, b.block)
    ensures var t := Run(s.(tasks := map["t" := task]), [Land(b)]);
            t.tasks == map["t" := task] && OnLedger(t.chains, HashOf(b.block.body))
  {
    var u := s.(tasks := map["t" := task]);
    assert [Land(b)][..0] == [];
    assert Run(u, [Land(b)]) == Apply(u, Land(b)) == PutOnLedger(u, b);
    AppendGrows(s.chains, b.block.body, HashOf(b.block.body));
  }

  /** From an empty database: with three reads that throw, of the intent or of the lease,
      a task fails although its broadcast has valid work, and the block lands afterwards. */
  lemma ThrowingReadsFailALandingTask(task: Task, atLease: seq<bool>)
    requires task.status == Pending && task.receiveBlockHash == None && task.retryCount == 0 && |atLease| == 3
    ensures var b := AmbiguousBroadcast(task);
            var t := Run(INIT, AmbiguousTick(task) + ThreeTicks(atLease) + [Land(b)]);
            && "t" in t.tasks && t.tasks["t"].status == Failed
            && b.block.body.link == FromBlock(task.source) && OnLedger(t.chains, HashOf(b.block.body))
  {
    var b, ticks := AmbiguousBroadcast(task), ThreeTicks(atLease);
    var s, taken := Run(INIT, AmbiguousTick(task)), task.(status := Processing);
    AmbiguityIsReachable(task);
    RunOfConcat(INIT, AmbiguousTick(task), ticks);
    ThreeThrowingTicks(s, taken, atLease);
    RunOfConcat(INIT, AmbiguousTick(task) + ticks, [Land(b)]);
    LandsAfterAll(s, Counted(Counted(Counted(taken))), b);
  }
}
