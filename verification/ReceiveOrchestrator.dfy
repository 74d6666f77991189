/** The control flow of `processNext` and `processTaskUnderLease`, with everything
    that may happen at each await given as a script. What it does to the stores is
    a run of the receive protocol, so every theorem about runs is about this code. */
module ReceiveOrchestrator {
  import opened Wrappers
  import opened Ledger
  import opened ReceiveProtocol

  /** How an await ends: the process dies, the lease is found lost, the call throws, or it returns. */
  datatype Answer =
    | Dies
    | LosesLease
    | Throws
    | Returns
    | Account(frontier: Hash, work: Work)
    | Replies(reply: Reply)
    | Generated(work: Work)

  datatype Await = Await(meanwhile: seq<Step>, answer: Answer)

  predicate Elsewhere(step: Step) {
    step.Enqueue? || step.Confirm? || step.Land? || step.LandSend?
  }

  ghost predicate ScriptOk(script: seq<Await>) {
    forall a, step | a in script && step in a.meanwhile :: Elsewhere(step)
  }

  /** A script that is used up ends with the death of the process. */
  function AnswerAt(script: seq<Await>, at: nat): Answer {
    if at < |script| then script[at].answer else Dies
  }

  function Meanwhile(script: seq<Await>, at: nat): seq<Step> {
    if at < |script| then script[at].meanwhile else []
  }

  function LeaveStep(answer: Answer): Step {
    if answer == Dies then Crash else Abort
  }

  /** To any other task an operation does nothing; a published one may be confirmed meanwhile. */
  predicate Kept(before: Task, after: Task) {
    after == before || (before.status == ReceiveProtocol.Published && after == before.(status := Confirmed))
  }

  ghost predicate AllKept(before: map<TaskId, Task>, after: map<TaskId, Task>) {
    forall x | x in before :: x in after && Kept(before[x], after[x])
  }

  ghost predicate AllKeptBut(before: map<TaskId, Task>, after: map<TaskId, Task>, id: TaskId) {
    forall x | x in before :: x in after && (x == id || Kept(before[x], after[x]))
  }

  ghost predicate IntentsKeptBut(before: map<TaskId, Intent>, after: map<TaskId, Intent>, id: TaskId) {
    forall x | x != id :: (x in before <==> x in after) && (x in before ==> after[x] == before[x])
  }

  lemma OthersKeptTwice(s: State, m: State, t: State, id: TaskId)
    requires AllKeptBut(s.tasks, m.tasks, id) && AllKeptBut(m.tasks, t.tasks, id)
    requires IntentsKeptBut(s.intents, m.intents, id) && IntentsKeptBut(m.intents, t.intents, id)
    ensures AllKeptBut(s.tasks, t.tasks, id) && IntentsKeptBut(s.intents, t.intents, id)
  {
  }

  lemma OneElsewhereKeepsOp(s: State, step: Step)
    requires Elsewhere(step)
    ensures var t := Apply(s, step);
            t.op == s.op && t.todo == s.todo && t.intents == s.intents && t.sent == s.sent && AllKept(s.tasks, t.tasks)
  {
  }

  lemma {:induction false} ElsewhereKeepsOp(s: State, steps: seq<Step>)
    requires forall step | step in steps :: Elsewhere(step)
    ensures var t := Run(s, steps);
            t.op == s.op && t.todo == s.todo && t.intents == s.intents && t.sent == s.sent && AllKept(s.tasks, t.tasks)
  {
    if steps != [] {
      assert steps[|steps| - 1] in steps;
      ElsewhereKeepsOp(s, steps[..|steps| - 1]);
      OneElsewhereKeepsOp(Run(s, steps[..|steps| - 1]), steps[|steps| - 1]);
    }
  }

  /** How `publish` ended: with the accepted hash, with a work rejection, with an error
      before any broadcast of this operation had begun, or with any other error. */
  datatype Outcome = Taken(hash: Hash) | RejectedWork | Unstarted | Stopped

  function OutcomeOf(reply: Reply, intent: Intent, block: Block): Outcome {
    match reply
    case Accepted => if HashOf(block.body) == intent.hash then Taken(intent.hash) else Stopped
    case OldBlock(known) => if known then Taken(intent.hash) else Stopped
    case WorkRejected => RejectedWork
    case Ambiguous => Stopped
  }

  function AfterBroadcast(id: TaskId, retries: nat, intent: Intent, block: Block, attempt: Attempt,
                          outcome: Outcome): Op {
    match outcome
    case Taken(hash) => Publishing(id, hash)
    case RejectedWork => if attempt == First then Reworking(id, retries, intent, block)
      else CountingFailure(id, retries)
    case Unstarted => CountingFailure(id, retries)
    case Stopped => Idle
  }

  /** What is signed on a frontier. */
  function SignedIntent(task: Task, frontier: Hash, work: Work): Intent {
    var body := Body(task.account, frontier, BalanceAt(frontier) + task.amount, FromBlock(task.source));
    Intent(HashOf(body), Block(body, work), frontier, body.balance)
  }

  /** What the call of the node comes to: its reply, if it is one that its ledger allows. */
  function CallOutcome(s: State, script: seq<Await>, at: nat, intent: Intent, block: Block): Outcome {
    var answer := AnswerAt(script, at);
    if answer.Replies? && Enabled(Run(s, Meanwhile(script, at)), Process(answer.reply))
    then OutcomeOf(answer.reply, intent, block) else Stopped
  }

  /** A broadcast is two awaits: the check of the lease, and the call of the node. */
  function BroadcastOutcome(s: State, script: seq<Await>, at: nat, intent: Intent, block: Block,
                            attempt: Attempt): Outcome {
    match AnswerAt(script, at)
    case Returns => CallOutcome(Run(s, Meanwhile(script, at)), script, at + 1, intent, block)
    case Throws => if attempt == First then Unstarted else Stopped
    case _ => Stopped
  }

  /** The node refuses the work of the second broadcast, and the lease is still held when that is written down. */
  predicate RefusedAgain(script: seq<Await>, at: nat, work: Work) {
    && AnswerAt(script, at) == Returns && AnswerAt(script, at + 1) == Replies(WorkRejected) && !work.ok
    && AnswerAt(script, at + 2) == Returns
  }

  predicate Stored(intents: map<TaskId, Intent>, id: TaskId, intent: Intent) {
    id in intents && intents[id].hash == intent.hash
  }

  /** `updateWork`: only under the same block hash. */
  function Reworked(intents: map<TaskId, Intent>, id: TaskId, intent: Intent, updated: Block): map<TaskId, Intent> {
    if Stored(intents, id, intent) then intents[id := intents[id].(block := updated)] else intents
  }

  /** The frontier that the node reports, if it answers with one that its ledger could show. */
  function AccountAnswer(s: State, script: seq<Await>, at: nat, address: Address): (a: Option<Answer>)
    ensures a.Some? ==> a.value.Account?
  {
    var answer := AnswerAt(script, at);
    if answer.Account? && Reported(Run(s, Meanwhile(script, at)).chains, address, answer.frontier) then Some(answer)
    else None
  }

  /** A failed attempt: the third one is the last. */
  function Counted(task: Task, retries: nat): Task {
    task.(status := if retries + 1 >= 3 then Failed else Pending, retryCount := retries + 1)
  }

  function PublishedTask(task: Task, hash: Hash): Task {
    task.(status := ReceiveProtocol.Published, receiveBlockHash := Some(hash))
  }

  // ----- what a script comes to -----

  /** How an operation ends for its task: published under a hash, with one failed
      attempt more, or left as it is stored. */
  datatype Verdict = Publishes(hash: Hash) | Counts | Stays

  /** The verdict, and the broadcasts that were made on the way. */
  datatype End = End(verdict: Verdict, made: set<Broadcast>)

  /** The row and the broadcasts are as the end says. */
  ghost predicate Obeys(e: End, s: State, t: State, id: TaskId, retries: nat) {
    && id in s.tasks && id in t.tasks && t.sent == s.sent + e.made
    && match e.verdict
       case Publishes(hash) => t.tasks[id] == PublishedTask(s.tasks[id], hash)
       case Counts => t.tasks[id] == Counted(s.tasks[id], retries)
       case Stays => Kept(s.tasks[id], t.tasks[id])
  }

  function Made(made: set<Broadcast>, e: End): End {
    e.(made := made + e.made)
  }

  lemma ObeysAfterStaying(made: set<Broadcast>, e: End, s: State, m: State, t: State, id: TaskId, retries: nat)
    requires Obeys(End(Stays, made), s, m, id, retries) && Obeys(e, m, t, id, retries)
    ensures Obeys(Made(made, e), s, t, id, retries)
  {
  }

  /** The state behind an await and the step it leads to. */
  function After(s: State, script: seq<Await>, at: nat, step: Step): State {
    Apply(Run(s, Meanwhile(script, at)), step)
  }

  function RecordVerdict(script: seq<Await>, at: nat, hash: Hash): Verdict {
    if AnswerAt(script, at) == Returns then Publishes(hash) else Stays
  }

  function CountVerdict(script: seq<Await>, at: nat): Verdict {
    if AnswerAt(script, at) == Returns then Counts else Stays
  }

  /** The node answers what its ledger allows: then the block was broadcast. */
  function CallMade(s: State, script: seq<Await>, at: nat, id: TaskId, block: Block): set<Broadcast> {
    var answer := AnswerAt(script, at);
    if answer.Replies? && Enabled(Run(s, Meanwhile(script, at)), Process(answer.reply))
    then {Broadcast(id, block)} else {}
  }

  /** What a broadcast adds to those made: the check has to pass first. */
  function Broadcasts(s: State, script: seq<Await>, at: nat, id: TaskId, block: Block): set<Broadcast> {
    if AnswerAt(script, at) == Returns then CallMade(Run(s, Meanwhile(script, at)), script, at + 1, id, block) else {}
  }

  /** From the second broadcast on. */
  function SecondEnd(s: State, script: seq<Await>, at: nat, id: TaskId, intent: Intent, block: Block): End {
    var made := Broadcasts(s, script, at, id, block);
    match BroadcastOutcome(s, script, at, intent, block, Second)
    case Taken(hash) => End(RecordVerdict(script, at + 2, hash), made)
    case RejectedWork => End(CountVerdict(script, at + 2), made)
    case _ => End(Stays, made)
  }

  /** From the search for new work on. */
  function RetryEnd(s: State, script: seq<Await>, at: nat, id: TaskId, intent: Intent, body: Body): End {
    match AnswerAt(script, at)
    case Generated(work) =>
      SecondEnd(After(s, script, at, UpdateWork(work)), script, at + 1, id, intent, Block(body, work))
    case _ => End(Stays, {})
  }

  /** The state after a broadcast whose work was refused. */
  function Refused(s: State, script: seq<Await>, at: nat): State {
    After(Run(s, Meanwhile(script, at)), script, at + 1, Process(WorkRejected))
  }

  /** From the first broadcast on. */
  function FirstEnd(s: State, script: seq<Await>, at: nat, id: TaskId, intent: Intent): End {
    var made := Broadcasts(s, script, at, id, intent.block);
    match BroadcastOutcome(s, script, at, intent, intent.block, First)
    case Taken(hash) => End(RecordVerdict(script, at + 2, hash), made)
    case RejectedWork => Made(made, RetryEnd(Refused(s, script, at), script, at + 2, id, intent, intent.block.body))
    case Unstarted => End(CountVerdict(script, at + 1), made)
    case Stopped => End(Stays, made)
  }

  /** From the signature on. */
  function SignedEnd(s: State, id: TaskId, task: Task, script: seq<Await>, at: nat, frontier: Hash, work: Work): End {
    match AnswerAt(script, at)
    case Returns =>
      FirstEnd(After(Apply(s, ReadAccount(frontier, work)), script, at, SaveIntent), script, at + 1, id,
               SignedIntent(task, frontier, work))
    case Throws => End(CountVerdict(script, at + 1), {})
    case _ => End(Stays, {})
  }

  /** From the question for the frontier on. */
  function PrepareEnd(s: State, id: TaskId, task: Task, script: seq<Await>, at: nat): End {
    match AccountAnswer(s, script, at, task.account)
    case None => End(if AnswerAt(script, at) == Throws then CountVerdict(script, at + 1) else Stays, {})
    case Some(a) => SignedEnd(Run(s, Meanwhile(script, at)), id, task, script, at + 1, a.frontier, a.work)
  }

  /** From the intent that is read on. */
  function LoadedEnd(s: State, id: TaskId, task: Task, script: seq<Await>, at: nat): End {
    var s1 := Apply(s, ReadIntent);
    if id in s.intents then FirstEnd(s1, script, at, id, s.intents[id]) else PrepareEnd(s1, id, task, script, at)
  }

  /** The whole operation. */
  function EndOf(s: State, id: TaskId, script: seq<Await>, at: nat): End
    requires id in s.tasks
  {
    match AnswerAt(script, at)
    case Returns => LoadedEnd(Run(s, Meanwhile(script, at)), id, s.tasks[id], script, at + 1)
    case Throws => End(CountVerdict(script, at + 1), {})
    case _ => End(Stays, {})
  }

  lemma HashIsTheIntents(s: State, script: seq<Await>, at: nat, id: TaskId, intent: Intent)
    ensures var v := FirstEnd(s, script, at, id, intent).verdict; v.Publishes? ==> v.hash == intent.hash
  {
  }

  /** A task is taken up: it is processing, and nothing else is on the list. */
  function TakenUp(s: State, id: TaskId): State
    requires id in s.tasks
  {
    s.(tasks := s.tasks[id := s.tasks[id].(status := ReceiveProtocol.Processing)], todo := [],
       op := Loading(id, s.tasks[id].retryCount))
  }

  /** What a tick makes of the task it takes: exactly what the script decides, and nothing of any other. */
  ghost predicate TaskProcessed(s: State, t: State, id: TaskId, script: seq<Await>) {
    && id in s.tasks && AllKeptBut(s.tasks, t.tasks, id) && IntentsKeptBut(s.intents, t.intents, id)
    && var e := EndOf(TakenUp(s, id), id, script, 0);
       && Obeys(e, TakenUp(s, id), t, id, s.tasks[id].retryCount)
       && (e.verdict.Publishes? ==> id in t.intents && t.tasks[id].receiveBlockHash == Some(t.intents[id].hash))
  }

  /** What a tick can take: a saved intent or enough to receive, and a free lease. */
  predicate Takes(s: State, id: TaskId, free: set<TaskId>, minimum: nat) {
    id in s.tasks && (minimum <= s.tasks[id].amount || id in s.intents) && id in free
  }

  class Orchestrator {
    var tasks: map<TaskId, Task>
    var intents: map<TaskId, Intent>
    var todo: seq<TaskId>
    var chains: Chains
    var sent: set<Broadcast>
    var landed: map<Hash, Broadcast>
    ghost var op: Op
    var cursor: nat  // the next await of the script

    ghost function Contents(): State
      reads this
    {
      State(tasks, intents, todo, op, chains, sent, landed)
    }

    method RunMeanwhile(steps: seq<Step>)
      requires forall step | step in steps :: Elsewhere(step)
      modifies this`tasks, this`chains, this`landed
      ensures Contents() == Run(old(Contents()), steps)
    {
      ghost var s := Contents();
      var i := 0;
      while i < |steps|
        invariant 0 <= i <= |steps|
        invariant Contents() == Run(s, steps[..i])
      {
        assert steps[..i + 1] == steps[..i] + [steps[i]];
        RunOfOneMore(s, steps[..i], steps[i]);
        DoElsewhere(steps[i]);
        i := i + 1;
      }
      assert steps[..i] == steps;
    }

    /** Lets pass what others do during the next await. */
    method AwaitNext(script: seq<Await>, ghost before: State, ghost done: seq<Step>)
      returns (answer: Answer, ghost trace: seq<Step>)
      requires ScriptOk(script) && Contents() == Run(before, done)
      modifies this
      ensures op == old(op) && todo == old(todo) && intents == old(intents) && sent == old(sent)
      ensures Contents() == Run(before, trace) && trace == done + Meanwhile(script, old(cursor))
      ensures Contents() == Run(old(Contents()), Meanwhile(script, old(cursor)))
      ensures answer == AnswerAt(script, old(cursor)) && cursor == old(cursor) + 1
      ensures AllKept(old(tasks), tasks)
    {
      var steps;
      if cursor < |script| {
        assert script[cursor] in script;
        answer, steps := script[cursor].answer, script[cursor].meanwhile;
      } else {
        answer, steps := Dies, [];
      }
      cursor := cursor + 1;
      trace := done + steps;
      RunOfConcat(before, done, steps);
      ElsewhereKeepsOp(Contents(), steps);
      RunMeanwhile(steps);
    }

    /** A step of the node, the sends, the watcher, or whoever finds receivable blocks. */
    method DoElsewhere(step: Step)
      requires Elsewhere(step)
      modifies this`tasks, this`chains, this`landed
      ensures Contents() == Apply(old(Contents()), step)
    {
      match step
      case Enqueue(id, task) =>
        if id !in tasks && (forall x | x in tasks :: tasks[x].source != task.source)
          && task.status == ReceiveProtocol.Pending && task.receiveBlockHash == None && task.retryCount == 0 {
          tasks := tasks[id := task];
        }
      case Confirm(id) =>
        if id in tasks && tasks[id].status == ReceiveProtocol.Published
          && tasks[id].receiveBlockHash.Some? && OnLedger(chains, tasks[id].receiveBlockHash.value) {
          tasks := tasks[id := tasks[id].(status := Confirmed)];
        }
      case Land(b) =>
        if b in sent && Accepts(chains, b.block) {
          chains := Append(chains, b.block.body);
          landed := landed[HashOf(b.block.body) := b];
        }
      case LandSend(body) =>
        if body.link.ToAccount? && body.previous == Frontier(chains, body.account) {
          chains := Append(chains, body);
        }
    }

    /** Leaves the receive as it is stored, for a later tick; a dead process loses its memory as well. */
    method Leave(answer: Answer, ghost before: State, ghost done: seq<Step>) returns (ghost trace: seq<Step>)
      requires Contents() == Run(before, done) && op != Idle
      modifies this`todo, this`op
      ensures Contents() == Run(before, trace) && trace == done + [LeaveStep(answer)]
      ensures op == Idle && (old(todo) == [] ==> todo == [])
    {
      RunOfOneMore(before, done, LeaveStep(answer));
      trace := done + [LeaveStep(answer)];
      op := Idle;
      if answer == Dies {
        todo := [];
      }
    }

    method SetCounted(id: TaskId, retries: nat)
      requires id in tasks && op == CountingFailure(id, retries)
      modifies this`tasks, this`op
      ensures Contents() == Apply(old(Contents()), CountFailure)
      ensures tasks == old(tasks)[id := Counted(old(tasks)[id], retries)] && op == Idle
    {
      var retryCount := retries + 1;
      if retryCount >= 3 {
        tasks := tasks[id := tasks[id].(status := Failed, retryCount := retryCount)];
      } else {
        tasks := tasks[id := tasks[id].(status := ReceiveProtocol.Pending, retryCount := retryCount)];
      }
      op := Idle;
    }

    /** The end of the outer catch: if the lease is still held and the update returns,
        the receive goes back to pending, or fails at the third count. */
    method CountUnderLease(id: TaskId, retries: nat, script: seq<Await>, ghost before: State, ghost done: seq<Step>)
      returns (ghost trace: seq<Step>)
      requires ScriptOk(script) && Contents() == Run(before, done)
      requires id in tasks && op == CountingFailure(id, retries)
      modifies this
      ensures Contents() == Run(before, trace) && op == Idle && intents == old(intents)
              && (old(todo) == [] ==> todo == [])
      ensures AllKeptBut(old(tasks), tasks, id)
      ensures if AnswerAt(script, old(cursor)) == Returns then tasks[id] == Counted(old(tasks)[id], retries)
                else Kept(old(tasks)[id], tasks[id])
      ensures sent == old(sent)
    {
      var answer;
      answer, trace := AwaitNext(script, before, done);
      if !answer.Returns? {
        trace := Leave(answer, before, trace);
        return;
      }
      RunOfOneMore(before, trace, CountFailure);
      trace := trace + [CountFailure];
      SetCounted(id, retries);
    }

    /** An error before any broadcast: nothing is at risk, so the attempt is counted. */
    method FailBefore(id: TaskId, retries: nat, step: Step, answer: Answer, script: seq<Await>, ghost before: State,
                      ghost done: seq<Step>)
      returns (ghost trace: seq<Step>)
      requires ScriptOk(script) && Contents() == Run(before, done) && id in tasks
      requires (step == ReadThrows && op == Loading(id, retries))
               || (step == PrepareThrows && op == Preparing(id, retries))
        || (step == SaveThrows(false) && op.SavingIntent? && op.id == id && op.retries == retries)
      modifies this
      ensures Contents() == Run(before, trace) && op == Idle && intents == old(intents)
              && (old(todo) == [] ==> todo == [])
      ensures AllKeptBut(old(tasks), tasks, id)
      ensures if answer == Throws && AnswerAt(script, old(cursor)) == Returns
                then tasks[id] == Counted(old(tasks)[id], retries) else Kept(old(tasks)[id], tasks[id])
      ensures sent == old(sent)
    {
      if answer != Throws {
        trace := Leave(answer, before, done);
        return;
      }
      RunOfOneMore(before, done, step);
      trace := done + [step];
      op := CountingFailure(id, retries);
      trace := CountUnderLease(id, retries, script, before, trace);
    }

    /** Signs on the reported frontier. */
    method Sign(id: TaskId, retries: nat, frontier: Hash, work: Work, ghost before: State, ghost done: seq<Step>)
      returns (signed: Intent, ghost trace: seq<Step>)
      requires Contents() == Run(before, done) && op == Preparing(id, retries) && id in tasks
      requires Reported(chains, tasks[id].account, frontier)
      modifies this`op
      ensures Contents() == Run(before, trace) && op == SavingIntent(id, retries, signed)
      ensures signed == SignedIntent(tasks[id], frontier, work)
      ensures Contents() == Apply(old(Contents()), ReadAccount(frontier, work))
    {
      RunOfOneMore(before, done, ReadAccount(frontier, work));
      trace := done + [ReadAccount(frontier, work)];
      var balance := BalanceAt(frontier) + tasks[id].amount;
      var body := Body(tasks[id].account, frontier, balance, FromBlock(tasks[id].source));
      signed := Intent(HashOf(body), Block(body, work), frontier, balance);
      op := SavingIntent(id, retries, signed);
    }

    method SetIntent(id: TaskId, retries: nat, signed: Intent) returns (kept: Intent)
      requires op == SavingIntent(id, retries, signed)
      modifies this`intents, this`op
      ensures Contents() == Apply(old(Contents()), SaveIntent)
      ensures kept == (if id in old(intents) then old(intents)[id] else signed) && intents == old(intents)[id := kept]
      ensures op == Broadcasting(id, retries, kept, kept.block, First)
    {
      kept := if id in intents then intents[id] else signed;
      intents := intents[id := kept];
      op := Broadcasting(id, retries, kept, kept.block, First);
    }

    /** Saves the signed intent, unless there is one by now; an error is counted. */
    method Save(id: TaskId, retries: nat, signed: Intent, script: seq<Await>, ghost before: State,
                ghost done: seq<Step>)
      returns (intent: Option<Intent>, ghost trace: seq<Step>)
      requires ScriptOk(script) && Contents() == Run(before, done) && op == SavingIntent(id, retries, signed)
               && id in tasks
      modifies this
      ensures Contents() == Run(before, trace) && (old(todo) == [] ==> todo == [])
      ensures op == if intent.None? then Idle else Broadcasting(id, retries, intent.value, intent.value.block, First)
      ensures AllKeptBut(old(tasks), tasks, id)
      ensures intent.Some? <==> AnswerAt(script, old(cursor)) == Returns
      ensures intent.Some? ==> intent.value == if id in old(intents) then old(intents)[id] else signed
      ensures intents == if intent.Some? then old(intents)[id := intent.value] else old(intents)
      ensures if AnswerAt(script, old(cursor)) == Throws && AnswerAt(script, old(cursor) + 1) == Returns
              then tasks[id] == Counted(old(tasks)[id], retries) else Kept(old(tasks)[id], tasks[id])
      ensures intent.Some? ==> Contents() == After(old(Contents()), script, old(cursor), SaveIntent)
                               && cursor == old(cursor) + 1
      ensures sent == old(sent)
    {
      var answer;
      answer, trace := AwaitNext(script, before, done);
      if answer.Returns? {
        RunOfOneMore(before, trace, SaveIntent);
        trace := trace + [SaveIntent];
        var kept := SetIntent(id, retries, signed);
        intent := Some(kept);
      } else {
        trace := FailBefore(id, retries, SaveThrows(false), answer, script, before, trace);
        intent := None;
      }
    }

    /** Either the intent is about to be broadcast, and the end is what that comes to, or it is reached. */
    ghost predicate ReachesBroadcast(e: End, before: State, id: TaskId, retries: nat, intent: Option<Intent>,
                                     script: seq<Await>)
      reads this
    {
      if intent.Some? then
        e == FirstEnd(Contents(), script, cursor, id, intent.value)
          && Obeys(End(Stays, {}), before, Contents(), id, retries)
      else !e.verdict.Publishes? && e.made == {} && Obeys(e, before, Contents(), id, retries)
    }

    /** Either the hash is about to be recorded, or the end is reached. */
    ghost predicate ReachesRecord(e: End, before: State, id: TaskId, retries: nat, outcome: Outcome, script: seq<Await>)
      reads this
    {
      if outcome.Taken? then
        && e.verdict == RecordVerdict(script, cursor, outcome.hash)
        && Obeys(e.(verdict := Stays), before, Contents(), id, retries)
      else Obeys(e, before, Contents(), id, retries)
    }

    /** Signs and saves the intent before any broadcast. */
    method SignAndSave(id: TaskId, retries: nat, frontier: Hash, work: Work, script: seq<Await>, ghost before: State,
                       ghost done: seq<Step>)
      returns (intent: Option<Intent>, ghost trace: seq<Step>)
      requires ScriptOk(script) && Contents() == Run(before, done) && op == Preparing(id, retries) && id in tasks
      requires id !in intents && tasks[id].status != ReceiveProtocol.Published
               && Reported(chains, tasks[id].account, frontier)
      modifies this
      ensures Contents() == Run(before, trace) && (old(todo) == [] ==> todo == [])
      ensures op == if intent.None? then Idle else Broadcasting(id, retries, intent.value, intent.value.block, First)
      ensures AllKeptBut(old(tasks), tasks, id)
      ensures intent == if AnswerAt(script, old(cursor)) == Returns
                then Some(SignedIntent(old(tasks)[id], frontier, work)) else None
      ensures intents == if intent.Some? then old(intents)[id := intent.value] else old(intents)
      ensures tasks[id] == if AnswerAt(script, old(cursor)) == Throws && AnswerAt(script, old(cursor) + 1) == Returns
                           then Counted(old(tasks)[id], retries) else old(tasks)[id]
      ensures ReachesBroadcast(SignedEnd(old(Contents()), id, old(tasks)[id], script, old(cursor), frontier, work),
                               old(Contents()), id, retries, intent, script)
    {
      var signed;
      signed, trace := Sign(id, retries, frontier, work, before, done);
      ghost var m := Contents();
      intent, trace := Save(id, retries, signed, script, before, trace);
      assert SignedEnd(old(Contents()), id, old(tasks)[id], script, old(cursor), frontier, work)
          == match AnswerAt(script, old(cursor))
             case Returns => FirstEnd(After(m, script, old(cursor), SaveIntent), script, old(cursor) + 1, id, signed)
             case Throws => End(CountVerdict(script, old(cursor) + 1), {})
             case _ => End(Stays, {});
    }

    /** No saved intent: ask for the frontier, sign, find work, and save the intent
        before any broadcast. An error up to then counts as a failed attempt. */
    method PrepareIntent(id: TaskId, retries: nat, script: seq<Await>, ghost before: State, ghost done: seq<Step>)
      returns (intent: Option<Intent>, ghost trace: seq<Step>)
      requires ScriptOk(script) && Contents() == Run(before, done) && op == Preparing(id, retries) && id in tasks
      requires id !in intents && tasks[id].status != ReceiveProtocol.Published
      modifies this
      ensures Contents() == Run(before, trace) && (old(todo) == [] ==> todo == [])
      ensures op == if intent.None? then Idle else Broadcasting(id, retries, intent.value, intent.value.block, First)
      ensures AllKeptBut(old(tasks), tasks, id)
      ensures var account := AccountAnswer(old(Contents()), script, old(cursor), old(tasks)[id].account);
              var next := AnswerAt(script, old(cursor) + 1);
              && intent ==
                 (if account.Some? && next == Returns
                  then Some(SignedIntent(old(tasks)[id], account.value.frontier, account.value.work)) else None)
              && intents == (if intent.Some? then old(intents)[id := intent.value] else old(intents))
              && tasks[id] == if (if account.Some? then next == Throws && AnswerAt(script, old(cursor) + 2) == Returns
                                  else AnswerAt(script, old(cursor)) == Throws && next == Returns)
                              then Counted(old(tasks)[id], retries) else old(tasks)[id]
      ensures ReachesBroadcast(PrepareEnd(old(Contents()), id, old(tasks)[id], script, old(cursor)), old(Contents()),
                               id, retries, intent, script)
    {
      var answer;
      answer, trace := AwaitNext(script, before, done);
      assert tasks[id] == old(tasks)[id];
      if answer.Account? && Reported(chains, tasks[id].account, answer.frontier) {
        intent, trace := SignAndSave(id, retries, answer.frontier, answer.work, script, before, trace);
      } else {
        trace := FailBefore(id, retries, PrepareThrows, answer, script, before, trace);
        intent := None;
      }
    }

    predicate Answerable(reply: Reply, intent: Intent, block: Block)
      reads this
    {
      && (reply.Accepted? ==> Accepts(chains, block))
      && (reply.OldBlock? && reply.known ==> OnLedger(chains, intent.hash))
      && (reply.WorkRejected? ==> !block.work.ok)
    }

    /** The block has been sent; take the node's reply. */
    method Hear(id: TaskId, retries: nat, intent: Intent, block: Block, attempt: Attempt, reply: Reply)
      returns (outcome: Outcome)
      requires op == Broadcasting(id, retries, intent, block, attempt) && Answerable(reply, intent, block)
      modifies this`sent, this`chains, this`landed, this`op
      ensures Contents() == Apply(old(Contents()), Process(reply))
      ensures op == AfterBroadcast(id, retries, intent, block, attempt, outcome)
              && outcome == OutcomeOf(reply, intent, block)
    {
      var broadcast := ReceiveProtocol.Broadcast(id, block);
      sent := sent + {broadcast};
      outcome := Stopped;
      match reply {
        case Accepted =>
          chains := Append(chains, block.body);
          landed := landed[HashOf(block.body) := broadcast];
          if HashOf(block.body) == intent.hash {
            outcome := Taken(intent.hash);
          }
        case OldBlock(known) =>
          if known {
            outcome := Taken(intent.hash);
          }
        case WorkRejected =>
          outcome := RejectedWork;
        case Ambiguous =>
      }
      op := AfterBroadcast(id, retries, intent, block, attempt, outcome);
    }

    method TakeAnswer(id: TaskId, retries: nat, intent: Intent, block: Block, attempt: Attempt, answer: Answer,
                      ghost before: State, ghost done: seq<Step>)
      returns (outcome: Outcome, ghost trace: seq<Step>)
      requires Contents() == Run(before, done) && op == Broadcasting(id, retries, intent, block, attempt)
      modifies this`sent, this`chains, this`landed, this`op, this`todo
      ensures Contents() == Run(before, trace) && (old(todo) == [] ==> todo == [])
      ensures op == AfterBroadcast(id, retries, intent, block, attempt, outcome)
      ensures outcome == if answer.Replies? && Enabled(old(Contents()), Process(answer.reply))
                then OutcomeOf(answer.reply, intent, block) else Stopped
      ensures outcome == RejectedWork ==> Contents() == Apply(old(Contents()), Process(WorkRejected))
      ensures sent == old(sent) + if answer.Replies? && Enabled(old(Contents()), Process(answer.reply))
                                  then {ReceiveProtocol.Broadcast(id, block)} else {}
    {
      if !answer.Replies? || !Answerable(answer.reply, intent, block) {
        trace := Leave(answer, before, done);
        return Stopped, trace;
      }
      RunOfOneMore(before, done, Process(answer.reply));
      trace := done + [Process(answer.reply)];
      outcome := Hear(id, retries, intent, block, attempt, answer.reply);
    }

    /** The check before the broadcast did not pass. An error there, other than a lost
        lease, counts as long as this operation has broadcast nothing. */
    method FailCheck(id: TaskId, retries: nat, intent: Intent, block: Block, attempt: Attempt, answer: Answer,
                     ghost before: State, ghost done: seq<Step>)
      returns (outcome: Outcome, ghost trace: seq<Step>)
      requires Contents() == Run(before, done) && op == Broadcasting(id, retries, intent, block, attempt)
      modifies this`op, this`todo
      ensures Contents() == Run(before, trace) && (old(todo) == [] ==> todo == [])
      ensures op == AfterBroadcast(id, retries, intent, block, attempt, outcome)
      ensures outcome == if answer == Throws && attempt == First then Unstarted else Stopped
    {
      if answer == Throws && attempt == First {
        RunOfOneMore(before, done, CheckThrows);
        trace := done + [CheckThrows];
        op := CountingFailure(id, retries);
        return Unstarted, trace;
      }
      trace := Leave(answer, before, done);
      outcome := Stopped;
    }

    /** The call of the node. */
    method Call(id: TaskId, retries: nat, intent: Intent, block: Block, attempt: Attempt, script: seq<Await>,
                ghost before: State, ghost done: seq<Step>)
      returns (outcome: Outcome, ghost trace: seq<Step>)
      requires ScriptOk(script) && Contents() == Run(before, done)
      requires op == Broadcasting(id, retries, intent, block, attempt) && id in tasks
      modifies this
      ensures Contents() == Run(before, trace) && intents == old(intents) && (old(todo) == [] ==> todo == [])
      ensures op == AfterBroadcast(id, retries, intent, block, attempt, outcome) && cursor == old(cursor) + 1
      ensures AllKept(old(tasks), tasks)
      ensures outcome == RejectedWork <==> AnswerAt(script, old(cursor)) == Replies(WorkRejected) && !block.work.ok
      ensures outcome == CallOutcome(old(Contents()), script, old(cursor), intent, block)
      ensures outcome == RejectedWork ==>
                Contents() == After(old(Contents()), script, old(cursor), Process(WorkRejected))
      ensures sent == old(sent) + CallMade(old(Contents()), script, old(cursor), id, block)
    {
      var answer;
      answer, trace := AwaitNext(script, before, done);
      outcome, trace := TakeAnswer(id, retries, intent, block, attempt, answer, before, trace);
    }

    /** The `publish` closure: check the lease, then call the node. Whatever goes wrong
        once a broadcast has begun leaves the receive processing. */
    method Broadcast(id: TaskId, retries: nat, intent: Intent, block: Block, attempt: Attempt, script: seq<Await>,
                     ghost before: State, ghost done: seq<Step>)
      returns (outcome: Outcome, ghost trace: seq<Step>)
      requires ScriptOk(script) && Contents() == Run(before, done)
      requires op == Broadcasting(id, retries, intent, block, attempt) && id in tasks
      modifies this
      ensures Contents() == Run(before, trace) && intents == old(intents) && (old(todo) == [] ==> todo == [])
      ensures op == AfterBroadcast(id, retries, intent, block, attempt, outcome)
      ensures AllKept(old(tasks), tasks)
      ensures cursor == old(cursor) + if AnswerAt(script, old(cursor)) == Returns then 2 else 1
      ensures outcome == BroadcastOutcome(old(Contents()), script, old(cursor), intent, block, attempt)
      ensures outcome == RejectedWork <==>
                && AnswerAt(script, old(cursor)) == Returns
                && AnswerAt(script, old(cursor) + 1) == Replies(WorkRejected) && !block.work.ok
      ensures outcome == RejectedWork ==> Contents() == Refused(old(Contents()), script, old(cursor))
      ensures sent == old(sent) + Broadcasts(old(Contents()), script, old(cursor), id, block)
    {
      var answer;
      answer, trace := AwaitNext(script, before, done);
      if answer.Returns? {
        outcome, trace := Call(id, retries, intent, block, attempt, script, before, trace);
      } else {
        outcome, trace := FailCheck(id, retries, intent, block, attempt, answer, before, trace);
      }
    }

    /** The JSON with new work replaces the stored one, unless the intent is another by now. */
    method ReplaceWork(id: TaskId, retries: nat, intent: Intent, updated: Block) returns (replaced: bool)
      requires op.Reworking? && op == Reworking(id, retries, intent, op.block) && updated.body == op.block.body
      modifies this`intents, this`op
      ensures Contents() == Apply(old(Contents()), UpdateWork(updated.work))
      ensures op == if replaced then Broadcasting(id, retries, intent, updated, Second) else Idle
      ensures replaced <==> Stored(old(intents), id, intent)
      ensures intents == Reworked(old(intents), id, intent, updated)
    {
      replaced := id in intents && intents[id].hash == intent.hash;
      op := if replaced then Broadcasting(id, retries, intent, updated, Second) else Idle;
      if replaced {
        intents := intents[id := intents[id].(block := updated)];
      }
    }

    /** The second broadcast; if the node refuses its work as well, the attempt is counted. */
    method BroadcastAgain(id: TaskId, retries: nat, intent: Intent, block: Block, script: seq<Await>,
                          ghost before: State, ghost done: seq<Step>)
      returns (outcome: Outcome, ghost trace: seq<Step>)
      requires ScriptOk(script) && Contents() == Run(before, done)
      requires op == Broadcasting(id, retries, intent, block, Second) && id in tasks
      modifies this
      ensures Contents() == Run(before, trace) && intents == old(intents) && (old(todo) == [] ==> todo == [])
      ensures op == (if outcome.Taken? then Publishing(id, outcome.hash) else Idle)
              && (outcome.Taken? ==> outcome.hash == intent.hash)
      ensures AllKeptBut(old(tasks), tasks, id)
      ensures if RefusedAgain(script, old(cursor), block.work)
              then !outcome.Taken? && tasks[id] == Counted(old(tasks)[id], retries) else Kept(old(tasks)[id], tasks[id])
      ensures ReachesRecord(SecondEnd(old(Contents()), script, old(cursor), id, intent, block), old(Contents()), id,
                            retries, outcome, script)
    {
      outcome, trace := Broadcast(id, retries, intent, block, Second, script, before, done);
      ghost var made, called := Broadcasts(old(Contents()), script, old(cursor), id, block), Contents();
      ghost var end := SecondEnd(old(Contents()), script, old(cursor), id, intent, block);
      assert Obeys(End(Stays, made), old(Contents()), called, id, retries);
      if outcome == RejectedWork {
        assert end == End(CountVerdict(script, cursor), made);
        trace := CountUnderLease(id, retries, script, before, trace);
      } else {
        assert end == End(if outcome.Taken? then RecordVerdict(script, cursor, outcome.hash) else Stays, made);
      }
      OthersKeptTwice(old(Contents()), called, Contents(), id);
    }

    /** With the new work: replace the stored JSON, broadcast once more. */
    method Rework(id: TaskId, retries: nat, intent: Intent, block: Block, work: Work, script: seq<Await>,
                  ghost before: State, ghost done: seq<Step>)
      returns (outcome: Outcome, ghost trace: seq<Step>)
      requires ScriptOk(script) && Contents() == Run(before, done)
      requires op == Reworking(id, retries, intent, block) && id in tasks
      modifies this
      ensures Contents() == Run(before, trace) && (old(todo) == [] ==> todo == [])
      ensures op == (if outcome.Taken? then Publishing(id, outcome.hash) else Idle)
              && (outcome.Taken? ==> outcome.hash == intent.hash)
      ensures AllKeptBut(old(tasks), tasks, id)
      ensures outcome.Taken? ==> Stored(old(intents), id, intent)
      ensures intents == Reworked(old(intents), id, intent, Block(block.body, work))
      ensures if Stored(old(intents), id, intent) && RefusedAgain(script, old(cursor), work)
              then !outcome.Taken? && tasks[id] == Counted(old(tasks)[id], retries) else Kept(old(tasks)[id], tasks[id])
      ensures Stored(old(intents), id, intent) ==>
                ReachesRecord(SecondEnd(Apply(old(Contents()), UpdateWork(work)), script, old(cursor), id, intent,
                                        Block(block.body, work)),
                              old(Contents()), id, retries, outcome, script)
    {
      RunOfOneMore(before, done, UpdateWork(work));
      trace := done + [UpdateWork(work)];
      var updated := Block(block.body, work);
      var replaced := ReplaceWork(id, retries, intent, updated);
      outcome := Stopped;
      if replaced {
        outcome, trace := BroadcastAgain(id, retries, intent, updated, script, before, trace);
      }
    }

    /** The node refused the work: find new work, replace the stored JSON, broadcast
        once more; only a second refusal counts as a failed attempt. */
    method Retry(id: TaskId, retries: nat, intent: Intent, block: Block, script: seq<Await>, ghost before: State,
                 ghost done: seq<Step>)
      returns (outcome: Outcome, ghost trace: seq<Step>)
      requires ScriptOk(script) && Contents() == Run(before, done)
      requires op == Reworking(id, retries, intent, block) && id in tasks
      modifies this
      ensures Contents() == Run(before, trace) && (old(todo) == [] ==> todo == [])
      ensures op == (if outcome.Taken? then Publishing(id, outcome.hash) else Idle)
              && (outcome.Taken? ==> outcome.hash == intent.hash)
      ensures AllKeptBut(old(tasks), tasks, id)
      ensures var generated := AnswerAt(script, old(cursor));
              && (outcome.Taken? ==> generated.Generated? && Stored(old(intents), id, intent))
              && intents ==
                 (if generated.Generated? then Reworked(old(intents), id, intent, Block(block.body, generated.work))
                  else old(intents))
              && if generated.Generated? && Stored(old(intents), id, intent)
                 && RefusedAgain(script, old(cursor) + 1, generated.work)
                 then !outcome.Taken? && tasks[id] == Counted(old(tasks)[id], retries)
                 else Kept(old(tasks)[id], tasks[id])
      ensures Stored(old(intents), id, intent) ==>
                ReachesRecord(RetryEnd(old(Contents()), script, old(cursor), id, intent, block.body), old(Contents()),
                              id, retries, outcome, script)
    {
      var answer;
      answer, trace := AwaitNext(script, before, done);
      ghost var asked := Contents();
      assert Obeys(End(Stays, {}), old(Contents()), asked, id, retries);
      ghost var end := RetryEnd(old(Contents()), script, old(cursor), id, intent, block.body);
      if answer.Generated? {
        outcome, trace := Rework(id, retries, intent, block, answer.work, script, before, trace);
        if Stored(old(intents), id, intent) {
          ObeysAfterStaying({}, if outcome.Taken? then end.(verdict := Stays) else end, old(Contents()), asked,
                            Contents(), id, retries);
        }
      } else {
        trace := Leave(answer, before, trace);
        outcome := Stopped;
      }
    }

    method SetPublished(id: TaskId, hash: Hash)
      requires id in tasks && op == Publishing(id, hash)
      modifies this`tasks, this`op
      ensures Contents() == Apply(old(Contents()), Publish)
      ensures tasks == old(tasks)[id := PublishedTask(old(tasks)[id], hash)] && op == Idle
    {
      tasks := tasks[id := tasks[id].(status := ReceiveProtocol.Published, receiveBlockHash := Some(hash))];
      op := Idle;
    }

    /** Record the publication: published if the update returns. */
    method Finish(id: TaskId, hash: Hash, script: seq<Await>, ghost before: State, ghost done: seq<Step>)
      returns (ghost trace: seq<Step>)
      requires ScriptOk(script) && Contents() == Run(before, done) && op == Publishing(id, hash) && id in tasks
      modifies this
      ensures Contents() == Run(before, trace) && op == Idle && intents == old(intents)
              && (old(todo) == [] ==> todo == [])
      ensures AllKeptBut(old(tasks), tasks, id)
      ensures if AnswerAt(script, old(cursor)) == Returns then tasks[id] == PublishedTask(old(tasks)[id], hash)
                else Kept(old(tasks)[id], tasks[id])
      ensures sent == old(sent)
    {
      var answer;
      answer, trace := AwaitNext(script, before, done);
      if !answer.Returns? {
        trace := Leave(answer, before, trace);
        return;
      }
      RunOfOneMore(before, trace, Publish);
      trace := trace + [Publish];
      SetPublished(id, hash);
    }

    method GetIntent(id: TaskId, retries: nat) returns (intent: Option<Intent>)
      requires op == Loading(id, retries)
      modifies this`op
      ensures Contents() == Apply(old(Contents()), ReadIntent)
      ensures intent == if id in intents then Some(intents[id]) else None
      ensures op == if intent.None? then Preparing(id, retries)
                else Broadcasting(id, retries, intent.value, intent.value.block, First)
    {
      intent := if id in intents then Some(intents[id]) else None;
      op := if intent.None? then Preparing(id, retries)
        else Broadcasting(id, retries, intent.value, intent.value.block, First);
    }

    /** The saved intent, or a new one. */
    method LoadIntent(id: TaskId, retries: nat, script: seq<Await>, ghost before: State, ghost done: seq<Step>)
      returns (intent: Option<Intent>, ghost trace: seq<Step>)
      requires ScriptOk(script) && Contents() == Run(before, done) && op == Loading(id, retries)
      requires id in tasks && tasks[id].status != ReceiveProtocol.Published
      modifies this
      ensures Contents() == Run(before, trace) && (old(todo) == [] ==> todo == [])
      ensures op == if intent.None? then Idle else Broadcasting(id, retries, intent.value, intent.value.block, First)
      ensures AllKeptBut(old(tasks), tasks, id) && IntentsKeptBut(old(intents), intents, id)
      ensures intent.Some? ==> id in intents && intent.value == intents[id]
      ensures ReachesBroadcast(LoadedEnd(old(Contents()), id, old(tasks)[id], script, old(cursor)), old(Contents()), id,
                               retries, intent, script)
    {
      RunOfOneMore(before, done, ReadIntent);
      trace := done + [ReadIntent];
      intent := GetIntent(id, retries);
      if intent.None? {
        intent, trace := PrepareIntent(id, retries, script, before, trace);
      }
    }

    /** Reads the intent store; an error there is counted. */
    method FindIntent(id: TaskId, retries: nat, script: seq<Await>, ghost before: State, ghost done: seq<Step>)
      returns (intent: Option<Intent>, ghost trace: seq<Step>)
      requires ScriptOk(script) && Contents() == Run(before, done) && op == Loading(id, retries)
      requires id in tasks && tasks[id].status != ReceiveProtocol.Published
      modifies this
      ensures Contents() == Run(before, trace) && (old(todo) == [] ==> todo == [])
      ensures op == if intent.None? then Idle else Broadcasting(id, retries, intent.value, intent.value.block, First)
      ensures AllKeptBut(old(tasks), tasks, id) && IntentsKeptBut(old(intents), intents, id)
      ensures intent.Some? ==> id in intents && intent.value == intents[id]
      ensures ReachesBroadcast(EndOf(old(Contents()), id, script, old(cursor)), old(Contents()), id, retries, intent,
                               script)
    {
      var answer;
      answer, trace := AwaitNext(script, before, done);
      assert tasks[id] == old(tasks)[id];
      ghost var asked, e := Contents(), EndOf(old(Contents()), id, script, old(cursor));
      assert Obeys(End(Stays, {}), old(Contents()), asked, id, retries);
      if answer.Returns? {
        assert e == LoadedEnd(asked, id, tasks[id], script, cursor);
        intent, trace := LoadIntent(id, retries, script, before, trace);
        ObeysAfterStaying({}, if intent.Some? then End(Stays, {}) else e, old(Contents()), asked, Contents(), id,
                          retries);
      } else {
        assert e == End(if answer == Throws then CountVerdict(script, cursor) else Stays, {});
        trace := FailBefore(id, retries, ReadThrows, answer, script, before, trace);
        intent := None;
        ObeysAfterStaying({}, e, old(Contents()), asked, Contents(), id, retries);
      }
      OthersKeptTwice(old(Contents()), asked, Contents(), id);
    }

    /** Broadcasts the intent, with new work if need be. */
    method BroadcastIntent(id: TaskId, retries: nat, intent: Intent, script: seq<Await>, ghost before: State,
                           ghost done: seq<Step>)
      returns (outcome: Outcome, ghost trace: seq<Step>)
      requires ScriptOk(script) && Contents() == Run(before, done)
               && op == Broadcasting(id, retries, intent, intent.block, First)
      requires id in tasks && tasks[id].status != ReceiveProtocol.Published && Stored(intents, id, intent)
      modifies this
      ensures Contents() == Run(before, trace) && (old(todo) == [] ==> todo == [])
      ensures op == if outcome.Taken? then Publishing(id, outcome.hash) else Idle
      ensures AllKeptBut(old(tasks), tasks, id) && IntentsKeptBut(old(intents), intents, id)
              && Stored(intents, id, intent)
      ensures ReachesRecord(FirstEnd(old(Contents()), script, old(cursor), id, intent), old(Contents()), id, retries,
                            outcome, script)
    {
      outcome, trace := Broadcast(id, retries, intent, intent.block, First, script, before, done);
      ghost var made, called := Broadcasts(old(Contents()), script, old(cursor), id, intent.block), Contents();
      ghost var end := FirstEnd(old(Contents()), script, old(cursor), id, intent);
      assert Obeys(End(Stays, made), old(Contents()), called, id, retries);
      if outcome == RejectedWork {
        ghost var e := RetryEnd(called, script, cursor, id, intent, intent.block.body);
        assert end == Made(made, e);
        outcome, trace := Retry(id, retries, intent, intent.block, script, before, trace);
        ObeysAfterStaying(made, if outcome.Taken? then e.(verdict := Stays) else e, old(Contents()), called, Contents(),
                          id, retries);
      } else if outcome == Unstarted {
        assert end == End(CountVerdict(script, cursor), made);
        trace := CountUnderLease(id, retries, script, before, trace);
      } else {
        assert end == End(if outcome.Taken? then RecordVerdict(script, cursor, outcome.hash) else Stays, made);
      }
    }

    /** Broadcasts the intent and records the publication. */
    method PublishIntent(id: TaskId, retries: nat, intent: Intent, script: seq<Await>, ghost before: State,
                         ghost done: seq<Step>)
      returns (ghost trace: seq<Step>)
      requires ScriptOk(script) && Contents() == Run(before, done)
               && op == Broadcasting(id, retries, intent, intent.block, First)
      requires id in tasks && tasks[id].status != ReceiveProtocol.Published && Stored(intents, id, intent)
      modifies this
      ensures Contents() == Run(before, trace) && op == Idle && (old(todo) == [] ==> todo == [])
      ensures AllKeptBut(old(tasks), tasks, id) && IntentsKeptBut(old(intents), intents, id)
              && Stored(intents, id, intent)
      ensures Obeys(FirstEnd(old(Contents()), script, old(cursor), id, intent), old(Contents()), Contents(), id,
                    retries)
    {
      var outcome;
      outcome, trace := BroadcastIntent(id, retries, intent, script, before, done);
      if outcome.Taken? {
        trace := Finish(id, outcome.hash, script, before, trace);
      }
    }

    /** The whole operation on one task: afterwards the stores are what some run of the
        protocol makes of them, and no other task was touched. Its own is published, has
        one attempt more or is as it was, and its block was broadcast, as the script decides. */
    method ProcessTaskUnderLease(id: TaskId, retries: nat, script: seq<Await>, ghost before: State,
                                 ghost done: seq<Step>)
      returns (ghost trace: seq<Step>)
      requires ScriptOk(script) && Contents() == Run(before, done) && op == Loading(id, retries)
      requires id in tasks && tasks[id].status != ReceiveProtocol.Published
      modifies this
      ensures Contents() == Run(before, trace) && op == Idle && (old(todo) == [] ==> todo == [])
      ensures AllKeptBut(old(tasks), tasks, id) && IntentsKeptBut(old(intents), intents, id)
      ensures Obeys(EndOf(old(Contents()), id, script, old(cursor)), old(Contents()), Contents(), id, retries)
      ensures EndOf(old(Contents()), id, script, old(cursor)).verdict.Publishes? ==>
                id in intents && tasks[id].receiveBlockHash == Some(intents[id].hash)
    {
      var intent;
      intent, trace := FindIntent(id, retries, script, before, done);
      if intent.Some? {
        ghost var found := Contents();
        ghost var e := FirstEnd(found, script, cursor, id, intent.value);
        HashIsTheIntents(found, script, cursor, id, intent.value);
        trace := PublishIntent(id, retries, intent.value, script, before, trace);
        ObeysAfterStaying({}, e, old(Contents()), found, Contents(), id, retries);
      }
    }

    /** The turn of the next listed task: it is passed over, or processed and the tick ends. */
    method TakeTurn(free: set<TaskId>, minimum: nat, script: seq<Await>, ghost before: State, ghost done: seq<Step>)
      returns (taken: bool, ghost trace: seq<Step>)
      requires ScriptOk(script) && Contents() == Run(before, done) && op == Idle && todo != []
               && Selectable(Contents(), todo[0]) && cursor == 0
      modifies this
      ensures Contents() == Run(before, trace) && op == Idle
      ensures taken <==> Takes(old(Contents()), old(todo)[0], free, minimum)
      ensures if taken then todo == [] && TaskProcessed(old(Contents()), Contents(), old(todo)[0], script)
              else Contents() == old(Contents()).(todo := old(todo)[1..]) && cursor == 0
    {
      var id := todo[0];
      var leased := id in free;
      RunOfOneMore(before, done, Next(leased, minimum));
      trace := done + [Next(leased, minimum)];
      taken := (tasks[id].amount >= minimum || id in intents) && leased;
      if !taken {
        todo := todo[1..];
      } else {
        ghost var s := Contents();
        var retries := TakeUp(id);
        ghost var up := Contents();
        trace := ProcessTaskUnderLease(id, retries, script, before, trace);
        OthersKeptTwice(s, up, Contents(), id);
      }
    }

    /** `update(task.id, { status: 'processing' })` */
    method TakeUp(id: TaskId) returns (retries: nat)
      requires id in tasks
      modifies this`tasks, this`todo, this`op
      ensures Contents() == TakenUp(old(Contents()), id) && retries == old(tasks)[id].retryCount
    {
      retries := tasks[id].retryCount;
      tasks := tasks[id := tasks[id].(status := ReceiveProtocol.Processing)];
      todo, op := [], Loading(id, retries);
    }

    /** One tick over the listed tasks: the first that it can take is processed, and
        no other; if there is none, nothing changes. Afterwards the stores are what
        some run of the protocol makes of them. */
    method ProcessNext(order: seq<TaskId>, free: set<TaskId>, minimum: nat, script: seq<Await>)
      returns (ghost n: nat, ghost trace: seq<Step>)
      requires ScriptOk(script) && Enabled(Contents(), TickStart(order))
      modifies this
      ensures Contents() == Run(old(Contents()), trace) && op == Idle && todo == []
      ensures n <= |order| && forall i | 0 <= i < n :: !Takes(old(Contents()), order[i], free, minimum)
      ensures n == |order| ==> Contents() == old(Contents())
      ensures n < |order| ==>
        Takes(old(Contents()), order[n], free, minimum) && TaskProcessed(old(Contents()), Contents(), order[n], script)
    {
      ghost var before := Contents();
      cursor := 0;
      trace := [TickStart(order)];
      assert trace[..0] == [];
      todo, n := order, 0;
      while todo != []
        invariant n <= |order| && Contents() == Run(before, trace) && Contents() == before.(todo := order[n..])
                  && cursor == 0
        invariant forall i | 0 <= i < n :: !Takes(before, order[i], free, minimum)
        decreases |todo|
      {
        assert todo[0] == order[n] && Selectable(before, order[n]);
        var taken;
        taken, trace := TakeTurn(free, minimum, script, before, trace);
        if taken {
          return;
        }
        n := n + 1;
      }
    }
  }
}
