/** What an operation on a receive task comes to, told from the answers it gets and the
    ledger it meets: when its block is broadcast, when the task is published, when a
    failed attempt is counted, and when the task is left as it is. */
module ReceiveOutcomes {
  import opened Wrappers
  import opened Ledger
  import opened ReceiveProtocol
  import opened ReceiveOrchestrator

  /** The node takes the block, or knows it already. */
  predicate TakenBy(chains: Chains, intent: Intent, block: Block, answer: Answer) {
    || (answer == Replies(Accepted) && Accepts(chains, block) && HashOf(block.body) == intent.hash)
    || (answer == Replies(OldBlock(true)) && OnLedger(chains, intent.hash))
  }

  predicate RefusedBy(block: Block, answer: Answer) {
    answer == Replies(WorkRejected) && !block.work.ok
  }

  /** A reply that a node with this ledger can give. */
  predicate Allowed(chains: Chains, intent: Intent, block: Block, answer: Answer) {
    match answer
    case Replies(Accepted) => Accepts(chains, block)
    case Replies(OldBlock(known)) => known ==> OnLedger(chains, intent.hash)
    case Replies(WorkRejected) => !block.work.ok
    case Replies(Ambiguous) => true
    case _ => false
  }

  lemma Waits(s: State, script: seq<Await>, at: nat)
    requires ScriptOk(script)
    ensures var t := Run(s, Meanwhile(script, at)); t.op == s.op && t.intents == s.intents && AllKept(s.tasks, t.tasks)
  {
    if at < |script| {
      assert script[at] in script;
      ElsewhereKeepsOp(s, Meanwhile(script, at));
    }
  }

  /** The ledger that the call of the node meets, behind the check of the lease. */
  function LedgerAt(s: State, script: seq<Await>, at: nat): Chains {
    Run(Run(s, Meanwhile(script, at)), Meanwhile(script, at + 1)).chains
  }

  lemma CallIs(s: State, script: seq<Await>, at: nat, id: TaskId, retries: nat, intent: Intent, block: Block,
               attempt: Attempt)
    requires ScriptOk(script) && s.op == Broadcasting(id, retries, intent, block, attempt)
    ensures var outcome, chains := BroadcastOutcome(s, script, at, intent, block, attempt), LedgerAt(s, script, at);
            var check, answer := AnswerAt(script, at), AnswerAt(script, at + 1);
            && (outcome.Taken? <==> check == Returns && TakenBy(chains, intent, block, answer))
            && (outcome.Taken? ==> outcome.hash == intent.hash)
            && (outcome == RejectedWork <==> check == Returns && RefusedBy(block, answer))
            && (outcome == Unstarted <==> check == Throws && attempt == First)
            && Broadcasts(s, script, at, id, block)
               == if check == Returns && Allowed(chains, intent, block, answer) then {Broadcast(id, block)} else {}
  {
    Waits(s, script, at);
    Waits(Run(s, Meanwhile(script, at)), script, at + 1);
  }

  /** The work of the first broadcast is refused, and new work is found. */
  predicate Retried(intent: Intent, script: seq<Await>, at: nat) {
    && AnswerAt(script, at) == Returns && RefusedBy(intent.block, AnswerAt(script, at + 1))
    && AnswerAt(script, at + 2).Generated?
  }

  function NewBlock(intent: Intent, script: seq<Await>, at: nat): Block
    requires Retried(intent, script, at)
  {
    Block(intent.block.body, AnswerAt(script, at + 2).work)
  }

  function SecondTry(s: State, intent: Intent, script: seq<Await>, at: nat): State
    requires Retried(intent, script, at)
  {
    After(Refused(s, script, at), script, at + 2, UpdateWork(AnswerAt(script, at + 2).work))
  }

  lemma RefusedReworks(s: State, script: seq<Await>, at: nat, id: TaskId, retries: nat, intent: Intent)
    requires ScriptOk(script) && s.op == Broadcasting(id, retries, intent, intent.block, First)
             && Stored(s.intents, id, intent)
    requires Retried(intent, script, at)
    ensures var t := Refused(s, script, at);
            t.op == Reworking(id, retries, intent, intent.block) && Stored(t.intents, id, intent)
  {
    Waits(s, script, at);
    Waits(Run(s, Meanwhile(script, at)), script, at + 1);
  }

  lemma SecondTryBroadcasts(s: State, script: seq<Await>, at: nat, id: TaskId, retries: nat, intent: Intent)
    requires ScriptOk(script) && s.op == Broadcasting(id, retries, intent, intent.block, First)
             && Stored(s.intents, id, intent)
    requires Retried(intent, script, at)
    ensures SecondTry(s, intent, script, at).op
              == Broadcasting(id, retries, intent, NewBlock(intent, script, at), Second)
  {
    RefusedReworks(s, script, at, id, retries, intent);
    Waits(Refused(s, script, at), script, at + 2);
  }

  /** The first broadcast is taken, or its work is refused and the second is taken. */
  predicate EverTaken(s: State, script: seq<Await>, at: nat, intent: Intent) {
    || (AnswerAt(script, at) == Returns
        && TakenBy(LedgerAt(s, script, at), intent, intent.block, AnswerAt(script, at + 1)))
    || (&& Retried(intent, script, at) && AnswerAt(script, at + 3) == Returns
        && TakenBy(LedgerAt(SecondTry(s, intent, script, at), script, at + 3), intent, NewBlock(intent, script, at),
                   AnswerAt(script, at + 4)))
  }

  predicate RefusedTwice(script: seq<Await>, at: nat, intent: Intent) {
    && Retried(intent, script, at) && AnswerAt(script, at + 3) == Returns
    && RefusedBy(NewBlock(intent, script, at), AnswerAt(script, at + 4))
  }

  /** The await at which the operation writes down how its broadcasts ended. */
  function RecordedAt(intent: Intent, script: seq<Await>, at: nat): nat {
    if Retried(intent, script, at) then at + 5 else if AnswerAt(script, at) == Throws then at + 1 else at + 2
  }

  /** From the first broadcast on: the task is published exactly if a broadcast is taken
      and the update returns, under its intent's hash; an attempt is counted exactly if
      the first check throws or the node refuses both works, and that update returns. The
      saved JSON is broadcast exactly if the check passes and the node answers the call. */
  lemma BroadcastEndsIff(s: State, script: seq<Await>, at: nat, id: TaskId, retries: nat, intent: Intent)
    requires ScriptOk(script) && s.op == Broadcasting(id, retries, intent, intent.block, First)
             && Stored(s.intents, id, intent)
    ensures var e := FirstEnd(s, script, at, id, intent);
            var records := AnswerAt(script, RecordedAt(intent, script, at)) == Returns;
            && (e.verdict.Publishes? <==> EverTaken(s, script, at, intent) && records)
            && (e.verdict.Publishes? ==> e.verdict.hash == intent.hash)
            && (e.verdict.Counts? <==> (AnswerAt(script, at) == Throws || RefusedTwice(script, at, intent)) && records)
            && (AnswerAt(script, at) == Returns
                && Allowed(LedgerAt(s, script, at), intent, intent.block, AnswerAt(script, at + 1)) ==>
                  Broadcast(id, intent.block) in e.made)
            && (AnswerAt(script, at) != Returns ==> e.made == {})
  {
    CallIs(s, script, at, id, retries, intent, intent.block, First);
    if Retried(intent, script, at) {
      SecondTryBroadcasts(s, script, at, id, retries, intent);
      CallIs(SecondTry(s, intent, script, at), script, at + 3, id, retries, intent, NewBlock(intent, script, at),
             Second);
    }
  }

  // ----- the whole operation -----

  /** A saved intent is read. */
  lemma SavedIntentEndsIff(s: State, id: TaskId, retries: nat, script: seq<Await>)
    requires ScriptOk(script) && s.op == Loading(id, retries) && id in s.tasks && id in s.intents
    ensures var e, read, intent := EndOf(s, id, script, 0), After(s, script, 0, ReadIntent), s.intents[id];
            var records := AnswerAt(script, RecordedAt(intent, script, 1)) == Returns;
            match AnswerAt(script, 0)
            case Returns =>
              && (e.verdict.Publishes? <==> EverTaken(read, script, 1, intent) && records)
              && (e.verdict.Publishes? ==> e.verdict.hash == intent.hash)
              && (e.verdict.Counts? <==> (AnswerAt(script, 1) == Throws || RefusedTwice(script, 1, intent)) && records)
              && (AnswerAt(script, 1) == Returns
                  && Allowed(LedgerAt(read, script, 1), intent, intent.block, AnswerAt(script, 2)) ==>
                    Broadcast(id, intent.block) in e.made)
            case Throws => e == End(if AnswerAt(script, 1) == Returns then Counts else Stays, {})
            case _ => e == End(Stays, {})
  {
    if AnswerAt(script, 0) == Returns {
      Waits(s, script, 0);
      BroadcastEndsIff(After(s, script, 0, ReadIntent), script, 1, id, retries, s.intents[id]);
    }
  }

  /** What the signature is made on, if the node's answer is one that its ledger could show. */
  function Answered(s: State, id: TaskId, script: seq<Await>): (a: Option<Answer>)
    requires id in s.tasks
    ensures a.Some? ==> a.value.Account?
  {
    if AnswerAt(script, 0) == Returns
    then AccountAnswer(After(s, script, 0, ReadIntent), script, 1, s.tasks[id].account) else None
  }

  /** The state in which the newly saved intent is broadcast. */
  function Prepared(s: State, id: TaskId, script: seq<Await>): State
    requires id in s.tasks && Answered(s, id, script).Some?
  {
    var a := Answered(s, id, script).value;
    After(After(After(s, script, 0, ReadIntent), script, 1, ReadAccount(a.frontier, a.work)), script, 2, SaveIntent)
  }

  lemma FindsNoIntent(s: State, id: TaskId, retries: nat, script: seq<Await>)
    requires ScriptOk(script) && s.op == Loading(id, retries) && id in s.tasks && id !in s.intents
    ensures var t := After(s, script, 0, ReadIntent);
            t.op == Preparing(id, retries) && t.intents == s.intents && id in t.tasks && Kept(s.tasks[id], t.tasks[id])
  {
    Waits(s, script, 0);
  }

  lemma Signs(s: State, id: TaskId, retries: nat, script: seq<Await>, a: Answer, task: Task)
    requires ScriptOk(script) && s.op == Preparing(id, retries) && id in s.tasks && Kept(task, s.tasks[id])
             && a.Account?
    requires AccountAnswer(s, script, 1, task.account) == Some(a)
    ensures var t := After(s, script, 1, ReadAccount(a.frontier, a.work));
            t.op == SavingIntent(id, retries, SignedIntent(task, a.frontier, a.work)) && t.intents == s.intents
  {
    Waits(s, script, 1);
  }

  lemma PreparedBroadcasts(s: State, id: TaskId, retries: nat, script: seq<Await>)
    requires ScriptOk(script) && s.op == Loading(id, retries) && id in s.tasks && id !in s.intents
    requires Answered(s, id, script).Some? && AnswerAt(script, 2) == Returns
    ensures var t, a := Prepared(s, id, script), Answered(s, id, script).value;
            var intent := SignedIntent(s.tasks[id], a.frontier, a.work);
            t.op == Broadcasting(id, retries, intent, intent.block, First) && Stored(t.intents, id, intent)
  {
    var a := Answered(s, id, script).value;
    var s1 := After(s, script, 0, ReadIntent);
    FindsNoIntent(s, id, retries, script);
    Signs(s1, id, retries, script, a, s.tasks[id]);
    Waits(After(s1, script, 1, ReadAccount(a.frontier, a.work)), script, 2);
  }

  lemma NewIntentIsPrepared(s: State, id: TaskId, script: seq<Await>)
    requires ScriptOk(script) && id in s.tasks && id !in s.intents && AnswerAt(script, 0) == Returns
    ensures var e, account := EndOf(s, id, script, 0), Answered(s, id, script);
            match account
            case None =>
              e == End(if AnswerAt(script, 1) == Throws && AnswerAt(script, 2) == Returns then Counts else Stays, {})
            case Some(a) =>
              match AnswerAt(script, 2)
              case Returns =>
                e == FirstEnd(Prepared(s, id, script), script, 3, id, SignedIntent(s.tasks[id], a.frontier, a.work))
              case Throws => e == End(if AnswerAt(script, 3) == Returns then Counts else Stays, {})
              case _ => e == End(Stays, {})
  {
    Waits(s, script, 0);
  }

  /** No intent is saved yet: an error before the first call of the node counts as an
      attempt; if the node reports a frontier and the intent signed on it is saved, the
      rest is as with a saved one. */
  lemma NewIntentEndsIff(s: State, id: TaskId, retries: nat, script: seq<Await>)
    requires ScriptOk(script) && s.op == Loading(id, retries) && id in s.tasks && id !in s.intents
    ensures var e, account := EndOf(s, id, script, 0), Answered(s, id, script);
            var at := if AnswerAt(script, 0) != Returns then 0 else if account.None? then 1 else 2;
            if at < 2 || AnswerAt(script, at) != Returns then
              e == End(if AnswerAt(script, at) == Throws && AnswerAt(script, at + 1) == Returns then Counts else Stays,
                       {})
            else
              var intent := SignedIntent(s.tasks[id], account.value.frontier, account.value.work);
              var prepared := Prepared(s, id, script);
              var records := AnswerAt(script, RecordedAt(intent, script, 3)) == Returns;
              && (e.verdict.Publishes? <==> EverTaken(prepared, script, 3, intent) && records)
              && (e.verdict.Publishes? ==> e.verdict.hash == intent.hash)
              && (e.verdict.Counts? <==> (AnswerAt(script, 3) == Throws || RefusedTwice(script, 3, intent)) && records)
              && (AnswerAt(script, 3) == Returns
                  && Allowed(LedgerAt(prepared, script, 3), intent, intent.block, AnswerAt(script, 4)) ==>
                    Broadcast(id, intent.block) in e.made)
  {
    var account := Answered(s, id, script);
    Waits(s, script, 0);
    if AnswerAt(script, 0) == Returns {
      NewIntentIsPrepared(s, id, script);
    }
    if account.Some? && AnswerAt(script, 2) == Returns {
      PreparedBroadcasts(s, id, retries, script);
      BroadcastEndsIff(Prepared(s, id, script), script, 3, id, retries,
                       SignedIntent(s.tasks[id], account.value.frontier, account.value.work));
    }
  }

  // ----- what others write -----

  /** A source gets a task unless its id is taken or the source has one already. */
  lemma EnqueuedIff(s: State, id: TaskId, task: Task)
    requires task.status == Pending && task.receiveBlockHash == None && task.retryCount == 0
    ensures Apply(s, Enqueue(id, task))
            == if id in s.tasks || exists x | x in s.tasks :: s.tasks[x].source == task.source then s
               else s.(tasks := s.tasks[id := task])
  {
  }

  /** Once its block is on the ledger, the watcher confirms a published task and writes nothing else. */
  lemma ConfirmedIff(s: State, id: TaskId, hash: Hash)
    requires id in s.tasks && s.tasks[id].status == ReceiveProtocol.Published
             && s.tasks[id].receiveBlockHash == Some(hash)
    requires OnLedger(s.chains, hash)
    ensures Apply(s, Confirm(id)) == s.(tasks := s.tasks[id := s.tasks[id].(status := Confirmed)])
  {
  }

  /** The ledger takes a broadcast block on its frontier at any later time. */
  lemma LandsIff(s: State, b: Broadcast)
    requires b in s.sent && b.block.work.ok && b.block.body.previous == Frontier(s.chains, b.block.body.account)
    ensures OnLedger(Apply(s, Land(b)).chains, HashOf(b.block.body))
  {
    AppendGrows(s.chains, b.block.body, HashOf(b.block.body));
  }

  // ----- the ordinary ways -----

  /** Nobody interferes, and the awaits end with these answers. */
  predicate Quiet(script: seq<Await>, answers: seq<Answer>) {
    |script| == |answers| && forall i | 0 <= i < |answers| :: script[i] == Await([], answers[i])
  }

  lemma QuietMeansNothing(script: seq<Await>, answers: seq<Answer>, at: nat, s: State)
    requires Quiet(script, answers)
    ensures ScriptOk(script) && Run(s, Meanwhile(script, at)) == s
    ensures AnswerAt(script, at) == if at < |answers| then answers[at] else Dies
  {
  }

  function OrdinaryAnswers(frontier: Hash, work: Work): seq<Answer> {
    [Returns, Account(frontier, work), Returns, Returns, Replies(Accepted), Returns]
  }

  lemma QuietlyPrepared(s: State, id: TaskId, retries: nat, work: Work, script: seq<Await>)
    requires s.op == Loading(id, retries) && id in s.tasks && id !in s.intents && Linked(s.chains)
    requires Quiet(script, OrdinaryAnswers(Frontier(s.chains, s.tasks[id].account), work))
    ensures var frontier := Frontier(s.chains, s.tasks[id].account);
            Answered(s, id, script) == Some(Account(frontier, work))
              && LedgerAt(Prepared(s, id, script), script, 3) == s.chains
  {
    var answers := OrdinaryAnswers(Frontier(s.chains, s.tasks[id].account), work);
    assert Reported(s.chains, s.tasks[id].account, Frontier(s.chains, s.tasks[id].account));
    var s1 := Apply(s, ReadIntent);
    QuietMeansNothing(script, answers, 0, s);
    QuietMeansNothing(script, answers, 1, s1);
    var s2 := Apply(s1, ReadAccount(answers[1].frontier, answers[1].work));
    QuietMeansNothing(script, answers, 2, s2);
    QuietMeansNothing(script, answers, 3, Apply(s2, SaveIntent));
    QuietMeansNothing(script, answers, 4, Apply(s2, SaveIntent));
  }

  /** A receive is signed on the account's frontier, broadcast, accepted, and published under the hash of that block. */
  lemma ReceiveIsPublished(s: State, id: TaskId, retries: nat, work: Work, script: seq<Await>)
    requires s.op == Loading(id, retries) && id in s.tasks && id !in s.intents && work.ok && Linked(s.chains)
    requires Quiet(script, OrdinaryAnswers(Frontier(s.chains, s.tasks[id].account), work))
    ensures var task := s.tasks[id];
            var frontier := Frontier(s.chains, task.account);
            var body := Body(task.account, frontier, BalanceAt(frontier) + task.amount, FromBlock(task.source));
            var e := EndOf(s, id, script, 0);
            e.verdict == Publishes(HashOf(body)) && Broadcast(id, Block(body, work)) in e.made
  {
    QuietlyPrepared(s, id, retries, work, script);
    NewIntentEndsIff(s, id, retries, script);
  }

  /** After a crash behind the broadcast, the next tick finds the block and publishes the task. */
  lemma KnownBlockIsPublished(s: State, id: TaskId, retries: nat, script: seq<Await>)
    requires s.op == Loading(id, retries) && id in s.tasks && id in s.intents && OnLedger(s.chains, s.intents[id].hash)
    requires Quiet(script, [Returns, Returns, Replies(OldBlock(true)), Returns])
    ensures EndOf(s, id, script, 0).verdict == Publishes(s.intents[id].hash)
  {
    SavedIntentEndsIff(s, id, retries, script);
  }
}
