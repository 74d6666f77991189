/** What an operation on a send comes to, told from the answers it gets and the ledger
    it meets: when the send is published, when it fails, and when it is left as it is. */
module SendOutcomes {
  import opened Wrappers
  import opened Ledger
  import opened SendProtocol
  import opened SendOrchestrator

  /** The node takes the block, or knows it already. */
  predicate TakenBy(chains: Chains, intent: Intent, block: Block, answer: Answer) {
    || (answer == Replies(Accepted) && Accepts(chains, block) && HashOf(block.body) == intent.hash)
    || (answer == Replies(OldBlock(true)) && OnLedger(chains, intent.hash))
  }

  predicate RefusedBy(block: Block, answer: Answer) {
    answer == Replies(WorkRejected) && !block.work.ok
  }

  /** The update that publishes the send returns. */
  predicate Recorded(answer: Answer) {
    answer == Returns || answer == Announced
  }

  lemma OutcomeIs(s: State, script: seq<Await>, at: nat, id: SendId, intent: Intent, block: Block, attempt: Attempt)
    requires ScriptOk(script) && s.op == Broadcasting(id, intent, block, attempt)
    ensures var outcome, chains := BroadcastOutcome(s, script, at, intent, block), Run(s, Meanwhile(script, at)).chains;
            && (outcome.Taken? <==> TakenBy(chains, intent, block, AnswerAt(script, at)))
            && (outcome.Taken? ==> outcome.hash == intent.hash)
            && (outcome == RejectedWork <==> RefusedBy(block, AnswerAt(script, at)))
  {
    if at < |script| {
      assert script[at] in script;
      ElsewhereKeepsOp(s, Meanwhile(script, at));
    }
  }

  /** What follows when the work of the first broadcast is refused and new work is found. */
  function SecondTry(s: State, script: seq<Await>, at: nat, work: Work): State {
    After(After(s, script, at, Process(WorkRejected)), script, at + 1, UpdateWork(work))
  }

  lemma SecondTryBroadcasts(s: State, script: seq<Await>, at: nat, id: SendId, intent: Intent, work: Work)
    requires ScriptOk(script) && s.op == Broadcasting(id, intent, intent.block, First) && Stored(s.intents, id, intent)
    requires RefusedBy(intent.block, AnswerAt(script, at)) && AnswerAt(script, at + 1) == Generated(work)
    ensures SecondTry(s, script, at, work).op == Broadcasting(id, intent, Block(intent.block.body, work), Second)
  {
    assert script[at] in script && script[at + 1] in script;
    ElsewhereKeepsOp(s, Meanwhile(script, at));
    ElsewhereKeepsOp(After(s, script, at, Process(WorkRejected)), Meanwhile(script, at + 1));
  }

  /** The first broadcast is taken, or its work is refused and the second is taken. */
  predicate EverTaken(s: State, script: seq<Await>, at: nat, intent: Intent) {
    || TakenBy(Run(s, Meanwhile(script, at)).chains, intent, intent.block, AnswerAt(script, at))
    || (&& RefusedBy(intent.block, AnswerAt(script, at)) && AnswerAt(script, at + 1).Generated?
        && var work := AnswerAt(script, at + 1).work;
           TakenBy(Run(SecondTry(s, script, at, work), Meanwhile(script, at + 2)).chains, intent,
                   Block(intent.block.body, work), AnswerAt(script, at + 2)))
  }

  /** The await at which the operation writes down how its broadcasts ended. */
  function RecordedAt(intent: Intent, script: seq<Await>, at: nat): nat {
    if RefusedBy(intent.block, AnswerAt(script, at)) then at + 3 else at + 1
  }

  predicate RefusedTwice(script: seq<Await>, at: nat, intent: Intent) {
    && RefusedBy(intent.block, AnswerAt(script, at)) && AnswerAt(script, at + 1).Generated?
    && RefusedBy(Block(intent.block.body, AnswerAt(script, at + 1).work), AnswerAt(script, at + 2))
  }

  /** From the first broadcast on: the send is published exactly if a broadcast is taken
      and the update returns, under its intent's hash, and announced exactly if the
      event was emitted; it fails exactly if the node refuses the work of both. */
  lemma BroadcastEndsIff(s: State, script: seq<Await>, at: nat, id: SendId, intent: Intent)
    requires ScriptOk(script) && s.op == Broadcasting(id, intent, intent.block, First) && Stored(s.intents, id, intent)
    ensures var v, record := FirstVerdict(s, script, at, intent), AnswerAt(script, RecordedAt(intent, script, at));
            && (v.Publishes? <==> EverTaken(s, script, at, intent) && Recorded(record))
            && (v.Publishes? ==> v == Publishes(intent.hash, record == Announced))
            && (v.Fails? <==> RefusedTwice(script, at, intent) && record == Returns)
  {
    OutcomeIs(s, script, at, id, intent, intent.block, First);
    if RefusedBy(intent.block, AnswerAt(script, at)) && AnswerAt(script, at + 1).Generated? {
      var work := AnswerAt(script, at + 1).work;
      SecondTryBroadcasts(s, script, at, id, intent, work);
      OutcomeIs(SecondTry(s, script, at, work), script, at + 2, id, intent, Block(intent.block.body, work), Second);
    }
  }

  // ----- the whole operation -----

  /** A saved intent is read. */
  lemma SavedIntentEndsIff(s: State, id: SendId, script: seq<Await>)
    requires ScriptOk(script) && s.op == Loading(id) && id in s.sends && id in s.intents
    ensures var v, read, intent := VerdictOf(s, id, script), After(s, script, 0, ReadIntent), s.intents[id];
            var answers, record := AnswerAt(script, 0) == Returns, AnswerAt(script, RecordedAt(intent, script, 1));
            && (v.Publishes? <==> answers && EverTaken(read, script, 1, intent) && Recorded(record))
            && (v.Publishes? ==> v == Publishes(intent.hash, record == Announced))
            && (v.Fails? <==> answers && RefusedTwice(script, 1, intent) && record == Returns)
  {
    if AnswerAt(script, 0) == Returns {
      assert script[0] in script;
      ElsewhereKeepsOp(s, Meanwhile(script, 0));
      BroadcastEndsIff(After(s, script, 0, ReadIntent), script, 1, id, s.intents[id]);
    }
  }

  /** What the signature is made on, if the node's answer is one that its ledger could show. */
  function Answered(s: State, id: SendId, script: seq<Await>): Option<Answer>
    requires id in s.sends
    ensures Answered(s, id, script).Some? ==> Answered(s, id, script).value.Account?
  {
    if AnswerAt(script, 0) == Returns
    then AccountAnswer(After(s, script, 0, ReadIntent), script, 1, s.sends[id].source.address) else None
  }

  /** The state in which the newly saved intent is broadcast. */
  function Prepared(s: State, id: SendId, script: seq<Await>): State
    requires id in s.sends && Answered(s, id, script).Some?
  {
    var a := Answered(s, id, script).value;
    After(After(After(s, script, 0, ReadIntent), script, 1, ReadAccount(a.frontier, a.work)), script, 2, SaveIntent)
  }

  lemma Waits(s: State, script: seq<Await>, at: nat)
    requires ScriptOk(script)
    ensures var t := Run(s, Meanwhile(script, at)); t.op == s.op && t.intents == s.intents && AllKept(s.sends, t.sends)
  {
    if at < |script| {
      assert script[at] in script;
      ElsewhereKeepsOp(s, Meanwhile(script, at));
    }
  }

  lemma FindsNoIntent(s: State, id: SendId, script: seq<Await>)
    requires ScriptOk(script) && s.op == Loading(id) && id in s.sends && id !in s.intents
    ensures var t := After(s, script, 0, ReadIntent);
            t.op == Preparing(id) && t.intents == s.intents && id in t.sends && Kept(s.sends[id], t.sends[id])
  {
    Waits(s, script, 0);
  }

  lemma Signs(s: State, id: SendId, script: seq<Await>, a: Answer, send: Send, intent: Intent)
    requires ScriptOk(script) && s.op == Preparing(id) && id in s.sends && Kept(send, s.sends[id]) && a.Account?
    requires AccountAnswer(s, script, 1, send.source.address) == Some(a)
    requires SignedIntent(send, a.frontier, a.work) == Some(intent)
    ensures var t := After(s, script, 1, ReadAccount(a.frontier, a.work));
            t.op == SavingIntent(id, intent) && t.intents == s.intents
  {
    Waits(s, script, 1);
    var t := Run(s, Meanwhile(script, 1));
    assert Kept(s.sends[id], t.sends[id]);
    assert SignedIntent(t.sends[id], a.frontier, a.work) == Some(intent);
    assert Enabled(t, ReadAccount(a.frontier, a.work));
  }

  lemma PreparedBroadcasts(s: State, id: SendId, script: seq<Await>, intent: Intent)
    requires ScriptOk(script) && s.op == Loading(id) && id in s.sends && id !in s.intents
             && Answered(s, id, script).Some?
    requires var a := Answered(s, id, script).value; SignedIntent(s.sends[id], a.frontier, a.work) == Some(intent)
    requires AnswerAt(script, 2) == Returns
    ensures var t := Prepared(s, id, script);
            t.op == Broadcasting(id, intent, intent.block, First) && Stored(t.intents, id, intent)
  {
    var a := Answered(s, id, script).value;
    var s1 := After(s, script, 0, ReadIntent);
    FindsNoIntent(s, id, script);
    Signs(s1, id, script, a, s.sends[id], intent);
    Waits(After(s1, script, 1, ReadAccount(a.frontier, a.work)), script, 2);
  }

  /** No intent is saved yet: the send is published exactly if the node reports a frontier
      whose balance suffices, the signed intent is saved, a broadcast of it is taken and
      the update returns; it fails exactly if the balance is too low or both works are refused. */
  lemma NewIntentEndsIff(s: State, id: SendId, script: seq<Await>)
    requires ScriptOk(script) && s.op == Loading(id) && id in s.sends && id !in s.intents
    ensures var v, account := VerdictOf(s, id, script), Answered(s, id, script);
            if account.None? then v == GivesUp(AnswerAt(script, if AnswerAt(script, 0) == Returns then 1 else 0))
            else if BalanceAt(account.value.frontier) < s.sends[id].amount
              then v.Fails? <==> AnswerAt(script, 2) == Returns
            else
              var intent := SignedIntent(s.sends[id], account.value.frontier, account.value.work).value;
              var saves, record := AnswerAt(script, 2) == Returns, AnswerAt(script, RecordedAt(intent, script, 3));
              && (v.Publishes? <==> saves && EverTaken(Prepared(s, id, script), script, 3, intent) && Recorded(record))
              && (v.Publishes? ==> v == Publishes(intent.hash, record == Announced))
              && (v.Fails? <==> saves && RefusedTwice(script, 3, intent) && record == Returns)
  {
    var account := Answered(s, id, script);
    if account.Some? && AnswerAt(script, 2) == Returns && s.sends[id].amount <= BalanceAt(account.value.frontier) {
      var intent := SignedIntent(s.sends[id], account.value.frontier, account.value.work).value;
      PreparedBroadcasts(s, id, script, intent);
      BroadcastEndsIff(Prepared(s, id, script), script, 3, id, intent);
    }
  }

  // ----- what others write -----

  /** A send is queued unless its id or its key is taken. */
  lemma QueuedIff(s: State, id: SendId, send: Send)
    requires send.status == Queued && send.blockHash == None
    ensures Apply(s, QueueSend(id, send))
            == if id in s.sends || exists x | x in s.sends :: s.sends[x].key == send.key then s
               else s.(sends := s.sends[id := send])
  {
  }

  /** A tick takes up the poll for every published send, with its block. */
  lemma TickPolls(s: State, order: seq<SendId>, id: SendId)
    requires Enabled(s, TickStart(order)) && id in s.sends && s.sends[id].status == SendProtocol.Published
    requires s.sends[id].blockHash.Some?
    ensures (id, s.sends[id].blockHash.value) in Apply(s, TickStart(order)).confirming
  {
  }

  /** Once the block is on the ledger, a poll under way, or the watcher, confirms the send and writes nothing else. */
  lemma ConfirmedIff(s: State, id: SendId, hash: Hash)
    requires id in s.sends && OnLedger(s.chains, hash)
    ensures (id, hash) in s.confirming ==>
              Apply(s, ConfirmPoll((id, hash)))
              == s.(sends := s.sends[id := s.sends[id].(status := SendProtocol.Confirmed)],
                    confirming := s.confirming - {(id, hash)})
    ensures s.sends[id].status == SendProtocol.Published && s.sends[id].blockHash == Some(hash) ==>
              Apply(s, WatchConfirmed(id)) == s.(sends := s.sends[id := s.sends[id].(status := SendProtocol.Confirmed)])
  {
  }

  /** The ledger takes a broadcast block on its frontier at any later time. */
  lemma LandsIff(s: State, b: Broadcast)
    requires b in s.sent && b.block.work.ok && b.block.body.previous == Frontier(s.chains, b.block.body.account)
    ensures OnLedger(Apply(s, Land(b)).chains, HashOf(b.block.body))
  {
    AppendGrows(s.chains, b.block.body, HashOf(b.block.body));
  }

  // ----- the ordinary ways -----

  /** Nobody interferes, and every await answers. */
  function Quiet(answers: seq<Answer>): seq<Await> {
    seq(|answers|, i requires 0 <= i < |answers| => Await([], answers[i]))
  }

  /** A funded send is signed on the account's frontier, accepted, and published under the hash of that block. */
  lemma FundedSendIsPublished(s: State, id: SendId, work: Work)
    requires s.op == Loading(id) && id in s.sends && id !in s.intents && work.ok
    requires Linked(s.chains) && s.sends[id].amount <= BalanceAt(Frontier(s.chains, s.sends[id].source.address))
    ensures var frontier := Frontier(s.chains, s.sends[id].source.address);
            VerdictOf(s, id, Quiet([Returns, Account(frontier, work), Returns, Replies(Accepted), Announced]))
            == Publishes(HashOf(SpendBody(s.sends[id], frontier)), true)
  {
    var frontier := Frontier(s.chains, s.sends[id].source.address);
    var script := Quiet([Returns, Account(frontier, work), Returns, Replies(Accepted), Announced]);
    NewIntentEndsIff(s, id, script);
  }

  /** After a crash behind the broadcast, the next tick finds the block and publishes the send. */
  lemma KnownBlockIsPublished(s: State, id: SendId)
    requires s.op == Loading(id) && id in s.sends && id in s.intents && OnLedger(s.chains, s.intents[id].hash)
    ensures VerdictOf(s, id, Quiet([Returns, Replies(OldBlock(true)), Announced]))
              == Publishes(s.intents[id].hash, true)
  {
    SavedIntentEndsIff(s, id, Quiet([Returns, Replies(OldBlock(true)), Announced]));
  }
}
