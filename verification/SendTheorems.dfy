/** The promises of the send protocol over whole runs. */
module SendTheorems {
  import opened Wrappers
  import opened Ledger
  import opened SendProtocol
  import opened SendSafety

  lemma {:induction false} RunKeepsInv(s: State, steps: seq<Step>)
    requires Inv(s)
    ensures Inv(Run(s, steps))
  {
    if steps != [] {
      var before := steps[..|steps| - 1];
      RunKeepsInv(s, before);
      StepKeepsInv(Run(s, before), steps[|steps| - 1]);
    }
  }

  lemma ReachableInv(steps: seq<Step>)
    ensures Inv(Run(INIT, steps))
  {
    RunKeepsInv(INIT, steps);
  }

  lemma ReachableStatuses(steps: seq<Step>)
    ensures StatusesOk(Run(INIT, steps)) && OpOk(Run(INIT, steps)) && ConfirmingOk(Run(INIT, steps))
  {
    RunKeepsInv(INIT, steps);
  }

  // ----- one intent, one block -----

  /** All broadcasts of a send, in any run, carry one hash: that of its saved intent. The
      block takes the amount from the send's address and pays it to the destination. */
  lemma BroadcastsShareTheIntentHash(steps: seq<Step>, b: Broadcast)
    requires b in Run(INIT, steps).sent
    ensures b.id in Run(INIT, steps).intents
    ensures HashOf(b.block.body) == Run(INIT, steps).intents[b.id].hash
    ensures var s, body := Run(INIT, steps), b.block.body;
            && b.id in s.sends && body.account == s.sends[b.id].source.address
            && body.link == ToAccount(s.sends[b.id].destination)
            && body.balance + s.sends[b.id].amount == BalanceAt(body.previous)
  {
    ReachableInv(steps);
    assert IntentMatches(Run(INIT, steps).sends[b.id], Run(INIT, steps).intents[b.id]);
  }

  lemma StepKeepsIntent(s: State, step: Step, id: SendId)
    requires OpOk(s) && id in s.intents
    ensures id in Apply(s, step).intents
    ensures Apply(s, step).intents[id].hash == s.intents[id].hash
    ensures Apply(s, step).intents[id].block.body == s.intents[id].block.body
  {
  }

  /** Once saved, an intent names the same block for ever; only its work may be replaced. */
  lemma {:induction false} IntentIsWriteOnce(s: State, steps: seq<Step>, id: SendId)
    requires Inv(s) && id in s.intents
    ensures id in Run(s, steps).intents
    ensures Run(s, steps).intents[id].hash == s.intents[id].hash
    ensures Run(s, steps).intents[id].block.body == s.intents[id].block.body
  {
    if steps != [] {
      var before := steps[..|steps| - 1];
      IntentIsWriteOnce(s, before, id);
      RunKeepsInv(s, before);
      StepKeepsIntent(Run(s, before), steps[|steps| - 1], id);
    }
  }

  /** The ledger holds at most one of the blocks ever broadcast for a send. */
  lemma AtMostOneSpendPerSend(steps: seq<Step>, b: Broadcast, b': Broadcast, a: Address, i: nat, a': Address, j: nat)
    requires var s := Run(INIT, steps);
             && b in s.sent && b' in s.sent && b.id == b'.id
             && a in s.chains && i < |s.chains[a]| && s.chains[a][i] == b.block.body
             && a' in s.chains && j < |s.chains[a']| && s.chains[a'][j] == b'.block.body
    ensures a == a' && i == j
  {
    ReachableInv(steps);
    BlockOccursOnce(Run(INIT, steps).chains, a, i, a', j);
  }

  /** A send that reads `published` or `confirmed` names its intent's block, and that block is on the ledger. */
  lemma PublishedIsOnLedger(steps: seq<Step>, id: SendId)
    requires var s := Run(INIT, steps); id in s.sends && s.sends[id].status in {Published, Confirmed}
    ensures var s := Run(INIT, steps);
            id in s.intents && s.sends[id].blockHash == Some(s.intents[id].hash)
              && OnLedger(s.chains, s.intents[id].hash)
  {
    ReachableInv(steps);
    assert StatusOk(Run(INIT, steps), id);
  }

  // ----- statuses -----

  predicate Moves(before: Status, after: Status) {
    || before == after
    || (before == Queued && (after == Published || after == Failed))
    || (before == Published && after == Confirmed)
  }

  /** The reflexive and transitive closure of `Moves`. */
  predicate CanBecome(before: Status, after: Status) {
    before == after || before == Queued || (before == Published && after == Confirmed)
  }

  predicate TouchesSends(step: Step) {
    step.QueueSend? || step.FailUnfunded? || step.FailWork? || step.Publish? || step.ConfirmPoll?
      || step.WatchConfirmed?
  }

  lemma OthersLeaveSends(s: State, step: Step)
    requires !TouchesSends(step)
    ensures Apply(s, step).sends == s.sends
  {
    match step
    case Process(_) =>
    case ReadAccount(_, _) =>
    case UpdateWork(_) =>
    case _ =>
  }

  lemma SendRowMoves(s: State, step: Step, id: SendId)
    requires StatusesOk(s) && OpOk(s) && ConfirmingOk(s) && id in s.sends && TouchesSends(step)
    ensures id in Apply(s, step).sends
    ensures Moves(s.sends[id].status, Apply(s, step).sends[id].status)
    ensures s.sends[id].blockHash.Some? ==> Apply(s, step).sends[id].blockHash == s.sends[id].blockHash
    ensures Apply(s, step).sends[id] == s.sends[id].(
              status := Apply(s, step).sends[id].status, blockHash := Apply(s, step).sends[id].blockHash)
  {
    assert StatusOk(s, id);
  }

  lemma StatusMoves(s: State, step: Step, id: SendId)
    requires StatusesOk(s) && OpOk(s) && ConfirmingOk(s) && id in s.sends
    ensures id in Apply(s, step).sends
    ensures Moves(s.sends[id].status, Apply(s, step).sends[id].status)
    ensures s.sends[id].blockHash.Some? ==> Apply(s, step).sends[id].blockHash == s.sends[id].blockHash
    ensures Apply(s, step).sends[id] == s.sends[id].(
              status := Apply(s, step).sends[id].status, blockHash := Apply(s, step).sends[id].blockHash)
  {
    if TouchesSends(step) {
      SendRowMoves(s, step, id);
    } else {
      OthersLeaveSends(s, step);
    }
  }

  lemma {:induction false} StatusesOnlyAdvance(s: State, steps: seq<Step>, id: SendId)
    requires Inv(s) && id in s.sends
    ensures id in Run(s, steps).sends
    ensures CanBecome(s.sends[id].status, Run(s, steps).sends[id].status)
    ensures s.sends[id].blockHash.Some? ==> Run(s, steps).sends[id].blockHash == s.sends[id].blockHash
    ensures Run(s, steps).sends[id] == s.sends[id].(
              status := Run(s, steps).sends[id].status, blockHash := Run(s, steps).sends[id].blockHash)
  {
    if steps != [] {
      var before := steps[..|steps| - 1];
      StatusesOnlyAdvance(s, before, id);
      RunKeepsInv(s, before);
      StatusMoves(Run(s, before), steps[|steps| - 1], id);
    }
  }

  /** No broadcast of a failed send is ever accepted by the ledger: not before
      the failure, and not in any continuation of the run. */
  lemma FailedNeverLands(steps: seq<Step>, more: seq<Step>, id: SendId, h: Hash)
    requires id in Run(INIT, steps).sends && Run(INIT, steps).sends[id].status == Failed
    ensures var t := Run(Run(INIT, steps), more);
            && id in t.sends && t.sends[id].status == Failed
            && (h in t.landed ==> t.landed[h].id != id)
  {
    var s := Run(INIT, steps);
    ReachableInv(steps);
    StatusesOnlyAdvance(s, more, id);
    RunKeepsInv(s, more);
  }

  // ----- sends that ask for the same transfer -----

  predicate Twins(a: Send, b: Send) {
    a.source.address == b.source.address && a.destination == b.destination && a.amount == b.amount
  }

  lemma SameIntentMeansTwins(s: State, id: SendId, id': SendId)
    requires IntentsOk(s) && id in s.intents && id' in s.intents && s.intents[id].hash == s.intents[id'].hash
    ensures Twins(s.sends[id], s.sends[id'])
  {
    assert IntentMatches(s.sends[id], s.intents[id]) && IntentMatches(s.sends[id'], s.intents[id']);
  }

  ghost predicate FailedOffLedger(s: State) {
    forall id | id in s.sends && id in s.intents && s.sends[id].status == Failed ::
      !OnLedger(s.chains, s.intents[id].hash)
  }

  ghost predicate OwnBlocks(s: State) {
    forall id, id' | id in s.sends && id' in s.sends && id != id' && s.sends[id].blockHash.Some? ::
      s.sends[id].blockHash != s.sends[id'].blockHash
  }

  /** If the block a failed send signed is on the ledger all the same, then a
      different send, asking for the same transfer and not failed, put it there. */
  lemma FailedOnLedgerHasTwin(steps: seq<Step>, id: SendId)
    requires var s := Run(INIT, steps);
             && id in s.sends && s.sends[id].status == Failed
             && id in s.intents && OnLedger(s.chains, s.intents[id].hash)
    ensures var s := Run(INIT, steps);
            && s.intents[id].hash in s.landed
            && var other := s.landed[s.intents[id].hash].id;
               other != id && other in s.sends && s.sends[other].status != Failed && Twins(s.sends[id], s.sends[other])
  {
    var s := Run(INIT, steps);
    ReachableInv(steps);
    assert IntentMatches(s.sends[id], s.intents[id]);
    var other := s.landed[s.intents[id].hash].id;
    SameIntentMeansTwins(s, id, other);
  }

  /** Two sends that name one ledger block as theirs ask for the same transfer. */
  lemma SameBlockMeansTwins(steps: seq<Step>, id: SendId, id': SendId)
    requires var s := Run(INIT, steps);
             && id in s.sends && id' in s.sends
             && s.sends[id].blockHash.Some? && s.sends[id].blockHash == s.sends[id'].blockHash
    ensures Twins(Run(INIT, steps).sends[id], Run(INIT, steps).sends[id'])
  {
    var s := Run(INIT, steps);
    ReachableInv(steps);
    assert StatusOk(s, id) && StatusOk(s, id');
    SameIntentMeansTwins(s, id, id');
  }

  /** Runs in which nothing but these sends is ever queued. */
  ghost predicate QueuesOnly(steps: seq<Step>, queue: map<SendId, Send>) {
    forall step | step in steps && step.QueueSend? :: step.id in queue && step.send == queue[step.id]
  }

  /** Sends as they are queued, each with a key of its own. */
  ghost predicate Fresh(queue: map<SendId, Send>) {
    && (forall id | id in queue :: queue[id].status == Queued && queue[id].blockHash == None)
    && (forall id, id' | id in queue && id' in queue && id != id' :: queue[id].key != queue[id'].key)
  }

  ghost predicate NoTwins(queue: map<SendId, Send>) {
    forall id, id' | id in queue && id' in queue && id != id' :: !Twins(queue[id], queue[id'])
  }

  lemma NewSendsAreQueued(s: State, step: Step, id: SendId)
    requires id !in s.sends && id in Apply(s, step).sends
    requires OpOk(s) && ConfirmingOk(s)
    ensures step == QueueSend(id, Apply(s, step).sends[id])
  {
  }

  lemma {:induction false} OnlyTheQueuedSends(steps: seq<Step>, queue: map<SendId, Send>)
    requires QueuesOnly(steps, queue)
    ensures forall id | id in Run(INIT, steps).sends :: id in queue && Twins(Run(INIT, steps).sends[id], queue[id])
  {
    if steps != [] {
      var before, step := steps[..|steps| - 1], steps[|steps| - 1];
      assert QueuesOnly(before, queue);
      OnlyTheQueuedSends(before, queue);
      ReachableStatuses(before);
      var s := Run(INIT, before);
      forall id | id in Apply(s, step).sends
        ensures id in queue && Twins(Apply(s, step).sends[id], queue[id])
      {
        if id in s.sends {
          StatusMoves(s, step, id);
        } else {
          NewSendsAreQueued(s, step, id);
          assert step in steps;
        }
      }
    }
  }

  lemma DifferentSendsKeepApart(steps: seq<Step>, queue: map<SendId, Send>)
    requires QueuesOnly(steps, queue) && NoTwins(queue)
    ensures FailedOffLedger(Run(INIT, steps)) && OwnBlocks(Run(INIT, steps))
  {
    var s := Run(INIT, steps);
    OnlyTheQueuedSends(steps, queue);
    forall id | id in s.sends && id in s.intents && s.sends[id].status == Failed
      ensures !OnLedger(s.chains, s.intents[id].hash)
    {
      if OnLedger(s.chains, s.intents[id].hash) {
        FailedOnLedgerHasTwin(steps, id);
      }
    }
    forall id, id' | id in s.sends && id' in s.sends && id != id' && s.sends[id].blockHash.Some?
      ensures s.sends[id].blockHash != s.sends[id'].blockHash
    {
      if s.sends[id].blockHash == s.sends[id'].blockHash {
        SameBlockMeansTwins(steps, id, id');
      }
    }
  }
}
