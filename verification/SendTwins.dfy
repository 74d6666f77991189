/** Two queued sends that ask for the same transfer sign the same block when
    they see the same frontier. This is exactly when a failed send's block can
    be on the ledger, and when two sends can share one block. */
module SendTwins {
  import opened Wrappers
  import opened Ledger
  import opened SendProtocol
  import opened SendSafety
  import opened SendTheorems

  function Pair(x: SendId, a: Send, y: SendId, b: Send): map<SendId, Send> {
    map[x := a, y := b]
  }

  ghost predicate FreshPair(x: SendId, a: Send, y: SendId, b: Send) {
    && x != y && a.key != b.key
    && a.status == b.status == Queued && a.blockHash == b.blockHash == None
  }

  ghost predicate Reached(s: State, x: SendId, a: Send, y: SendId, b: Send) {
    exists steps :: QueuesOnly(steps, Pair(x, a, y, b)) && Run(INIT, steps) == s
  }

  lemma OneMoreStep(steps: seq<Step>, step: Step, queue: map<SendId, Send>)
    requires QueuesOnly(steps, queue) && (step.QueueSend? ==> step.id in queue && step.send == queue[step.id])
    ensures QueuesOnly(steps + [step], queue)
  {
  }

  lemma ReachStep(s: State, step: Step, x: SendId, a: Send, y: SendId, b: Send)
    requires Reached(s, x, a, y, b) && Enabled(s, step)
    requires step.QueueSend? ==> step.id in Pair(x, a, y, b) && step.send == Pair(x, a, y, b)[step.id]
    ensures Reached(Effect(s, step), x, a, y, b)
  {
    var steps :| QueuesOnly(steps, Pair(x, a, y, b)) && Run(INIT, steps) == s;
    var longer := steps + [step];
    assert longer[..|longer| - 1] == steps && longer[|longer| - 1] == step;
    OneMoreStep(steps, step, Pair(x, a, y, b));
    assert Run(INIT, longer) == Effect(s, step);
  }

  function Deposit(a: Send): Body {
    Body(a.source.address, Zero, a.amount, FromBlock(Zero))
  }

  /** The one block both twins sign. */
  function Spend(a: Send): Body {
    SpendBody(a, HashOf(Deposit(a)))
  }

  /** The intent a twin saves, with the given work. */
  function SpendIntent(a: Send, work: Work): Intent {
    Intent(HashOf(Spend(a)), Block(Spend(a), work), HashOf(Deposit(a)), 0)
  }

  /** Both sends queued, the account funded for one of them, and a tick begun. */
  function Start(x: SendId, a: Send, y: SendId, b: Send): State {
    INIT.(sends := map[x := a, y := b], todo := [x, y], chains := map[a.source.address := [Deposit(a)]])
  }

  lemma ReachQueued(x: SendId, a: Send, y: SendId, b: Send)
    requires FreshPair(x, a, y, b)
    ensures Reached(INIT.(sends := map[x := a, y := b]), x, a, y, b)
  {
    assert QueuesOnly([], Pair(x, a, y, b)) && Run(INIT, []) == INIT;
    ReachStep(INIT, QueueSend(x, a), x, a, y, b);
    var s1 := Effect(INIT, QueueSend(x, a));
    ReachStep(s1, QueueSend(y, b), x, a, y, b);
    assert Effect(s1, QueueSend(y, b)) == INIT.(sends := map[x := a, y := b]);
  }

  lemma ReachStart(x: SendId, a: Send, y: SendId, b: Send)
    requires FreshPair(x, a, y, b)
    ensures Reached(Start(x, a, y, b), x, a, y, b)
  {
    var s2 := INIT.(sends := map[x := a, y := b]);
    ReachQueued(x, a, y, b);
    ReachStep(s2, LandReceive(Deposit(a)), x, a, y, b);
    var s3 := Effect(s2, LandReceive(Deposit(a)));
    assert PublishedToConfirm(s3) == {};
    assert Chain(s2.chains, a.source.address) + [Deposit(a)] == [Deposit(a)];
    assert s3.chains == map[a.source.address := [Deposit(a)]];
    ReachStep(s3, TickStart([x, y]), x, a, y, b);
    assert Effect(s3, TickStart([x, y])) == Start(x, a, y, b);
  }

  /** From the head of the queue to the first broadcast of the shared block. */
  lemma ReachFirstBroadcast(s: State, id: SendId, send: Send, work: Work, x: SendId, a: Send, y: SendId, b: Send)
    requires Reached(s, x, a, y, b)
    requires s.op == Idle && s.todo != [] && s.todo[0] == id && id !in s.intents
    requires id in s.sends && s.sends[id] == send && Twins(send, a)
    requires s.chains == map[a.source.address := [Deposit(a)]]
    ensures Reached(s.(todo := s.todo[1..],
                       intents := s.intents[id := SpendIntent(a, work)],
                       op := Broadcasting(id, SpendIntent(a, work), Block(Spend(a), work), First)), x, a, y, b)
  {
    ReachStep(s, Begin(true), x, a, y, b);
    var s1 := Effect(s, Begin(true));
    ReachStep(s1, ReadIntent, x, a, y, b);
    var s2 := Effect(s1, ReadIntent);
    assert Deposit(a) in Chain(s2.chains, a.source.address);
    ReachStep(s2, ReadAccount(HashOf(Deposit(a)), work), x, a, y, b);
    var s3 := Effect(s2, ReadAccount(HashOf(Deposit(a)), work));
    ReachStep(s3, SaveIntent, x, a, y, b);
  }

  const BAD: Work := Work(0, false)
  const GOOD: Work := Work(1, true)

  /** `x` has broadcast the shared block; `y` is next. */
  function AfterBroadcast(x: SendId, a: Send, y: SendId, b: Send, status: Status, work: Work, op: Op): State {
    Start(x, a, y, b).(
      sends := map[x := a.(status := status), y := b],
      intents := map[x := SpendIntent(a, work)],
      todo := [y],
      op := op,
      sent := {Broadcast(x, Block(Spend(a), work))})
  }

  lemma ReachBroadcast(x: SendId, a: Send, y: SendId, b: Send, work: Work, reply: Reply)
    requires FreshPair(x, a, y, b)
    requires reply == Ambiguous || (reply == WorkRejected && !work.ok)
    ensures Reached(AfterBroadcast(x, a, y, b, Queued, work,
              if reply == Ambiguous then Idle else Reworking(x, SpendIntent(a, work), Block(Spend(a), work))),
            x, a, y, b)
  {
    var s := Start(x, a, y, b);
    ReachStart(x, a, y, b);
    ReachFirstBroadcast(s, x, a, work, x, a, y, b);
    var s1 := s.(todo := s.todo[1..], intents := s.intents[x := SpendIntent(a, work)],
                 op := Broadcasting(x, SpendIntent(a, work), Block(Spend(a), work), First));
    ReachStep(s1, Process(reply), x, a, y, b);
    assert a.(status := Queued) == a;
  }

  lemma ReachFailure(x: SendId, a: Send, y: SendId, b: Send)
    requires FreshPair(x, a, y, b)
    ensures Reached(AfterBroadcast(x, a, y, b, Failed, BAD, Idle), x, a, y, b)
  {
    ReachBroadcast(x, a, y, b, BAD, WorkRejected);
    var s2 := AfterBroadcast(x, a, y, b, Queued, BAD, Reworking(x, SpendIntent(a, BAD), Block(Spend(a), BAD)));
    ReachStep(s2, UpdateWork(BAD), x, a, y, b);
    var s3 := Effect(s2, UpdateWork(BAD));
    ReachStep(s3, Process(WorkRejected), x, a, y, b);
    var s4 := Effect(s3, Process(WorkRejected));
    ReachStep(s4, FailWork, x, a, y, b);
    assert Effect(s4, FailWork) == AfterBroadcast(x, a, y, b, Failed, BAD, Idle);
  }

  /** A failed send whose block is on the ledger: its twin's broadcast landed. */
  lemma TwinLandsTheFailedBlock(x: SendId, a: Send, y: SendId, b: Send)
    requires FreshPair(x, a, y, b) && Twins(a, b)
    ensures exists steps :: QueuesOnly(steps, Pair(x, a, y, b)) && !FailedOffLedger(Run(INIT, steps))
  {
    var s := AfterBroadcast(x, a, y, b, Failed, BAD, Idle);
    ReachFailure(x, a, y, b);
    ReachFirstBroadcast(s, y, b, GOOD, x, a, y, b);
    var s1 := s.(todo := s.todo[1..], intents := s.intents[y := SpendIntent(a, GOOD)],
                 op := Broadcasting(y, SpendIntent(a, GOOD), Block(Spend(a), GOOD), First));
    assert Accepts(s1.chains, Block(Spend(a), GOOD));
    ReachStep(s1, Process(Accepted), x, a, y, b);
    var t := Effect(s1, Process(Accepted));
    AppendGrows(s1.chains, Spend(a), t.intents[x].hash);
    assert t.sends[x].status == Failed && OnLedger(t.chains, t.intents[x].hash);
    var steps :| QueuesOnly(steps, Pair(x, a, y, b)) && Run(INIT, steps) == t;
  }

  /** After an ambiguous broadcast of `x`, its twin publishes the shared block. */
  lemma ReachTwinPublished(x: SendId, a: Send, y: SendId, b: Send)
    requires FreshPair(x, a, y, b) && Twins(a, b)
    ensures exists s | Reached(s, x, a, y, b) ::
              && s.op == Idle && s.todo == [] && s.sends.Keys == {x, y} && s.sends[x] == a
              && s.sends[y] == b.(status := Published, blockHash := Some(HashOf(Spend(a))))
              && x in s.intents && s.intents[x].hash == HashOf(Spend(a)) && OnLedger(s.chains, HashOf(Spend(a)))
  {
    var s := AfterBroadcast(x, a, y, b, Queued, GOOD, Idle);
    ReachBroadcast(x, a, y, b, GOOD, Ambiguous);
    ReachFirstBroadcast(s, y, b, GOOD, x, a, y, b);
    var s1 := s.(todo := s.todo[1..], intents := s.intents[y := SpendIntent(a, GOOD)],
                 op := Broadcasting(y, SpendIntent(a, GOOD), Block(Spend(a), GOOD), First));
    assert Accepts(s1.chains, Block(Spend(a), GOOD));
    ReachStep(s1, Process(Accepted), x, a, y, b);
    var s2 := Effect(s1, Process(Accepted));
    AppendGrows(s1.chains, Spend(a), HashOf(Spend(a)));
    ReachStep(s2, Publish(false), x, a, y, b);
    var s3 := Effect(s2, Publish(false));
    assert s3.sends[x] == a.(status := Queued) == a;
  }

  /** A tick that takes up `x` again and broadcasts its saved block once more. */
  lemma ReachReplay(s: State, x: SendId, a: Send, y: SendId, b: Send)
    requires Reached(s, x, a, y, b) && FreshPair(x, a, y, b)
    requires s.op == Idle && s.todo == [] && s.sends.Keys == {x, y} && s.sends[x] == a && s.sends[y].status == Published
             && x in s.intents
    ensures Reached(s.(confirming := s.confirming + PublishedToConfirm(s),
                       op := Broadcasting(x, s.intents[x], s.intents[x].block, First)), x, a, y, b)
  {
    ReachStep(s, TickStart([x]), x, a, y, b);
    var s1 := Effect(s, TickStart([x]));
    ReachStep(s1, Begin(true), x, a, y, b);
    var s2 := Effect(s1, Begin(true));
    ReachStep(s2, ReadIntent, x, a, y, b);
    assert Effect(s2, ReadIntent)
        == s.(confirming := s.confirming + PublishedToConfirm(s),
              op := Broadcasting(x, s.intents[x], s.intents[x].block, First));
  }

  /** The node knows the block, so `x` is published under the block of `y`. */
  lemma ReachSharedBlock(s: State, x: SendId, a: Send, y: SendId, b: Send)
    requires Reached(s, x, a, y, b) && x != y && x in s.sends && y in s.sends && x in s.intents
    requires s.op == Broadcasting(x, s.intents[x], s.intents[x].block, First) && OnLedger(s.chains, s.intents[x].hash)
    requires s.sends[y].blockHash == Some(s.intents[x].hash)
    ensures exists t :: Reached(t, x, a, y, b) && !OwnBlocks(t)
  {
    ReachStep(s, Process(OldBlock(true)), x, a, y, b);
    var s1 := Effect(s, Process(OldBlock(true)));
    ReachStep(s1, Publish(true), x, a, y, b);
    var t := Effect(s1, Publish(true));
    assert x in t.sends && y in t.sends && t.sends[x].blockHash == t.sends[y].blockHash;
    assert Reached(t, x, a, y, b) && !OwnBlocks(t);
  }

  /** Two sends published, one block on the ledger: a single transfer counted for both. */
  lemma TwinsShareABlock(x: SendId, a: Send, y: SendId, b: Send)
    requires FreshPair(x, a, y, b) && Twins(a, b)
    ensures exists steps :: QueuesOnly(steps, Pair(x, a, y, b)) && !OwnBlocks(Run(INIT, steps))
  {
    ReachTwinPublished(x, a, y, b);
    var s :| Reached(s, x, a, y, b)
              && s.op == Idle && s.todo == [] && s.sends.Keys == {x, y} && s.sends[x] == a
              && s.sends[y] == b.(status := Published, blockHash := Some(HashOf(Spend(a))))
              && x in s.intents && s.intents[x].hash == HashOf(Spend(a)) && OnLedger(s.chains, HashOf(Spend(a)));
    ReachReplay(s, x, a, y, b);
    ReachSharedBlock(s.(confirming := s.confirming + PublishedToConfirm(s),
                        op := Broadcasting(x, s.intents[x], s.intents[x].block, First)), x, a, y, b);
    var t :| Reached(t, x, a, y, b) && !OwnBlocks(t);
    var steps :| QueuesOnly(steps, Pair(x, a, y, b)) && Run(INIT, steps) == t;
  }

  lemma PartOfQueue(steps: seq<Step>, queue: map<SendId, Send>, x: SendId, y: SendId)
    requires x in queue && y in queue && QueuesOnly(steps, Pair(x, queue[x], y, queue[y]))
    ensures QueuesOnly(steps, queue)
  {
  }

  /** Whatever is queued, every run keeps the blocks of failed sends off the ledger if
      and only if any two sends differ in source address, destination or amount. */
  lemma FailedStaysOffLedgerIff(queue: map<SendId, Send>)
    requires Fresh(queue)
    ensures (forall steps | QueuesOnly(steps, queue) :: FailedOffLedger(Run(INIT, steps))) <==> NoTwins(queue)
  {
    forall x, y | x in queue && y in queue && x != y && Twins(queue[x], queue[y])
      ensures exists steps :: QueuesOnly(steps, queue) && !FailedOffLedger(Run(INIT, steps))
    {
      TwinLandsTheFailedBlock(x, queue[x], y, queue[y]);
      var steps :| QueuesOnly(steps, Pair(x, queue[x], y, queue[y])) && !FailedOffLedger(Run(INIT, steps));
      PartOfQueue(steps, queue, x, y);
    }
    if NoTwins(queue) {
      forall steps | QueuesOnly(steps, queue)
        ensures FailedOffLedger(Run(INIT, steps))
      {
        DifferentSendsKeepApart(steps, queue);
      }
    }
  }

  /** In every run each published send has a ledger block of its own, under the same condition. */
  lemma EverySendHasItsOwnBlockIff(queue: map<SendId, Send>)
    requires Fresh(queue)
    ensures (forall steps | QueuesOnly(steps, queue) :: OwnBlocks(Run(INIT, steps))) <==> NoTwins(queue)
  {
    forall x, y | x in queue && y in queue && x != y && Twins(queue[x], queue[y])
      ensures exists steps :: QueuesOnly(steps, queue) && !OwnBlocks(Run(INIT, steps))
    {
      TwinsShareABlock(x, queue[x], y, queue[y]);
      var steps :| QueuesOnly(steps, Pair(x, queue[x], y, queue[y])) && !OwnBlocks(Run(INIT, steps));
      PartOfQueue(steps, queue, x, y);
    }
    if NoTwins(queue) {
      forall steps | QueuesOnly(steps, queue)
        ensures OwnBlocks(Run(INIT, steps))
      {
        DifferentSendsKeepApart(steps, queue);
      }
    }
  }
}
