/** The control flow of `publishSendUnderLease`, with everything that may happen
    at each await given as a script. What it does to the stores is a run of the
    send protocol, so every theorem about runs is about this code. */
module SendOrchestrator {
  import opened Wrappers
  import opened Ledger
  import opened SendProtocol

  /** How an await ends: the process dies, the call throws (a lost lease too), or it returns. */
  datatype Answer =
    | Dies
    | Throws
    | Returns
    | Account(frontier: Hash, work: Work)
    | Replies(reply: Reply)
    | Generated(work: Work)
    | Announced

  /** What the rest of the world does during one await, and how the await ends. */
  datatype Await = Await(meanwhile: seq<Step>, answer: Answer)

  predicate Elsewhere(step: Step) {
    step.QueueSend? || step.ConfirmPoll? || step.ConfirmGiveUp? || step.WatchConfirmed? || step.Land?
      || step.LandReceive?
  }

  ghost predicate ScriptOk(script: seq<Await>) {
    forall a, step | a in script && step in a.meanwhile :: Elsewhere(step)
  }

  /** A script that is used up ends with the death of the process. */
  function AnswerAt(script: seq<Await>, at: nat): Answer {
    if at < |script| then script[at].answer else Dies
  }

  function Meanwhile(script: seq<Await>, at: nat): seq<Step> {
    if at < |script| then script[at].meanwhile else []
  }

  /** What an operation does to its send when it gives up. */
  function LeaveStep(answer: Answer): Step {
    if answer == Dies then Crash else Abort
  }

  /** To any other send an operation does nothing; others may confirm it meanwhile. */
  predicate Kept(before: Send, after: Send) {
    after == before.(status := after.status)
      && (after.status == before.status || after.status == SendProtocol.Confirmed)
  }

  ghost predicate AllKept(before: map<SendId, Send>, after: map<SendId, Send>) {
    forall x | x in before :: x in after && Kept(before[x], after[x])
  }

  ghost predicate AllKeptBut(before: map<SendId, Send>, after: map<SendId, Send>, id: SendId) {
    forall x | x in before :: x in after && (x == id || Kept(before[x], after[x]))
  }

  lemma OthersKeptTwice(s: map<SendId, Send>, m: map<SendId, Send>, t: map<SendId, Send>, id: SendId)
    requires AllKeptBut(s, m, id) && AllKeptBut(m, t, id)
    ensures AllKeptBut(s, t, id)
  {
  }

  lemma OneElsewhereKeepsOp(s: State, step: Step)
    requires Elsewhere(step)
    ensures var t := Apply(s, step);
            && t.op == s.op && t.todo == s.todo && t.intents == s.intents && t.sent == s.sent
            && t.confirming <= s.confirming && AllKept(s.sends, t.sends)
  {
  }

  lemma {:induction false} ElsewhereKeepsOp(s: State, steps: seq<Step>)
    requires forall step | step in steps :: Elsewhere(step)
    ensures var t := Run(s, steps);
            && t.op == s.op && t.todo == s.todo && t.intents == s.intents && t.sent == s.sent
            && t.confirming <= s.confirming && AllKept(s.sends, t.sends)
  {
    if steps != [] {
      assert steps[|steps| - 1] in steps;
      ElsewhereKeepsOp(s, steps[..|steps| - 1]);
      OneElsewhereKeepsOp(Run(s, steps[..|steps| - 1]), steps[|steps| - 1]);
    }
  }

  /** How `publish` ended: with the accepted hash, with a work rejection, or neither. */
  datatype Outcome = Taken(hash: Hash) | RejectedWork | Stopped

  function OutcomeOf(reply: Reply, intent: Intent, block: Block): Outcome {
    match reply
    case Accepted => if HashOf(block.body) == intent.hash then Taken(intent.hash) else Stopped
    case OldBlock(known) => if known then Taken(intent.hash) else Stopped
    case WorkRejected => RejectedWork
    case Ambiguous => Stopped
  }

  function AfterBroadcast(id: SendId, intent: Intent, block: Block, attempt: Attempt, outcome: Outcome): Op {
    match outcome
    case Taken(hash) => Publishing(id, hash)
    case RejectedWork => if attempt == First then Reworking(id, intent, block) else FailingWork(id)
    case Stopped => Idle
  }

  /** What is signed on a frontier, if its balance suffices. */
  function SignedIntent(send: Send, frontier: Hash, work: Work): Option<Intent> {
    if BalanceAt(frontier) < send.amount then None
    else Some(Intent(HashOf(SpendBody(send, frontier)), Block(SpendBody(send, frontier), work), frontier,
                     BalanceAt(frontier) - send.amount))
  }

  /** What a broadcast comes to: the node's reply, if it is one that its ledger allows. */
  function BroadcastOutcome(s: State, script: seq<Await>, at: nat, intent: Intent, block: Block): Outcome {
    var answer := AnswerAt(script, at);
    if answer.Replies? && Enabled(Run(s, Meanwhile(script, at)), Process(answer.reply))
    then OutcomeOf(answer.reply, intent, block) else Stopped
  }

  /** The node answers what its ledger allows: then the block was broadcast. */
  function CallMade(s: State, script: seq<Await>, at: nat, id: SendId, block: Block): set<Broadcast> {
    var answer := AnswerAt(script, at);
    if answer.Replies? && Enabled(Run(s, Meanwhile(script, at)), Process(answer.reply))
    then {Broadcast(id, block)} else {}
  }

  /** The node refuses the work of the second broadcast, and the lease is still held when that is written down. */
  predicate RefusedAgain(script: seq<Await>, at: nat, work: Work) {
    AnswerAt(script, at) == Replies(WorkRejected) && !work.ok && AnswerAt(script, at + 1) == Returns
  }

  predicate Stored(intents: map<SendId, Intent>, id: SendId, intent: Intent) {
    id in intents && intents[id].hash == intent.hash
  }

  /** `updateWork`: only under the same block hash. */
  function Reworked(intents: map<SendId, Intent>, id: SendId, intent: Intent, updated: Block): map<SendId, Intent> {
    if Stored(intents, id, intent) then intents[id := intents[id].(block := updated)] else intents
  }

  /** The frontier that the node reports, if it answers with one that its ledger could show. */
  function AccountAnswer(s: State, script: seq<Await>, at: nat, address: Address): (a: Option<Answer>)
    ensures a.Some? ==> a.value.Account?
  {
    var answer := AnswerAt(script, at);
    if answer.Account? && Reported(Run(s, Meanwhile(script, at)).chains, address, answer.frontier) then Some(answer)
    else None
  }

  // ----- what a script comes to -----

  /** How an operation ends for its send: published under a hash, failed, or left as it
      is stored, in which case the process may have died as well. */
  datatype Verdict = Publishes(hash: Hash, announced: bool) | Fails | Stays | Died

  function GivesUp(answer: Answer): Verdict {
    if answer == Dies then Died else Stays
  }

  /** The row, the list of the tick, and the polls, as the verdict says. */
  ghost predicate Obeys(v: Verdict, s: State, t: State, id: SendId) {
    && id in s.sends && id in t.sends
    && match v
       case Publishes(hash, announced) =>
         && t.sends[id] == s.sends[id].(status := SendProtocol.Published, blockHash := Some(hash)) && t.todo == s.todo
         && if announced then (id, hash) in t.confirming else t.confirming <= s.confirming
       case Fails => t.sends[id] == s.sends[id].(status := Failed) && t.todo == s.todo && t.confirming <= s.confirming
       case Stays => Kept(s.sends[id], t.sends[id]) && t.todo == s.todo && t.confirming <= s.confirming
       case Died => Kept(s.sends[id], t.sends[id]) && t.todo == [] && t.confirming == {}
  }

  lemma ObeysAfterStaying(v: Verdict, s: State, m: State, t: State, id: SendId)
    requires Obeys(Stays, s, m, id) && Obeys(v, m, t, id)
    ensures Obeys(v, s, t, id)
  {
  }

  /** What a send asks for does not change while its operation waits. */
  lemma SameTransfer(s: State, t: State, id: SendId)
    requires id in s.sends && id in t.sends && Kept(s.sends[id], t.sends[id])
    ensures forall u, script, at :: PrepareVerdict(u, t.sends[id], script, at)
              == PrepareVerdict(u, s.sends[id], script, at)
  {
    forall u, script, at
      ensures PrepareVerdict(u, t.sends[id], script, at) == PrepareVerdict(u, s.sends[id], script, at)
    {
      forall frontier, work
        ensures SignedIntent(t.sends[id], frontier, work) == SignedIntent(s.sends[id], frontier, work)
      {
      }
    }
  }

  /** The state behind an await and the step it leads to. */
  function After(s: State, script: seq<Await>, at: nat, step: Step): State {
    Apply(Run(s, Meanwhile(script, at)), step)
  }

  function RecordVerdict(script: seq<Await>, at: nat, hash: Hash): Verdict {
    match AnswerAt(script, at)
    case Returns => Publishes(hash, false)
    case Announced => Publishes(hash, true)
    case answer => GivesUp(answer)
  }

  function FailVerdict(script: seq<Await>, at: nat): Verdict {
    if AnswerAt(script, at) == Returns then Fails else GivesUp(AnswerAt(script, at))
  }

  /** From the second broadcast on: taken, refused again, or anything else. */
  function SecondVerdict(s: State, script: seq<Await>, at: nat, intent: Intent, block: Block): Verdict {
    match BroadcastOutcome(s, script, at, intent, block)
    case Taken(hash) => RecordVerdict(script, at + 1, hash)
    case RejectedWork => FailVerdict(script, at + 1)
    case Stopped => GivesUp(AnswerAt(script, at))
  }

  /** From the search for new work on. */
  function RetryVerdict(s: State, script: seq<Await>, at: nat, intent: Intent, body: Body): Verdict {
    match AnswerAt(script, at)
    case Generated(work) =>
      SecondVerdict(After(s, script, at, UpdateWork(work)), script, at + 1, intent, Block(body, work))
    case answer => GivesUp(answer)
  }

  /** From the first broadcast on. */
  function FirstVerdict(s: State, script: seq<Await>, at: nat, intent: Intent): Verdict {
    match BroadcastOutcome(s, script, at, intent, intent.block)
    case Taken(hash) => RecordVerdict(script, at + 1, hash)
    case RejectedWork =>
      RetryVerdict(After(s, script, at, Process(WorkRejected)), script, at + 1, intent, intent.block.body)
    case Stopped => GivesUp(AnswerAt(script, at))
  }

  lemma HashIsTheIntents(s: State, script: seq<Await>, at: nat, intent: Intent)
    ensures var v := FirstVerdict(s, script, at, intent); v.Publishes? ==> v.hash == intent.hash
  {
  }

  /** From the signature on. */
  function SignedVerdict(s: State, send: Send, script: seq<Await>, at: nat, frontier: Hash, work: Work): Verdict {
    match SignedIntent(send, frontier, work)
    case None => FailVerdict(script, at)
    case Some(signed) =>
      if AnswerAt(script, at) == Returns
      then FirstVerdict(After(Apply(s, ReadAccount(frontier, work)), script, at, SaveIntent), script, at + 1, signed)
      else GivesUp(AnswerAt(script, at))
  }

  /** From the question for the frontier on. */
  function PrepareVerdict(s: State, send: Send, script: seq<Await>, at: nat): Verdict {
    match AccountAnswer(s, script, at, send.source.address)
    case None => GivesUp(AnswerAt(script, at))
    case Some(a) => SignedVerdict(Run(s, Meanwhile(script, at)), send, script, at + 1, a.frontier, a.work)
  }

  /** The whole operation, from the read of the intent on. */
  function VerdictOf(s: State, id: SendId, script: seq<Await>): Verdict
    requires id in s.sends
  {
    if AnswerAt(script, 0) != Returns then GivesUp(AnswerAt(script, 0))
    else
      var s1 := After(s, script, 0, ReadIntent);
      if id in s.intents then FirstVerdict(s1, script, 1, s.intents[id]) else PrepareVerdict(s1, s.sends[id], script, 1)
  }

  /** The state in which the operation on the next listed send begins. */
  function Begun(s: State): State {
    Apply(s, Begin(true))
  }

  /** What one turn of a tick makes of its send. */
  ghost predicate Turn(s: State, t: State, id: SendId, leased: bool, script: seq<Await>) {
    if leased then
      && id in Begun(s).sends && AllKeptBut(s.sends, t.sends, id)
      && Obeys(VerdictOf(Begun(s), id, script), Begun(s), t, id)
    else t == Apply(s, Begin(false))
  }

  function ScriptOf(scripts: map<SendId, seq<Await>>, id: SendId): seq<Await> {
    if id in scripts then scripts[id] else []
  }

  ghost predicate Turns(turns: seq<State>, queued: seq<SendId>, free: set<SendId>, scripts: map<SendId, seq<Await>>) {
    && |turns| <= |queued| + 1
    && forall i | 0 <= i < |turns| - 1 ::
       Turn(turns[i], turns[i + 1], queued[i], queued[i] in free, ScriptOf(scripts, queued[i]))
  }

  ghost predicate DiedIn(s: State, id: SendId, free: set<SendId>, scripts: map<SendId, seq<Await>>) {
    id in free && id in Begun(s).sends && VerdictOf(Begun(s), id, ScriptOf(scripts, id)) == Died
  }

  lemma OneMoreTurn(turns: seq<State>, t: State, queued: seq<SendId>, free: set<SendId>,
                    scripts: map<SendId, seq<Await>>)
    requires 1 <= |turns| <= |queued| && Turns(turns, queued, free, scripts)
    requires var id := queued[|turns| - 1]; Turn(turns[|turns| - 1], t, id, id in free, ScriptOf(scripts, id))
    ensures Turns(turns + [t], queued, free, scripts)
  {
    var more := turns + [t];
    forall i | 0 <= i < |more| - 1
      ensures Turn(more[i], more[i + 1], queued[i], queued[i] in free, ScriptOf(scripts, queued[i]))
    {
      if i < |turns| - 1 {
        assert Turn(turns[i], turns[i + 1], queued[i], queued[i] in free, ScriptOf(scripts, queued[i]));
      }
    }
  }

  lemma SendsStay(s: State, t: State, id: SendId, leased: bool, script: seq<Await>)
    requires Turn(s, t, id, leased, script)
    ensures s.sends.Keys <= t.sends.Keys
    ensures forall x | x in s.sends && (x != id || !leased) :: Kept(s.sends[x], t.sends[x])
  {
  }

  ghost predicate Unlisted(x: SendId, queued: seq<SendId>, free: set<SendId>, from: nat, to: nat)
    requires from <= to <= |queued|
  {
    forall i | from <= i < to :: queued[i] != x || x !in free
  }

  lemma {:induction false} KeptThrough(turns: seq<State>, queued: seq<SendId>, free: set<SendId>,
                                       scripts: map<SendId, seq<Await>>, x: SendId, from: nat, to: nat)
    requires Turns(turns, queued, free, scripts) && from <= to < |turns| && x in turns[from].sends
    requires Unlisted(x, queued, free, from, to)
    ensures x in turns[to].sends && Kept(turns[from].sends[x], turns[to].sends[x])
  {
    if from < to {
      KeptThrough(turns, queued, free, scripts, x, from, to - 1);
      var id := queued[to - 1];
      assert Turn(turns[to - 1], turns[to - 1 + 1], id, id in free, ScriptOf(scripts, id));
      SendsStay(turns[to - 1], turns[to], id, id in free, ScriptOf(scripts, id));
    }
  }

  /** Each listed send is listed once, so its turn has the last word. */
  lemma TurnsKeep(turns: seq<State>, queued: seq<SendId>, free: set<SendId>, scripts: map<SendId, seq<Await>>)
    requires turns != [] && Turns(turns, queued, free, scripts) && Distinct(queued)
    requires forall id | id in queued :: id in turns[0].sends
    ensures var last := turns[|turns| - 1];
            && (forall i | 0 <= i < |turns| - 1 :: queued[i] in turns[i + 1].sends && queued[i] in last.sends
                  && Kept(turns[i + 1].sends[queued[i]], last.sends[queued[i]]))
            && forall x | x in turns[0].sends && (x !in queued || x !in free) ::
                 x in last.sends && Kept(turns[0].sends[x], last.sends[x])
  {
    forall i | 0 <= i < |turns| - 1
      ensures queued[i] in turns[i + 1].sends && queued[i] in turns[|turns| - 1].sends
              && Kept(turns[i + 1].sends[queued[i]], turns[|turns| - 1].sends[queued[i]])
    {
      var id := queued[i];
      assert id in queued && Turn(turns[i], turns[i + 1], id, id in free, ScriptOf(scripts, id));
      KeptThrough(turns, queued, free, scripts, id, 0, i);
      SendsStay(turns[i], turns[i + 1], id, id in free, ScriptOf(scripts, id));
      KeptThrough(turns, queued, free, scripts, id, i + 1, |turns| - 1);
    }
    forall x | x in turns[0].sends && (x !in queued || x !in free)
      ensures x in turns[|turns| - 1].sends && Kept(turns[0].sends[x], turns[|turns| - 1].sends[x])
    {
      KeptThrough(turns, queued, free, scripts, x, 0, |turns| - 1);
    }
  }

  class Orchestrator {
    var sends: map<SendId, Send>
    var intents: map<SendId, Intent>
    var confirming: set<(SendId, Hash)>
    var todo: seq<SendId>
    var chains: Chains
    var sent: set<Broadcast>
    var landed: map<Hash, Broadcast>
    ghost var op: Op
    var cursor: nat  // the next await of the script

    ghost function Contents(): State
      reads this
    {
      State(sends, intents, todo, op, confirming, chains, sent, landed)
    }

    method RunMeanwhile(steps: seq<Step>)
      requires forall step | step in steps :: Elsewhere(step)
      modifies this`sends, this`confirming, this`chains, this`landed
      ensures Contents() == Run(old(Contents()), steps)
    {
      ghost var s := Contents();
      var i := 0;
      while i < |steps|
        invariant 0 <= i <= |steps|
        invariant Contents() == Run(s, steps[..i])
      {
        assert steps[..i + 1] == steps[..i] + [steps[i]];
        RunOfOneMore(s, steps[..i], steps[i]);
        DoElsewhere(steps[i]);
        i := i + 1;
      }
      assert steps[..i] == steps;
    }

    /** Lets pass what others do during the next await. */
    method AwaitNext(script: seq<Await>, ghost before: State, ghost done: seq<Step>)
      returns (answer: Answer, ghost trace: seq<Step>)
      requires ScriptOk(script) && Contents() == Run(before, done)
      modifies this
      ensures op == old(op) && todo == old(todo) && intents == old(intents) && sent == old(sent)
      ensures Contents() == Run(before, trace) && trace == done + Meanwhile(script, old(cursor))
      ensures Contents() == Run(old(Contents()), Meanwhile(script, old(cursor)))
      ensures answer == AnswerAt(script, old(cursor)) && cursor == old(cursor) + 1
      ensures confirming <= old(confirming) && AllKept(old(sends), sends)
    {
      var steps;
      if cursor < |script| {
        assert script[cursor] in script;
        answer, steps := script[cursor].answer, script[cursor].meanwhile;
      } else {
        answer, steps := Dies, [];
      }
      cursor := cursor + 1;
      trace := done + steps;
      RunOfConcat(before, done, steps);
      ElsewhereKeepsOp(Contents(), steps);
      RunMeanwhile(steps);
    }

    /** A caller, the watcher or a confirmation poll writes to the stores. */
    method DoInStores(step: Step)
      requires step.QueueSend? || step.ConfirmPoll? || step.ConfirmGiveUp? || step.WatchConfirmed?
      modifies this`sends, this`confirming
      ensures Contents() == Apply(old(Contents()), step)
    {
      match step
      case QueueSend(id, send) =>
        if id !in sends && send.status == Queued && send.blockHash == None
          && forall x | x in sends :: sends[x].key != send.key {
          sends := sends[id := send];
        }
      case ConfirmPoll(p) =>
        if p in confirming && p.0 in sends && OnLedger(chains, p.1) {
          sends := sends[p.0 := sends[p.0].(status := Confirmed)];
          confirming := confirming - {p};
        }
      case ConfirmGiveUp(p) =>
        if p in confirming {
          confirming := confirming - {p};
        }
      case WatchConfirmed(id) =>
        if id in sends && sends[id].status == SendProtocol.Published && sends[id].blockHash.Some?
          && OnLedger(chains, sends[id].blockHash.value) {
          sends := sends[id := sends[id].(status := Confirmed)];
        }
    }

    /** The node takes a block that was broadcast earlier, or a receive. */
    method DoOnLedger(step: Step)
      requires step.Land? || step.LandReceive?
      modifies this`chains, this`landed
      ensures Contents() == Apply(old(Contents()), step)
    {
      match step
      case Land(b) =>
        if b in sent && Accepts(chains, b.block) {
          chains := Append(chains, b.block.body);
          landed := landed[HashOf(b.block.body) := b];
        }
      case LandReceive(body) =>
        if body.link.FromBlock? && body.previous == Frontier(chains, body.account) {
          chains := Append(chains, body);
        }
    }

    method DoElsewhere(step: Step)
      requires Elsewhere(step)
      modifies this`sends, this`confirming, this`chains, this`landed
      ensures Contents() == Apply(old(Contents()), step)
    {
      if step.Land? || step.LandReceive? {
        DoOnLedger(step);
      } else {
        DoInStores(step);
      }
    }

    /** Leaves the send as it is stored, for a later tick; a dead process loses its memory as well. */
    method Leave(answer: Answer, ghost before: State, ghost done: seq<Step>) returns (ghost trace: seq<Step>)
      requires Contents() == Run(before, done) && op != Idle
      modifies this`todo, this`confirming, this`op
      ensures Contents() == Run(before, trace) && trace == done + [LeaveStep(answer)]
      ensures op == Idle && todo == (if answer == Dies then [] else old(todo))
      ensures confirming == if answer == Dies then {} else old(confirming)
    {
      RunOfOneMore(before, done, LeaveStep(answer));
      trace := done + [LeaveStep(answer)];
      op := Idle;
      if answer == Dies {
        todo, confirming := [], {};
      }
    }

    method SetFailed(id: SendId)
      requires id in sends && (op == FailingUnfunded(id) || op == FailingWork(id))
      modifies this`sends, this`op
      ensures Contents() == Apply(old(Contents()), if old(op).FailingUnfunded? then FailUnfunded else FailWork)
      ensures sends == old(sends)[id := old(sends)[id].(status := Failed)] && op == Idle
    {
      sends := sends[id := sends[id].(status := Failed)];
      op := Idle;
    }

    /** `update(send.id, { status: 'failed' })` under the lease: the send is failed
        if the lease is still held and the update returns, and otherwise left alone. */
    method MarkFailed(id: SendId, script: seq<Await>, ghost before: State, ghost done: seq<Step>)
      returns (ghost trace: seq<Step>)
      requires ScriptOk(script) && Contents() == Run(before, done)
      requires id in sends && (op == FailingUnfunded(id) || op == FailingWork(id))
      modifies this
      ensures Contents() == Run(before, trace) && op == Idle && intents == old(intents)
              && (todo == old(todo) || todo == [])
      ensures AllKeptBut(old(sends), sends, id)
      ensures if AnswerAt(script, old(cursor)) == Returns then sends[id] == old(sends)[id].(status := Failed)
                else Kept(old(sends)[id], sends[id])
      ensures Obeys(FailVerdict(script, old(cursor)), old(Contents()), Contents(), id)
    {
      var answer;
      answer, trace := AwaitNext(script, before, done);
      if !answer.Returns? {
        trace := Leave(answer, before, trace);
        return;
      }
      ghost var step := if op == FailingUnfunded(id) then FailUnfunded else FailWork;
      RunOfOneMore(before, trace, step);
      trace := trace + [step];
      SetFailed(id);
    }

    /** Signs on the reported frontier, or finds the send unfunded. */
    method Sign(id: SendId, frontier: Hash, work: Work, ghost before: State, ghost done: seq<Step>)
      returns (signed: Option<Intent>, ghost trace: seq<Step>)
      requires Contents() == Run(before, done) && op == Preparing(id) && id in sends
      requires Reported(chains, sends[id].source.address, frontier)
      modifies this`op
      ensures Contents() == Run(before, trace)
      ensures op == if signed.None? then FailingUnfunded(id) else SavingIntent(id, signed.value)
      ensures signed == SignedIntent(sends[id], frontier, work)
      ensures Contents() == Apply(old(Contents()), ReadAccount(frontier, work))
    {
      ghost var step := ReadAccount(frontier, work);
      RunOfOneMore(before, done, step);
      trace := done + [step];
      var send := sends[id];
      if BalanceAt(frontier) < send.amount {
        op := FailingUnfunded(id);
        return None, trace;
      }
      var body := SpendBody(send, frontier);
      signed := Some(Intent(HashOf(body), Block(body, work), frontier, body.balance));
      op := SavingIntent(id, signed.value);
    }

    method SetIntent(id: SendId, signed: Intent) returns (kept: Intent)
      requires op == SavingIntent(id, signed)
      modifies this`intents, this`op
      ensures Contents() == Apply(old(Contents()), SaveIntent)
      ensures kept == (if id in old(intents) then old(intents)[id] else signed) && intents == old(intents)[id := kept]
      ensures op == Broadcasting(id, kept, kept.block, First)
    {
      kept := if id in intents then intents[id] else signed;
      intents := intents[id := kept];
      op := Broadcasting(id, kept, kept.block, First);
    }

    /** Saves the signed intent, unless the send has one by now. */
    method Save(id: SendId, signed: Intent, script: seq<Await>, ghost before: State, ghost done: seq<Step>)
      returns (intent: Option<Intent>, ghost trace: seq<Step>)
      requires ScriptOk(script) && Contents() == Run(before, done) && op == SavingIntent(id, signed) && id in sends
      modifies this
      ensures Contents() == Run(before, trace) && (todo == old(todo) || todo == [])
      ensures op == if intent.None? then Idle else Broadcasting(id, intent.value, intent.value.block, First)
      ensures AllKept(old(sends), sends)
      ensures intent.Some? <==> AnswerAt(script, old(cursor)) == Returns
      ensures intent.Some? ==> intent.value == if id in old(intents) then old(intents)[id] else signed
      ensures intents == if intent.Some? then old(intents)[id := intent.value] else old(intents)
      ensures intent.Some? ==> Contents() == After(old(Contents()), script, old(cursor), SaveIntent)
      ensures intent.Some? ==> cursor == old(cursor) + 1
      ensures Obeys(if intent.Some? then Stays else GivesUp(AnswerAt(script, old(cursor))), old(Contents()), Contents(),
                    id)
    {
      var answer;
      answer, trace := AwaitNext(script, before, done);
      if !answer.Returns? {
        trace := Leave(answer, before, trace);
        return None, trace;
      }
      RunOfOneMore(before, trace, SaveIntent);
      trace := trace + [SaveIntent];
      var kept := SetIntent(id, signed);
      return Some(kept), trace;
    }

    /** Either the intent is about to be broadcast, and the verdict is what that comes to, or it is reached. */
    ghost predicate ReachesBroadcast(v: Verdict, before: State, id: SendId, intent: Option<Intent>, script: seq<Await>)
      reads this
    {
      if intent.Some? then
        v == FirstVerdict(Contents(), script, cursor, intent.value) && Obeys(Stays, before, Contents(), id)
      else !v.Publishes? && Obeys(v, before, Contents(), id)
    }

    /** Either the hash is about to be recorded, or the verdict is reached. */
    ghost predicate ReachesRecord(v: Verdict, before: State, id: SendId, outcome: Outcome, script: seq<Await>)
      reads this
    {
      if outcome.Taken? then v == RecordVerdict(script, cursor, outcome.hash) && Obeys(Stays, before, Contents(), id)
      else Obeys(v, before, Contents(), id)
    }

    /** Signs and saves the intent before any broadcast, or fails a send that is unfunded. */
    method SignAndSave(id: SendId, frontier: Hash, work: Work, script: seq<Await>, ghost before: State,
                       ghost done: seq<Step>)
      returns (intent: Option<Intent>, ghost trace: seq<Step>)
      requires ScriptOk(script) && Contents() == Run(before, done) && op == Preparing(id) && id in sends
               && id !in intents
      requires Reported(chains, sends[id].source.address, frontier)
      modifies this
      ensures Contents() == Run(before, trace)
      ensures op == if intent.None? then Idle else Broadcasting(id, intent.value, intent.value.block, First)
      ensures AllKeptBut(old(sends), sends, id)
      ensures var signed, next := SignedIntent(old(sends)[id], frontier, work), AnswerAt(script, old(cursor));
              && intent == (if next == Returns then signed else None)
              && intents == (if intent.Some? then old(intents)[id := intent.value] else old(intents))
      ensures ReachesBroadcast(SignedVerdict(old(Contents()), old(sends)[id], script, old(cursor), frontier, work),
                               old(Contents()), id, intent, script)
    {
      var signed;
      signed, trace := Sign(id, frontier, work, before, done);
      ghost var m, send := Contents(), old(sends)[id];
      assert Obeys(Stays, old(Contents()), m, id);
      ghost var v := SignedVerdict(old(Contents()), send, script, old(cursor), frontier, work);
      if signed.None? {
        assert v == FailVerdict(script, cursor);
        trace := MarkFailed(id, script, before, trace);
        intent := None;
      } else {
        assert v == if AnswerAt(script, cursor) == Returns
                    then FirstVerdict(After(m, script, cursor, SaveIntent), script, cursor + 1, signed.value)
                    else GivesUp(AnswerAt(script, cursor));
        intent, trace := Save(id, signed.value, script, before, trace);
      }
      assert Obeys(if intent.Some? then Stays else v, m, Contents(), id);
      ObeysAfterStaying(if intent.Some? then Stays else v, old(Contents()), m, Contents(), id);
      OthersKeptTwice(old(sends), m.sends, sends, id);
    }

    /** No saved intent: ask for the frontier, sign, find work, and save the intent
        before any broadcast. The send fails exactly if the reported balance is too
        low; anything else that goes wrong leaves it for a later tick. */
    method PrepareIntent(id: SendId, script: seq<Await>, ghost before: State, ghost done: seq<Step>)
      returns (intent: Option<Intent>, ghost trace: seq<Step>)
      requires ScriptOk(script) && Contents() == Run(before, done) && op == Preparing(id) && id in sends
               && id !in intents
      modifies this
      ensures Contents() == Run(before, trace)
      ensures op == if intent.None? then Idle else Broadcasting(id, intent.value, intent.value.block, First)
      ensures AllKeptBut(old(sends), sends, id)
      ensures var account := AccountAnswer(old(Contents()), script, old(cursor), old(sends)[id].source.address);
              var signed := if account.None? then None
                else SignedIntent(old(sends)[id], account.value.frontier, account.value.work);
              var next := AnswerAt(script, old(cursor) + 1);
              && intent == (if next == Returns then signed else None)
              && intents == (if intent.Some? then old(intents)[id := intent.value] else old(intents))
              && if account.Some? && signed.None? && next == Returns then sends[id] == old(sends)[id].(status := Failed)
                 else Kept(old(sends)[id], sends[id])
      ensures ReachesBroadcast(PrepareVerdict(old(Contents()), old(sends)[id], script, old(cursor)),
                               old(Contents()), id, intent, script)
    {
      var answer;
      answer, trace := AwaitNext(script, before, done);
      ghost var asked, send := Contents(), old(sends)[id];
      assert Obeys(Stays, old(Contents()), asked, id) && sends[id].source == send.source;
      ghost var account := AccountAnswer(old(Contents()), script, old(cursor), send.source.address);
      if answer.Account? && Reported(chains, sends[id].source.address, answer.frontier) {
        assert account == Some(answer);
        assert SignedIntent(sends[id], answer.frontier, answer.work)
                 == SignedIntent(send, answer.frontier, answer.work);
        ghost var v := SignedVerdict(asked, sends[id], script, cursor, answer.frontier, answer.work);
        assert PrepareVerdict(old(Contents()), send, script, old(cursor)) == v;
        intent, trace := SignAndSave(id, answer.frontier, answer.work, script, before, trace);
        ObeysAfterStaying(if intent.Some? then Stays else v, old(Contents()), asked, Contents(), id);
      } else {
        assert account.None?;
        trace := Leave(answer, before, trace);
        intent := None;
      }
      OthersKeptTwice(old(sends), asked.sends, sends, id);
    }

    method TakeAnswer(id: SendId, intent: Intent, block: Block, attempt: Attempt, answer: Answer, ghost before: State,
                      ghost done: seq<Step>)
      returns (outcome: Outcome, ghost trace: seq<Step>)
      requires Contents() == Run(before, done) && op == Broadcasting(id, intent, block, attempt)
      modifies this`sent, this`chains, this`landed, this`op, this`todo, this`confirming
      ensures Contents() == Run(before, trace) && (todo == old(todo) || todo == [])
      ensures op == AfterBroadcast(id, intent, block, attempt, outcome)
      ensures outcome == if answer.Replies? && Enabled(old(Contents()), Process(answer.reply))
                then OutcomeOf(answer.reply, intent, block) else Stopped
      ensures outcome == RejectedWork ==> Contents() == Apply(old(Contents()), Process(WorkRejected))
      ensures sent == old(sent) + if answer.Replies? && Enabled(old(Contents()), Process(answer.reply))
                                  then {SendProtocol.Broadcast(id, block)} else {}
      ensures todo == (if answer == Dies then [] else old(todo))
              && confirming == if answer == Dies then {} else old(confirming)
    {
      if !answer.Replies? || !Answerable(answer.reply, intent, block) {
        trace := Leave(answer, before, done);
        return Stopped, trace;
      }
      RunOfOneMore(before, done, Process(answer.reply));
      trace := done + [Process(answer.reply)];
      outcome := Hear(id, intent, block, attempt, answer.reply);
    }

    /** The `publish` closure: one broadcast of this JSON version and what the node says to it. */
    method Broadcast(id: SendId, intent: Intent, block: Block, attempt: Attempt, script: seq<Await>,
                     ghost before: State, ghost done: seq<Step>)
      returns (outcome: Outcome, ghost trace: seq<Step>)
      requires ScriptOk(script) && Contents() == Run(before, done)
      requires op == Broadcasting(id, intent, block, attempt) && id in sends
      modifies this
      ensures Contents() == Run(before, trace) && intents == old(intents) && (todo == old(todo) || todo == [])
      ensures op == AfterBroadcast(id, intent, block, attempt, outcome) && cursor == old(cursor) + 1
      ensures AllKept(old(sends), sends)
      ensures outcome == RejectedWork <==> AnswerAt(script, old(cursor)) == Replies(WorkRejected) && !block.work.ok
      ensures outcome == BroadcastOutcome(old(Contents()), script, old(cursor), intent, block)
      ensures outcome == RejectedWork ==>
                Contents() == After(old(Contents()), script, old(cursor), Process(WorkRejected))
      ensures sent == old(sent) + CallMade(old(Contents()), script, old(cursor), id, block)
      ensures Obeys(if outcome == Stopped then GivesUp(AnswerAt(script, old(cursor))) else Stays, old(Contents()),
                    Contents(), id)
    {
      var answer;
      answer, trace := AwaitNext(script, before, done);
      outcome, trace := TakeAnswer(id, intent, block, attempt, answer, before, trace);
    }

    /** The block has been sent; take the node's reply. */
    method Hear(id: SendId, intent: Intent, block: Block, attempt: Attempt, reply: Reply) returns (outcome: Outcome)
      requires op == Broadcasting(id, intent, block, attempt) && Answerable(reply, intent, block)
      modifies this`sent, this`chains, this`landed, this`op
      ensures Contents() == Apply(old(Contents()), Process(reply))
      ensures op == AfterBroadcast(id, intent, block, attempt, outcome) && outcome == OutcomeOf(reply, intent, block)
    {
      var broadcast := SendProtocol.Broadcast(id, block);
      sent := sent + {broadcast};
      outcome := Stopped;
      match reply {
        case Accepted =>
          chains := Append(chains, block.body);
          landed := landed[HashOf(block.body) := broadcast];
          if HashOf(block.body) == intent.hash {
            outcome := Taken(intent.hash);
          }
        case OldBlock(known) =>
          if known {
            outcome := Taken(intent.hash);
          }
        case WorkRejected =>
          outcome := RejectedWork;
        case Ambiguous =>
      }
      op := AfterBroadcast(id, intent, block, attempt, outcome);
    }

    predicate Answerable(reply: Reply, intent: Intent, block: Block)
      reads this
    {
      && (reply.Accepted? ==> Accepts(chains, block))
      && (reply.OldBlock? && reply.known ==> OnLedger(chains, intent.hash))
      && (reply.WorkRejected? ==> !block.work.ok)
    }

    /** The JSON with new work replaces the stored one, unless the intent is another by now. */
    method ReplaceWork(id: SendId, intent: Intent, updated: Block) returns (replaced: bool)
      requires op.Reworking? && op == Reworking(id, intent, op.block) && updated.body == op.block.body
      modifies this`intents, this`op
      ensures Contents() == Apply(old(Contents()), UpdateWork(updated.work))
      ensures op == if replaced then Broadcasting(id, intent, updated, Second) else Idle
      ensures replaced <==> Stored(old(intents), id, intent)
      ensures intents == Reworked(old(intents), id, intent, updated)
    {
      replaced := id in intents && intents[id].hash == intent.hash;
      op := if replaced then Broadcasting(id, intent, updated, Second) else Idle;
      if replaced {
        intents := intents[id := intents[id].(block := updated)];
      }
    }

    /** The second broadcast; if the node refuses its work as well, the send fails. */
    method BroadcastAgain(id: SendId, intent: Intent, block: Block, script: seq<Await>, ghost before: State,
                          ghost done: seq<Step>)
      returns (outcome: Outcome, ghost trace: seq<Step>)
      requires ScriptOk(script) && Contents() == Run(before, done)
      requires op == Broadcasting(id, intent, block, Second) && id in sends
      modifies this
      ensures Contents() == Run(before, trace) && intents == old(intents) && (todo == old(todo) || todo == [])
      ensures op == (if outcome.Taken? then Publishing(id, outcome.hash) else Idle)
              && (outcome.Taken? ==> outcome.hash == intent.hash)
      ensures AllKeptBut(old(sends), sends, id)
      ensures if RefusedAgain(script, old(cursor), block.work)
              then sends[id] == old(sends)[id].(status := Failed) else Kept(old(sends)[id], sends[id])
      ensures ReachesRecord(SecondVerdict(old(Contents()), script, old(cursor), intent, block), old(Contents()), id,
                            outcome, script)
    {
      outcome, trace := Broadcast(id, intent, block, Second, script, before, done);
      if outcome == RejectedWork {
        ghost var refused := Contents();
        trace := MarkFailed(id, script, before, trace);
        ObeysAfterStaying(FailVerdict(script, old(cursor) + 1), old(Contents()), refused, Contents(), id);
      }
    }

    /** With the new work: replace the stored JSON, broadcast once more. */
    method Rework(id: SendId, intent: Intent, block: Block, work: Work, script: seq<Await>, ghost before: State,
                  ghost done: seq<Step>)
      returns (outcome: Outcome, ghost trace: seq<Step>)
      requires ScriptOk(script) && Contents() == Run(before, done)
      requires op == Reworking(id, intent, block) && id in sends
      modifies this
      ensures Contents() == Run(before, trace) && (todo == old(todo) || todo == [])
      ensures op == (if outcome.Taken? then Publishing(id, outcome.hash) else Idle)
              && (outcome.Taken? ==> outcome.hash == intent.hash)
      ensures AllKeptBut(old(sends), sends, id)
      ensures outcome.Taken? ==> Stored(old(intents), id, intent)
      ensures intents == Reworked(old(intents), id, intent, Block(block.body, work))
      ensures if Stored(old(intents), id, intent) && RefusedAgain(script, old(cursor), work)
              then sends[id] == old(sends)[id].(status := Failed) else Kept(old(sends)[id], sends[id])
      ensures Stored(old(intents), id, intent) ==>
                ReachesRecord(SecondVerdict(Apply(old(Contents()), UpdateWork(work)), script, old(cursor), intent,
                                            Block(block.body, work)),
                              old(Contents()), id, outcome, script)
    {
      RunOfOneMore(before, done, UpdateWork(work));
      trace := done + [UpdateWork(work)];
      var updated := Block(block.body, work);
      var replaced := ReplaceWork(id, intent, updated);
      outcome := Stopped;
      if replaced {
        outcome, trace := BroadcastAgain(id, intent, updated, script, before, trace);
      }
    }

    /** The node refused the work: find new work, replace the stored JSON, broadcast
        once more. The send fails exactly if the node refuses the new work, too. */
    method Retry(id: SendId, intent: Intent, block: Block, script: seq<Await>, ghost before: State,
                 ghost done: seq<Step>)
      returns (outcome: Outcome, ghost trace: seq<Step>)
      requires ScriptOk(script) && Contents() == Run(before, done)
      requires op == Reworking(id, intent, block) && id in sends
      modifies this
      ensures Contents() == Run(before, trace) && (todo == old(todo) || todo == [])
      ensures op == (if outcome.Taken? then Publishing(id, outcome.hash) else Idle)
              && (outcome.Taken? ==> outcome.hash == intent.hash)
      ensures AllKeptBut(old(sends), sends, id)
      ensures var generated := AnswerAt(script, old(cursor));
              && (outcome.Taken? ==> generated.Generated? && Stored(old(intents), id, intent))
              && intents ==
                 (if generated.Generated? then Reworked(old(intents), id, intent, Block(block.body, generated.work))
                  else old(intents))
              && if generated.Generated? && Stored(old(intents), id, intent)
                 && RefusedAgain(script, old(cursor) + 1, generated.work)
                 then sends[id] == old(sends)[id].(status := Failed) else Kept(old(sends)[id], sends[id])
      ensures Stored(old(intents), id, intent) ==>
                ReachesRecord(RetryVerdict(old(Contents()), script, old(cursor), intent, block.body), old(Contents()),
                              id, outcome, script)
    {
      var answer;
      answer, trace := AwaitNext(script, before, done);
      if !answer.Generated? {
        trace := Leave(answer, before, trace);
        return Stopped, trace;
      }
      ghost var asked := Contents();
      outcome, trace := Rework(id, intent, block, answer.work, script, before, trace);
      if !outcome.Taken? && Stored(old(intents), id, intent) {
        ObeysAfterStaying(RetryVerdict(old(Contents()), script, old(cursor), intent, block.body),
                          old(Contents()), asked, Contents(), id);
      }
    }

    method GetIntent(id: SendId) returns (intent: Option<Intent>)
      requires op == Loading(id)
      modifies this`op
      ensures Contents() == Apply(old(Contents()), ReadIntent)
      ensures intent == if id in intents then Some(intents[id]) else None
      ensures op == if intent.None? then Preparing(id) else Broadcasting(id, intent.value, intent.value.block, First)
    {
      intent := if id in intents then Some(intents[id]) else None;
      op := if intent.None? then Preparing(id) else Broadcasting(id, intent.value, intent.value.block, First);
    }

    /** The saved intent, or a new one. */
    method FindIntent(id: SendId, script: seq<Await>, ghost before: State, ghost done: seq<Step>)
      returns (intent: Option<Intent>, ghost trace: seq<Step>)
      requires ScriptOk(script) && Contents() == Run(before, done) && op == Loading(id) && id in sends && cursor == 0
      modifies this
      ensures Contents() == Run(before, trace) && (todo == old(todo) || todo == [])
      ensures op == if intent.None? then Idle else Broadcasting(id, intent.value, intent.value.block, First)
      ensures AllKeptBut(old(sends), sends, id)
      ensures intent.Some? ==> id in intents && intent.value == intents[id]
      ensures ReachesBroadcast(VerdictOf(old(Contents()), id, script), old(Contents()), id, intent, script)
    {
      var answer;
      answer, trace := AwaitNext(script, before, done);
      if !answer.Returns? {
        trace := Leave(answer, before, trace);
        return None, trace;
      }
      RunOfOneMore(before, trace, ReadIntent);
      trace := trace + [ReadIntent];
      intent := GetIntent(id);
      if intent.None? {
        ghost var asked := Contents();
        SameTransfer(old(Contents()), asked, id);
        intent, trace := PrepareIntent(id, script, before, trace);
        if intent.None? {
          ObeysAfterStaying(VerdictOf(old(Contents()), id, script), old(Contents()), asked, Contents(), id);
        }
      }
    }

    /** Broadcasts the intent, with new work if the node refuses the first. */
    method BroadcastIntent(id: SendId, intent: Intent, script: seq<Await>, ghost before: State, ghost done: seq<Step>)
      returns (outcome: Outcome, ghost trace: seq<Step>)
      requires ScriptOk(script) && Contents() == Run(before, done)
               && op == Broadcasting(id, intent, intent.block, First) && id in sends && Stored(intents, id, intent)
      modifies this
      ensures Contents() == Run(before, trace) && (todo == old(todo) || todo == [])
      ensures op == if outcome.Taken? then Publishing(id, outcome.hash) else Idle
      ensures AllKeptBut(old(sends), sends, id) && Stored(intents, id, intent)
              && (outcome.Taken? ==> outcome.hash == intent.hash)
      ensures ReachesRecord(FirstVerdict(old(Contents()), script, old(cursor), intent), old(Contents()), id, outcome,
                            script)
    {
      outcome, trace := Broadcast(id, intent, intent.block, First, script, before, done);
      ghost var called, v := Contents(), FirstVerdict(old(Contents()), script, old(cursor), intent);
      if outcome == RejectedWork {
        assert v == RetryVerdict(called, script, cursor, intent, intent.block.body);
        outcome, trace := Retry(id, intent, intent.block, script, before, trace);
        ObeysAfterStaying(if outcome.Taken? then Stays else v, old(Contents()), called, Contents(), id);
      } else {
        assert v == if outcome.Taken? then RecordVerdict(script, cursor, outcome.hash)
                 else GivesUp(AnswerAt(script, old(cursor)));
      }
      OthersKeptTwice(old(sends), called.sends, sends, id);
    }

    /** Broadcasts the intent and records the publication. */
    method PublishIntent(id: SendId, intent: Intent, script: seq<Await>, ghost before: State, ghost done: seq<Step>)
      returns (ghost trace: seq<Step>)
      requires ScriptOk(script) && Contents() == Run(before, done)
               && op == Broadcasting(id, intent, intent.block, First) && id in sends && Stored(intents, id, intent)
      modifies this
      ensures Contents() == Run(before, trace) && op == Idle && (todo == old(todo) || todo == [])
      ensures AllKeptBut(old(sends), sends, id) && Stored(intents, id, intent)
      ensures Obeys(FirstVerdict(old(Contents()), script, old(cursor), intent), old(Contents()), Contents(), id)
    {
      var outcome;
      outcome, trace := BroadcastIntent(id, intent, script, before, done);
      if outcome.Taken? {
        ghost var taken := Contents();
        trace := Finish(id, outcome.hash, script, before, trace);
        ObeysAfterStaying(FirstVerdict(old(Contents()), script, old(cursor), intent), old(Contents()), taken,
                          Contents(), id);
      }
    }

    /** The whole operation: afterwards the stores are what some run of the protocol
        makes of them, no other send was touched, and its own is published, failed or
        left alone as the script decides. */
    method PublishSendUnderLease(id: SendId, script: seq<Await>) returns (ghost trace: seq<Step>)
      requires ScriptOk(script) && op == Loading(id) && id in sends
      modifies this
      ensures Contents() == Run(old(Contents()), trace) && op == Idle && (todo == old(todo) || todo == [])
      ensures AllKeptBut(old(sends), sends, id)
      ensures Obeys(VerdictOf(old(Contents()), id, script), old(Contents()), Contents(), id)
      ensures VerdictOf(old(Contents()), id, script).Publishes? ==>
                id in intents && sends[id].blockHash == Some(intents[id].hash)
    {
      ghost var before := Contents();
      cursor := 0;
      var intent;
      intent, trace := FindIntent(id, script, before, []);
      if intent.Some? {
        ghost var found := Contents();
        HashIsTheIntents(found, script, cursor, intent.value);
        ghost var v := FirstVerdict(found, script, cursor, intent.value);
        trace := PublishIntent(id, intent.value, script, before, trace);
        ObeysAfterStaying(v, before, found, Contents(), id);
      }
    }

    method SetPublished(id: SendId, hash: Hash, announced: bool)
      requires id in sends && op == Publishing(id, hash)
      modifies this`sends, this`confirming, this`op
      ensures Contents() == Apply(old(Contents()), Publish(announced))
      ensures sends == old(sends)[id := old(sends)[id].(status := SendProtocol.Published, blockHash := Some(hash))]
              && op == Idle
      ensures confirming == if announced then old(confirming) + {(id, hash)} else old(confirming)
    {
      sends := sends[id := sends[id].(status := SendProtocol.Published, blockHash := Some(hash))];
      op := Idle;
      if announced {
        confirming := confirming + {(id, hash)};
      }
    }

    /** Record the publication: the send is published if the update returns, and only
        if the event was emitted as well, the confirmation poll starts. */
    method Finish(id: SendId, hash: Hash, script: seq<Await>, ghost before: State, ghost done: seq<Step>)
      returns (ghost trace: seq<Step>)
      requires ScriptOk(script) && Contents() == Run(before, done) && op == Publishing(id, hash) && id in sends
      modifies this
      ensures Contents() == Run(before, trace) && op == Idle && intents == old(intents)
              && (todo == old(todo) || todo == [])
      ensures AllKeptBut(old(sends), sends, id)
      ensures var answer := AnswerAt(script, old(cursor));
              && (if answer == Returns || answer == Announced
                  then sends[id] == old(sends)[id].(status := SendProtocol.Published, blockHash := Some(hash))
                    else Kept(old(sends)[id], sends[id]))
              && (answer == Announced ==> (id, hash) in confirming)
              && (answer != Announced ==> confirming <= old(confirming))
      ensures Obeys(RecordVerdict(script, old(cursor), hash), old(Contents()), Contents(), id)
    {
      var answer;
      answer, trace := AwaitNext(script, before, done);
      ghost var asked, v := Contents(), RecordVerdict(script, old(cursor), hash);
      assert Obeys(Stays, old(Contents()), asked, id);
      if answer.Returns? || answer.Announced? {
        assert v == Publishes(hash, answer.Announced?);
        RunOfOneMore(before, trace, Publish(answer.Announced?));
        trace := trace + [Publish(answer.Announced?)];
        SetPublished(id, hash, answer.Announced?);
      } else {
        assert v == GivesUp(answer);
        trace := Leave(answer, before, trace);
      }
      assert Obeys(v, asked, Contents(), id);
      ObeysAfterStaying(v, old(Contents()), asked, Contents(), id);
      OthersKeptTwice(old(sends), asked.sends, sends, id);
    }

    /** Lists the queued sends, and starts polling for those already published. */
    method StartTick(queued: seq<SendId>)
      requires Enabled(Contents(), TickStart(queued))
      modifies this`confirming, this`todo
      ensures Contents() == Apply(old(Contents()), TickStart(queued))
      ensures forall id | id in sends && sends[id].status == SendProtocol.Published && sends[id].blockHash.Some? ::
                (id, sends[id].blockHash.value) in confirming
    {
      var published := set id | id in sends && sends[id].status == SendProtocol.Published && sends[id].blockHash.Some?;
      confirming := confirming + set id | id in published :: (id, sends[id].blockHash.value);
      todo := queued;
      assert confirming == old(confirming) + PublishedToConfirm(old(Contents()));
    }

    /** The turn of the first listed send; without its account's lease it is passed over. */
    method TakeTurn(leased: bool, script: seq<Await>, ghost before: State, ghost done: seq<Step>)
      returns (ghost trace: seq<Step>)
      requires ScriptOk(script) && Contents() == Run(before, done) && op == Idle && todo != [] && todo[0] in sends
      modifies this
      ensures Contents() == Run(before, trace) && op == Idle
      ensures Turn(old(Contents()), Contents(), old(todo)[0], leased, script)
      ensures todo == if leased && VerdictOf(Begun(old(Contents())), old(todo)[0], script) == Died then []
                else old(todo)[1..]
    {
      var id := todo[0];
      RunOfOneMore(before, done, Begin(leased));
      trace := done + [Begin(leased)];
      todo := todo[1..];
      if leased {
        op := Loading(id);
        assert Contents() == Begun(old(Contents()));
        ghost var steps := PublishSendUnderLease(id, script);
        RunOfConcat(before, trace, steps);
        trace := trace + steps;
      }
    }

    /** One tick: the queued sends one after the other, each with a script of its own,
        until all had their turn or the process died in one. What a turn makes of its
        send stays, and a send without a turn or without a lease is left alone. */
    method Tick(queued: seq<SendId>, free: set<SendId>, scripts: map<SendId, seq<Await>>)
      returns (ghost turns: seq<State>, ghost trace: seq<Step>)
      requires Enabled(Contents(), TickStart(queued)) && forall id | id in scripts :: ScriptOk(scripts[id])
      modifies this
      ensures Contents() == Run(old(Contents()), trace) && op == Idle && todo == []
      ensures 1 <= |turns| <= |queued| + 1 && Turns(turns, queued, free, scripts)
      ensures turns[0] == Apply(old(Contents()), TickStart(queued)) && turns[|turns| - 1] == Contents()
      ensures |turns| == |queued| + 1 || (|turns| > 1 && DiedIn(turns[|turns| - 2], queued[|turns| - 2], free, scripts))
      ensures forall i | 0 <= i < |turns| - 1 :: queued[i] in turns[i + 1].sends && queued[i] in sends
                && Kept(turns[i + 1].sends[queued[i]], sends[queued[i]])
      ensures forall x | x in old(sends) && (x !in queued || x !in free) :: x in sends && Kept(old(sends)[x], sends[x])
    {
      ghost var before := Contents();
      trace := [] + [TickStart(queued)];
      RunOfOneMore(before, [], TickStart(queued));
      StartTick(queued);
      turns, trace := TakeTurns(queued, free, scripts, before, trace);
      TurnsKeep(turns, queued, free, scripts);
    }

    method TakeTurns(queued: seq<SendId>, free: set<SendId>, scripts: map<SendId, seq<Await>>, ghost before: State,
                     ghost done: seq<Step>)
      returns (ghost turns: seq<State>, ghost trace: seq<Step>)
      requires Contents() == Run(before, done) && op == Idle && todo == queued
               && forall id | id in queued :: id in sends
      requires forall id | id in scripts :: ScriptOk(scripts[id])
      modifies this
      ensures Contents() == Run(before, trace) && op == Idle && todo == []
      ensures 1 <= |turns| <= |queued| + 1 && Turns(turns, queued, free, scripts)
      ensures turns[0] == old(Contents()) && turns[|turns| - 1] == Contents()
      ensures |turns| == |queued| + 1 || (|turns| > 1 && DiedIn(turns[|turns| - 2], queued[|turns| - 2], free, scripts))
    {
      turns, trace := [Contents()], done;
      ghost var n := 0;
      while todo != []
        invariant Contents() == Run(before, trace) && op == Idle && old(sends.Keys) <= sends.Keys
        invariant n <= |queued| && |turns| == n + 1 && turns[n] == Contents() && turns[0] == old(Contents())
        invariant Turns(turns, queued, free, scripts)
        invariant todo == queued[n..] || (n > 0 && todo == [] && DiedIn(turns[n - 1], queued[n - 1], free, scripts))
        decreases |todo|
      {
        ghost var t;
        t, trace := NextTurn(queued, free, scripts, turns, before, trace);
        turns, n := turns + [t], n + 1;
      }
    }

    /** One more turn of the tick. */
    method NextTurn(queued: seq<SendId>, free: set<SendId>, scripts: map<SendId, seq<Await>>, ghost turns: seq<State>,
                    ghost before: State, ghost done: seq<Step>)
      returns (ghost t: State, ghost trace: seq<Step>)
      requires Contents() == Run(before, done) && op == Idle && forall id | id in scripts :: ScriptOk(scripts[id])
      requires 1 <= |turns| <= |queued| && todo == queued[|turns| - 1..] && todo[0] in sends
      requires turns[|turns| - 1] == Contents() && Turns(turns, queued, free, scripts)
      modifies this
      ensures Contents() == Run(before, trace) && op == Idle && t == Contents() && old(sends.Keys) <= sends.Keys
      ensures Turns(turns + [t], queued, free, scripts)
      ensures todo == queued[|turns|..]
              || (todo == [] && DiedIn(turns[|turns| - 1], queued[|turns| - 1], free, scripts))
    {
      var id := todo[0];
      trace := TakeTurn(id in free, ScriptOf(scripts, id), before, done);
      t := Contents();
      SendsStay(old(Contents()), t, id, id in free, ScriptOf(scripts, id));
      OneMoreTurn(turns, t, queued, free, scripts);
    }
  }
}
