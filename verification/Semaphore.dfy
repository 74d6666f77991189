/** The promise-based semaphore that serializes RPC calls. A caller resumes when
    its promise is resolved; it releases once, in the `finally` of `rpcCall`. */
module RpcSemaphore {

  type Caller = nat

  datatype State = State(running: nat, queue: seq<Caller>)

  function Acquired(s: State, concurrency: nat, c: Caller): State {
    if s.running < concurrency then s.(running := s.running + 1) else s.(queue := s.queue + [c])
  }

  /** The slot goes straight to the first waiter, or becomes free. */
  function Released(s: State): State
    requires s.queue != [] || s.running > 0
  {
    if s.queue != [] then s.(queue := s.queue[1..]) else s.(running := s.running - 1)
  }

  class Semaphore {
    const concurrency: nat
    var running: nat
    var queue: seq<Caller>

    function Contents(): State
      reads this
    {
      State(running, queue)
    }

    constructor (concurrency: nat)
      ensures this.concurrency == concurrency && Contents() == State(0, [])
    {
      this.concurrency := concurrency;
      running, queue := 0, [];
    }

    method Acquire(c: Caller) returns (granted: bool)
      modifies this
      ensures Contents() == Acquired(old(Contents()), concurrency, c)
      ensures granted <==> old(running) < concurrency
    {
      granted := running < concurrency;
      if granted {
        running := running + 1;
      } else {
        queue := queue + [c];
      }
    }

    method Release() returns (next: seq<Caller>)
      requires queue != [] || running > 0
      modifies this
      ensures Contents() == Released(old(Contents()))
      ensures next == if old(queue) == [] then [] else [old(queue)[0]]
    {
      if queue != [] {
        next, queue := [queue[0]], queue[1..];
      } else {
        next, running := [], running - 1;
      }
    }
  }

  // ----- runs -----

  /** `arrived` and `granted` list the calls of `acquire` and the slots given, in order. */
  datatype System = System(sem: State, holders: set<Caller>, arrived: seq<Caller>, granted: seq<Caller>)

  const INIT := System(State(0, []), {}, [], [])

  datatype Step = Arrives(c: Caller) | Finishes(c: Caller)

  /** Each call arrives once, and releases while it holds a slot. */
  function Apply(s: System, concurrency: nat, step: Step): System {
    match step
    case Arrives(c) =>
      if c in s.arrived then s
      else if s.sem.running < concurrency then
        System(Acquired(s.sem, concurrency, c), s.holders + {c}, s.arrived + [c], s.granted + [c])
      else
        System(Acquired(s.sem, concurrency, c), s.holders, s.arrived + [c], s.granted)
    case Finishes(c) =>
      if c !in s.holders || (s.sem.queue == [] && s.sem.running == 0) then s
      else if s.sem.queue == [] then
        System(Released(s.sem), s.holders - {c}, s.arrived, s.granted)
      else
        System(Released(s.sem), s.holders - {c} + {s.sem.queue[0]}, s.arrived, s.granted + [s.sem.queue[0]])
  }

  function Run(concurrency: nat, steps: seq<Step>): System {
    if steps == [] then INIT else Apply(Run(concurrency, steps[..|steps| - 1]), concurrency, steps[|steps| - 1])
  }

  /** A call that arrives gets a free slot at once, or waits behind all others. */
  lemma ArrivalIff(s: System, concurrency: nat, c: Caller)
    requires c !in s.arrived
    ensures var t := Apply(s, concurrency, Arrives(c));
            && t.arrived == s.arrived + [c]
            && if s.sem.running < concurrency
               then t == System(State(s.sem.running + 1, s.sem.queue), s.holders + {c}, t.arrived, s.granted + [c])
               else t == System(State(s.sem.running, s.sem.queue + [c]), s.holders, t.arrived, s.granted)
  {
  }

  ghost predicate Distinct(cs: seq<Caller>) {
    forall i, j | 0 <= i < j < |cs| :: cs[i] != cs[j]
  }

  ghost predicate Inv(s: System, concurrency: nat) {
    && |s.holders| == s.sem.running <= concurrency
    && (s.sem.queue != [] ==> s.sem.running == concurrency)
    && s.arrived == s.granted + s.sem.queue
    && Distinct(s.arrived)
    && (forall c | c in s.holders :: c in s.granted)
  }

  lemma FinishKeepsInv(s: System, concurrency: nat, c: Caller)
    requires Inv(s, concurrency) && c in s.holders && s.sem.queue != []
    ensures Inv(Apply(s, concurrency, Finishes(c)), concurrency)
  {
    var first := s.sem.queue[0];
    assert s.arrived[|s.granted|] == first;
    forall i | 0 <= i < |s.granted|
      ensures s.granted[i] != first
    {
      assert s.arrived[i] == s.granted[i];
    }
    assert s.granted + s.sem.queue == s.granted + [first] + s.sem.queue[1..];
  }

  lemma StepKeepsInv(s: System, concurrency: nat, step: Step)
    requires Inv(s, concurrency)
    ensures Inv(Apply(s, concurrency, step), concurrency)
  {
    match step
    case Arrives(c) =>
      assert c in s.granted ==> c in s.arrived;
    case Finishes(c) =>
      if c in s.holders && s.sem.queue != [] {
        FinishKeepsInv(s, concurrency, c);
      }
  }

  /** In every interleaving: the slots in use are exactly the holders and never
      too many, nobody waits while a slot is free, and slots are granted in the
      order of arrival, so that no waiter is skipped or lost. */
  lemma {:induction false} SlotsAreFairAndBounded(concurrency: nat, steps: seq<Step>)
    ensures var s := Run(concurrency, steps);
            && |s.holders| == s.sem.running <= concurrency
            && (s.sem.queue != [] ==> s.sem.running == concurrency)
            && s.arrived == s.granted + s.sem.queue
            && Inv(s, concurrency)
  {
    if steps != [] {
      SlotsAreFairAndBounded(concurrency, steps[..|steps| - 1]);
      StepKeepsInv(Run(concurrency, steps[..|steps| - 1]), concurrency, steps[|steps| - 1]);
    }
  }

  /** With at least one slot, nobody waits for nothing: some holder exists, and
      whichever holder releases, its slot goes to the longest-waiting call. */
  lemma WaitersAreServed(concurrency: nat, steps: seq<Step>)
    requires concurrency > 0 && Run(concurrency, steps).sem.queue != []
    ensures Run(concurrency, steps).holders != {}
    ensures var s := Run(concurrency, steps);
            forall c | c in s.holders ::
              var t := Apply(s, concurrency, Finishes(c));
              t.granted == s.granted + [s.sem.queue[0]] && s.sem.queue[0] in t.holders && t.sem.running == s.sem.running
  {
    SlotsAreFairAndBounded(concurrency, steps);
  }
}
