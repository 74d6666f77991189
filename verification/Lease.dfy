/** Durable account-operation leases with fencing tokens: the rule both stores
    follow, the two stores, and what any run under a non-decreasing clock keeps. */
module AccountLease {
  import opened Wrappers
  import opened Ledger

  datatype Lease = Lease(address: Address, owner: string, token: nat, expiresAt: nat)

  type Table = map<Address, Lease>

  /** The expiry that `release` writes: 1970-01-01. */
  const EPOCH := 0

  /** Same row, owner and token; the expiry of the row may have moved. */
  predicate Held(t: Table, lease: Lease) {
    lease.address in t && t[lease.address].owner == lease.owner && t[lease.address].token == lease.token
  }

  predicate Current(t: Table, lease: Lease, now: nat) {
    Held(t, lease) && t[lease.address].expiresAt > now
  }

  function NextToken(t: Table, address: Address): nat {
    if address in t then t[address].token + 1 else 1
  }

  function Acquired(t: Table, address: Address, owner: string, now: nat, expiresAt: nat): (Table, Option<Lease>) {
    if address in t && t[address].expiresAt > now then (t, None)
    else
      var lease := Lease(address, owner, NextToken(t, address), expiresAt);
      (t[address := lease], Some(lease))
  }

  function Renewed(t: Table, lease: Lease, now: nat, expiresAt: nat): (Table, bool) {
    if Current(t, lease, now) then (t[lease.address := t[lease.address].(expiresAt := expiresAt)], true) else (t, false)
  }

  function Released(t: Table, lease: Lease): Table {
    if Held(t, lease) then t[lease.address := t[lease.address].(expiresAt := EPOCH)] else t
  }

  /** A lease is granted exactly if nothing on the address is still running. Then it is
      current until its own expiry, and whoever held the address before is not. */
  lemma AcquiredIff(t: Table, address: Address, owner: string, now: nat, expiresAt: nat)
    ensures var (t', r) := Acquired(t, address, owner, now, expiresAt);
            && (r.Some? <==> address !in t || t[address].expiresAt <= now)
            && (r.None? ==> t' == t)
            && (r.Some? ==>
                  && r.value.address == address && r.value.owner == owner
                  && (forall later: nat :: Current(t', r.value, later) <==> later < expiresAt)
                  && (forall other, later: nat | Current(t', other, later) && other.address == address ::
                        other.owner == owner && other.token == r.value.token)
                  && (forall a | a != address :: (a in t' <==> a in t) && (a in t ==> t'[a] == t[a])))
  {
  }

  /** A current lease, and no other, is prolonged to the new expiry; a released one is
      free at once for whoever asks. No other address is touched. */
  lemma RenewedAndReleased(t: Table, lease: Lease, now: nat, expiresAt: nat, owner: string, later: nat)
    ensures var (t', renewed) := Renewed(t, lease, now, expiresAt);
            && (renewed <==> Held(t, lease) && now < t[lease.address].expiresAt)
            && (if renewed then Current(t', lease, later) <==> later < expiresAt else t' == t)
            && (forall a | a != lease.address :: (a in t' <==> a in t) && (a in t ==> t'[a] == t[a]))
    ensures var t' := Released(t, lease);
            && !Current(t', lease, later)
            && (if Held(t, lease) then Acquired(t', lease.address, owner, later, expiresAt).1.Some? else t' == t)
            && (forall a | a != lease.address :: (a in t' <==> a in t) && (a in t ==> t'[a] == t[a]))
  {
  }

  datatype Row = Row(owner: string, token: nat, expiresAt: nat)

  /** The SQLite table `account_operation_leases`; each statement is conditional in its WHERE clause. */
  class SqliteLeaseStore {
    var rows: map<Address, Row>

    function Contents(): Table
      reads this
    {
      map a | a in rows :: Lease(a, rows[a].owner, rows[a].token, rows[a].expiresAt)
    }

    constructor ()
      ensures Contents() == map[]
    {
      rows := map[];
    }

    method Acquire(address: Address, owner: string, now: nat, expiresAt: nat) returns (r: Option<Lease>)
      modifies this
      ensures (Contents(), r) == Acquired(old(Contents()), address, owner, now, expiresAt)
      ensures r.Some? <==> address !in old(rows) || old(rows)[address].expiresAt <= now
      ensures r.Some? ==> r.value.owner == owner
      ensures r.Some? ==> forall later: nat :: Current(Contents(), r.value, later) <==> later < expiresAt
    {
      if address !in rows {
        rows := rows[address := Row(owner, 1, expiresAt)];
      } else if rows[address].expiresAt <= now {
        rows := rows[address := Row(owner, rows[address].token + 1, expiresAt)];
      } else {
        return None;
      }
      r := Some(Lease(address, rows[address].owner, rows[address].token, rows[address].expiresAt));
      assert Contents() == old(Contents())[address := r.value];
    }

    method Renew(lease: Lease, now: nat, expiresAt: nat) returns (renewed: bool)
      modifies this
      ensures (Contents(), renewed) == Renewed(old(Contents()), lease, now, expiresAt)
    {
      var a := lease.address;
      renewed := a in rows && rows[a].owner == lease.owner && rows[a].token == lease.token && rows[a].expiresAt > now;
      if renewed {
        rows := rows[a := rows[a].(expiresAt := expiresAt)];
        assert Contents() == old(Contents())[a := old(Contents())[a].(expiresAt := expiresAt)];
      }
    }

    method IsCurrent(lease: Lease, now: nat) returns (current: bool)
      ensures current == Current(Contents(), lease, now)
    {
      var a := lease.address;
      current := a in rows && rows[a].owner == lease.owner && rows[a].token == lease.token && rows[a].expiresAt > now;
    }

    method Release(lease: Lease)
      modifies this
      ensures Contents() == Released(old(Contents()), lease)
    {
      var a := lease.address;
      if a in rows && rows[a].owner == lease.owner && rows[a].token == lease.token {
        rows := rows[a := rows[a].(expiresAt := EPOCH)];
      }
    }
  }

  /** The in-memory store keeps the last token of each address in a map of its own. */
  class InMemoryLeaseStore {
    var leases: Table
    var tokens: map<Address, nat>

    ghost predicate Valid()
      reads this
    {
      && tokens.Keys == leases.Keys
      && forall a | a in leases :: leases[a].address == a && leases[a].token == tokens[a]
    }

    constructor ()
      ensures Valid() && leases == map[]
    {
      leases, tokens := map[], map[];
    }

    method Acquire(address: Address, owner: string, now: nat, expiresAt: nat) returns (r: Option<Lease>)
      requires Valid()
      modifies this
      ensures Valid()
      ensures (leases, r) == Acquired(old(leases), address, owner, now, expiresAt)
      ensures r.Some? <==> address !in old(leases) || old(leases)[address].expiresAt <= now
      ensures r.Some? ==> r.value.owner == owner
      ensures r.Some? ==> forall later: nat :: Current(leases, r.value, later) <==> later < expiresAt
    {
      if address in leases && leases[address].expiresAt > now {
        return None;
      }
      var token := (if address in tokens then tokens[address] else 0) + 1;
      tokens := tokens[address := token];
      var lease := Lease(address, owner, token, expiresAt);
      leases := leases[address := lease];
      return Some(lease);
    }

    method Renew(lease: Lease, now: nat, expiresAt: nat) returns (renewed: bool)
      requires Valid()
      modifies this`leases
      ensures Valid()
      ensures (leases, renewed) == Renewed(old(leases), lease, now, expiresAt)
    {
      var a := lease.address;
      if a !in leases || leases[a].owner != lease.owner || leases[a].token != lease.token
        || leases[a].expiresAt <= now {
        return false;
      }
      leases := leases[a := leases[a].(expiresAt := expiresAt)];
      return true;
    }

    method IsCurrent(lease: Lease, now: nat) returns (current: bool)
      ensures current == Current(leases, lease, now)
    {
      var a := lease.address;
      current := a in leases && leases[a].owner == lease.owner && leases[a].token == lease.token
        && leases[a].expiresAt > now;
    }

    method Release(lease: Lease)
      requires Valid()
      modifies this`leases
      ensures Valid()
      ensures leases == Released(old(leases), lease)
    {
      var a := lease.address;
      if a in leases && leases[a].owner == lease.owner && leases[a].token == lease.token {
        leases := leases[a := leases[a].(expiresAt := EPOCH)];
      }
    }
  }

  // ----- one operation under a lease -----

  /** What can happen while an operation runs: its renewal timer fires, it asks whether
      it is still current and makes a write if so, it ends with an error, or another
      owner uses the store. The store may fail a renewal or the read of a check. */
  datatype Moment =
    | Renewal(now: nat, expiresAt: nat, answered: bool)
    | Check(now: nat, answered: bool, write: Option<string>)
    | GivesUp
    | OtherAcquires(owner: string, now: nat, expiresAt: nat)
    | OtherReleases(lease: Lease)

  /** How a check ends: it returns, or throws for one of two reasons. */
  datatype Verdict = Passes | LeaseLost | ReadFails

  /** The state that `run` keeps for one operation. A lease that was found lost stays lost. */
  class Operation {
    const store: SqliteLeaseStore
    const lease: Lease
    var lost: bool

    constructor (store: SqliteLeaseStore, lease: Lease)
      ensures this.store == store && this.lease == lease && !lost
    {
      this.store, this.lease := store, lease;
      lost := false;
    }

    /** A renewal that is refused or throws loses the lease. */
    method Renew(now: nat, expiresAt: nat, answered: bool)
      modifies this, store
      ensures if old(lost) || !answered then store.Contents() == old(store.Contents()) && lost
              else (store.Contents(), !lost) == Renewed(old(store.Contents()), lease, now, expiresAt)
    {
      if !lost {
        var renewed := false;
        if answered {
          renewed := store.Renew(lease, now, expiresAt);
        }
        lost := !renewed;
      }
    }

    /** A read that throws is an error of its own and does not lose the lease. */
    method AssertCurrent(now: nat, answered: bool) returns (verdict: Verdict)
      modifies this
      ensures verdict == Judge(old(lost), store.Contents(), lease, now, answered)
      ensures lost <==> verdict == LeaseLost
    {
      if !lost {
        if !answered {
          return ReadFails;
        }
        var current := store.IsCurrent(lease, now);
        lost := !current;
      }
      verdict := if lost then LeaseLost else Passes;
    }
  }

  /** A lease that was found lost is not looked up again. */
  function Judge(lost: bool, t: Table, lease: Lease, now: nat, answered: bool): Verdict {
    if lost then LeaseLost
    else if !answered then ReadFails
    else if Current(t, lease, now) then Passes else LeaseLost
  }

  /** The course of an operation: the store, whether the lease was found lost, whether
      the operation has ended with an error, and the writes behind checks that passed. */
  datatype Course = Course(table: Table, lost: bool, thrown: bool, writes: seq<string>)

  /** A lost lease ends the operation; an error of the read only prevents the write,
      and whether the operation gives up is up to it. */
  function Next(c: Course, lease: Lease, m: Moment): Course {
    match m
    case Renewal(now, expiresAt, answered) =>
      if c.lost || !answered then c.(lost := true)
      else
        var (t, renewed) := Renewed(c.table, lease, now, expiresAt);
        c.(table := t, lost := !renewed)
    case Check(now, answered, write) =>
      match Judge(c.lost, c.table, lease, now, answered) {
        case Passes => c.(writes := c.writes + if write.Some? then [write.value] else [])
        case LeaseLost => c.(lost := true, thrown := true)
        case ReadFails => c
      }
    case GivesUp => c.(thrown := true)
    case OtherAcquires(owner, now, expiresAt) => c.(table := Acquired(c.table, lease.address, owner, now, expiresAt).0)
    case OtherReleases(theirs) => c.(table := Released(c.table, theirs))
  }

  /** Nothing of an operation happens once it has ended with an error. */
  function CourseOf(c: Course, lease: Lease, moments: seq<Moment>): Course
    decreases |moments|
  {
    if moments == [] || c.thrown then c else CourseOf(Next(c, lease, moments[0]), lease, moments[1..])
  }

  /** A check of `run` itself: no error there is caught. */
  function OwnCheck(now: nat, answered: bool): seq<Moment> {
    [Check(now, answered, None)] + if answered then [] else [GivesUp]
  }

  /** `run` asks whether the lease is current before the operation and behind it. */
  function Whole(first: seq<Moment>, moments: seq<Moment>, last: seq<Moment>): seq<Moment> {
    first + moments + last
  }

  /** With a lease that runs until `expiry`: a check falls before that or is not answered,
      a renewal is answered before it, the operation does not give up, and nobody else
      asks for the lease later on. */
  predicate OnTime(m: Moment, expiry: nat) {
    match m
    case Renewal(now, _, answered) => answered && now < expiry
    case Check(now, answered, _) => answered ==> now < expiry
    case GivesUp => false
    case OtherAcquires(_, now, _) => now < expiry
    case OtherReleases(_) => true
  }

  function ExpiryAfter(m: Moment, lease: Lease, expiry: nat): nat {
    if m.Renewal? then m.expiresAt
    else if m.OtherReleases? && SameGrant(m.lease, lease) then EPOCH
    else expiry
  }

  /** Everything is on time with respect to the expiry then in force. */
  predicate InTime(moments: seq<Moment>, lease: Lease, expiry: nat)
    decreases |moments|
  {
    moments == []
    || (OnTime(moments[0], expiry) && InTime(moments[1..], lease, ExpiryAfter(moments[0], lease, expiry)))
  }

  predicate SameGrant(a: Lease, b: Lease) {
    a.address == b.address && a.owner == b.owner && a.token == b.token
  }

  function WriteOf(m: Moment): seq<string> {
    if m.Check? && m.answered && m.write.Some? then [m.write.value] else []
  }

  /** The writes of all checks that are answered, in order. */
  function WritesOf(moments: seq<Moment>): seq<string> {
    if moments == [] then [] else WriteOf(moments[0]) + WritesOf(moments[1..])
  }

  /** The operation holds its lease, which runs until `expiry`. */
  predicate Holds(c: Course, lease: Lease, expiry: nat) {
    !c.thrown && !c.lost && Held(c.table, lease) && c.table[lease.address].expiresAt == expiry
  }

  lemma OnTimeHolds(c: Course, lease: Lease, m: Moment, expiry: nat)
    requires Holds(c, lease, expiry) && OnTime(m, expiry)
    ensures Holds(Next(c, lease, m), lease, ExpiryAfter(m, lease, expiry))
    ensures Next(c, lease, m).writes == c.writes + WriteOf(m)
  {
  }

  lemma {:induction false} InTimeCompletes(c: Course, lease: Lease, moments: seq<Moment>, expiry: nat)
    requires Holds(c, lease, expiry) && InTime(moments, lease, expiry)
    ensures !CourseOf(c, lease, moments).thrown && CourseOf(c, lease, moments).writes == c.writes + WritesOf(moments)
    decreases |moments|
  {
    if moments != [] {
      OnTimeHolds(c, lease, moments[0], expiry);
      InTimeCompletes(Next(c, lease, moments[0]), lease, moments[1..], ExpiryAfter(moments[0], lease, expiry));
    }
  }

  /** The lease is lost, or will be found lost by the next check. */
  predicate Doomed(c: Course, lease: Lease) {
    c.thrown || c.lost || (lease.address in c.table && c.table[lease.address].token > lease.token)
  }

  /** What `run` ends with: a check, and an error if that is not answered. */
  predicate EndsChecked(moments: seq<Moment>) {
    moments != [] && (moments[|moments| - 1] == GivesUp
                      || (moments[|moments| - 1].Check? && moments[|moments| - 1].answered))
  }

  lemma {:induction false} DoomedThrows(c: Course, lease: Lease, moments: seq<Moment>)
    requires Doomed(c, lease) && (c.thrown || EndsChecked(moments))
    ensures CourseOf(c, lease, moments).thrown
    decreases |moments|
  {
    if !c.thrown {
      var next := Next(c, lease, moments[0]);
      assert Doomed(next, lease);
      if !next.thrown {
        assert moments[1..] != [];
        assert moments[1..][|moments[1..]| - 1] == moments[|moments| - 1];
      }
      DoomedThrows(next, lease, moments[1..]);
    }
  }

  lemma LateDooms(c: Course, lease: Lease, m: Moment, expiry: nat)
    requires Holds(c, lease, expiry) && !OnTime(m, expiry)
    ensures Doomed(Next(c, lease, m), lease)
    ensures m == GivesUp || (m.Check? && m.answered) ==> Next(c, lease, m).thrown
  {
  }

  lemma {:induction false} LateThrows(c: Course, lease: Lease, moments: seq<Moment>, expiry: nat)
    requires Holds(c, lease, expiry) && !InTime(moments, lease, expiry) && EndsChecked(moments)
    ensures CourseOf(c, lease, moments).thrown
    decreases |moments|
  {
    var next := Next(c, lease, moments[0]);
    if OnTime(moments[0], expiry) {
      OnTimeHolds(c, lease, moments[0], expiry);
      assert moments[1..] != [];
      assert moments[1..][|moments[1..]| - 1] == moments[|moments| - 1];
      LateThrows(next, lease, moments[1..], ExpiryAfter(moments[0], lease, expiry));
    } else {
      LateDooms(c, lease, moments[0], expiry);
      if !next.thrown {
        assert moments[1..] != [];
        assert moments[1..][|moments[1..]| - 1] == moments[|moments| - 1];
      }
      DoomedThrows(next, lease, moments[1..]);
    }
  }

  /** A lease just granted carries its operation to the end exactly if everything
      happens in time, and then all its writes are made. */
  lemma CompletesIff(t: Table, lease: Lease, moments: seq<Moment>)
    requires Held(t, lease) && t[lease.address].expiresAt == lease.expiresAt && EndsChecked(moments)
    ensures var c := CourseOf(Course(t, false, false, []), lease, moments);
            && (!c.thrown <==> InTime(moments, lease, lease.expiresAt))
            && (!c.thrown ==> c.writes == WritesOf(moments))
  {
    var c := Course(t, false, false, []);
    if InTime(moments, lease, lease.expiresAt) {
      InTimeCompletes(c, lease, moments, lease.expiresAt);
    } else {
      LateThrows(c, lease, moments, lease.expiresAt);
    }
  }

  /** `run`: without a lease nothing happens. With one, the writes are those behind the
      checks that pass, up to where the operation ends; then the lease is released
      and is not current at any time, whatever others did meanwhile. It completes, with
      every write, exactly if everything happens in time. */
  method RunOperation(store: SqliteLeaseStore, address: Address, owner: string, now: nat, expiresAt: nat,
                      first: bool, moments: seq<Moment>, end: nat, last: bool)
    returns (lease: Option<Lease>, completed: bool, writes: seq<string>)
    modifies store
    ensures lease == Acquired(old(store.Contents()), address, owner, now, expiresAt).1
    ensures lease.Some? <==> (address in old(store.rows) ==> old(store.rows)[address].expiresAt <= now)
    ensures lease.None? ==> !completed && writes == [] && store.Contents() == old(store.Contents())
    ensures lease.Some? ==>
              var whole := Whole(OwnCheck(now, first), moments, OwnCheck(end, last));
              && (completed <==> InTime(whole, lease.value, expiresAt))
              && (completed ==> writes == WritesOf(whole))
    ensures lease.Some? ==>
              var acquired := Acquired(old(store.Contents()), address, owner, now, expiresAt).0;
              var whole := Whole(OwnCheck(now, first), moments, OwnCheck(end, last));
              var c := CourseOf(Course(acquired, false, false, []), lease.value, whole);
              && writes == c.writes && (completed <==> !c.thrown) && store.Contents() == Released(c.table, lease.value)
              && forall later: nat :: !Current(store.Contents(), lease.value, later)
  {
    writes, completed := [], false;
    lease := store.Acquire(address, owner, now, expiresAt);
    if lease.None? {
      return;
    }
    var operation := new Operation(store, lease.value);
    var whole := Whole(OwnCheck(now, first), moments, OwnCheck(end, last));
    ghost var start := Course(store.Contents(), false, false, []);
    completed := true;
    var i := 0;
    while completed && i < |whole|
      invariant 0 <= i <= |whole| && operation.store == store && operation.lease == lease.value
      invariant CourseOf(Course(store.Contents(), operation.lost, !completed, writes), lease.value, whole[i..])
             == CourseOf(start, lease.value, whole)
    {
      ghost var c := Course(store.Contents(), operation.lost, !completed, writes);
      assert whole[i..][1..] == whole[i + 1..];
      match whole[i] {
        case Renewal(time, expiry, answered) => operation.Renew(time, expiry, answered);
        case Check(time, answered, write) =>
          var verdict := operation.AssertCurrent(time, answered);
          completed := verdict != LeaseLost;
          if verdict == Passes && write.Some? {
            writes := writes + [write.value];
          }
        case GivesUp => completed := false;
        case OtherAcquires(other, time, expiry) =>
          var _ := store.Acquire(address, other, time, expiry);
        case OtherReleases(theirs) => store.Release(theirs);
      }
      assert Course(store.Contents(), operation.lost, !completed, writes) == Next(c, lease.value, whole[i]);
      i := i + 1;
    }
    store.Release(lease.value);
    assert EndsChecked(whole);
    CompletesIff(start.table, lease.value, whole);
  }

  /** Whatever else happens: every write is one of the operation's, behind a check of
      its own, and the lease was current when that check was made. */
  lemma {:induction false} WritesAreChecked(c: Course, lease: Lease, moments: seq<Moment>, k: nat)
    returns (i: nat)
    requires !c.thrown && |c.writes| <= k < |CourseOf(c, lease, moments).writes|
    ensures i < |moments| && moments[i].Check? && moments[i].write == Some(CourseOf(c, lease, moments).writes[k])
    ensures var before := CourseOf(c, lease, moments[..i]);
            !before.thrown && !before.lost && |before.writes| == k && Current(before.table, lease, moments[i].now)
    decreases |moments|
  {
    var next := Next(c, lease, moments[0]);
    WritesGrow(next, lease, moments[1..]);
    if k < |next.writes| {
      i := 0;
    } else {
      i := WritesAreChecked(next, lease, moments[1..], k);
      i := i + 1;
      assert moments[..i][1..] == moments[1..][..i - 1];
    }
  }

  lemma {:induction false} WritesGrow(c: Course, lease: Lease, moments: seq<Moment>)
    ensures c.writes <= CourseOf(c, lease, moments).writes
    decreases |moments|
  {
    if moments != [] && !c.thrown {
      WritesGrow(Next(c, lease, moments[0]), lease, moments[1..]);
    }
  }

  // ----- runs -----

  /** The store, the clock, every lease ever granted, and every `assertCurrent` that passed, in order. */
  datatype State = State(table: Table, clock: nat, granted: seq<Lease>, passed: seq<Lease>)

  const INIT := State(map[], 0, [], [])

  /** Holders can only present leases they were given. */
  datatype Step =
    | Wait(time: nat)
    | TryAcquire(address: Address, owner: string, duration: nat)
    | TryRenew(lease: Lease, duration: nat)
    | AssertCurrent(lease: Lease)
    | LetGo(lease: Lease)

  function Apply(s: State, step: Step): State {
    match step
    case Wait(time) => s.(clock := s.clock + time)
    case TryAcquire(address, owner, duration) =>
      var (t, r) := Acquired(s.table, address, owner, s.clock, s.clock + duration);
      s.(table := t, granted := if r.Some? then s.granted + [r.value] else s.granted)
    case TryRenew(lease, duration) =>
      if lease in s.granted then s.(table := Renewed(s.table, lease, s.clock, s.clock + duration).0) else s
    case AssertCurrent(lease) =>
      if lease in s.granted && Current(s.table, lease, s.clock) then s.(passed := s.passed + [lease]) else s
    case LetGo(lease) =>
      if lease in s.granted then s.(table := Released(s.table, lease)) else s
  }

  function Run(s: State, steps: seq<Step>): State {
    if steps == [] then s else Apply(Run(s, steps[..|steps| - 1]), steps[|steps| - 1])
  }

  /** In a run, too, asking for a free address is answered with a lease that is current until its expiry. */
  lemma FreeIsGranted(s: State, address: Address, owner: string, duration: nat)
    requires address !in s.table || s.table[address].expiresAt <= s.clock
    ensures var t := Apply(s, TryAcquire(address, owner, duration));
            && |t.granted| == |s.granted| + 1 && t.granted[..|s.granted|] == s.granted
            && var lease := t.granted[|s.granted|];
               && lease.address == address && lease.owner == owner
               && forall later: nat :: Current(t.table, lease, later) <==> later < s.clock + duration
  {
  }

  ghost predicate TokensIncrease(leases: seq<Lease>) {
    forall i, j | 0 <= i < j < |leases| && leases[i].address == leases[j].address :: leases[i].token < leases[j].token
  }

  ghost predicate TokensNeverDrop(leases: seq<Lease>) {
    forall i, j | 0 <= i < j < |leases| && leases[i].address == leases[j].address :: leases[i].token <= leases[j].token
  }

  ghost predicate Behind(t: Table, lease: Lease) {
    && lease.address in t && lease.token <= t[lease.address].token
    && (lease.token == t[lease.address].token ==> lease.owner == t[lease.address].owner)
  }

  ghost predicate Inv(s: State) {
    && (forall l | l in s.granted :: Behind(s.table, l))
    && TokensIncrease(s.granted)
    && (forall l | l in s.passed :: l in s.granted)
    && TokensNeverDrop(s.passed)
  }

  lemma StepKeepsInv(s: State, step: Step)
    requires Inv(s)
    ensures Inv(Apply(s, step))
  {
    if step.TryAcquire? {
      forall i | 0 <= i < |s.granted|
        ensures Behind(s.table, s.granted[i])
      {
        assert s.granted[i] in s.granted;
      }
    } else if step.AssertCurrent? {
      forall i | 0 <= i < |s.passed|
        ensures Behind(s.table, s.passed[i])
      {
        assert s.passed[i] in s.passed;
      }
    }
  }

  lemma {:induction false} RunKeepsInv(s: State, steps: seq<Step>)
    requires Inv(s)
    ensures Inv(Run(s, steps))
  {
    if steps != [] {
      RunKeepsInv(s, steps[..|steps| - 1]);
      StepKeepsInv(Run(s, steps[..|steps| - 1]), steps[|steps| - 1]);
    }
  }

  /** Two grants that are current together on one address are one and the same grant. */
  lemma AtMostOneCurrent(steps: seq<Step>, i: nat, j: nat)
    requires var s := Run(INIT, steps);
             && i < |s.granted| && j < |s.granted| && s.granted[i].address == s.granted[j].address
             && Current(s.table, s.granted[i], s.clock) && Current(s.table, s.granted[j], s.clock)
    ensures i == j
  {
    RunKeepsInv(INIT, steps);
  }

  /** Each grant on an address carries a larger token than all grants before it. */
  lemma TokensStrictlyIncrease(steps: seq<Step>)
    ensures TokensIncrease(Run(INIT, steps).granted)
  {
    RunKeepsInv(INIT, steps);
  }

  lemma StepKeepsDead(s: State, step: Step, lease: Lease)
    requires Inv(s) && lease in s.granted && !Current(s.table, lease, s.clock)
    ensures lease in Apply(s, step).granted && !Current(Apply(s, step).table, lease, Apply(s, step).clock)
  {
  }

  /** A lease that was superseded, has expired or was released is never current again. */
  lemma {:induction false} DeadForever(steps: seq<Step>, more: seq<Step>, lease: Lease)
    requires lease in Run(INIT, steps).granted && !Current(Run(INIT, steps).table, lease, Run(INIT, steps).clock)
    ensures var t := Run(Run(INIT, steps), more); lease in t.granted && !Current(t.table, lease, t.clock)
  {
    RunKeepsInv(INIT, steps);
    if more != [] {
      var before := more[..|more| - 1];
      DeadForever(steps, before, lease);
      RunKeepsInv(Run(INIT, steps), before);
      StepKeepsDead(Run(Run(INIT, steps), before), more[|more| - 1], lease);
    }
  }

  /** What a dead lease tries afterwards fails: it does not renew, and neither
      its renewal nor its release changes whether any other grant is current. */
  lemma DeadIsHarmless(steps: seq<Step>, lease: Lease, duration: nat, other: Lease, now: nat)
    requires var s := Run(INIT, steps);
             && lease in s.granted && other in s.granted && other != lease && s.clock <= now
             && !Current(s.table, lease, s.clock)
    ensures var s := Run(INIT, steps);
            && Renewed(s.table, lease, s.clock, s.clock + duration) == (s.table, false)
            && (Current(Released(s.table, lease), other, now) <==> Current(s.table, other, now))
            && (lease.address in s.table && lease.token < s.table[lease.address].token
                ==> Released(s.table, lease) == s.table)
  {
    RunKeepsInv(INIT, steps);
    var s := Run(INIT, steps);
    if other.address == lease.address {
      var i :| 0 <= i < |s.granted| && s.granted[i] == lease;
      var j :| 0 <= j < |s.granted| && s.granted[j] == other;
      assert i != j;
    }
  }

  /** Fencing: on each address the `assertCurrent` checks that pass never go back
      to an earlier holder, so the writes they guard do not interleave. */
  lemma GuardedWritesAreFenced(steps: seq<Step>)
    ensures TokensNeverDrop(Run(INIT, steps).passed)
  {
    RunKeepsInv(INIT, steps);
  }
}
