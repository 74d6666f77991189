/** Allocation of derivation indices to invoice accounts, by the SQL table and by
    the in-memory maps, and the range managed accounts take theirs from. */
module InvoiceAccounts {
  import opened Wrappers

  /** One receiving account; invoices without an invoice key each get one of their own. */
  datatype Account = Account(accountKey: string, invoiceKey: Option<string>, index: nat)

  datatype Request = Request(accountKey: string, invoiceKey: Option<string>, start: nat, end: nat)

  datatype Exhausted = Exhausted(end: nat)

  type Answer = Result<Account, Exhausted>

  /** The largest index taken in a range, if any. */
  function MaxIn(taken: set<nat>, start: nat, end: nat): (max: Option<nat>)
    ensures max.Some? ==> max.value in taken && start <= max.value < end
    ensures forall i | i in taken && start <= i < end :: max.Some? && i <= max.value
  {
    if end <= start then None
    else if end - 1 in taken then Some(end - 1)
    else MaxIn(taken, start, end - 1)
  }

  function NextIndex(taken: set<nat>, start: nat, end: nat): nat {
    var max := MaxIn(taken, start, end);
    var next := (if max.Some? then max.value else start - 1) + 1;
    if next > start then next else start
  }

  function Indices(rows: seq<Account>): set<nat> {
    set a | a in rows :: a.index
  }

  function Find(rows: seq<Account>, accountKey: string, invoiceKey: Option<string>): Option<Account> {
    if rows == [] then None
    else
      var last := rows[|rows| - 1];
      if last.accountKey == accountKey && last.invoiceKey == invoiceKey then Some(last)
      else Find(rows[..|rows| - 1], accountKey, invoiceKey)
  }

  /** The SQL transaction. */
  function GetOrCreate(rows: seq<Account>, r: Request): (seq<Account>, Answer) {
    var existing := if r.invoiceKey.Some? then Find(rows, r.accountKey, r.invoiceKey) else None;
    if existing.Some? then (rows, Ok(existing.value))
    else
      var index := NextIndex(Indices(rows), r.start, r.end);
      if index >= r.end then (rows, Err(Exhausted(r.end)))
      else
        var created := Account(r.accountKey, r.invoiceKey, index);
        (rows + [created], Ok(created))
  }

  /** A request that finds no account gets the index behind the largest one taken in its
      range, or the first, and is refused exactly if the last of the range is taken or
      the range is empty. A request that finds its pair gets that account. */
  lemma ResolvedIff(rows: seq<Account>, r: Request)
    ensures var (rows', answer) := GetOrCreate(rows, r);
            var existing := if r.invoiceKey.Some? then Find(rows, r.accountKey, r.invoiceKey) else None;
            if existing.Some? then rows' == rows && answer == Ok(existing.value)
            else if r.start >= r.end || r.end - 1 in Indices(rows) then rows' == rows && answer == Err(Exhausted(r.end))
            else
              && answer.Ok? && answer.value == Account(r.accountKey, r.invoiceKey, answer.value.index)
              && rows' == rows + [answer.value]
              && r.start <= answer.value.index < r.end && answer.value.index !in Indices(rows)
              && (forall i | i in Indices(rows) && r.start <= i < r.end :: i < answer.value.index)
              && (answer.value.index == r.start || answer.value.index - 1 in Indices(rows))
  {
    NextIsFresh(Indices(rows), r.start, r.end);
  }

  class SqliteInvoiceAccounts {
    var rows: seq<Account>

    constructor ()
      ensures rows == []
    {
      rows := [];
    }

    method Resolve(r: Request) returns (answer: Answer)
      modifies this
      ensures (rows, answer) == GetOrCreate(old(rows), r)
    {
      if r.invoiceKey.Some? {
        var existing := Find(rows, r.accountKey, r.invoiceKey);
        if existing.Some? {
          return Ok(existing.value);
        }
      }
      var index := NextIndex(Indices(rows), r.start, r.end);
      if index >= r.end {
        return Err(Exhausted(r.end));
      }
      var created := Account(r.accountKey, r.invoiceKey, index);
      rows := rows + [created];
      return Ok(created);
    }
  }

  // ----- runs of the table -----

  function Rows(requests: seq<Request>): seq<Account> {
    if requests == [] then [] else GetOrCreate(Rows(requests[..|requests| - 1]), requests[|requests| - 1]).0
  }

  /** What the last of the requests is answered. */
  function LastAnswer(requests: seq<Request>): Answer
    requires requests != []
  {
    GetOrCreate(Rows(requests[..|requests| - 1]), requests[|requests| - 1]).1
  }

  ghost predicate IndicesDiffer(rows: seq<Account>) {
    forall i, j | 0 <= i < j < |rows| :: rows[i].index != rows[j].index
  }

  ghost predicate PairsDiffer(rows: seq<Account>) {
    forall i, j | 0 <= i < j < |rows| && rows[i].invoiceKey.Some? ::
      rows[i].accountKey != rows[j].accountKey || rows[i].invoiceKey != rows[j].invoiceKey
  }

  lemma {:induction false} FindIsExact(rows: seq<Account>, accountKey: string, invoiceKey: Option<string>)
    ensures var found := Find(rows, accountKey, invoiceKey);
            if found.Some?
              then found.value in rows && found.value.accountKey == accountKey && found.value.invoiceKey == invoiceKey
            else forall a | a in rows :: a.accountKey != accountKey || a.invoiceKey != invoiceKey
  {
    if rows != [] {
      assert rows == rows[..|rows| - 1] + [rows[|rows| - 1]];
      FindIsExact(rows[..|rows| - 1], accountKey, invoiceKey);
    }
  }

  lemma NextIsFresh(taken: set<nat>, start: nat, end: nat)
    ensures var next := NextIndex(taken, start, end);
            start <= next && next !in (set i | i in taken && start <= i < end)
              && forall i | i in taken && start <= i < end :: i < next
  {
  }

  lemma StepKeepsTable(rows: seq<Account>, r: Request)
    requires IndicesDiffer(rows) && PairsDiffer(rows)
    ensures IndicesDiffer(GetOrCreate(rows, r).0) && PairsDiffer(GetOrCreate(rows, r).0)
  {
    FindIsExact(rows, r.accountKey, r.invoiceKey);
    NextIsFresh(Indices(rows), r.start, r.end);
    forall i | 0 <= i < |rows|
      ensures rows[i] in rows && rows[i].index in Indices(rows)
    {
      assert rows[i] in rows;
    }
  }

  /** Whatever ranges are asked for: no index is given out twice, and no pair of keys has two accounts. */
  lemma {:induction false} TableIsInjective(requests: seq<Request>)
    ensures IndicesDiffer(Rows(requests)) && PairsDiffer(Rows(requests))
  {
    if requests != [] {
      TableIsInjective(requests[..|requests| - 1]);
      StepKeepsTable(Rows(requests[..|requests| - 1]), requests[|requests| - 1]);
    }
  }

  /** An account once created stays where it is. */
  lemma {:induction false} RowsOnlyGrow(requests: seq<Request>, more: seq<Request>)
    ensures Rows(requests) <= Rows(requests + more)
  {
    if more == [] {
      assert requests + more == requests;
    } else {
      assert (requests + more)[..|requests + more| - 1] == requests + more[..|more| - 1];
      RowsOnlyGrow(requests, more[..|more| - 1]);
    }
  }

  ghost predicate Range(requests: seq<Request>, start: nat, end: nat) {
    forall r | r in requests :: r.start == start && r.end == end
  }

  ghost predicate Ascending(rows: seq<Account>, start: nat, end: nat) {
    && (forall a | a in rows :: start <= a.index < end)
    && (forall i, j | 0 <= i < j < |rows| :: rows[i].index < rows[j].index)
  }

  /** With one range, indices only go up and stay inside it. */
  lemma {:induction false} IndicesAscend(requests: seq<Request>, start: nat, end: nat)
    requires Range(requests, start, end)
    ensures Ascending(Rows(requests), start, end)
  {
    if requests != [] {
      var before, r := requests[..|requests| - 1], requests[|requests| - 1];
      assert r in requests;
      IndicesAscend(before, start, end);
      var rows := Rows(before);
      NextIsFresh(Indices(rows), start, end);
      forall i | 0 <= i < |rows|
        ensures rows[i] in rows && rows[i].index in Indices(rows)
      {
        assert rows[i] in rows;
      }
    }
  }

  /** A request that was answered once gets the same account whenever it is made
      again, whatever happened in between and whatever range it names. */
  lemma SamePairSameAccount(requests: seq<Request>, r: Request, more: seq<Request>, again: Request)
    requires r.invoiceKey.Some? && again.accountKey == r.accountKey && again.invoiceKey == r.invoiceKey
    requires LastAnswer(requests + [r]).Ok?
    ensures LastAnswer(requests + [r] + more + [again]) == LastAnswer(requests + [r])
  {
    var first, all := requests + [r], requests + [r] + more;
    assert first[..|first| - 1] == requests && (all + [again])[..|all|] == all;
    var a := LastAnswer(first).value;
    FindIsExact(Rows(requests), r.accountKey, r.invoiceKey);
    assert a in Rows(first) && a.accountKey == r.accountKey && a.invoiceKey == r.invoiceKey;
    RowsOnlyGrow(first, more);
    TableIsInjective(all);
    FindIsExact(Rows(all), r.accountKey, r.invoiceKey);
    var found := Find(Rows(all), r.accountKey, r.invoiceKey).value;
    var i :| 0 <= i < |Rows(first)| && Rows(first)[i] == a;
    var j :| 0 <= j < |Rows(all)| && Rows(all)[j] == found;
    assert Rows(all)[i] == a;
  }

  /** Without an invoice key every answered request gets an account of its own. */
  lemma NullKeysAreFresh(requests: seq<Request>, r: Request)
    requires r.invoiceKey.None? && LastAnswer(requests + [r]).Ok?
    ensures LastAnswer(requests + [r]).value.index !in Indices(Rows(requests))
  {
    assert (requests + [r])[..|requests|] == requests;
    NextIsFresh(Indices(Rows(requests)), r.start, r.end);
  }

  // ----- managed accounts -----

  const MANAGED_DERIVATION_START := 0x8000_0000

  predicate Managed(index: nat) {
    MANAGED_DERIVATION_START <= index < 0x1_0000_0000
  }

  /** The unsigned word of the first four hash bytes. */
  function Word(h0: nat, h1: nat, h2: nat, h3: nat): nat {
    256 * (256 * (256 * h0 + h1) + h2) + h3
  }

  /** `deriveManagedIndex`, from the first four bytes of the hash of the account key. */
  function ManagedIndex(h0: nat, h1: nat, h2: nat, h3: nat): (index: nat)
    requires h0 < 256 && h1 < 256 && h2 < 256 && h3 < 256
    ensures Managed(index)
  {
    MANAGED_DERIVATION_START + Word(h0, h1, h2, h3) % 0x8000_0000
  }

  /** Every index from 2^31 up to 2^32 belongs to some hash. */
  lemma EveryManagedIndexOccurs(index: nat) returns (h0: nat, h1: nat, h2: nat, h3: nat)
    requires Managed(index)
    ensures h0 < 256 && h1 < 256 && h2 < 256 && h3 < 256 && ManagedIndex(h0, h1, h2, h3) == index
  {
    var low := index - MANAGED_DERIVATION_START;
    var q1 := low / 256;
    var q2 := q1 / 256;
    h0, h1, h2, h3 := q2 / 256, q2 % 256, q1 % 256, low % 256;
    assert low == 256 * q1 + h3 && q1 == 256 * q2 + h2 && q2 == 256 * h0 + h1;
    assert Word(h0, h1, h2, h3) == low;
  }

  function NullRequests(n: nat, start: nat, end: nat): seq<Request> {
    seq(n, _ => Request("", None, start, end))
  }

  lemma IndicesOfOneMore(rows: seq<Account>, created: Account)
    ensures Indices(rows + [created]) == Indices(rows) + {created.index}
  {
    forall i
      ensures i in Indices(rows + [created]) <==> i in Indices(rows) || i == created.index
    {
      assert created in rows + [created];
      if i in Indices(rows) {
        var a :| a in rows && a.index == i;
        assert a in rows + [created];
      }
    }
  }

  lemma {:induction false} NullRequestsFillTheRange(n: nat, start: nat, end: nat)
    requires start + n <= end
    ensures forall i | start <= i < start + n :: i in Indices(Rows(NullRequests(n, start, end)))
    ensures forall i | i in Indices(Rows(NullRequests(n, start, end))) :: start <= i < start + n
  {
    if n > 0 {
      NullRequestsFillTheRange(n - 1, start, end);
      var all, before := NullRequests(n, start, end), NullRequests(n - 1, start, end);
      assert all[..n - 1] == before;
      var rows := Rows(before);
      var next := NextIndex(Indices(rows), start, end);
      NextIsFresh(Indices(rows), start, end);
      assert next == start + n - 1;
      var created := Account("", None, next);
      assert Rows(all) == rows + [created];
      assert forall a :: a in Rows(all) <==> a in rows || a == created;
      IndicesOfOneMore(rows, created);
    }
  }

  ghost predicate NeverManaged(start: nat, end: nat) {
    forall requests | Range(requests, start, end) :: forall a | a in Rows(requests) :: !Managed(a.index)
  }

  /** Invoice accounts keep clear of the managed ones exactly if their range does. */
  lemma NeverManagedIff(start: nat, end: nat)
    ensures NeverManaged(start, end) <==> end <= MANAGED_DERIVATION_START || start >= 0x1_0000_0000 || start >= end
  {
    if end <= MANAGED_DERIVATION_START || start >= 0x1_0000_0000 || start >= end {
      forall requests | Range(requests, start, end)
        ensures forall a | a in Rows(requests) :: !Managed(a.index)
      {
        IndicesAscend(requests, start, end);
      }
    } else {
      var index := if start < MANAGED_DERIVATION_START then MANAGED_DERIVATION_START else start;
      var requests := NullRequests(index - start + 1, start, end);
      NullRequestsFillTheRange(index - start + 1, start, end);
      assert index in Indices(Rows(requests));
      assert Range(requests, start, end);
    }
  }
}
