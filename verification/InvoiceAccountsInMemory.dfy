/** The in-memory maps behind the same operation, and when they answer as the table does. */
module InvoiceAccountsInMemory {
  import opened Wrappers
  import opened InvoiceAccounts

  datatype Maps = Maps(byKey: map<string, Account>, byIndex: map<nat, Account>)

  /** Both keys in one string, with a NUL in between. */
  function StoreKey(accountKey: string, invoiceKey: string): string {
    accountKey + "\0" + invoiceKey
  }

  function Keyed(r: Request): string {
    StoreKey(r.accountKey, if r.invoiceKey.Some? then r.invoiceKey.value else "")
  }

  function Resolved(m: Maps, r: Request): (Maps, Answer) {
    var key := Keyed(r);
    if r.invoiceKey.Some? && key in m.byKey then (m, Ok(m.byKey[key]))
    else
      var index := NextIndex(m.byIndex.Keys, r.start, r.end);
      if index >= r.end then (m, Err(Exhausted(r.end)))
      else
        var created := Account(r.accountKey, r.invoiceKey, index);
        (Maps(if r.invoiceKey.Some? then m.byKey[key := created] else m.byKey, m.byIndex[index := created]),
         Ok(created))
  }

  class InMemoryInvoiceAccounts {
    var byKey: map<string, Account>
    var byIndex: map<nat, Account>

    constructor ()
      ensures Maps(byKey, byIndex) == Maps(map[], map[])
    {
      byKey, byIndex := map[], map[];
    }

    method Resolve(r: Request) returns (answer: Answer)
      modifies this
      ensures (Maps(byKey, byIndex), answer) == Resolved(old(Maps(byKey, byIndex)), r)
    {
      var key := r.accountKey + "\0" + if r.invoiceKey.Some? then r.invoiceKey.value else "";
      if r.invoiceKey.Some? {
        if key in byKey {
          return Ok(byKey[key]);
        }
      }
      var index := NextIndex(byIndex.Keys, r.start, r.end);
      if index >= r.end {
        return Err(Exhausted(r.end));
      }
      var created := Account(r.accountKey, r.invoiceKey, index);
      if r.invoiceKey.Some? {
        byKey := byKey[key := created];
      }
      byIndex := byIndex[index := created];
      return Ok(created);
    }
  }

  // ----- agreement -----

  function RunMaps(requests: seq<Request>): Maps {
    if requests == [] then Maps(map[], map[])
      else Resolved(RunMaps(requests[..|requests| - 1]), requests[|requests| - 1]).0
  }

  function LastAnswerInMemory(requests: seq<Request>): Answer
    requires requests != []
  {
    Resolved(RunMaps(requests[..|requests| - 1]), requests[|requests| - 1]).1
  }

  ghost predicate SameAnswer(requests: seq<Request>, n: nat)
    requires 0 < n <= |requests|
  {
    LastAnswerInMemory(requests[..n]) == LastAnswer(requests[..n])
  }

  /** Every request of the trace is answered alike. */
  ghost predicate Agree(requests: seq<Request>) {
    forall n | 0 < n <= |requests| :: SameAnswer(requests, n)
  }

  predicate SamePair(r: Request, r': Request) {
    r.accountKey == r'.accountKey && r.invoiceKey == r'.invoiceKey
  }

  /** Different pairs of keys have different store keys. */
  predicate NoCollision(requests: seq<Request>) {
    forall r, r' | r in requests && r' in requests && r.invoiceKey.Some? && r'.invoiceKey.Some?
      && Keyed(r) == Keyed(r') :: SamePair(r, r')
  }

  /** A request that was answered, and a later one of another pair under the same store key. */
  predicate Collide(requests: seq<Request>, i: nat, j: nat) {
    && i < j < |requests| && LastAnswer(requests[..i + 1]).Ok?
    && requests[i].invoiceKey.Some? && requests[j].invoiceKey.Some?
    && Keyed(requests[i]) == Keyed(requests[j]) && !SamePair(requests[i], requests[j])
  }

  /** The maps hold what the table holds. */
  ghost predicate Mirrors(m: Maps, rows: seq<Account>) {
    && m.byIndex.Keys == Indices(rows)
    && (forall a | a in rows && a.invoiceKey.Some? ::
          var key := StoreKey(a.accountKey, a.invoiceKey.value); key in m.byKey && m.byKey[key] == a)
    && (forall key | key in m.byKey ::
          var a := m.byKey[key]; a in rows && a.invoiceKey.Some? && key == StoreKey(a.accountKey, a.invoiceKey.value))
  }

  /** No account of another pair has the store key of this request. */
  ghost predicate NoClash(rows: seq<Account>, r: Request) {
    forall a | a in rows && a.invoiceKey.Some? && r.invoiceKey.Some?
      && StoreKey(a.accountKey, a.invoiceKey.value) == Keyed(r) ::
      a.accountKey == r.accountKey && a.invoiceKey == r.invoiceKey
  }

  lemma SameLookup(m: Maps, rows: seq<Account>, r: Request)
    requires Mirrors(m, rows) && PairsDiffer(rows) && NoClash(rows, r) && r.invoiceKey.Some?
    ensures Keyed(r) in m.byKey <==> Find(rows, r.accountKey, r.invoiceKey).Some?
    ensures Keyed(r) in m.byKey ==> Find(rows, r.accountKey, r.invoiceKey) == Some(m.byKey[Keyed(r)])
  {
    FindIsExact(rows, r.accountKey, r.invoiceKey);
    if Keyed(r) in m.byKey {
      var a, found := m.byKey[Keyed(r)], Find(rows, r.accountKey, r.invoiceKey).value;
      var i :| 0 <= i < |rows| && rows[i] == a;
      var j :| 0 <= j < |rows| && rows[j] == found;
    }
  }

  lemma CreateKeepsMirror(m: Maps, rows: seq<Account>, r: Request, index: nat)
    requires Mirrors(m, rows) && (r.invoiceKey.Some? ==> Keyed(r) !in m.byKey)
    ensures var created := Account(r.accountKey, r.invoiceKey, index);
            Mirrors(Maps(if r.invoiceKey.Some? then m.byKey[Keyed(r) := created] else m.byKey,
                         m.byIndex[index := created]),
                    rows + [created])
  {
    IndicesOfOneMore(rows, Account(r.accountKey, r.invoiceKey, index));
  }

  lemma StepAgrees(m: Maps, rows: seq<Account>, r: Request)
    requires Mirrors(m, rows) && PairsDiffer(rows) && NoClash(rows, r)
    ensures Mirrors(Resolved(m, r).0, GetOrCreate(rows, r).0)
    ensures Resolved(m, r).1 == GetOrCreate(rows, r).1
  {
    if r.invoiceKey.Some? {
      SameLookup(m, rows, r);
    }
    if !(r.invoiceKey.Some? && Keyed(r) in m.byKey) {
      CreateKeepsMirror(m, rows, r, NextIndex(Indices(rows), r.start, r.end));
    }
  }

  /** The request that an account was created for. */
  predicate CreatedAt(requests: seq<Request>, i: nat, a: Account) {
    && i < |requests| && LastAnswer(requests[..i + 1]).Ok?
    && requests[i].accountKey == a.accountKey && requests[i].invoiceKey == a.invoiceKey
  }

  lemma {:induction false} RowsWereRequested(requests: seq<Request>, a: Account) returns (i: nat)
    requires a in Rows(requests)
    ensures CreatedAt(requests, i, a)
  {
    var before := requests[..|requests| - 1];
    if a in Rows(before) {
      i := RowsWereRequested(before, a);
      assert before[..i + 1] == requests[..i + 1];
    } else {
      i := |before|;
      assert requests[..i + 1] == requests;
    }
  }

  lemma {:induction false} MapsMirrorTable(requests: seq<Request>)
    requires forall i, j :: !Collide(requests, i, j)
    ensures Mirrors(RunMaps(requests), Rows(requests))
    ensures requests != [] ==> LastAnswerInMemory(requests) == LastAnswer(requests)
  {
    if requests != [] {
      var before, r := requests[..|requests| - 1], requests[|requests| - 1];
      forall i: nat, j: nat
        ensures !Collide(before, i, j)
      {
        assert i < |before| ==> before[..i + 1] == requests[..i + 1];
        assert !Collide(requests, i, j);
      }
      forall a | a in Rows(before) && a.invoiceKey.Some? && r.invoiceKey.Some?
        && StoreKey(a.accountKey, a.invoiceKey.value) == Keyed(r)
        ensures a.accountKey == r.accountKey && a.invoiceKey == r.invoiceKey
      {
        var i := RowsWereRequested(before, a);
        assert before[..i + 1] == requests[..i + 1];
        assert !Collide(requests, i, |before|);
      }
      MapsMirrorTable(before);
      TableIsInjective(before);
      StepAgrees(RunMaps(before), Rows(before), r);
    }
  }

  lemma NoCollideMeansAgreement(requests: seq<Request>)
    requires forall i, j :: !Collide(requests, i, j)
    ensures Agree(requests)
  {
    forall n | 0 < n <= |requests|
      ensures SameAnswer(requests, n)
    {
      forall i: nat, j: nat
        ensures !Collide(requests[..n], i, j)
      {
        assert i < n ==> requests[..n][..i + 1] == requests[..i + 1];
        assert !Collide(requests, i, j);
      }
      MapsMirrorTable(requests[..n]);
    }
  }

  lemma NoCollisionMeansAgreement(requests: seq<Request>)
    requires NoCollision(requests)
    ensures Agree(requests)
  {
    NoCollideMeansAgreement(requests);
  }

  /** What the maps answered once for a store key they answer ever after. */
  lemma {:induction false} MapsRemember(requests: seq<Request>, r: Request, more: seq<Request>)
    requires r.invoiceKey.Some? && LastAnswerInMemory(requests + [r]).Ok?
    ensures Keyed(r) in RunMaps(requests + [r] + more).byKey
    ensures RunMaps(requests + [r] + more).byKey[Keyed(r)] == LastAnswerInMemory(requests + [r]).value
  {
    var all := requests + [r] + more;
    if more == [] {
      assert all == requests + [r] && all[..|all| - 1] == requests;
    } else {
      assert all[..|all| - 1] == requests + [r] + more[..|more| - 1];
      MapsRemember(requests, r, more[..|more| - 1]);
    }
  }

  lemma AnswerHasThePair(requests: seq<Request>, r: Request)
    requires LastAnswer(requests + [r]).Ok?
    ensures LastAnswer(requests + [r]).value.accountKey == r.accountKey
            && LastAnswer(requests + [r]).value.invoiceKey == r.invoiceKey
  {
    assert (requests + [r])[..|requests|] == requests;
    FindIsExact(Rows(requests), r.accountKey, r.invoiceKey);
  }

  /** Once the maps have answered `r`, they answer a colliding request with the same account. */
  lemma CollisionIsAnsweredAlike(before: seq<Request>, r: Request, middle: seq<Request>, r': Request)
    requires r.invoiceKey.Some? && r'.invoiceKey.Some? && Keyed(r) == Keyed(r')
    requires LastAnswerInMemory(before + [r]).Ok?
    ensures LastAnswerInMemory(before + [r] + middle + [r']) == LastAnswerInMemory(before + [r])
  {
    var all := before + [r] + middle;
    MapsRemember(before, r, middle);
    assert (all + [r'])[..|all|] == all;
  }

  /** If both answers are the table's, the colliding requests name the same pair. */
  lemma AlikeMeansSamePair(before: seq<Request>, r: Request, middle: seq<Request>, r': Request)
    requires r.invoiceKey.Some? && r'.invoiceKey.Some? && Keyed(r) == Keyed(r')
    requires LastAnswerInMemory(before + [r]) == LastAnswer(before + [r]) && LastAnswer(before + [r]).Ok?
    requires LastAnswerInMemory(before + [r] + middle + [r']) == LastAnswer(before + [r] + middle + [r'])
    ensures SamePair(r, r')
  {
    CollisionIsAnsweredAlike(before, r, middle, r');
    AnswerHasThePair(before, r);
    AnswerHasThePair(before + [r] + middle, r');
  }

  lemma SplitAround(requests: seq<Request>, i: nat, j: nat)
    requires i < j < |requests|
    ensures requests[..i + 1] == requests[..i] + [requests[i]]
    ensures requests[..j + 1] == requests[..i] + [requests[i]] + requests[i + 1..j] + [requests[j]]
  {
  }

  lemma CollisionShows(requests: seq<Request>, i: nat, j: nat)
    requires Collide(requests, i, j)
    ensures !(SameAnswer(requests, i + 1) && SameAnswer(requests, j + 1))
  {
    SplitAround(requests, i, j);
    if SameAnswer(requests, i + 1) && SameAnswer(requests, j + 1) {
      AlikeMeansSamePair(requests[..i], requests[i], requests[i + 1..j], requests[j]);
    }
  }

  /** The maps answer every request as the table does, an exhausted range included,
      exactly when no request collides with an earlier one that was answered. */
  lemma AgreeIff(requests: seq<Request>)
    ensures Agree(requests) <==> forall i, j :: !Collide(requests, i, j)
  {
    if Agree(requests) {
      forall i: nat, j: nat
        ensures !Collide(requests, i, j)
      {
        if Collide(requests, i, j) {
          CollisionShows(requests, i, j);
        }
      }
    }
    if forall i, j :: !Collide(requests, i, j) {
      NoCollideMeansAgreement(requests);
    }
  }

  lemma {:induction false} KeyOfNulFree(a: string, k: string, a': string, k': string)
    requires '\0' !in a && '\0' !in a' && StoreKey(a, k) == StoreKey(a', k')
    ensures a == a' && k == k'
  {
    var s := StoreKey(a, k);
    assert s[|a|] == '\0' && s[|a'|] == '\0';
    assert forall i | 0 <= i < |a| :: s[i] == a[i];
    assert forall i | 0 <= i < |a'| :: s[i] == a'[i];
    assert s[..|a|] == a && s[..|a'|] == a' && s[|a| + 1..] == k && s[|a'| + 1..] == k';
  }

  /** Account keys without NUL are enough, whatever the invoice keys and ranges. */
  lemma AgreeWithoutNul(requests: seq<Request>)
    requires forall r | r in requests :: '\0' !in r.accountKey
    ensures Agree(requests)
  {
    forall r, r' | r in requests && r' in requests && r.invoiceKey.Some? && r'.invoiceKey.Some? && Keyed(r) == Keyed(r')
      ensures SamePair(r, r')
    {
      KeyOfNulFree(r.accountKey, r.invoiceKey.value, r'.accountKey, r'.invoiceKey.value);
    }
    NoCollisionMeansAgreement(requests);
  }

  /** With a NUL in an account key one buyer is given the other one's account. */
  lemma NulKeysDisagree()
    ensures var requests := [Request("a", Some("b\0c"), 0, 10), Request("a\0b", Some("c"), 0, 10)];
            && LastAnswerInMemory(requests) == Ok(Account("a", Some("b\0c"), 0))
            && LastAnswer(requests) == Ok(Account("a\0b", Some("c"), 1))
            && !Agree(requests)
  {
    var r, r' := Request("a", Some("b\0c"), 0, 10), Request("a\0b", Some("c"), 0, 10);
    var requests, a := [r, r'], Account("a", Some("b\0c"), 0);
    assert requests[..1] == [r] && [r][..0] == [];
    assert Keyed(r) == "a\0b\0c" == Keyed(r');
    NextIsFresh({}, 0, 10);
    assert Indices([]) == {} && MaxIn({}, 0, 10) == None;
    assert Rows([r]) == [a] && RunMaps([r]).byKey == map["a\0b\0c" := a];
    assert [a][..0] == [] && Find([a], "a\0b", Some("c")) == None;
    assert a in [a] && Indices([a]) == {0};
    NextIsFresh({0}, 0, 10);
    assert MaxIn({0}, 0, 10).value == 0;
    assert requests[..2] == requests;
    assert !SameAnswer(requests, 2);
  }
}
