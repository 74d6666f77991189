/** History recovery: passes over an account's block history that hand confirmed
    incoming sends to the sink and move a durable cursor along. */
module Recovery {
  import opened Wrappers

  type Hash = string
  type Address = string

  datatype Entry = Entry(hash: Hash, kind: string, subtype: Option<string>, link: Option<Hash>)

  datatype Source = Source(confirmed: bool, subtype: string, blockAccount: Address, linkAsAccount: Address, amount: nat)

  datatype ConfirmedBlock = ConfirmedBlock(hash: Hash, sender: Address, recipient: Address, amount: nat)

  /** What one pass meets: the history, oldest first, of which the provider still
      has the part from `retained` on; what `blockInfo` would answer; the lookups that
      throw, the blocks at which the sink throws, and the entries whose cursor cannot
      be written. */
  datatype World = World(history: seq<Entry>, retained: nat, sources: map<Hash, Source>,
                         unreachable: set<Hash>, refused: set<Hash>, unwritable: set<Hash>)

  /** The stored cursor, what the sink accepted, and the entry that the first pass
      to move the cursor began with. */
  datatype State = State(cursor: Option<Hash>, accepted: set<ConfirmedBlock>, origin: nat)

  predicate IsReceive(e: Entry) {
    e.subtype == Some("receive") || e.subtype == Some("open") || e.kind == "receive" || e.kind == "open"
  }

  /** `findIndex`; the length if there is none. */
  function IndexOf(entries: seq<Entry>, hash: Hash): (n: nat)
    ensures n <= |entries| && (n < |entries| ==> entries[n].hash == hash)
            && forall i | 0 <= i < n :: entries[i].hash != hash
  {
    if entries == [] || entries[0].hash == hash then 0 else 1 + IndexOf(entries[1..], hash)
  }

  function Reverse<T>(xs: seq<T>): (r: seq<T>)
    ensures |r| == |xs| && forall i | 0 <= i < |xs| :: r[i] == xs[|xs| - 1 - i]
  {
    if xs == [] then [] else Reverse(xs[1..]) + [xs[0]]
  }

  function Min(a: nat, b: nat): nat {
    if a < b then a else b
  }

  /** Where the retained part of the history begins. */
  function Kept(w: World): nat {
    Min(w.retained, |w.history|)
  }

  /** The recent window of at most `count` entries that the provider retains. */
  function RecentFrom(w: World, count: nat): nat
  {
    |w.history| - Min(count, |w.history| - Kept(w))
  }

  /** `account_history`: newest first, or, from a known head on, oldest first. */
  function AccountHistory(w: World, count: nat, head: Option<Hash>): seq<Entry>
  {
    match head
    case None => Reverse(w.history[RecentFrom(w, count)..])
    case Some(h) =>
      var at := IndexOf(w.history, h);
      if Kept(w) <= at < |w.history| then w.history[at..at + Min(count, |w.history| - at)] else []
  }

  /** With a batch of at least one the answer starts at the cursor, if the provider has it. */
  lemma FromCursor(w: World, count: nat, cursor: Hash)
    requires cursor != ""
    ensures var entries, at := AccountHistory(w, count, Some(cursor)), IndexOf(w.history, cursor);
            if Known(w, Some(cursor)) && count > 0
            then entries == w.history[at..at + Min(count, |w.history| - at)] && entries != []
              && IndexOf(entries, cursor) == 0
            else IndexOf(entries, cursor) == |entries|
  {
  }

  lemma BehindCursor(w: World, count: nat, cursor: Hash)
    requires Known(w, Some(cursor)) && count > 0
    ensures var at := IndexOf(w.history, cursor);
            && AccountHistory(w, count, Some(cursor)) != []
            && AccountHistory(w, count, Some(cursor))[1..] == w.history[at + 1..at + Min(count, |w.history| - at)]
  {
  }

  /** Without a head the node answers with the newest entries that it retains, as many
      as are asked for if it has them, the newest one first. */
  lemma RecentIsNewest(w: World, count: nat)
    ensures var entries := AccountHistory(w, count, None);
            var kept := if w.retained < |w.history| then |w.history| - w.retained else 0;
            && |entries| == (if count < kept then count else kept)
            && forall i | 0 <= i < |entries| :: entries[i] == w.history[|w.history| - 1 - i]
  {
  }

  lemma RecentWindow(w: World, count: nat)
    ensures Reverse(AccountHistory(w, count, None)) == w.history[RecentFrom(w, count)..]
  {
  }

  function BlockOf(link: Hash, source: Source, account: Address): ConfirmedBlock {
    ConfirmedBlock(link, source.blockAccount, account, source.amount)
  }

  predicate Incoming(source: Source, account: Address) {
    source.subtype == "send" && source.linkAsAccount == account
  }

  /** Whether the pass gets to writing the cursor of this entry. */
  predicate Clears(w: World, account: Address, e: Entry) {
    IsReceive(e) ==>
      && e.link.Some? && e.link.value != "" && e.link.value in w.sources && e.link.value !in w.unreachable
      && w.sources[e.link.value].confirmed
      && (Incoming(w.sources[e.link.value], account) ==> e.link.value !in w.refused)
  }

  /** Whether the pass gets beyond this entry. */
  predicate Passable(w: World, account: Address, e: Entry) {
    Clears(w, account, e) && e.hash !in w.unwritable
  }

  /** A pass stops at a receive or open block whose source it cannot find or look up, whose
      source is not cemented, or at whose deposit the sink throws, and behind an entry
      whose cursor it cannot write. Nothing else stops it, sends and changes included. */
  lemma StopsIff(w: World, account: Address, e: Entry)
    ensures var receives := e.kind in {"receive", "open"} || e.subtype in {Some("receive"), Some("open")};
            var found := e.link !in {None, Some("")} && e.link.value in w.sources && e.link.value !in w.unreachable;
            var deposits := found && w.sources[e.link.value].subtype == "send"
                            && w.sources[e.link.value].linkAsAccount == account;
            Passable(w, account, e) <==>
              && e.hash !in w.unwritable
              && (receives ==> found && w.sources[e.link.value].confirmed && (deposits ==> e.link.value !in w.refused))
  {
  }

  /** What the sink gets for an entry, before its cursor is written. */
  function Delivery(w: World, account: Address, e: Entry): set<ConfirmedBlock>
    requires Clears(w, account, e)
  {
    if IsReceive(e) && Incoming(w.sources[e.link.value], account)
    then {BlockOf(e.link.value, w.sources[e.link.value], account)} else {}
  }

  /** The entries from `from` up to `to`, until one stops the pass. */
  function Scan(s: State, w: World, account: Address, from: nat, to: nat): State
    requires from <= to <= |w.history|
    decreases |w.history| - from
  {
    if from == to || !Clears(w, account, w.history[from]) then s
    else
      var e := w.history[from];
      var t := s.(accepted := s.accepted + Delivery(w, account, e));
      if e.hash in w.unwritable then t else Scan(t.(cursor := Some(e.hash)), w, account, from + 1, to)
  }

  predicate Known(w: World, cursor: Option<Hash>) {
    cursor.Some? && cursor.value != "" && Kept(w) <= IndexOf(w.history, cursor.value) < |w.history|
  }

  /** Whether a pass goes on behind the cursor. */
  predicate GoesOn(s: State, w: World, batch: nat) {
    Known(w, s.cursor) && batch > 0
  }

  /** A pass begins behind the cursor, or with the recent window when there is no
      cursor or the provider does not know it any more. */
  function Start(s: State, w: World, batch: nat): (from: nat)
    ensures from <= Stop(s, w, batch)
  {
    if GoesOn(s, w, batch) then IndexOf(w.history, s.cursor.value) + 1 else RecentFrom(w, batch)
  }

  function Stop(s: State, w: World, batch: nat): (to: nat)
    ensures to <= |w.history|
  {
    if GoesOn(s, w, batch)
    then IndexOf(w.history, s.cursor.value) + Min(batch, |w.history| - IndexOf(w.history, s.cursor.value))
      else |w.history|
  }

  /** One pass. */
  function Reconcile(s: State, w: World, account: Address, batch: nat): State
  {
    var t := Scan(s, w, account, Start(s, w, batch), Stop(s, w, batch));
    if s.cursor.None? && t.cursor.Some? then t.(origin := Start(s, w, batch)) else t
  }

  // ----- the imperative form -----

  class AccountHistoryRecovery {
    var cursors: map<Address, Hash>
    var accepted: set<ConfirmedBlock>
    ghost var origins: map<Address, nat>
    const batchSize: nat

    ghost function Contents(account: Address): State
      reads this
    {
      State(if account in cursors then Some(cursors[account]) else None, accepted,
            if account in origins then origins[account] else 0)
    }

    constructor (batchSize: nat)
      ensures cursors == map[] && accepted == {} && origins == map[] && this.batchSize == batchSize
    {
      this.batchSize := batchSize;
      cursors, accepted, origins := map[], {}, map[];
    }

    /** `reconcile` */
    method Pass(w: World, account: Address)
      modifies this
      ensures Contents(account) == Reconcile(old(Contents(account)), w, account, batchSize)
      ensures forall a | a != account ::
                (a in cursors <==> a in old(cursors)) && (a in cursors ==> cursors[a] == old(cursors[a]))
    {
      ghost var before := Contents(account);
      ghost var from := Start(before, w, batchSize);
      var entries := EntriesToScan(w, account);
      Walk(entries, w, account, from);
      if before.cursor.None? && account in cursors {
        origins := origins[account := from];
      }
    }

    /** The entries behind a cursor, if the answer contains it. */
    method EntriesBehind(w: World, cursor: Hash) returns (found: bool, entries: seq<Entry>)
      requires cursor != ""
      ensures found <==> Known(w, Some(cursor)) && batchSize > 0
      ensures found ==>
                var at := IndexOf(w.history, cursor);
                entries == w.history[at + 1..at + Min(batchSize, |w.history| - at)]
    {
      entries := AccountHistory(w, batchSize, Some(cursor));
      FromCursor(w, batchSize, cursor);
      var position := IndexOf(entries, cursor);
      found := position < |entries|;
      if found {
        BehindCursor(w, batchSize, cursor);
        entries := entries[position + 1..];
      }
    }

    /** The recent window, oldest first. */
    method RecentEntries(w: World) returns (entries: seq<Entry>)
      ensures entries == w.history[RecentFrom(w, batchSize)..]
    {
      entries := Reverse(AccountHistory(w, batchSize, None));
      RecentWindow(w, batchSize);
    }

    /** The entries behind the cursor, or the recent window. */
    method EntriesToScan(w: World, account: Address) returns (entries: seq<Entry>)
      ensures entries == w.history[Start(Contents(account), w, batchSize)..Stop(Contents(account), w, batchSize)]
    {
      var cursor := if account in cursors then cursors[account] else "";
      if cursor != "" {
        var found;
        found, entries := EntriesBehind(w, cursor);
        if found {
          return;
        }
      }
      entries := RecentEntries(w);
    }

    method Walk(entries: seq<Entry>, w: World, account: Address, ghost from: nat)
      requires from + |entries| <= |w.history| && entries == w.history[from..from + |entries|]
      modifies this`cursors, this`accepted
      ensures Contents(account) == Scan(old(Contents(account)), w, account, from, from + |entries|)
      ensures forall a | a != account ::
                (a in cursors <==> a in old(cursors)) && (a in cursors ==> cursors[a] == old(cursors[a]))
    {
      var i := 0;
      while i < |entries|
        invariant 0 <= i <= |entries|
        invariant Scan(Contents(account), w, account, from + i, from + |entries|)
                    == Scan(old(Contents(account)), w, account, from, from + |entries|)
        invariant forall a | a != account ::
                    (a in cursors <==> a in old(cursors)) && (a in cursors ==> cursors[a] == old(cursors[a]))
      {
        var e := entries[i];
        ghost var s := Contents(account);
        assert e == w.history[from + i];
        if IsReceive(e) {
          if e.link.None? || e.link.value == "" {
            return;
          }
          var link := e.link.value;
          if link !in w.sources || link in w.unreachable {
            return;
          }
          var source := w.sources[link];
          if !source.confirmed {
            return;
          }
          if source.subtype == "send" && source.linkAsAccount == account {
            if link in w.refused {
              return;
            }
            accepted := accepted + {BlockOf(link, source, account)};
          }
        }
        assert Clears(w, account, e);
        if e.hash in w.unwritable {
          return;
        }
        cursors := cursors[account := e.hash];
        assert Contents(account) == s.(cursor := Some(e.hash), accepted := s.accepted + Delivery(w, account, e));
        i := i + 1;
      }
    }
  }

  // ----- runs -----

  ghost predicate Distinct(entries: seq<Entry>) {
    forall i, j | 0 <= i < j < |entries| :: entries[i].hash != entries[j].hash
  }

  ghost predicate WorldOk(w: World) {
    Distinct(w.history) && forall e | e in w.history :: e.hash != ""
  }

  /** Histories are only appended to, and a cemented source stays what it is. */
  ghost predicate Follows(w: World, next: World) {
    && w.history <= next.history
    && forall h | h in w.sources && w.sources[h].confirmed :: h in next.sources && next.sources[h] == w.sources[h]
  }

  /** A receive of a cemented send to this account. */
  predicate Deposit(w: World, account: Address, e: Entry) {
    && IsReceive(e) && e.link.Some?
    && e.link.value in w.sources && w.sources[e.link.value].confirmed && Incoming(w.sources[e.link.value], account)
  }

  /** A receive or open block of a cemented send to this account, and what the sink gets for it. */
  lemma DepositIs(w: World, account: Address, e: Entry)
    ensures Deposit(w, account, e) <==>
              && (e.kind in {"receive", "open"} || e.subtype in {Some("receive"), Some("open")})
              && e.link.Some? && e.link.value in w.sources
              && var source := w.sources[e.link.value];
                 source.confirmed && source.subtype == "send" && source.linkAsAccount == account
    ensures Deposit(w, account, e) ==>
              var source := w.sources[e.link.value];
              DepositBlock(w, account, e) == ConfirmedBlock(e.link.value, source.blockAccount, account, source.amount)
  {
  }

  function DepositBlock(w: World, account: Address, e: Entry): ConfirmedBlock
    requires Deposit(w, account, e)
  {
    BlockOf(e.link.value, w.sources[e.link.value], account)
  }

  /** A receive whose source is cemented, and accepted if it was sent to this account. */
  ghost predicate Settled(s: State, w: World, account: Address, e: Entry) {
    IsReceive(e) ==>
      && e.link.Some? && e.link.value in w.sources && w.sources[e.link.value].confirmed
      && (Deposit(w, account, e) ==> DepositBlock(w, account, e) in s.accepted)
  }

  function At(s: State, w: World): nat {
    if s.cursor.None? then 0 else IndexOf(w.history, s.cursor.value)
  }

  /** Whether a pass gets beyond an entry at all. */
  predicate Moves(s: State, w: World, account: Address, batch: nat) {
    Start(s, w, batch) < Stop(s, w, batch) && Passable(w, account, w.history[Start(s, w, batch)])
  }

  /** A pass jumps over an entry: the provider has forgotten the cursor, the recent
      window begins behind the entry, and the pass moves on from there. */
  predicate JumpsOver(s: State, w: World, account: Address, batch: nat, i: nat) {
    s.cursor.Some? && !Known(w, s.cursor) && Moves(s, w, account, batch) && At(s, w) < i < RecentFrom(w, batch)
  }

  function Jumped(s: State, w: World, account: Address, batch: nat): set<nat> {
    set i: nat | i < |w.history| && JumpsOver(s, w, account, batch, i)
  }

  /** The cursor names a block of the history, and between the entry scanned first
      and the cursor everything is settled that was not jumped over. */
  ghost predicate Inv(s: State, w: World, account: Address, jumped: set<nat>) {
    if s.cursor.None? then jumped == {}
    else
      && s.cursor.value != ""
      && s.origin <= At(s, w) < |w.history|
      && (forall i | s.origin <= i <= At(s, w) && i !in jumped :: Settled(s, w, account, w.history[i]))
      && forall i | i in jumped :: s.origin < i < At(s, w)
  }

  lemma IndexIs(entries: seq<Entry>, i: nat)
    requires Distinct(entries) && i < |entries|
    ensures IndexOf(entries, entries[i].hash) == i
  {
  }

  lemma IndexStays(entries: seq<Entry>, longer: seq<Entry>, hash: Hash)
    requires entries <= longer && IndexOf(entries, hash) < |entries|
    ensures IndexOf(longer, hash) == IndexOf(entries, hash)
  {
    var n := IndexOf(entries, hash);
    assert longer[n] == entries[n];
    assert forall i | 0 <= i < n :: longer[i] == entries[i];
  }

  /** A scan settles every entry from its first to the cursor it leaves. */
  lemma {:induction false} ScanSettles(s: State, w: World, account: Address, from: nat, to: nat)
    requires WorldOk(w) && from <= to <= |w.history|
    ensures var t := Scan(s, w, account, from, to);
            && s.accepted <= t.accepted && t.origin == s.origin
            && if from < to && Passable(w, account, w.history[from])
               then t.cursor.Some? && t.cursor.value != "" && from <= At(t, w) < to
                    && forall i | from <= i <= At(t, w) :: Settled(t, w, account, w.history[i])
               else t == s.(accepted := t.accepted)
    decreases |w.history| - from
  {
    if from < to && Passable(w, account, w.history[from]) {
      var e := w.history[from];
      IndexIs(w.history, from);
      ScanSettles(s.(cursor := Some(e.hash), accepted := s.accepted + Delivery(w, account, e)), w, account, from + 1,
                  to);
    }
  }

  lemma InvInNextWorld(s: State, w: World, next: World, account: Address, jumped: set<nat>)
    requires Inv(s, w, account, jumped) && Follows(w, next)
    ensures Inv(s, next, account, jumped) && (s.cursor.Some? ==> At(s, next) == At(s, w))
  {
    if s.cursor.Some? {
      IndexStays(w.history, next.history, s.cursor.value);
      forall i | s.origin <= i <= At(s, next) && i !in jumped
        ensures Settled(s, next, account, next.history[i])
      {
        assert Settled(s, w, account, w.history[i]);
      }
    }
  }

  /** A pass that moves settles everything from its start to its new cursor. */
  lemma PassSettles(s: State, w: World, account: Address, batch: nat)
    requires WorldOk(w)
    ensures var t := Reconcile(s, w, account, batch);
            if Moves(s, w, account, batch) then
              && t.cursor.Some? && t.cursor.value != ""
              && Start(s, w, batch) <= At(t, w) < |w.history|
              && s.accepted <= t.accepted && t.origin == (if s.cursor.None? then Start(s, w, batch) else s.origin)
              && forall i | Start(s, w, batch) <= i <= At(t, w) :: Settled(t, w, account, w.history[i])
            else t == s.(accepted := t.accepted) && s.accepted <= t.accepted
  {
    ScanSettles(s, w, account, Start(s, w, batch), Stop(s, w, batch));
    var u := Scan(s, w, account, Start(s, w, batch), Stop(s, w, batch));
    var t := Reconcile(s, w, account, batch);
    if Moves(s, w, account, batch) {
      forall i | Start(s, w, batch) <= i <= At(t, w)
        ensures Settled(t, w, account, w.history[i])
      {
        assert Settled(u, w, account, w.history[i]);
      }
    }
  }

  /** A pass that moves starts behind the cursor, and what lies between is jumped over. */
  lemma StartsBehind(s: State, w: World, account: Address, batch: nat)
    requires s.cursor.Some? && s.cursor.value != "" && At(s, w) < |w.history|
    ensures Moves(s, w, account, batch) ==> At(s, w) < Start(s, w, batch)
    ensures forall i: nat :: JumpsOver(s, w, account, batch, i)
                             <==> Moves(s, w, account, batch) && At(s, w) < i < Start(s, w, batch)
  {
  }

  /** The cursor never moves back, and never past a receive whose source is not
      cemented, other than by jumping over it. */
  lemma PassKeepsInv(s: State, w: World, account: Address, batch: nat, jumped: set<nat>)
    requires WorldOk(w) && Inv(s, w, account, jumped)
    ensures var t := Reconcile(s, w, account, batch);
            && Inv(t, w, account, jumped + Jumped(s, w, account, batch)) && s.accepted <= t.accepted
            && (s.cursor.Some? ==> t.cursor.Some? && t.origin == s.origin && At(t, w) >= At(s, w))
  {
    var t, now := Reconcile(s, w, account, batch), Jumped(s, w, account, batch);
    PassSettles(s, w, account, batch);
    if s.cursor.Some? {
      StartsBehind(s, w, account, batch);
    }
    if Moves(s, w, account, batch) {
      forall i | t.origin <= i <= At(t, w) && i !in jumped + now
        ensures Settled(t, w, account, w.history[i])
      {
        assert i < Start(s, w, batch) ==> Settled(s, w, account, w.history[i]);
      }
    } else {
      assert now == {};
      assert jumped + now == jumped;
      forall i | s.cursor.Some? && s.origin <= i <= At(s, w) && i !in jumped
        ensures Settled(t, w, account, w.history[i])
      {
        assert Settled(s, w, account, w.history[i]);
      }
    }
  }

  /** Passes over successive worlds, from an empty cursor store. */
  function Passes(worlds: seq<World>, account: Address, batch: nat): State
  {
    if worlds == [] then State(None, {}, 0)
    else Reconcile(Passes(worlds[..|worlds| - 1], account, batch), worlds[|worlds| - 1], account, batch)
  }

  /** Everything these passes jump over. */
  function AllJumped(worlds: seq<World>, account: Address, batch: nat): set<nat>
  {
    if worlds == [] then {}
    else
      var before, w := worlds[..|worlds| - 1], worlds[|worlds| - 1];
      AllJumped(before, account, batch) + Jumped(Passes(before, account, batch), w, account, batch)
  }

  ghost predicate WorldsOk(worlds: seq<World>) {
    && (forall w | w in worlds :: WorldOk(w))
    && (forall i, j | 0 <= i < j < |worlds| :: Follows(worlds[i], worlds[j]))
  }

  /** What the last pass finds. */
  lemma {:induction false} PassesKeepInv(worlds: seq<World>, account: Address, batch: nat)
    requires WorldsOk(worlds) && worlds != []
    ensures var w := worlds[|worlds| - 1];
            && WorldOk(w)
            && Inv(Passes(worlds[..|worlds| - 1], account, batch), w, account,
                   AllJumped(worlds[..|worlds| - 1], account, batch))
            && Inv(Passes(worlds, account, batch), w, account, AllJumped(worlds, account, batch))
  {
    var before, w := worlds[..|worlds| - 1], worlds[|worlds| - 1];
    var s := Passes(before, account, batch);
    if before != [] {
      PassesKeepInv(before, account, batch);
      assert Follows(worlds[|worlds| - 2], worlds[|worlds| - 1]);
      InvInNextWorld(s, before[|before| - 1], w, account, AllJumped(before, account, batch));
    }
    assert w in worlds;
    PassKeepsInv(s, w, account, batch, AllJumped(before, account, batch));
  }

  /** Every receive between the entry scanned first and the cursor that no pass
      jumped over has a cemented source, and every one that was sent to this
      account reached the sink. */
  lemma NothingElseIsSkipped(worlds: seq<World>, account: Address, batch: nat, i: nat)
    requires WorldsOk(worlds) && worlds != []
    requires var s, w := Passes(worlds, account, batch), worlds[|worlds| - 1];
             s.cursor.Some? && s.origin <= i <= At(s, w) && i !in AllJumped(worlds, account, batch)
    ensures var s, w := Passes(worlds, account, batch), worlds[|worlds| - 1];
            i < |w.history| && Settled(s, w, account, w.history[i])
  {
    PassesKeepInv(worlds, account, batch);
  }

  /** Over successive passes the cursor only moves forward, what the sink has
      accepted only grows, and the scan is counted from the same first entry. */
  lemma CursorNeverMovesBack(worlds: seq<World>, account: Address, batch: nat)
    requires WorldsOk(worlds) && |worlds| > 1
    requires Passes(worlds[..|worlds| - 1], account, batch).cursor.Some?
    ensures var w := worlds[|worlds| - 1];
            var s, t := Passes(worlds[..|worlds| - 1], account, batch), Passes(worlds, account, batch);
            t.cursor.Some? && At(s, w) <= At(t, w) < |w.history| && s.accepted <= t.accepted && t.origin == s.origin
  {
    var before := worlds[..|worlds| - 1];
    PassesKeepInv(worlds, account, batch);
    PassKeepsInv(Passes(before, account, batch), worlds[|worlds| - 1], account, batch,
                 AllJumped(before, account, batch));
  }

  // ----- what is lost -----

  /** A block that reached the sink, at its entry. */
  predicate DepositedAt(w: World, account: Address, i: nat, b: ConfirmedBlock) {
    i < |w.history| && Deposit(w, account, w.history[i]) && b == DepositBlock(w, account, w.history[i])
  }

  /** A pass hangs at an entry: it gets to it and hands it over, but cannot write its cursor. */
  predicate HangsAt(s: State, w: World, account: Address, batch: nat, i: nat) {
    && Start(s, w, batch) <= i < Stop(s, w, batch)
    && Clears(w, account, w.history[i]) && w.history[i].hash in w.unwritable
    && forall j | Start(s, w, batch) <= j < i :: Passable(w, account, w.history[j])
  }

  function Hung(s: State, w: World, account: Address, batch: nat): set<nat> {
    set i: nat | i < |w.history| && HangsAt(s, w, account, batch, i)
  }

  /** An entry for which the sink was given what belongs to it. */
  predicate Scanned(s: State, w: World, jumped: set<nat>, hung: set<nat>, i: nat) {
    (s.cursor.Some? && s.origin <= i <= At(s, w) && i !in jumped) || i in hung
  }

  /** The sink only got blocks from entries up to the cursor that were not jumped over,
      and from those at which a pass hung. */
  ghost predicate OnlyScanned(s: State, w: World, account: Address, jumped: set<nat>, hung: set<nat>) {
    forall b | b in s.accepted :: exists i | Scanned(s, w, jumped, hung, i) :: DepositedAt(w, account, i, b)
  }

  /** It got what belongs to the latter. */
  ghost predicate HungDelivered(s: State, w: World, account: Address, hung: set<nat>) {
    forall i | i in hung :: i < |w.history|
      && (Deposit(w, account, w.history[i]) ==> DepositBlock(w, account, w.history[i]) in s.accepted)
  }

  lemma {:induction false} ScanDelivers(s: State, w: World, account: Address, from: nat, to: nat, b: ConfirmedBlock)
    returns (i: nat)
    requires WorldOk(w) && from <= to <= |w.history|
    requires b in Scan(s, w, account, from, to).accepted && b !in s.accepted
    ensures from <= i < to && DepositedAt(w, account, i, b) && Clears(w, account, w.history[i])
    ensures forall j | from <= j < i :: Passable(w, account, w.history[j])
    ensures w.history[i].hash !in w.unwritable ==>
              Scan(s, w, account, from, to).cursor.Some? && i <= At(Scan(s, w, account, from, to), w)
    decreases |w.history| - from
  {
    var e := w.history[from];
    var next := s.(cursor := Some(e.hash), accepted := s.accepted + Delivery(w, account, e));
    if b in next.accepted {
      i := from;
      ScanSettles(s, w, account, from, to);
    } else {
      i := ScanDelivers(next, w, account, from + 1, to, b);
    }
  }

  lemma {:induction false} ScanHangs(s: State, w: World, account: Address, from: nat, to: nat, i: nat)
    requires WorldOk(w) && from <= i < to <= |w.history|
    requires Clears(w, account, w.history[i]) && w.history[i].hash in w.unwritable
    requires forall j | from <= j < i :: Passable(w, account, w.history[j])
    ensures Delivery(w, account, w.history[i]) <= Scan(s, w, account, from, to).accepted
    decreases |w.history| - from
  {
    if from < i {
      var e := w.history[from];
      ScanHangs(s.(cursor := Some(e.hash), accepted := s.accepted + Delivery(w, account, e)), w, account, from + 1, to,
                i);
    }
  }

  lemma PassDeliversHung(s: State, w: World, account: Address, batch: nat, jumped: set<nat>, hung: set<nat>)
    requires WorldOk(w) && Inv(s, w, account, jumped) && HungDelivered(s, w, account, hung)
    ensures HungDelivered(Reconcile(s, w, account, batch), w, account, hung + Hung(s, w, account, batch))
  {
    PassKeepsInv(s, w, account, batch, jumped);
    forall i | i in Hung(s, w, account, batch)
      ensures Delivery(w, account, w.history[i]) <= Reconcile(s, w, account, batch).accepted
    {
      ScanHangs(s, w, account, Start(s, w, batch), Stop(s, w, batch), i);
    }
  }

  lemma PassKeepsOnlyScanned(s: State, w: World, account: Address, batch: nat, jumped: set<nat>, hung: set<nat>)
    requires WorldOk(w) && Inv(s, w, account, jumped) && OnlyScanned(s, w, account, jumped, hung)
    ensures OnlyScanned(Reconcile(s, w, account, batch), w, account,
                        jumped + Jumped(s, w, account, batch), hung + Hung(s, w, account, batch))
  {
    var t := Reconcile(s, w, account, batch);
    var all, stuck := jumped + Jumped(s, w, account, batch), hung + Hung(s, w, account, batch);
    forall b | b in t.accepted
      ensures exists i | Scanned(t, w, all, stuck, i) :: DepositedAt(w, account, i, b)
    {
      if b in s.accepted {
        var i :| Scanned(s, w, jumped, hung, i) && DepositedAt(w, account, i, b);
        StillScanned(s, w, account, batch, jumped, hung, i);
      } else {
        var i := ScanDelivers(s, w, account, Start(s, w, batch), Stop(s, w, batch), b);
        NewlyScanned(s, w, account, batch, jumped, hung, i);
      }
    }
  }

  lemma StillScanned(s: State, w: World, account: Address, batch: nat, jumped: set<nat>, hung: set<nat>, i: nat)
    requires WorldOk(w) && Inv(s, w, account, jumped) && Scanned(s, w, jumped, hung, i)
    ensures Scanned(Reconcile(s, w, account, batch), w,
                    jumped + Jumped(s, w, account, batch), hung + Hung(s, w, account, batch), i)
  {
    PassKeepsInv(s, w, account, batch, jumped);
  }

  /** An entry that this pass gets to is not jumped over, and behind the cursor or hung at. */
  lemma NewlyScanned(s: State, w: World, account: Address, batch: nat, jumped: set<nat>, hung: set<nat>, i: nat)
    requires WorldOk(w) && Inv(s, w, account, jumped)
    requires Start(s, w, batch) <= i < Stop(s, w, batch) && Clears(w, account, w.history[i])
    requires forall j | Start(s, w, batch) <= j < i :: Passable(w, account, w.history[j])
    requires w.history[i].hash !in w.unwritable ==>
               var t := Reconcile(s, w, account, batch);
               t.cursor.Some? && i <= At(t, w)
    ensures Scanned(Reconcile(s, w, account, batch), w,
                    jumped + Jumped(s, w, account, batch), hung + Hung(s, w, account, batch), i)
  {
    if w.history[i].hash in w.unwritable {
      assert HangsAt(s, w, account, batch, i);
    } else {
      assert Moves(s, w, account, batch);
      PassSettles(s, w, account, batch);
      if s.cursor.Some? {
        StartsBehind(s, w, account, batch);
      }
    }
  }

  predicate SourceIsCemented(w: World, e: Entry) {
    IsReceive(e) ==> e.link.Some? && e.link.value in w.sources && w.sources[e.link.value].confirmed
  }

  /** What the sink has got after these passes. */
  ghost predicate Deliveries(s: State, w: World, account: Address, jumped: set<nat>, hung: set<nat>) {
    && OnlyScanned(s, w, account, jumped, hung) && HungDelivered(s, w, account, hung)
    && forall i | i in hung :: i < |w.history| && SourceIsCemented(w, w.history[i])
  }

  lemma DeliveriesInNextWorld(s: State, w: World, next: World, account: Address, jumped: set<nat>, hung: set<nat>)
    requires Inv(s, w, account, jumped) && Deliveries(s, w, account, jumped, hung) && Follows(w, next)
    ensures Deliveries(s, next, account, jumped, hung)
  {
    InvInNextWorld(s, w, next, account, jumped);
    forall b | b in s.accepted
      ensures exists i | Scanned(s, next, jumped, hung, i) :: DepositedAt(next, account, i, b)
    {
      var i :| Scanned(s, w, jumped, hung, i) && DepositedAt(w, account, i, b);
      assert DepositedAt(next, account, i, b);
    }
  }

  /** Everything these passes hang at. */
  function AllHung(worlds: seq<World>, account: Address, batch: nat): set<nat>
  {
    if worlds == [] then {}
    else
      var before, w := worlds[..|worlds| - 1], worlds[|worlds| - 1];
      AllHung(before, account, batch) + Hung(Passes(before, account, batch), w, account, batch)
  }

  lemma {:induction false} PassesDeliver(worlds: seq<World>, account: Address, batch: nat)
    requires WorldsOk(worlds) && worlds != []
    ensures Deliveries(Passes(worlds, account, batch), worlds[|worlds| - 1], account,
                       AllJumped(worlds, account, batch), AllHung(worlds, account, batch))
  {
    var before, w := worlds[..|worlds| - 1], worlds[|worlds| - 1];
    var s := Passes(before, account, batch);
    var jumped, hung := AllJumped(before, account, batch), AllHung(before, account, batch);
    PassesKeepInv(worlds, account, batch);
    if before != [] {
      PassesDeliver(before, account, batch);
      PassesKeepInv(before, account, batch);
      assert Follows(worlds[|worlds| - 2], worlds[|worlds| - 1]);
      DeliveriesInNextWorld(s, before[|before| - 1], w, account, jumped, hung);
    }
    PassDeliversHung(s, w, account, batch, jumped, hung);
    PassKeepsOnlyScanned(s, w, account, batch, jumped, hung);
  }

  /** The k-th pass jumps over the entry. */
  predicate JumpedAt(worlds: seq<World>, account: Address, batch: nat, k: nat, i: nat) {
    k < |worlds| && JumpsOver(Passes(worlds[..k], account, batch), worlds[k], account, batch, i)
  }

  /** The k-th pass hangs at the entry. */
  predicate HungAt(worlds: seq<World>, account: Address, batch: nat, k: nat, i: nat) {
    k < |worlds| && HangsAt(Passes(worlds[..k], account, batch), worlds[k], account, batch, i)
  }

  lemma OneMorePass(worlds: seq<World>, account: Address, batch: nat, i: nat)
    requires worlds != []
    ensures i in AllJumped(worlds, account, batch)
            <==> i in AllJumped(worlds[..|worlds| - 1], account, batch)
                 || JumpedAt(worlds, account, batch, |worlds| - 1, i)
    ensures i in AllHung(worlds, account, batch)
            <==> i in AllHung(worlds[..|worlds| - 1], account, batch) || HungAt(worlds, account, batch, |worlds| - 1, i)
  {
  }

  lemma EarlierPass(worlds: seq<World>, account: Address, batch: nat, k: nat, i: nat)
    requires k < |worlds| - 1
    ensures JumpedAt(worlds, account, batch, k, i) <==> JumpedAt(worlds[..|worlds| - 1], account, batch, k, i)
    ensures HungAt(worlds, account, batch, k, i) <==> HungAt(worlds[..|worlds| - 1], account, batch, k, i)
  {
    assert worlds[..|worlds| - 1][..k] == worlds[..k];
  }

  lemma {:induction false} SomePass(worlds: seq<World>, account: Address, batch: nat, i: nat)
    ensures i in AllJumped(worlds, account, batch) <==> exists k :: JumpedAt(worlds, account, batch, k, i)
    ensures i in AllHung(worlds, account, batch) <==> exists k :: HungAt(worlds, account, batch, k, i)
  {
    if worlds != [] {
      var before := worlds[..|worlds| - 1];
      SomePass(before, account, batch, i);
      OneMorePass(worlds, account, batch, i);
      forall k: nat | k < |worlds| - 1
        ensures JumpedAt(worlds, account, batch, k, i) <==> JumpedAt(before, account, batch, k, i)
        ensures HungAt(worlds, account, batch, k, i) <==> HungAt(before, account, batch, k, i)
      {
        EarlierPass(worlds, account, batch, k, i);
      }
    }
  }

  /** On the ledger a source is received once. */
  ghost predicate ReceivedOnce(history: seq<Entry>) {
    forall i, j | 0 <= i < j < |history| && IsReceive(history[i]) && IsReceive(history[j]) && history[i].link.Some? ::
      history[i].link != history[j].link
  }

  /** A deposit has reached the sink exactly if its receive lies between the entry scanned
      first and the cursor and no pass jumped over it, or if a pass hung at it. */
  lemma ReachesTheSinkIff(worlds: seq<World>, account: Address, batch: nat, i: nat)
    requires WorldsOk(worlds) && worlds != [] && ReceivedOnce(worlds[|worlds| - 1].history)
    requires i < |worlds[|worlds| - 1].history|
             && Deposit(worlds[|worlds| - 1], account, worlds[|worlds| - 1].history[i])
    ensures var s, w := Passes(worlds, account, batch), worlds[|worlds| - 1];
            DepositBlock(w, account, w.history[i]) in s.accepted
            <==> || (s.cursor.Some? && s.origin <= i <= At(s, w) && forall k :: !JumpedAt(worlds, account, batch, k, i))
                 || exists k :: HungAt(worlds, account, batch, k, i)
  {
    var s, w := Passes(worlds, account, batch), worlds[|worlds| - 1];
    var jumped, hung := AllJumped(worlds, account, batch), AllHung(worlds, account, batch);
    SomePass(worlds, account, batch, i);
    PassesKeepInv(worlds, account, batch);
    PassesDeliver(worlds, account, batch);
    var b := DepositBlock(w, account, w.history[i]);
    if b in s.accepted {
      var j :| Scanned(s, w, jumped, hung, j) && DepositedAt(w, account, j, b);
      assert j == i;
    }
    if s.cursor.Some? && s.origin <= i <= At(s, w) && i !in jumped {
      assert Settled(s, w, account, w.history[i]);
    }
  }

  /** Between the entry scanned first and the cursor every deposit has reached the sink. */
  ghost predicate NothingLost(s: State, w: World, account: Address) {
    s.cursor.Some? ==>
      forall i | s.origin <= i <= At(s, w) && i < |w.history| && Deposit(w, account, w.history[i]) ::
        DepositBlock(w, account, w.history[i]) in s.accepted
  }

  lemma LostIff(s: State, w: World, account: Address, jumped: set<nat>, hung: set<nat>)
    requires Inv(s, w, account, jumped)
    requires forall i: nat | i < |w.history| && Deposit(w, account, w.history[i]) ::
               DepositBlock(w, account, w.history[i]) in s.accepted <==> Scanned(s, w, jumped, hung, i)
    ensures NothingLost(s, w, account)
            <==> forall i | i in jumped && i !in hung :: i < |w.history| && !Deposit(w, account, w.history[i])
  {
  }

  /** The same in terms of the single passes. */
  lemma JumpedButNotHung(worlds: seq<World>, account: Address, batch: nat, w: World)
    requires forall i | i in AllJumped(worlds, account, batch) :: i < |w.history|
    ensures (forall i | i in AllJumped(worlds, account, batch) && i !in AllHung(worlds, account, batch) ::
               i < |w.history| && !Deposit(w, account, w.history[i]))
            <==> forall k, i: nat | JumpedAt(worlds, account, batch, k, i) ::
                   i < |w.history|
                     && (Deposit(w, account, w.history[i]) ==> exists l :: HungAt(worlds, account, batch, l, i))
  {
    forall i: nat
      ensures i in AllJumped(worlds, account, batch) <==> exists k :: JumpedAt(worlds, account, batch, k, i)
      ensures i in AllHung(worlds, account, batch) <==> exists k :: HungAt(worlds, account, batch, k, i)
    {
      SomePass(worlds, account, batch, i);
    }
  }

  /** Nothing is lost exactly if no pass jumped over a deposit that no pass hung at: each
      of them found its cursor, or had a window that began right behind it, or did not
      move, or left out other entries only. */
  lemma NothingIsLostIff(worlds: seq<World>, account: Address, batch: nat)
    requires WorldsOk(worlds) && worlds != [] && ReceivedOnce(worlds[|worlds| - 1].history)
    ensures var w := worlds[|worlds| - 1];
            NothingLost(Passes(worlds, account, batch), w, account)
            <==> forall k, i: nat | JumpedAt(worlds, account, batch, k, i) ::
                   i < |w.history|
                     && (Deposit(w, account, w.history[i]) ==> exists l :: HungAt(worlds, account, batch, l, i))
  {
    var s, w := Passes(worlds, account, batch), worlds[|worlds| - 1];
    var jumped, hung := AllJumped(worlds, account, batch), AllHung(worlds, account, batch);
    PassesKeepInv(worlds, account, batch);
    forall i: nat | i < |w.history| && Deposit(w, account, w.history[i])
      ensures DepositBlock(w, account, w.history[i]) in s.accepted <==> Scanned(s, w, jumped, hung, i)
    {
      SomePass(worlds, account, batch, i);
      ReachesTheSinkIff(worlds, account, batch, i);
    }
    LostIff(s, w, account, jumped, hung);
    JumpedButNotHung(worlds, account, batch, w);
  }

  function Received(hash: Hash, source: Hash): Entry {
    Entry(hash, "state", Some("receive"), Some(source))
  }

  /** Three receives of deposits; the first pass meets one of them, and before the
      second the other two have arrived and the first is forgotten. */
  function Forgetful(account: Address): seq<World> {
    var source := Source(true, "send", "sender", account, 1);
    var sources := map["s" := source, "t" := source, "u" := source];
    var history := [Received("a", "s"), Received("b", "t"), Received("c", "u")];
    [World([Received("a", "s")], 0, sources, {}, {}, {}), World(history, 2, sources, {}, {}, {})]
  }

  /** A pass over one entry. */
  lemma PassOverOne(s: State, w: World, account: Address, batch: nat, hash: Hash, source: Hash)
    requires Stop(s, w, batch) == Start(s, w, batch) + 1
    requires w.history[Start(s, w, batch)] == Received(hash, source)
    requires source != "" && Deposit(w, account, Received(hash, source))
    requires source !in w.unreachable + w.refused && hash !in w.unwritable
    ensures Reconcile(s, w, account, batch)
            == State(Some(hash), s.accepted + {DepositBlock(w, account, Received(hash, source))},
                     if s.cursor.None? then Start(s, w, batch) else s.origin)
  {
    var from := Start(s, w, batch);
    assert Clears(w, account, w.history[from]);
    assert Scan(s, w, account, from, from + 1)
        == s.(cursor := Some(hash), accepted := s.accepted + {DepositBlock(w, account, Received(hash, source))});
  }

  lemma FirstOfTwoPasses(account: Address)
    ensures Reconcile(State(None, {}, 0), Forgetful(account)[0], account, 1)
            == State(Some("a"), {ConfirmedBlock("s", "sender", account, 1)}, 0)
  {
    PassOverOne(State(None, {}, 0), Forgetful(account)[0], account, 1, "a", "s");
  }

  lemma SecondOfTwoPasses(account: Address)
    ensures var first, third := ConfirmedBlock("s", "sender", account, 1), ConfirmedBlock("u", "sender", account, 1);
            Reconcile(State(Some("a"), {first}, 0), Forgetful(account)[1], account, 1)
              == State(Some("c"), {first, third}, 0)
  {
    var w, first := Forgetful(account)[1], ConfirmedBlock("s", "sender", account, 1);
    assert IndexOf(w.history, "a") == 0;
    PassOverOne(State(Some("a"), {first}, 0), w, account, 1, "c", "u");
  }

  lemma TwoPasses(account: Address)
    ensures Passes(Forgetful(account), account, 1)
            == State(Some("c"), {ConfirmedBlock("s", "sender", account, 1), ConfirmedBlock("u", "sender", account, 1)},
                     0)
  {
    var worlds := Forgetful(account);
    FirstOfTwoPasses(account);
    SecondOfTwoPasses(account);
    assert worlds[..1] == [worlds[0]] && worlds[..1][..0] == [];
    assert Passes(worlds[..1], account, 1) == Reconcile(State(None, {}, 0), worlds[0], account, 1);
  }

  lemma ForgetfulIsOk(account: Address)
    ensures WorldsOk(Forgetful(account)) && ReceivedOnce(Forgetful(account)[1].history)
  {
  }

  /** So with a batch of one the deposit in the middle is never handed to the sink. */
  lemma ForgottenCursorLosesADeposit(account: Address)
    ensures var worlds := Forgetful(account);
            var s := Passes(worlds, account, 1);
            && WorldsOk(worlds) && ReceivedOnce(worlds[1].history)
            && s.origin == 0 < 1 < At(s, worlds[1]) == 2
            && Deposit(worlds[1], account, worlds[1].history[1])
            && DepositBlock(worlds[1], account, worlds[1].history[1]) !in s.accepted
            && !NothingLost(s, worlds[1], account)
  {
    var w := Forgetful(account)[1];
    TwoPasses(account);
    ForgetfulIsOk(account);
    IndexIs(w.history, 2);
    assert DepositBlock(w, account, w.history[1]) == ConfirmedBlock("t", "sender", account, 1);
  }

  // ----- progress -----

  /** Nothing behind the start of the next pass can stop it. */
  ghost predicate Clear(s: State, w: World, account: Address, batch: nat) {
    forall i | Start(s, w, batch) <= i < |w.history| :: Passable(w, account, w.history[i])
  }

  lemma {:induction false} ScanAdvances(s: State, w: World, account: Address, from: nat, to: nat)
    requires WorldOk(w) && from <= to <= |w.history|
    requires forall i | from <= i < to :: Passable(w, account, w.history[i])
    ensures Scan(s, w, account, from, to).cursor == if from == to then s.cursor else Some(w.history[to - 1].hash)
    decreases |w.history| - from
  {
    if from < to {
      var e := w.history[from];
      ScanAdvances(s.(cursor := Some(e.hash), accepted := s.accepted + Delivery(w, account, e)), w, account, from + 1,
                   to);
    }
  }

  /** The entries behind a cursor that the provider knows; without one, all that it has. */
  function Distance(s: State, w: World): nat {
    if Known(w, s.cursor) then |w.history| - 1 - At(s, w) else |w.history| - Kept(w)
  }

  lemma PassAdvancesTo(s: State, w: World, account: Address, batch: nat)
    requires WorldOk(w) && Clear(s, w, account, batch)
    ensures var t, from, to := Reconcile(s, w, account, batch), Start(s, w, batch), Stop(s, w, batch);
            if from == to then t.cursor == s.cursor else Known(w, t.cursor) && At(t, w) == to - 1
  {
    var from, to := Start(s, w, batch), Stop(s, w, batch);
    ScanAdvances(s, w, account, from, to);
    if from < to {
      IndexIs(w.history, to - 1);
      assert w.history[to - 1] in w.history;
    }
  }

  /** One pass over a clear history brings a known cursor `batch - 1` entries nearer
      to the tip, or to the tip; with a batch of one or none it does not move. An
      absent or forgotten cursor gets to the tip at once, with any batch but none. */
  lemma PassAdvances(s: State, w: World, account: Address, batch: nat)
    requires WorldOk(w) && Clear(s, w, account, batch)
    ensures var t := Reconcile(s, w, account, batch);
            && Clear(t, w, account, batch)
            && (if Known(w, s.cursor) || (batch > 0 && Kept(w) < |w.history|) then Known(w, t.cursor)
                else t.cursor == s.cursor)
            && Distance(t, w) ==
               if Known(w, s.cursor)
               then if batch < 2 then Distance(s, w)
                 else if batch - 1 < Distance(s, w) then Distance(s, w) - (batch - 1) else 0
               else if batch == 0 then Distance(s, w) else 0
  {
    PassAdvancesTo(s, w, account, batch);
  }

  function Again(s: State, w: World, account: Address, batch: nat, passes: nat): State
  {
    if passes == 0 then s else Reconcile(Again(s, w, account, batch, passes - 1), w, account, batch)
  }

  ghost predicate AtTip(s: State, w: World) {
    s.cursor.Some? && At(s, w) == |w.history| - 1
  }

  /** With nothing to move over, or too small a batch, no pass moves the cursor. */
  lemma {:induction false} NoPassMoves(s: State, w: World, account: Address, batch: nat, passes: nat)
    requires WorldOk(w) && Clear(s, w, account, batch)
    requires if Known(w, s.cursor) then batch < 2 else batch == 0 || Kept(w) == |w.history|
    ensures Again(s, w, account, batch, passes).cursor == s.cursor
    ensures Clear(Again(s, w, account, batch, passes), w, account, batch)
  {
    if passes > 0 {
      NoPassMoves(s, w, account, batch, passes - 1);
      var before := Again(s, w, account, batch, passes - 1);
      PassAdvancesTo(before, w, account, batch);
    }
  }

  lemma {:induction false} DistanceShrinks(s: State, w: World, account: Address, batch: nat, passes: nat)
    requires WorldOk(w) && Clear(s, w, account, batch) && batch >= 2
    ensures Clear(Again(s, w, account, batch, passes), w, account, batch)
    ensures var d := Distance(Again(s, w, account, batch, passes), w); d == 0 || d + passes <= Distance(s, w)
    ensures passes > 0 && Kept(w) < |w.history| ==> Known(w, Again(s, w, account, batch, passes).cursor)
  {
    if passes > 0 {
      DistanceShrinks(s, w, account, batch, passes - 1);
      PassAdvances(Again(s, w, account, batch, passes - 1), w, account, batch);
    }
  }

  ghost predicate TipReached(s: State, w: World, account: Address, batch: nat, passes: nat) {
    AtTip(Again(s, w, account, batch, passes), w)
  }

  lemma TipIsReached(s: State, w: World, account: Address, batch: nat) returns (passes: nat)
    requires WorldOk(w) && Clear(s, w, account, batch) && !AtTip(s, w)
    requires Kept(w) < |w.history| && (batch >= 2 || (batch == 1 && !Known(w, s.cursor)))
    ensures TipReached(s, w, account, batch, passes)
  {
    if batch >= 2 {
      passes := Distance(s, w);
      DistanceShrinks(s, w, account, batch, passes);
    } else {
      passes := 1;
      PassAdvances(s, w, account, batch);
      assert Again(s, w, account, batch, 0) == s;
    }
  }

  /** Repeated passes reach the tip, from wherever the cursor is and also without
      one, exactly when the provider has something to scan and the batch holds two
      entries, or one while the provider does not know the cursor. */
  lemma TipIsReachedIff(s: State, w: World, account: Address, batch: nat)
    requires WorldOk(w) && Clear(s, w, account, batch) && !AtTip(s, w)
    ensures (exists passes: nat :: TipReached(s, w, account, batch, passes))
            <==> Kept(w) < |w.history| && (batch >= 2 || (batch == 1 && !Known(w, s.cursor)))
  {
    if Kept(w) < |w.history| && (batch >= 2 || (batch == 1 && !Known(w, s.cursor))) {
      var passes := TipIsReached(s, w, account, batch);
    } else {
      forall passes: nat
        ensures !TipReached(s, w, account, batch, passes)
      {
        NoPassMoves(s, w, account, batch, passes);
      }
    }
  }
}
