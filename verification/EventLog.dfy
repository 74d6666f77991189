/** The event log: `list` with its filters and cursor, the pages of `listEvents`,
    and what following `nextCursor` from page to page returns. */
module EventLog {
  import opened Wrappers

  datatype Event = Event(sequence: nat, id: string, eventType: string, resourceId: string, resourceType: string,
                         data: string)

  /** The filters of a query; an absent or empty one selects everything. */
  datatype Query = Query(eventType: Option<string>, resourceType: Option<string>, resourceId: Option<string>)

  /** Sequence numbers increase along the log; they may have gaps. */
  ghost predicate Sorted(log: seq<Event>) {
    forall i, j | 0 <= i < j < |log| :: log[i].sequence < log[j].sequence
  }

  // ----- cursors as text -----

  predicate IsDigit(c: char) {
    '0' <= c <= '9'
  }

  /** The pattern `^\d+$`. */
  predicate IsNumeral(s: string) {
    s != "" && forall c | c in s :: IsDigit(c)
  }

  function Number(s: string): nat
    requires forall c | c in s :: IsDigit(c)
  {
    if s == "" then 0
    else
      var last := s[|s| - 1];
      assert last in s && IsDigit(last);
      10 * Number(s[..|s| - 1]) + (last as int - '0' as int)
  }

  function Digit(n: nat): char
    requires n < 10
  {
    ('0' as int + n) as char
  }

  function Text(n: nat): string {
    if n < 10 then [Digit(n)] else Text(n / 10) + [Digit(n % 10)]
  }

  /** A printed cursor reads back as the number it was printed from. */
  lemma {:induction false} NumberOfText(n: nat)
    ensures IsNumeral(Text(n)) && Number(Text(n)) == n
  {
    if n < 10 {
      assert Text(n)[..0] == "";
      assert Number("") == 0;
    } else {
      NumberOfText(n / 10);
      var s := Text(n);
      assert s[..|s| - 1] == Text(n / 10);
    }
  }

  // ----- list -----

  predicate Wanted(filter: Option<string>, value: string) {
    filter.None? || filter.value == "" || filter.value == value
  }

  predicate Selected(q: Query, e: Event) {
    Wanted(q.eventType, e.eventType) && Wanted(q.resourceType, e.resourceType) && Wanted(q.resourceId, e.resourceId)
  }

  /** The events a query asks for behind a position of the log, in log order. */
  function Matching(log: seq<Event>, q: Query, after: nat): seq<Event> {
    if log == [] then []
    else
      var last := log[|log| - 1];
      Matching(log[..|log| - 1], q, after) + if last.sequence > after && Selected(q, last) then [last] else []
  }

  function Take<T>(xs: seq<T>, n: nat): seq<T> {
    if n < |xs| then xs[..n] else xs
  }

  /** Where a query starts; an absent or empty cursor is the beginning. Sequence numbers start at 1. */
  function Start(after: Option<string>): Result<nat, string> {
    if after.None? || after.value == "" then Ok(0)
    else if IsNumeral(after.value) then Ok(Number(after.value))
    else Err("event cursor must be a positive integer sequence")
  }

  function List(log: seq<Event>, q: Query, after: Option<string>, limit: nat): Result<seq<Event>, string> {
    match Start(after)
    case Err(message) => Err(message)
    case Ok(start) => Ok(Take(Matching(log, q, start), limit))
  }

  /** `slice(0, end)`: a negative end counts from the back. */
  function Slice<T>(xs: seq<T>, end: int): seq<T> {
    if end >= 0 then Take(xs, end) else if |xs| + end > 0 then xs[..|xs| + end] else []
  }

  datatype Page = Page(data: seq<Event>, nextCursor: Option<string>)

  function Clamp(limit: int): nat {
    if limit < 1 then 1 else if limit > 500 then 500 else limit
  }

  function PageOf(rows: seq<Event>, limit: int): Page {
    var hasNext := |rows| > limit;
    var data := if hasNext then Slice(rows, limit) else rows;
    Page(data, if hasNext && data != [] then Some(Text(data[|data| - 1].sequence)) else None)
  }

  function ListEvents(log: seq<Event>, q: Query, after: Option<string>, limit: int): Result<Page, string> {
    match List(log, q, after, Clamp(limit) + 1)
    case Err(message) => Err(message)
    case Ok(rows) => Ok(PageOf(rows, limit))
  }

  /** What a client collected, how many pages it read, and whether the last one had no cursor. */
  datatype Trip = Trip(events: seq<Event>, pages: nat, ended: bool)

  /** A client that follows `nextCursor`; page after page it finds the log in the states `logs`. */
  function Walk(logs: seq<seq<Event>>, q: Query, after: Option<string>, limit: int): Trip {
    if logs == [] then Trip([], 0, false)
    else
      match ListEvents(logs[0], q, after, limit)
      case Err(_) => Trip([], 1, true)
      case Ok(page) =>
        if page.nextCursor.None? then Trip(page.data, 1, true)
        else
          var rest := Walk(logs[1..], q, page.nextCursor, limit);
          Trip(page.data + rest.events, 1 + rest.pages, rest.ended)
  }

  /** The same log on every page. */
  function Still(log: seq<Event>, pages: nat): seq<seq<Event>> {
    if pages == 0 then [] else [log] + Still(log, pages - 1)
  }

  // ----- the log only grows -----

  ghost predicate Growing(logs: seq<seq<Event>>) {
    && (forall i | 0 <= i < |logs| :: Sorted(logs[i]))
    && (forall i, j | 0 <= i < j < |logs| :: logs[i] <= logs[j])
  }

  lemma {:induction false} MatchingGrows(log: seq<Event>, longer: seq<Event>, q: Query, after: nat)
    requires log <= longer
    ensures Matching(log, q, after) <= Matching(longer, q, after)
  {
    if log != longer {
      MatchingGrows(log, longer[..|longer| - 1], q, after);
    }
  }

  lemma {:induction false} MatchingOnly(log: seq<Event>, q: Query, after: nat)
    ensures forall e :: e in Matching(log, q, after) <==> e in log && e.sequence > after && Selected(q, e)
  {
    if log != [] {
      var rest, last := log[..|log| - 1], log[|log| - 1];
      MatchingOnly(rest, q, after);
      assert log == rest + [last];
    }
  }

  lemma {:induction false} MatchingSorted(log: seq<Event>, q: Query, after: nat)
    requires Sorted(log)
    ensures Sorted(Matching(log, q, after))
  {
    if log != [] {
      var rest, last := log[..|log| - 1], log[|log| - 1];
      MatchingSorted(rest, q, after);
      MatchingOnly(rest, q, after);
      var m := Matching(rest, q, after);
      forall i | 0 <= i < |m|
        ensures m[i].sequence < last.sequence
      {
        assert m[i] in rest;
      }
    }
  }

  lemma {:induction false} NothingBehind(log: seq<Event>, q: Query, after: nat)
    requires forall e | e in log :: e.sequence <= after
    ensures Matching(log, q, after) == []
  {
    if log != [] {
      assert log[|log| - 1] in log;
      NothingBehind(log[..|log| - 1], q, after);
    }
  }

  /** Starting over behind the n-th match leaves exactly the matches behind it. */
  lemma {:induction false} MatchingBehind(log: seq<Event>, q: Query, after: nat, n: nat)
    requires Sorted(log) && 0 < n <= |Matching(log, q, after)|
    ensures Matching(log, q, Matching(log, q, after)[n - 1].sequence) == Matching(log, q, after)[n..]
  {
    var m := Matching(log, q, after);
    var rest, last := log[..|log| - 1], log[|log| - 1];
    var m' := Matching(rest, q, after);
    var behind := m[n - 1].sequence;
    if n == |m'| + 1 {
      forall e | e in log
        ensures e.sequence <= last.sequence
      {
        var i :| 0 <= i < |log| && log[i] == e;
      }
      NothingBehind(log, q, behind);
    } else {
      assert m[n - 1] == m'[n - 1];
      MatchingBehind(rest, q, after, n);
      MatchingOnly(rest, q, after);
      assert m'[n - 1] in m' && m'[n - 1] in rest;
      assert after < behind < last.sequence;
    }
  }

  // ----- walks -----

  /** One page takes the next `limit` matches, and has a cursor just when there are more. */
  lemma PageTakesTheNext(log: seq<Event>, q: Query, after: Option<string>, limit: int)
    requires Sorted(log) && 1 <= limit <= 500 && Start(after).Ok?
    ensures var m := Matching(log, q, Start(after).value);
            && ListEvents(log, q, after, limit).Ok?
            && var page := ListEvents(log, q, after, limit).value;
               && page.data == Take(m, limit)
               && (page.nextCursor.None? <==> |m| <= limit)
               && (page.nextCursor.Some? ==> Start(page.nextCursor) == Ok(m[limit - 1].sequence))
  {
    var m := Matching(log, q, Start(after).value);
    assert List(log, q, after, limit + 1) == Ok(Take(m, limit + 1));
    if |m| > limit {
      NumberOfText(m[limit - 1].sequence);
      assert Take(m, limit + 1)[..limit] == m[..limit];
    }
  }

  /** Whatever is appended later, a page with a cursor splits the matches in two. */
  lemma PageSplits(log: seq<Event>, longer: seq<Event>, q: Query, after: Option<string>, limit: int)
    requires Sorted(log) && Sorted(longer) && log <= longer && 1 <= limit <= 500 && Start(after).Ok?
    requires ListEvents(log, q, after, limit).Ok? && ListEvents(log, q, after, limit).value.nextCursor.Some?
    ensures var page := ListEvents(log, q, after, limit).value;
            && Start(page.nextCursor).Ok? && |page.data| == limit
            && Matching(longer, q, Start(after).value) == page.data + Matching(longer, q, Start(page.nextCursor).value)
  {
    var m := Matching(longer, q, Start(after).value);
    PageTakesTheNext(log, q, after, limit);
    MatchingGrows(log, longer, q, Start(after).value);
    MatchingBehind(longer, q, Start(after).value, limit);
    assert m == m[..limit] + m[limit..];
  }

  /** What was read is a gapless, duplicate-free beginning of the matches; a trip
      that ended holds them all, as they stood at its last page. */
  ghost predicate Complete(trip: Trip, logs: seq<seq<Event>>, q: Query, start: nat) {
    && 1 <= trip.pages <= |logs|
    && trip.events <= Matching(logs[|logs| - 1], q, start)
    && (trip.ended ==> trip.events == Matching(logs[trip.pages - 1], q, start))
    && (!trip.ended ==> |logs| == trip.pages <= |trip.events|)
  }

  lemma OnePageMore(logs: seq<seq<Event>>, data: seq<Event>, rest: Trip, q: Query, start: nat, from: nat)
    requires |logs| > 1 && data != [] && Complete(rest, logs[1..], q, from)
    requires forall k | 0 <= k < |logs| :: Matching(logs[k], q, start) == data + Matching(logs[k], q, from)
    ensures Complete(Trip(data + rest.events, 1 + rest.pages, rest.ended), logs, q, start)
  {
    var last := logs[|logs| - 1];
    assert logs[1..][|logs| - 2] == last;
    assert Matching(last, q, start) == data + Matching(last, q, from);
  }

  lemma WalkUnfolds(logs: seq<seq<Event>>, q: Query, after: Option<string>, limit: int)
    requires logs != [] && ListEvents(logs[0], q, after, limit).Ok?
    ensures var page := ListEvents(logs[0], q, after, limit).value;
            Walk(logs, q, after, limit) ==
              if page.nextCursor.None? then Trip(page.data, 1, true)
              else
                var rest := Walk(logs[1..], q, page.nextCursor, limit);
                Trip(page.data + rest.events, 1 + rest.pages, rest.ended)
  {
  }

  lemma LastPageCompletes(logs: seq<seq<Event>>, q: Query, after: Option<string>, limit: int)
    requires Growing(logs) && 1 <= limit <= 500 && Start(after).Ok? && logs != []
    requires ListEvents(logs[0], q, after, limit).Ok? && ListEvents(logs[0], q, after, limit).value.nextCursor.None?
    ensures Complete(Walk(logs, q, after, limit), logs, q, Start(after).value)
  {
    PageTakesTheNext(logs[0], q, after, limit);
    MatchingGrows(logs[0], logs[|logs| - 1], q, Start(after).value);
    WalkUnfolds(logs, q, after, limit);
  }

  lemma PageSplitsAll(logs: seq<seq<Event>>, q: Query, after: Option<string>, limit: int)
    requires Growing(logs) && 1 <= limit <= 500 && Start(after).Ok? && logs != []
    requires ListEvents(logs[0], q, after, limit).Ok? && ListEvents(logs[0], q, after, limit).value.nextCursor.Some?
    ensures var page := ListEvents(logs[0], q, after, limit).value;
            && Start(page.nextCursor).Ok? && |page.data| == limit
            && forall k | 0 <= k < |logs| ::
                 Matching(logs[k], q, Start(after).value)
                   == page.data + Matching(logs[k], q, Start(page.nextCursor).value)
  {
    PageSplits(logs[0], logs[0], q, after, limit);
    forall k | 0 <= k < |logs|
      ensures var page := ListEvents(logs[0], q, after, limit).value;
              Matching(logs[k], q, Start(after).value) == page.data + Matching(logs[k], q, Start(page.nextCursor).value)
    {
      PageSplits(logs[0], logs[k], q, after, limit);
    }
  }

  lemma OnlyPageCompletes(log: seq<Event>, q: Query, after: Option<string>, limit: int, page: Page)
    requires Sorted(log) && 1 <= limit <= 500 && Start(after).Ok?
    requires ListEvents(log, q, after, limit) == Ok(page) && page.nextCursor.Some?
    ensures Complete(Walk([log], q, after, limit), [log], q, Start(after).value)
  {
    PageSplits(log, log, q, after, limit);
    WalkUnfolds([log], q, after, limit);
    assert Walk([log][1..], q, page.nextCursor, limit) == Trip([], 0, false);
    assert Walk([log], q, after, limit) == Trip(page.data, 1, false);
  }

  lemma ManyPagesComplete(logs: seq<seq<Event>>, q: Query, after: Option<string>, limit: int, page: Page, rest: Trip)
    requires Growing(logs) && 1 <= limit <= 500 && Start(after).Ok? && |logs| > 1
    requires ListEvents(logs[0], q, after, limit) == Ok(page) && page.nextCursor.Some? && Start(page.nextCursor).Ok?
    requires rest == Walk(logs[1..], q, page.nextCursor, limit)
    requires Complete(rest, logs[1..], q, Start(page.nextCursor).value)
    ensures Complete(Walk(logs, q, after, limit), logs, q, Start(after).value)
  {
    var whole := Trip(page.data + rest.events, 1 + rest.pages, rest.ended);
    assert Walk(logs, q, after, limit) == whole by {
      WalkUnfolds(logs, q, after, limit);
    }
    assert Complete(whole, logs, q, Start(after).value) by {
      PageSplitsAll(logs, q, after, limit);
      OnePageMore(logs, page.data, rest, q, Start(after).value, Start(page.nextCursor).value);
    }
  }

  /** With a limit from 1 to 500, and with appends between the pages. */
  lemma {:induction false} WalkIsComplete(logs: seq<seq<Event>>, q: Query, after: Option<string>, limit: int)
    requires Growing(logs) && 1 <= limit <= 500 && Start(after).Ok? && logs != []
    ensures Complete(Walk(logs, q, after, limit), logs, q, Start(after).value)
  {
    PageTakesTheNext(logs[0], q, after, limit);
    var page := ListEvents(logs[0], q, after, limit).value;
    if page.nextCursor.None? {
      LastPageCompletes(logs, q, after, limit);
    } else if |logs| == 1 {
      OnlyPageCompletes(logs[0], q, after, limit, page);
      assert logs == [logs[0]];
    } else {
      WalkIsComplete(logs[1..], q, page.nextCursor, limit);
      ManyPagesComplete(logs, q, after, limit, page, Walk(logs[1..], q, page.nextCursor, limit));
    }
  }

  // ----- which limits are right -----

  lemma {:induction false} StillGrows(log: seq<Event>, pages: nat)
    requires Sorted(log)
    ensures |Still(log, pages)| == pages && Growing(Still(log, pages))
    ensures forall k | 0 <= k < pages :: Still(log, pages)[k] == log
  {
    if pages > 0 {
      StillGrows(log, pages - 1);
    }
  }

  /** Following the cursor through a log that does not change returns every match. */
  ghost predicate ReturnsAll(log: seq<Event>, q: Query, after: Option<string>, limit: int) {
    Sorted(log) && Start(after).Ok? ==>
      var trip := Walk(Still(log, |log| + 1), q, after, limit);
      trip.ended && trip.events == Matching(log, q, Start(after).value)
  }

  ghost predicate WalksReturnAll(limit: int) {
    forall log, q, after :: ReturnsAll(log, q, after, limit)
  }

  lemma {:induction false} MatchingNoLonger(log: seq<Event>, q: Query, after: nat)
    ensures |Matching(log, q, after)| <= |log|
  {
    if log != [] {
      MatchingNoLonger(log[..|log| - 1], q, after);
    }
  }

  lemma GoodLimitsReturnAll(log: seq<Event>, q: Query, after: Option<string>, limit: int)
    requires 1 <= limit <= 500
    ensures ReturnsAll(log, q, after, limit)
  {
    if Sorted(log) && Start(after).Ok? {
      StillGrows(log, |log| + 1);
      WalkIsComplete(Still(log, |log| + 1), q, after, limit);
      MatchingNoLonger(log, q, Start(after).value);
    }
  }

  const ALL := Query(None, None, None)

  function Numbered(n: nat): seq<Event> {
    seq(n, (i: nat) => Event(i + 1, "", "", "", "", ""))
  }

  lemma {:induction false} NumberedMatches(n: nat)
    ensures Matching(Numbered(n), ALL, 0) == Numbered(n)
  {
    if n > 0 {
      NumberedMatches(n - 1);
      assert Numbered(n)[..n - 1] == Numbered(n - 1);
    }
  }

  /** Above 500 the page is cut at 501 rows and carries no cursor. */
  lemma LargeLimitsStopShort(limit: int)
    requires limit > 500
    ensures !ReturnsAll(Numbered(502), ALL, None, limit)
  {
    var log := Numbered(502);
    NumberedMatches(502);
    assert Still(log, 503)[0] == log;
    assert ListEvents(log, ALL, None, limit) == Ok(Page(log[..501], None));
  }

  /** At zero or below the last matching event is never returned. */
  lemma SmallLimitsStopShort(limit: int)
    requires limit < 1
    ensures !ReturnsAll(Numbered(1), ALL, None, limit)
  {
    var log := Numbered(1);
    NumberedMatches(1);
    assert Still(log, 2)[0] == log;
    assert List(log, ALL, None, 2) == Ok(log);
    assert Slice(log, limit) == [];
    assert ListEvents(log, ALL, None, limit) == Ok(Page([], None));
  }

  /** Page walking is right for exactly the limits from 1 to 500. */
  lemma WalksReturnAllIff(limit: int)
    ensures WalksReturnAll(limit) <==> 1 <= limit <= 500
  {
    if 1 <= limit <= 500 {
      forall log, q, after
        ensures ReturnsAll(log, q, after, limit)
      {
        GoodLimitsReturnAll(log, q, after, limit);
      }
    } else if limit < 1 {
      SmallLimitsStopShort(limit);
    } else {
      LargeLimitsStopShort(limit);
    }
  }

  // ----- the in-memory store -----

  /** Appending numbers the events from 1 without gaps. */
  class InMemoryEvents {
    var events: seq<Event>

    ghost predicate Valid()
      reads this
    {
      Dense(events)
    }

    constructor ()
      ensures Valid() && events == []
    {
      events := [];
    }

    method Append(event: Event)
      requires Valid()
      modifies this
      ensures Valid() && events == old(events) + [event.(sequence := |old(events)| + 1)]
    {
      events := events + [event.(sequence := |events| + 1)];
    }

    /** `list`; `position` is what `Number` makes of the cursor, if that is a number at all. */
    method Select(q: Query, after: Option<string>, position: Option<real>, limit: nat) returns (rows: seq<Event>)
      requires Valid() && Reads(after, position)
      ensures rows == ListInMemory(events, q, after, position, limit)
    {
      var found := [];
      var i := 0;
      while i < |events|
        invariant 0 <= i <= |events|
        invariant found == MatchingInMemory(events[..i], q, after, position)
      {
        assert events[..i + 1][..i] == events[..i];
        var e := events[i];
        if (after.None? || (position.Some? && e.sequence as real > position.value))
          && Asked(q.eventType, e.eventType) && Asked(q.resourceType, e.resourceType)
             && Asked(q.resourceId, e.resourceId) {
          found := found + [e];
        }
        i := i + 1;
      }
      assert events[..i] == events;
      rows := Take(found, limit);
    }
  }

  ghost predicate Dense(events: seq<Event>) {
    forall i | 0 <= i < |events| :: events[i].sequence == i + 1
  }

  /** A possible reading of a cursor as a number: an empty one is zero and a numeral
      is what it says; about other text nothing is assumed. */
  predicate Reads(after: Option<string>, position: Option<real>) {
    after.Some? && Start(after).Ok? ==> position == Some(Start(after).value as real)
  }

  /** In memory only an absent filter selects everything. */
  predicate Asked(filter: Option<string>, value: string) {
    filter.None? || filter.value == value
  }

  predicate SelectedInMemory(q: Query, after: Option<string>, position: Option<real>, e: Event) {
    && (after.None? || (position.Some? && e.sequence as real > position.value))
    && Asked(q.eventType, e.eventType) && Asked(q.resourceType, e.resourceType) && Asked(q.resourceId, e.resourceId)
  }

  function MatchingInMemory(log: seq<Event>, q: Query, after: Option<string>, position: Option<real>): seq<Event> {
    if log == [] then []
    else
      var last := log[|log| - 1];
      MatchingInMemory(log[..|log| - 1], q, after, position) + if SelectedInMemory(q, after, position, last) then [last]
        else []
  }

  function ListInMemory(log: seq<Event>, q: Query, after: Option<string>, position: Option<real>,
                        limit: nat): seq<Event> {
    Take(MatchingInMemory(log, q, after, position), limit)
  }

  predicate NoEmptyFilter(q: Query) {
    q.eventType != Some("") && q.resourceType != Some("") && q.resourceId != Some("")
  }

  lemma {:induction false} SameMatching(log: seq<Event>, q: Query, after: Option<string>, position: Option<real>)
    requires Dense(log) && Start(after).Ok? && Reads(after, position) && NoEmptyFilter(q)
    ensures MatchingInMemory(log, q, after, position) == Matching(log, q, Start(after).value)
  {
    if log != [] {
      SameMatching(log[..|log| - 1], q, after, position);
    }
  }

  /** An event that the SQL query selects under any filter of `q`, but that has no empty field. */
  function Sample(q: Query, sequence: nat): Event {
    Event(sequence, "", Filled(q.eventType), Filled(q.resourceId), Filled(q.resourceType), "")
  }

  function Filled(filter: Option<string>): string {
    if filter.None? || filter.value == "" then "x" else filter.value
  }

  function Samples(q: Query, n: nat): seq<Event> {
    seq(n, (i: nat) => Sample(q, i + 1))
  }

  lemma {:induction false} NoSampleInMemory(q: Query, n: nat, after: Option<string>, position: Option<real>)
    requires !NoEmptyFilter(q)
    ensures MatchingInMemory(Samples(q, n), q, after, position) == []
  {
    if n > 0 {
      NoSampleInMemory(q, n - 1, after, position);
      assert Samples(q, n)[..n - 1] == Samples(q, n - 1);
    }
  }

  /** The two stores answer this query alike, whatever was appended and whatever the limit. */
  ghost predicate StoresAgree(q: Query, after: Option<string>, position: Option<real>) {
    forall log, limit: nat | Dense(log) ::
      List(log, q, after, limit) == Ok(ListInMemory(log, q, after, position, limit))
  }

  lemma EmptyFiltersDiffer(q: Query, after: Option<string>, position: Option<real>)
    requires Start(after).Ok? && !NoEmptyFilter(q)
    ensures !StoresAgree(q, after, position)
  {
    var start := Start(after).value;
    var log := Samples(q, start + 1);
    NoSampleInMemory(q, start + 1, after, position);
    MatchingOnly(log, q, start);
    assert log[start] in log && log[start] in Matching(log, q, start);
    assert List(log, q, after, 1) != Ok(ListInMemory(log, q, after, position, 1));
  }

  /** They do so exactly if no filter is empty and the cursor is absent, empty or a
      numeral: an empty filter selects everything in SQL but only empty fields in
      memory, and only SQL refuses any other cursor. */
  lemma StoresAgreeIff(q: Query, after: Option<string>, position: Option<real>)
    requires Reads(after, position)
    ensures StoresAgree(q, after, position) <==> NoEmptyFilter(q) && Start(after).Ok?
  {
    if Start(after).Err? {
      assert Dense([]) && List([], q, after, 0) != Ok(ListInMemory([], q, after, position, 0));
    } else if NoEmptyFilter(q) {
      forall log, limit: nat | Dense(log)
        ensures List(log, q, after, limit) == Ok(ListInMemory(log, q, after, position, limit))
      {
        SameMatching(log, q, after, position);
      }
    } else {
      EmptyFiltersDiffer(q, after, position);
    }
  }
}
