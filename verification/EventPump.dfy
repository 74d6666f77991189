/** The pump behind `/events/stream`: once a second it lists the next hundred
    events behind its cursor and prints them, then a keepalive. */
module EventPump {
  import opened Wrappers
  import opened EventLog
  import opened EventStream

  const ALL_EVENTS := Query(None, None, None)
  const PAGE := 100

  class StreamPump {
    const codec: Codec
    var cursor: Option<string>
    var stopped: bool
    var output: string
    ghost var feed: seq<Item>  // everything printed so far

    ghost predicate Valid()
      reads this
    {
      output == Render(codec, feed)
    }

    constructor (codec: Codec, after: Option<string>)
      ensures Valid() && feed == [] && cursor == after && !stopped && this.codec == codec
    {
      this.codec := codec;
      cursor, stopped, output, feed := after, false, "", [];
    }

    method Print(item: Item)
      requires Valid()
      modifies this`output, this`feed
      ensures Valid() && feed == old(feed) + [item]
    {
      RenderOneMore(codec, feed, item);
      output := output + BodyOf(codec, item) + "\n\n";
      feed := feed + [item];
    }

    /** Prints a page and moves the cursor along. */
    method PrintPage(data: seq<Event>)
      requires Valid()
      modifies this`output, this`feed, this`cursor
      ensures Valid() && Payload(feed) == Payload(old(feed)) + data && feed == old(feed) + DataItems(data)
      ensures cursor == if data == [] then old(cursor) else Some(Text(data[|data| - 1].sequence))
    {
      var i := 0;
      while i < |data|
        invariant 0 <= i <= |data| && Valid()
        invariant Payload(feed) == Payload(old(feed)) + data[..i] && feed == old(feed) + DataItems(data[..i])
        invariant cursor == if i == 0 then old(cursor) else Some(Text(data[i - 1].sequence))
      {
        PayloadOneMore(feed, Data(data[i]));
        OneEventMore(Payload(old(feed)), data, i);
        OneItemMore(data, i);
        Print(Data(data[i]));
        cursor := Some(Text(data[i].sequence));
        i := i + 1;
      }
      assert data[..i] == data;
    }

    /** One pass over the log as it stands; a malformed cursor ends the stream. */
    method Pump(log: seq<Event>)
      requires Valid() && !stopped
      modifies this
      ensures Valid()
      ensures match ListEvents(log, ALL_EVENTS, old(cursor), PAGE)
              case Err(_) => stopped && feed == old(feed) && cursor == old(cursor)
              case Ok(page) =>
                && !stopped && Payload(feed) == Payload(old(feed)) + page.data
                && feed == old(feed) + DataItems(page.data) + [Keepalive]
                && cursor == if page.data == [] then old(cursor) else Some(Text(page.data[|page.data| - 1].sequence))
    {
      var page := ListEvents(log, ALL_EVENTS, cursor, PAGE);
      if page.Err? {
        stopped := true;
        return;
      }
      PrintPage(page.value.data);
      PayloadOneMore(feed, Keepalive);
      Print(Keepalive);
    }
  }

  function DataItems(data: seq<Event>): seq<Item> {
    seq(|data|, i requires 0 <= i < |data| => Data(data[i]))
  }

  lemma OneItemMore(data: seq<Event>, i: nat)
    requires i < |data|
    ensures DataItems(data[..i + 1]) == DataItems(data[..i]) + [Data(data[i])]
  {
  }

  lemma OneEventMore(printed: seq<Event>, data: seq<Event>, i: nat)
    requires i < |data|
    ensures printed + data[..i] + [data[i]] == printed + data[..i + 1]
  {
  }

  lemma {:induction false} RenderOneMore(c: Codec, feed: seq<Item>, item: Item)
    ensures Render(c, feed + [item]) == Render(c, feed) + BodyOf(c, item) + "\n\n"
  {
    if feed == [] {
      assert [item][1..] == [];
    } else {
      assert (feed + [item])[1..] == feed[1..] + [item];
      RenderOneMore(c, feed[1..], item);
    }
  }

  lemma {:induction false} PayloadOneMore(feed: seq<Item>, item: Item)
    ensures Payload(feed + [item]) == Payload(feed) + EventOf(item)
  {
    var more := feed + [item];
    if feed == [] {
      assert more == [item] && more[1..] == [];
      assert Payload(more) == EventOf(item) + Payload([]);
    } else {
      var rest := feed[1..];
      PayloadOneMore(rest, item);
      assert more[1..] == rest + [item] && more[0] == feed[0];
      assert Payload(more) == EventOf(feed[0]) + Payload(rest + [item]);
      assert EventOf(feed[0]) + (Payload(rest) + EventOf(item)) == (EventOf(feed[0]) + Payload(rest)) + EventOf(item);
    }
  }

  /** What a pump has printed splits the log behind its first cursor in two: the
      events it printed, and those behind its present cursor. */
  ghost predicate InPlace(log: seq<Event>, start: nat, printed: seq<Event>, cursor: Option<string>) {
    Start(cursor).Ok? && Matching(log, ALL_EVENTS, start) == printed + Matching(log, ALL_EVENTS, Start(cursor).value)
  }

  lemma PassKeepsPlace(log: seq<Event>, longer: seq<Event>, start: nat, printed: seq<Event>, cursor: Option<string>)
    requires Sorted(log) && Sorted(longer) && log <= longer && InPlace(longer, start, printed, cursor)
    ensures var r := ListEvents(log, ALL_EVENTS, cursor, PAGE);
            && r.Ok?
            && var data := r.value.data;
               && InPlace(longer, start, printed + data,
                          if data == [] then cursor else Some(Text(data[|data| - 1].sequence)))
               && data == Take(Matching(log, ALL_EVENTS, Start(cursor).value), PAGE)
  {
    var from := Start(cursor).value;
    PageTakesTheNext(log, ALL_EVENTS, cursor, PAGE);
    MatchingGrows(log, longer, ALL_EVENTS, from);
    var data := ListEvents(log, ALL_EVENTS, cursor, PAGE).value.data;
    assert data <= Matching(longer, ALL_EVENTS, from);
    if data != [] {
      PrintedKeepsPlace(longer, start, printed, cursor, data);
    }
  }

  lemma PrintedKeepsPlace(log: seq<Event>, start: nat, printed: seq<Event>, cursor: Option<string>, data: seq<Event>)
    requires Sorted(log) && InPlace(log, start, printed, cursor) && data != []
             && data <= Matching(log, ALL_EVENTS, Start(cursor).value)
    ensures InPlace(log, start, printed + data, Some(Text(data[|data| - 1].sequence)))
  {
    var m := Matching(log, ALL_EVENTS, Start(cursor).value);
    MatchingBehind(log, ALL_EVENTS, Start(cursor).value, |data|);
    NumberOfText(data[|data| - 1].sequence);
    assert m == data + m[|data|..];
    assert printed + (data + m[|data|..]) == (printed + data) + m[|data|..];
  }

  /** A pass over the log as it will stay prints all that is left, or a full page. */
  lemma LastPassesFinish(log: seq<Event>, start: nat, printed: seq<Event>, cursor: Option<string>)
    requires Sorted(log) && InPlace(log, start, printed, cursor)
    ensures var data := ListEvents(log, ALL_EVENTS, cursor, PAGE).value.data;
            ListEvents(log, ALL_EVENTS, cursor, PAGE).Ok?
              && (printed + data == Matching(log, ALL_EVENTS, start) || |data| == PAGE)
  {
    PageTakesTheNext(log, ALL_EVENTS, cursor, PAGE);
  }

  /** A text printed from a beginning of these events, and from all of them if `complete`. */
  ghost predicate Prints(codec: Codec, output: string, events: seq<Event>, complete: bool) {
    exists feed :: output == Render(codec, feed) && Payload(feed) <= events && (complete ==> Payload(feed) == events)
  }

  /** The pump over a log that grows between passes. What it prints is, without
      gaps or repeats, a beginning of the log behind the cursor it was opened with;
      once the log stands still, a pass for every hundred events prints all of it. */
  method PumpAll(codec: Codec, after: Option<string>, logs: seq<seq<Event>>, ghost still: nat) returns (output: string)
    requires Growing(logs) && logs != [] && Start(after).Ok?
    requires still <= |logs| && forall i | |logs| - still <= i < |logs| :: logs[i] == logs[|logs| - 1]
    ensures var all := Matching(logs[|logs| - 1], ALL_EVENTS, Start(after).value);
            Prints(codec, output, all, |all| <= 100 * still)
  {
    var pump := new StreamPump(codec, after);
    var i := 0;
    ghost var start, last := Start(after).value, logs[|logs| - 1];
    ghost var all := Matching(last, ALL_EVENTS, start);
    while i < |logs|
      invariant 0 <= i <= |logs| && pump.Valid() && !pump.stopped && pump.codec == codec
      invariant InPlace(last, start, Payload(pump.feed), pump.cursor)
      invariant i >= |logs| - still ==>
                  Payload(pump.feed) == all || |Payload(pump.feed)| >= PAGE * (i - (|logs| - still))
    {
      ghost var printed, cursor := Payload(pump.feed), pump.cursor;
      PassKeepsPlace(logs[i], last, start, printed, cursor);
      if i >= |logs| - still {
        LastPassesFinish(last, start, printed, cursor);
      }
      pump.Pump(logs[i]);
      i := i + 1;
    }
    output := pump.output;
    FeedIsPrinted(codec, pump.feed, all, |all| <= 100 * still);
  }

  lemma FeedIsPrinted(codec: Codec, feed: seq<Item>, events: seq<Event>, complete: bool)
    requires Payload(feed) <= events && (complete ==> Payload(feed) == events)
    ensures Prints(codec, Render(codec, feed), events, complete)
  {
  }

  /** The text cut into pieces of the given lengths; what is left over is still on its way. */
  function Pieces(text: string, lengths: seq<nat>): seq<string>
    decreases |lengths|
  {
    if lengths == [] then []
    else [Take(text, lengths[0])] + Pieces(if lengths[0] < |text| then text[lengths[0]..] else "", lengths[1..])
  }

  lemma {:induction false} ConcatFront(first: string, chunks: seq<string>)
    ensures Concat([first] + chunks) == first + Concat(chunks)
  {
    var all := [first] + chunks;
    if chunks == [] {
      assert all[..0] == [] && Concat(all[..0]) == "";
      assert "" + first == first + "";
    } else {
      assert all[..|all| - 1] == [first] + chunks[..|chunks| - 1];
      ConcatFront(first, chunks[..|chunks| - 1]);
    }
  }

  lemma PrefixBehind(first: string, some: string, rest: string)
    requires some <= rest
    ensures first + some <= first + rest
  {
  }

  lemma TakeAndRest(text: string, n: nat)
    ensures text == Take(text, n) + if n < |text| then text[n..] else ""
  {
  }

  /** Together the pieces are a beginning of the text. */
  lemma {:induction false} PiecesArePrefix(text: string, lengths: seq<nat>)
    ensures Concat(Pieces(text, lengths)) <= text
    decreases |lengths|
  {
    if lengths != [] {
      var n := lengths[0];
      var first, rest := Take(text, n), if n < |text| then text[n..] else "";
      var pieces := Pieces(rest, lengths[1..]);
      PiecesArePrefix(rest, lengths[1..]);
      ConcatFront(first, pieces);
      PrefixBehind(first, Concat(pieces), rest);
      TakeAndRest(text, n);
    }
  }

  lemma FaithfulToThePump(codec: Codec, output: string, events: seq<Event>, complete: bool, received: string,
                          yielded: seq<Event>, failed: bool)
    requires Prints(codec, output, events, complete) && received <= output && Faithful(codec, received, yielded, failed)
    ensures !failed && yielded <= events && (received == output && complete ==> yielded == events)
  {
    var feed :| output == Render(codec, feed) && Payload(feed) <= events && (complete ==> Payload(feed) == events);
    assert PartOf(codec, feed, received, output[|received|..]);
  }

  /** Pump and client together: whatever the log does meanwhile and however the
      text is cut on its way, a client that has received some part of it has
      yielded a gapless beginning of the log behind the cursor. */
  method Subscribe(codec: Codec, after: Option<string>, logs: seq<seq<Event>>, ghost still: nat, lengths: seq<nat>)
    returns (yielded: seq<Event>, failed: bool, arrived: bool)
    requires CodecOk(codec) && Growing(logs) && logs != [] && Start(after).Ok?
    requires still <= |logs| && forall i | |logs| - still <= i < |logs| :: logs[i] == logs[|logs| - 1]
    ensures var all := Matching(logs[|logs| - 1], ALL_EVENTS, Start(after).value);
            !failed && yielded <= all && (arrived && |all| <= 100 * still ==> yielded == all)
  {
    var output := PumpAll(codec, after, logs, still);
    var chunks := Pieces(output, lengths);
    yielded, failed := ReadAll(codec, chunks);
    arrived := Concat(chunks) == output;
    PiecesArePrefix(output, lengths);
    ghost var all := Matching(logs[|logs| - 1], ALL_EVENTS, Start(after).value);
    FaithfulToThePump(codec, output, all, |all| <= 100 * still, Concat(chunks), yielded, failed);
  }
}
