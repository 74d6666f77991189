/** The event stream: the pump that prints pages of the log as server-sent
    events, and the client that parses them out of arbitrary chunks of text. */
module EventStream {
  import opened Wrappers
  import opened EventLog

  /** JSON text and back. */
  datatype Codec = Codec(print_: Event -> string, parse: string -> Option<Event>)

  /** What the JSON library promises: it reads back what it wrote, and escapes line breaks. */
  ghost predicate CodecOk(c: Codec) {
    forall e :: c.parse(c.print_(e)) == Some(e) && '\n' !in c.print_(e) && '\r' !in c.print_(e)
  }

  // ----- the printed form -----

  function Body(c: Codec, e: Event): string {
    "id: " + Text(e.sequence) + "\ndata: " + c.print_(e)
  }

  const KEEPALIVE := ": keepalive"

  datatype Item = Data(event: Event) | Keepalive

  function BodyOf(c: Codec, item: Item): string {
    if item.Data? then Body(c, item.event) else KEEPALIVE
  }

  function Render(c: Codec, feed: seq<Item>): string {
    if feed == [] then "" else BodyOf(c, feed[0]) + "\n\n" + Render(c, feed[1..])
  }

  function EventOf(item: Item): seq<Event> {
    if item.Data? then [item.event] else []
  }

  /** The events of a feed, without the keepalives. */
  function Payload(feed: seq<Item>): seq<Event> {
    if feed == [] then [] else EventOf(feed[0]) + Payload(feed[1..])
  }

  // ----- the client -----

  /** Complete frames, and what is left behind the last of them. */
  datatype Cut = Cut(frames: seq<string>, rest: string)

  /** Length of the text before the first empty line, or of all of it. */
  function ToBreak(s: string): (n: nat)
    ensures n <= |s|
    ensures n < |s| ==> n + 1 < |s| && s[n] == '\n' && s[n + 1] == '\n'
    ensures forall i | 0 <= i < n && i + 1 < |s| :: !(s[i] == '\n' && s[i + 1] == '\n')
  {
    if |s| < 2 then |s|
    else if s[0] == '\n' && s[1] == '\n' then 0
    else 1 + ToBreak(s[1..])
  }

  /** `split('\n\n')`, and `pop` of the last piece. */
  function Split(s: string): Cut
    decreases |s|
  {
    var n := ToBreak(s);
    if n == |s| then Cut([], s)
    else
      var more := Split(s[n + 2..]);
      Cut([s[..n]] + more.frames, more.rest)
  }

  function ToNewline(s: string): (n: nat)
    ensures n <= |s| && (n < |s| ==> s[n] == '\n') && forall i | 0 <= i < n :: s[i] != '\n'
  {
    if s == "" || s[0] == '\n' then 0 else 1 + ToNewline(s[1..])
  }

  const DATA := "data: "

  /** The first line of a frame that starts with `data: `, without that start. */
  function DataLine(frame: string): Option<string>
    decreases |frame|
  {
    var n := ToNewline(frame);
    if DATA <= frame[..n] then Some(frame[|DATA|..n])
    else if n == |frame| then None
    else DataLine(frame[n + 1..])
  }

  /** Events yielded; the loop ends with an exception at text that is not JSON. */
  datatype Yielded = Yielded(events: seq<Event>, failed: bool)

  function Decode(c: Codec, frames: seq<string>): Yielded {
    if frames == [] then Yielded([], false)
    else
      match DataLine(frames[0])
      case None => Decode(c, frames[1..])
      case Some(text) =>
        match c.parse(text)
        case None => Yielded([], true)
        case Some(e) => var more := Decode(c, frames[1..]); Yielded([e] + more.events, more.failed)
  }

  class StreamClient {
    const codec: Codec
    var buffer: string
    var yielded: seq<Event>
    var failed: bool
    ghost var received: string

    /** The client stands where one pass over everything received would leave it. */
    ghost predicate Valid()
      reads this
    {
      && Decode(codec, Split(received).frames) == Yielded(yielded, failed)
      && (!failed ==> buffer == Split(received).rest)
    }

    constructor (codec: Codec)
      ensures Valid() && yielded == [] && !failed && received == "" && this.codec == codec
    {
      this.codec := codec;
      buffer, yielded, failed, received := "", [], false, "";
    }

    /** The loop over the complete frames of one turn. */
    method Deliver(frames: seq<string>)
      requires !failed
      modifies this`yielded, this`failed
      ensures old(yielded) <= yielded
      ensures Yielded(yielded, failed) == Then(old(yielded), Decode(codec, frames))
    {
      var i := 0;
      while i < |frames|
        invariant 0 <= i <= |frames| && old(yielded) <= yielded && !failed
        invariant Then(yielded, Decode(codec, frames[i..])) == Then(old(yielded), Decode(codec, frames))
      {
        assert frames[i..][1..] == frames[i + 1..];
        var data := DataLine(frames[i]);
        if data.Some? {
          var e := codec.parse(data.value);
          if e.None? {
            failed := true;
            return;
          }
          ghost var more := Decode(codec, frames[i + 1..]);
          assert yielded + ([e.value] + more.events) == (yielded + [e.value]) + more.events;
          yielded := yielded + [e.value];
        }
        i := i + 1;
      }
    }

    /** One turn of the read loop. */
    method Read(chunk: string)
      requires Valid()
      modifies this
      ensures Valid() && received == old(received) + chunk && old(yielded) <= yielded
    {
      SplitOfConcat(received, chunk);
      DecodeOfConcat(codec, Split(received).frames, Split(Split(received).rest + chunk).frames);
      received := received + chunk;
      if !failed {
        var cut := Split(buffer + chunk);
        buffer := cut.rest;
        Deliver(cut.frames);
      }
    }
  }

  function Then(before: seq<Event>, more: Yielded): Yielded {
    Yielded(before + more.events, more.failed)
  }

  // ----- chunks do not matter -----

  /** `n` is where the first empty line begins. */
  lemma BreakAt(s: string, n: nat)
    requires n + 1 < |s| && s[n] == '\n' && s[n + 1] == '\n'
    requires forall i | 0 <= i < n :: !(s[i] == '\n' && s[i + 1] == '\n')
    ensures ToBreak(s) == n
  {
  }

  lemma NewlineAt(s: string, n: nat)
    requires n <= |s| && (n < |s| ==> s[n] == '\n') && forall i | 0 <= i < n :: s[i] != '\n'
    ensures ToNewline(s) == n
  {
  }

  lemma SplitAt(s: string, n: nat)
    requires n == ToBreak(s) && n < |s|
    ensures Split(s) == Prepend(s[..n], Split(s[n + 2..]))
  {
  }

  function Join(first: Cut, second: Cut): Cut {
    Cut(first.frames + second.frames, second.rest)
  }

  function Prepend(frame: string, cut: Cut): Cut {
    Cut([frame] + cut.frames, cut.rest)
  }

  lemma JoinPrepended(frame: string, first: Cut, second: Cut)
    ensures Join(Prepend(frame, first), second) == Prepend(frame, Join(first, second))
  {
  }

  /** What is complete stays as it is when more text arrives. */
  lemma {:induction false} SplitOfConcat(a: string, b: string)
    ensures Split(a + b) == Join(Split(a), Split(Split(a).rest + b))
    decreases |a|
  {
    var n := ToBreak(a);
    if n == |a| {
      assert Split(a) == Cut([], a);
    } else {
      SplitAt(a, n);
      SplitOfConcat(a[n + 2..], b);
      SplitOfPrepended(a, b, n);
      JoinPrepended(a[..n], Split(a[n + 2..]), Split(Split(a).rest + b));
    }
  }

  lemma BreakStays(a: string, b: string, n: nat)
    requires n == ToBreak(a) && n < |a|
    ensures ToBreak(a + b) == n && (a + b)[..n] == a[..n] && (a + b)[n + 2..] == a[n + 2..] + b
  {
    var s := a + b;
    forall i | 0 <= i <= n + 1
      ensures s[i] == a[i]
    {
    }
    BreakAt(s, n);
  }

  lemma SplitOfPrepended(a: string, b: string, n: nat)
    requires n == ToBreak(a) && n < |a|
    ensures Split(a + b) == Prepend(a[..n], Split(a[n + 2..] + b))
  {
    BreakStays(a, b, n);
    SplitAt(a + b, n);
  }

  lemma {:induction false} DecodeOfConcat(c: Codec, a: seq<string>, b: seq<string>)
    ensures Decode(c, a + b) == if Decode(c, a).failed then Decode(c, a)
                                else Yielded(Decode(c, a).events + Decode(c, b).events, Decode(c, b).failed)
  {
    if a == [] {
      assert a + b == b;
    } else {
      assert (a + b)[1..] == a[1..] + b;
      DecodeOfConcat(c, a[1..], b);
    }
  }

  function Concat(chunks: seq<string>): string {
    if chunks == [] then "" else Concat(chunks[..|chunks| - 1]) + chunks[|chunks| - 1]
  }

  // ----- round trip -----

  /** Text that ends with a line and holds no empty line. */
  ghost predicate OneFrame(body: string) {
    body != "" && body[|body| - 1] != '\n'
      && forall i | 0 <= i < |body| - 1 :: !(body[i] == '\n' && body[i + 1] == '\n')
  }

  lemma SplitFirst(body: string, rest: string)
    requires OneFrame(body)
    ensures Split(body + "\n\n" + rest) == Prepend(body, Split(rest))
  {
    var s, n := body + "\n\n" + rest, |body|;
    forall i | 0 <= i < n
      ensures s[i] == body[i]
    {
    }
    BreakAt(s, n);
    SplitAt(s, n);
    assert s[..n] == body && s[n + 2..] == rest;
  }

  lemma DigitsOnly(n: nat)
    ensures forall ch | ch in Text(n) :: IsDigit(ch)
    ensures Text(n) != ""
  {
    NumberOfText(n);
  }

  /** A printed event is two lines, and the second is its data line. */
  lemma BodyIsTwoLines(c: Codec, e: Event)
    requires CodecOk(c)
    ensures Body(c, e) == IdLine(e) + "\n" + (DATA + c.print_(e))
    ensures '\n' !in IdLine(e) && '\n' !in DATA + c.print_(e)
  {
    DigitsOnly(e.sequence);
    assert '\n' !in "id: " && '\n' !in DATA;
  }

  function IdLine(e: Event): string {
    "id: " + Text(e.sequence)
  }

  lemma TwoLines(first: string, second: string)
    requires first != "" && second != "" && '\n' !in first && '\n' !in second
    ensures var body := first + "\n" + second;
            OneFrame(body) && ToNewline(body) == |first| && body[..|first|] == first && body[|first| + 1..] == second
  {
    var body := first + "\n" + second;
    forall i | 0 <= i < |body|
      ensures body[i] == '\n' <==> i == |first|
    {
      assert i < |first| ==> body[i] == first[i];
      assert i > |first| ==> body[i] == second[i - |first| - 1];
    }
    NewlineAt(body, |first|);
  }

  lemma BodyIsOneFrame(c: Codec, e: Event)
    requires CodecOk(c)
    ensures OneFrame(Body(c, e)) && DataLine(Body(c, e)) == Some(c.print_(e))
  {
    var second := DATA + c.print_(e);
    BodyIsTwoLines(c, e);
    TwoLines(IdLine(e), second);
    NewlineAt(second, |second|);
    assert IdLine(e)[0] != DATA[0];
    assert second[..|second|] == second && second[|DATA|..] == c.print_(e);
  }

  lemma KeepaliveIsOneFrame()
    ensures OneFrame(KEEPALIVE) && DataLine(KEEPALIVE) == None
  {
    assert '\n' !in KEEPALIVE;
    NewlineAt(KEEPALIVE, |KEEPALIVE|);
    assert KEEPALIVE[0] != DATA[0];
  }

  lemma ItemIsOneFrame(c: Codec, item: Item)
    requires CodecOk(c)
    ensures OneFrame(BodyOf(c, item))
    ensures DataLine(BodyOf(c, item)) == if item.Data? then Some(c.print_(item.event)) else None
  {
    if item.Data? {
      BodyIsOneFrame(c, item.event);
    } else {
      KeepaliveIsOneFrame();
    }
  }

  lemma DecodeFirst(c: Codec, item: Item, frames: seq<string>)
    requires CodecOk(c)
    ensures Decode(c, [BodyOf(c, item)] + frames)
              == Yielded(EventOf(item) + Decode(c, frames).events, Decode(c, frames).failed)
  {
    ItemIsOneFrame(c, item);
    var all := [BodyOf(c, item)] + frames;
    assert all[0] == BodyOf(c, item) && all[1..] == frames;
  }

  /** Printing a feed and reading it yields its events, in order, and leaves nothing over. */
  lemma {:induction false} RoundTrip(c: Codec, feed: seq<Item>)
    requires CodecOk(c)
    ensures Split(Render(c, feed)).rest == ""
    ensures Decode(c, Split(Render(c, feed)).frames) == Yielded(Payload(feed), false)
  {
    if feed != [] {
      var rest := Render(c, feed[1..]);
      RoundTrip(c, feed[1..]);
      ItemIsOneFrame(c, feed[0]);
      SplitFirst(BodyOf(c, feed[0]), rest);
      assert Split(Render(c, feed)) == Prepend(BodyOf(c, feed[0]), Split(rest));
      DecodeFirst(c, feed[0], Split(rest).frames);
    }
  }

  /** `received` is the printed feed without its last part. */
  ghost predicate PartOf(c: Codec, feed: seq<Item>, received: string, missing: string) {
    received + missing == Render(c, feed)
  }

  /** While only a part has arrived, the events of that part have been yielded. */
  lemma PartialRoundTrip(c: Codec, feed: seq<Item>, received: string, missing: string)
    requires CodecOk(c) && PartOf(c, feed, received, missing)
    ensures var y := Decode(c, Split(received).frames);
            !y.failed && y.events <= Payload(feed) && (missing == "" ==> y.events == Payload(feed))
  {
    RoundTrip(c, feed);
    SplitOfConcat(received, missing);
    DecodeOfConcat(c, Split(received).frames, Split(Split(received).rest + missing).frames);
    assert missing == "" ==> received == Render(c, feed);
  }

  /** Of any feed whose printed form begins with `received`: no failure, and a
      beginning of its events, or all of them if nothing is missing. */
  ghost predicate Faithful(c: Codec, received: string, yielded: seq<Event>, failed: bool) {
    forall feed, missing | PartOf(c, feed, received, missing) ::
      !failed && yielded <= Payload(feed) && (missing == "" ==> yielded == Payload(feed))
  }

  lemma DecodeIsFaithful(c: Codec, received: string)
    requires CodecOk(c)
    ensures var y := Decode(c, Split(received).frames); Faithful(c, received, y.events, y.failed)
  {
    var y := Decode(c, Split(received).frames);
    forall feed, missing | PartOf(c, feed, received, missing)
      ensures !y.failed && y.events <= Payload(feed) && (missing == "" ==> y.events == Payload(feed))
    {
      PartialRoundTrip(c, feed, received, missing);
    }
  }

  /** The read loop over chunks. However the text is cut, it yields what one pass
      over the whole text yields: all events of a printed feed, in order, or a
      beginning of them while text is missing. */
  method ReadAll(codec: Codec, chunks: seq<string>) returns (yielded: seq<Event>, failed: bool)
    ensures Yielded(yielded, failed) == Decode(codec, Split(Concat(chunks)).frames)
    ensures CodecOk(codec) ==> Faithful(codec, Concat(chunks), yielded, failed)
  {
    var client := new StreamClient(codec);
    var i := 0;
    while i < |chunks|
      invariant 0 <= i <= |chunks| && client.Valid() && client.codec == codec
      invariant client.received == Concat(chunks[..i])
    {
      assert chunks[..i + 1][..i] == chunks[..i];
      client.Read(chunks[i]);
      i := i + 1;
    }
    assert chunks[..i] == chunks;
    yielded, failed := client.yielded, client.failed;
    if CodecOk(codec) {
      DecodeIsFaithful(codec, Concat(chunks));
    }
  }
}
