/** Section 9.2 of the WHATWG HTML Living Standard as an independent reading of
    the same text: what a standard client dispatches for a printed feed. */
module EventStreamStandard {
  import opened Wrappers
  import opened EventLog
  import opened EventStream

  /** A dispatched message: its data, and the last event id at that time. */
  datatype Message = Message(data: string, lastEventId: string)

  /** Number of characters before the first line end; a line ends with CR, LF or CR LF. */
  function LineLength(s: string): (n: nat)
    ensures n <= |s| && (n < |s| ==> s[n] == '\n' || s[n] == '\r')
    ensures forall i | 0 <= i < n :: s[i] != '\n' && s[i] != '\r'
  {
    if s == "" || s[0] == '\n' || s[0] == '\r' then 0 else 1 + LineLength(s[1..])
  }

  function LineEnd(s: string, n: nat): nat
    requires n < |s|
  {
    if s[n] == '\r' && n + 1 < |s| && s[n + 1] == '\n' then 2 else 1
  }

  function ColonAt(line: string): (n: nat)
    ensures n <= |line| && (n < |line| ==> line[n] == ':') && forall i | 0 <= i < n :: line[i] != ':'
  {
    if line == "" || line[0] == ':' then 0 else 1 + ColonAt(line[1..])
  }

  function Field(line: string): string {
    line[..ColonAt(line)]
  }

  /** What follows the colon, less one space. */
  function Value(line: string): string {
    var n := ColonAt(line);
    if n == |line| then ""
    else if n + 1 < |line| && line[n + 1] == ' ' then line[n + 2..]
    else line[n + 1..]
  }

  /** The data buffer and the last event id; the event type and the reconnection time play no part here. */
  datatype Buffers = Buffers(data: string, id: string)

  function Process(b: Buffers, line: string): Buffers {
    if Field(line) == "data" then b.(data := b.data + Value(line) + "\n")
    else if Field(line) == "id" && '\0' !in Value(line) then b.(id := Value(line))
    else b
  }

  /** An empty line dispatches what was collected; an unfinished event at the end is dropped. */
  function Interpret(s: string, b: Buffers): seq<Message>
    decreases |s|
  {
    var n := LineLength(s);
    if n == |s| then []
    else
      var line, rest := s[..n], s[n + LineEnd(s, n)..];
      if line != "" then Interpret(rest, Process(b, line))
      else if b.data == "" then Interpret(rest, b)
      else [Message(b.data[..|b.data| - 1], b.id)] + Interpret(rest, b.(data := ""))
  }

  predicate Plain(line: string) {
    '\n' !in line && '\r' !in line
  }

  lemma {:induction false} LineLengthOfPlain(line: string, rest: string)
    requires Plain(line)
    ensures LineLength(line + "\n" + rest) == |line|
  {
    var s := line + "\n" + rest;
    if line != "" {
      assert s[1..] == line[1..] + "\n" + rest;
      assert s[0] == line[0];
      LineLengthOfPlain(line[1..], rest);
    }
  }

  lemma InterpretLine(line: string, rest: string, b: Buffers)
    requires Plain(line)
    ensures Interpret(line + "\n" + rest, b) ==
            if line != "" then Interpret(rest, Process(b, line))
            else if b.data == "" then Interpret(rest, b)
            else [Message(b.data[..|b.data| - 1], b.id)] + Interpret(rest, b.(data := ""))
  {
    var s := line + "\n" + rest;
    LineLengthOfPlain(line, rest);
    assert s[..|line|] == line && s[|line| + 1..] == rest && s[|line|] == '\n';
  }

  lemma {:induction false} ColonOf(name: string, value: string)
    requires ':' !in name
    ensures ColonAt(name + ": " + value) == |name|
  {
    var line := name + ": " + value;
    if name != "" {
      assert line[1..] == name[1..] + ": " + value && line[0] == name[0];
      ColonOf(name[1..], value);
    }
  }

  lemma FieldAndValue(name: string, value: string)
    requires ':' !in name
    ensures Field(name + ": " + value) == name && Value(name + ": " + value) == value
  {
    var line := name + ": " + value;
    ColonOf(name, value);
    assert line[..|name|] == name && line[|name| + 2..] == value && line[|name| + 1] == ' ';
  }

  function MessageOf(c: Codec, e: Event): Message {
    Message(c.print_(e), Text(e.sequence))
  }

  lemma ProcessId(b: Buffers, number: string)
    requires '\0' !in number
    ensures Process(b, "id: " + number) == b.(id := number)
  {
    FieldAndValue("id", number);
    assert "id" + ": " + number == "id: " + number;
  }

  lemma ProcessData(b: Buffers, json: string)
    ensures Process(b, "data: " + json) == b.(data := b.data + json + "\n")
  {
    FieldAndValue("data", json);
    assert "data" + ": " + json == "data: " + json;
  }

  lemma InterpretTwoLines(idLine: string, dataLine: string, number: string, json: string, rest: string, id: string)
    requires idLine == "id: " + number && dataLine == "data: " + json
    requires Plain(number) && '\0' !in number && Plain(json)
    ensures Interpret(idLine + "\n" + (dataLine + "\n" + ("" + "\n" + rest)), Buffers("", id))
         == [Message(json, number)] + Interpret(rest, Buffers("", number))
  {
    var afterData := "" + "\n" + rest;
    var filled := Buffers(json + "\n", number);
    assert Plain(idLine) && Plain(dataLine);
    InterpretLine(idLine, dataLine + "\n" + afterData, Buffers("", id));
    ProcessId(Buffers("", id), number);
    InterpretLine(dataLine, afterData, Buffers("", number));
    ProcessData(Buffers("", number), json);
    assert "" + json + "\n" == filled.data;
    InterpretLine("", rest, filled);
    assert filled.data[..|filled.data| - 1] == json;
  }

  lemma InterpretBody(c: Codec, e: Event, rest: string, id: string)
    requires CodecOk(c)
    ensures Interpret(Body(c, e) + "\n\n" + rest, Buffers("", id))
              == [MessageOf(c, e)] + Interpret(rest, Buffers("", Text(e.sequence)))
  {
    var number, json := Text(e.sequence), c.print_(e);
    DigitsOnly(e.sequence);
    InterpretTwoLines("id: " + number, "data: " + json, number, json, rest, id);
    BodyText(c, e, rest);
  }

  lemma BodyText(c: Codec, e: Event, rest: string)
    ensures Body(c, e) + "\n\n" + rest == "id: " + Text(e.sequence) + "\n"
              + ("data: " + c.print_(e) + "\n" + ("" + "\n" + rest))
  {
    assert "\ndata: " == "\n" + "data: " && "\n\n" == "\n" + "\n" && "" + "\n" == "\n";
  }

  lemma InterpretKeepalive(rest: string, b: Buffers)
    requires b.data == ""
    ensures Interpret(KEEPALIVE + "\n\n" + rest, b) == Interpret(rest, b)
  {
    FieldAndValue("", "keepalive");
    assert KEEPALIVE == "" + ": " + "keepalive";
    assert Plain(KEEPALIVE);
    var after := "" + "\n" + rest;
    assert KEEPALIVE + "\n\n" + rest == KEEPALIVE + "\n" + after;
    InterpretLine(KEEPALIVE, after, b);
    InterpretLine("", rest, b);
  }

  function Messages(c: Codec, events: seq<Event>): seq<Message> {
    if events == [] then [] else [MessageOf(c, events[0])] + Messages(c, events[1..])
  }

  lemma MessagesOneMore(c: Codec, e: Event, events: seq<Event>)
    ensures Messages(c, [e] + events) == [MessageOf(c, e)] + Messages(c, events)
  {
    assert ([e] + events)[1..] == events;
  }

  lemma InterpretItem(c: Codec, item: Item, rest: string, id: string)
    requires CodecOk(c)
    ensures Interpret(BodyOf(c, item) + "\n\n" + rest, Buffers("", id)) ==
            MessageFor(c, item) + Interpret(rest, Buffers("", IdAfter(item, id)))
  {
    if item.Data? {
      InterpretBody(c, item.event, rest, id);
    } else {
      InterpretKeepalive(rest, Buffers("", id));
    }
  }

  function MessageFor(c: Codec, item: Item): seq<Message> {
    if item.Data? then [MessageOf(c, item.event)] else []
  }

  function IdAfter(item: Item, id: string): string {
    if item.Data? then Text(item.event.sequence) else id
  }

  lemma MessagesOfFeed(c: Codec, feed: seq<Item>)
    requires feed != []
    ensures Messages(c, Payload(feed)) == MessageFor(c, feed[0]) + Messages(c, Payload(feed[1..]))
  {
    if feed[0].Data? {
      MessagesOneMore(c, feed[0].event, Payload(feed[1..]));
    } else {
      assert Payload(feed) == [] + Payload(feed[1..]) == Payload(feed[1..]);
    }
  }

  /** A standard client gets one message per event, carrying the event's text and,
      as the id it would reconnect with, the event's sequence number. */
  lemma {:induction false} StandardClientAgrees(c: Codec, feed: seq<Item>, id: string)
    requires CodecOk(c)
    ensures Interpret(Render(c, feed), Buffers("", id)) == Messages(c, Payload(feed))
  {
    if feed == [] {
      assert Render(c, feed) == "" && Interpret("", Buffers("", id)) == [];
    } else {
      var rest := Render(c, feed[1..]);
      StandardClientAgrees(c, feed[1..], IdAfter(feed[0], id));
      InterpretItem(c, feed[0], rest, id);
      assert Render(c, feed) == BodyOf(c, feed[0]) + "\n\n" + rest;
      MessagesOfFeed(c, feed);
    }
  }
}
