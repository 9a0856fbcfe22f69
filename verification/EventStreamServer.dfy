/** What the server prints, read back by the client: whole streams, streams cut off
    anywhere, and chains of connections that each start at the cursor the last one
    returned. */
module EventStreamServer {
  import opened Checked
  import opened Strings
  import opened EventStream

  /** Compact JSON and its reader, of which only this is used: reading gives back what
      was written, an event is one line of text, and no beginning of it reads as one. */
  datatype Codec = Codec(encode: Event -> string, decode: Decoder)

  predicate Plain(s: string) {
    forall i :: 0 <= i < |s| ==> s[i] != '\n' && s[i] != '\r'
  }

  ghost predicate Faithful(codec: Codec) {
    forall e: Event {:trigger codec.encode(e)} ::
      && Plain(codec.encode(e)) && codec.encode(e) != ""
      && codec.decode(codec.encode(e)) == Some(e)
      && forall n: nat :: n < |codec.encode(e)| ==> codec.decode(codec.encode(e)[..n]) == None
  }

  // ---- there is such a codec ----

  function Unary(c: char, n: nat): (s: string)
    ensures |s| == n && forall i :: 0 <= i < n ==> s[i] == c
  {
    seq(n, (i: nat) => c)
  }

  function Size(payload: int): nat { if payload < 0 then -payload else payload }

  function Tally(e: Event): string {
    Unary('a', e.streamSeq) + [if e.payload < 0 then 'n' else 'p'] + Unary('b', Size(e.payload)) + ";"
  }

  lemma {:induction false} TallyIs(e: Event)
    ensures var s := Tally(e);
            && |s| == e.streamSeq + 1 + Size(e.payload) + 1 && s[|s| - 1] == ';'
            && s[e.streamSeq] == (if e.payload < 0 then 'n' else 'p')
            && (forall i :: 0 <= i < e.streamSeq ==> s[i] == 'a')
            && forall i :: 0 <= i < |s| - 1 ==> s[i] in "anpb"
  {
  }

  lemma {:induction false} TallyIsInjective(e: Event, f: Event)
    requires Tally(e) == Tally(f)
    ensures e == f
  {
    TallyIs(e);
    TallyIs(f);
  }

  ghost function ReadTally(s: string): Option<Event> {
    if exists e: Event :: Tally(e) == s then
      var e: Event :| Tally(e) == s;
      Some(e)
    else None
  }

  ghost const TALLIES := Codec((e: Event) => Tally(e), (s: string) => ReadTally(s))

  lemma {:induction false} TallyReads(e: Event)
    ensures Plain(Tally(e)) && Tally(e) != "" && ReadTally(Tally(e)) == Some(e)
    ensures forall n: nat :: n < |Tally(e)| ==> ReadTally(Tally(e)[..n]) == None
  {
    TallyIs(e);
    var f: Event :| Tally(f) == Tally(e) && ReadTally(Tally(e)) == Some(f);
    TallyIsInjective(e, f);
    forall n: nat | n < |Tally(e)| ensures ReadTally(Tally(e)[..n]) == None {
      forall f: Event ensures Tally(f) != Tally(e)[..n] {
        TallyIs(f);
      }
    }
  }

  /** What is asked of a codec can be had. */
  lemma {:induction false} SomeCodecIsFaithful()
    ensures Faithful(TALLIES)
  {
    forall e: Event
      ensures Plain(TALLIES.encode(e)) && TALLIES.encode(e) != "" && TALLIES.decode(TALLIES.encode(e)) == Some(e)
      ensures forall n: nat :: n < |TALLIES.encode(e)| ==> TALLIES.decode(TALLIES.encode(e)[..n]) == None
    {
      TallyReads(e);
    }
  }

  // ---- printing ----

  function Digit(d: nat): char
    requires d < 10
  {
    ('0' as int + d) as char
  }

  function Decimal(n: nat): string {
    if n < 10 then [Digit(n)] else Decimal(n / 10) + [Digit(n % 10)]
  }

  const EVENT_LINE := "event: domain.event"

  function IdLine(e: Event): string { "id: " + Decimal(e.streamSeq) }

  function DataLine(codec: Codec, e: Event): string { "data: " + codec.encode(e) }

  function Frame(codec: Codec, e: Event): string {
    IdLine(e) + "\n" + (EVENT_LINE + "\n" + DataLine(codec, e))
  }

  function PrintOne(codec: Codec, e: Event): string { Frame(codec, e) + "\n\n" }

  function Print(codec: Codec, events: seq<Event>): string {
    if events == [] then "" else PrintOne(codec, events[0]) + Print(codec, events[1..])
  }

  ghost predicate Ascending(events: seq<Event>, start: int) {
    && (forall i :: 0 <= i < |events| ==> events[i].streamSeq > start)
    && forall i, j :: 0 <= i < j < |events| ==> events[i].streamSeq < events[j].streamSeq
  }

  /** The events of a log after a cursor, in order. */
  function EventsAfter(log: seq<Event>, cursor: nat): seq<Event> {
    if log == [] then []
    else (if log[0].streamSeq > cursor then [log[0]] else []) + EventsAfter(log[1..], cursor)
  }

  /** The printing loop: one batch, and the cursor it ends with. */
  method PrintFrames(codec: Codec, log: seq<Event>, cursor: nat) returns (text: string, nextCursor: nat)
    ensures text == Print(codec, EventsAfter(log, cursor))
    ensures nextCursor == CursorPast(EventsAfter(log, cursor), cursor)
  {
    var events := EventsAfter(log, cursor);
    text, nextCursor := "", cursor;
    for i := 0 to |events|
      invariant text + Print(codec, events[i..]) == Print(codec, events)
      invariant nextCursor == CursorPast(events[..i], cursor)
    {
      PrintNext(codec, text, events, i);
      text := text + PrintOne(codec, events[i]);
      nextCursor := events[i].streamSeq;
    }
    assert events[..|events|] == events && text + "" == text;
  }

  lemma {:induction false} PrintNext(codec: Codec, text: string, events: seq<Event>, i: nat)
    requires i < |events|
    ensures text + Print(codec, events[i..]) == text + PrintOne(codec, events[i]) + Print(codec, events[i + 1..])
  {
    assert events[i..][1..] == events[i + 1..];
    var one, rest := PrintOne(codec, events[i]), Print(codec, events[i + 1..]);
    assert text + (one + rest) == text + one + rest;
  }

  function CursorPast(events: seq<Event>, cursor: nat): nat {
    if events == [] then cursor else events[|events| - 1].streamSeq
  }

  // ---- decimals ----

  lemma {:induction false} DecimalReads(n: nat)
    ensures IsDecimal(Decimal(n)) && DigitsValue(Decimal(n)) == n
    ensures n > 0 ==> Decimal(n)[0] != '0'
  {
    if n < 10 {
      assert Decimal(n)[..0] == "";
    } else {
      DecimalReads(n / 10);
      var front := Decimal(n / 10);
      assert Decimal(n)[..|Decimal(n)| - 1] == front;
      assert Decimal(n)[0] == front[0];
    }
  }

  // ---- lines ----

  lemma {:induction false} OneLine(line: string)
    requires Plain(line)
    ensures Lines(line) == [line]
  {
  }

  lemma {:induction false} FirstLine(line: string, rest: string)
    requires Plain(line)
    ensures Lines(line + "\n" + rest) == [line] + Lines(rest)
  {
    var s := line + "\n" + rest;
    IndexIs(s, '\n', |line|);
    assert s[..|line|] == line && s[|line| + 1..] == rest;
  }

  /** A field line is read as its name and value. */
  lemma {:induction false} FieldLine(f: Fields, name: string, value: string)
    requires name != "" && forall i :: 0 <= i < |name| ==> name[i] != ':'
    ensures ReadLine(f, name + ": " + value) ==
            if name == "event" then f.(event := value)
            else if name == "id" then f.(id := Some(value))
            else if name == "data" then f.(data := f.data + [value])
            else f
  {
    var line := name + ": " + value;
    IndexIs(line, ':', |name|);
    assert line[..|name|] == name;
    assert line[|name| + 1..] == " " + value;
    assert (" " + value)[1..] == value;
  }

  lemma {:induction false} PlainLines(codec: Codec, e: Event)
    requires Faithful(codec)
    ensures Plain(IdLine(e)) && Plain(EVENT_LINE) && Plain(DataLine(codec, e))
  {
    DecimalReads(e.streamSeq);
    assert Plain(codec.encode(e));
  }

  function AfterId(e: Event): Fields { Fields("message", Some(Decimal(e.streamSeq)), []) }

  function AfterEvent(e: Event): Fields { Fields(EVENT_TYPE, Some(Decimal(e.streamSeq)), []) }

  function AfterData(codec: Codec, e: Event): Fields {
    Fields(EVENT_TYPE, Some(Decimal(e.streamSeq)), [codec.encode(e)])
  }

  lemma {:induction false} IdField(e: Event)
    ensures ReadLine(NO_FIELDS, IdLine(e)) == AfterId(e)
  {
    FieldLine(NO_FIELDS, "id", Decimal(e.streamSeq));
    assert IdLine(e) == "id" + ": " + Decimal(e.streamSeq);
  }

  lemma {:induction false} EventLineIs()
    ensures EVENT_LINE == "event" + ": " + EVENT_TYPE
  {
    assert "event" + ": " == "event: ";
    assert "event: " + EVENT_TYPE == EVENT_LINE;
  }

  lemma {:induction false} EventField(e: Event)
    ensures ReadLine(AfterId(e), EVENT_LINE) == AfterEvent(e)
  {
    FieldLine(AfterId(e), "event", EVENT_TYPE);
    EventLineIs();
  }

  lemma {:induction false} DataField(codec: Codec, e: Event)
    ensures ReadLine(AfterEvent(e), DataLine(codec, e)) == AfterData(codec, e)
  {
    FieldLine(AfterEvent(e), "data", codec.encode(e));
    assert DataLine(codec, e) == "data" + ": " + codec.encode(e);
    assert [] + [codec.encode(e)] == [codec.encode(e)];
  }

  lemma {:induction false} FirstRead(f: Fields, line: string, lines: seq<string>)
    ensures ReadLines(f, [line] + lines) == ReadLines(ReadLine(f, line), lines)
  {
    assert ([line] + lines)[1..] == lines;
  }

  lemma {:induction false} ReadsFrame(f: Fields, a: string, f1: Fields, b: string, f2: Fields, c: string, f3: Fields,
      rest: seq<string>)
    requires ReadLine(f, a) == f1 && ReadLine(f1, b) == f2 && ReadLine(f2, c) == f3
    requires rest == [] || rest == [""]
    ensures ReadLines(f, [a] + ([b] + ([c] + rest))) == f3
  {
    FirstRead(f, a, [b] + ([c] + rest));
    FirstRead(f1, b, [c] + rest);
    FirstRead(f2, c, rest);
    if rest == [""] { assert rest[1..] == []; }
  }

  /** A printed frame gives back its event. */
  lemma {:induction false} FrameReads(codec: Codec, e: Event, tail: string)
    requires Faithful(codec) && (tail == "" || tail == "\n")
    ensures ReadLines(NO_FIELDS, Lines(Frame(codec, e) + tail)) == AfterData(codec, e)
  {
    FrameLines(codec, e, tail);
    IdField(e);
    EventField(e);
    DataField(codec, e);
    ReadsFrame(NO_FIELDS, IdLine(e), AfterId(e), EVENT_LINE, AfterEvent(e), DataLine(codec, e), AfterData(codec, e),
               if tail == "" then [] else [""]);
  }

  lemma {:induction false} FrameLines(codec: Codec, e: Event, tail: string)
    requires Faithful(codec) && (tail == "" || tail == "\n")
    ensures Lines(Frame(codec, e) + tail)
            == [IdLine(e)] + ([EVENT_LINE] + ([DataLine(codec, e)] + (if tail == "" then [] else [""])))
  {
    PlainLines(codec, e);
    var last := DataLine(codec, e) + tail;
    assert Frame(codec, e) + tail == IdLine(e) + "\n" + (EVENT_LINE + "\n" + last);
    FirstLine(IdLine(e), EVENT_LINE + "\n" + last);
    FirstLine(EVENT_LINE, last);
    LastLine(DataLine(codec, e), tail);
  }

  lemma {:induction false} LastLine(line: string, tail: string)
    requires Plain(line) && (tail == "" || tail == "\n")
    ensures Lines(line + tail) == [line] + (if tail == "" then [] else [""])
  {
    OneLine(line);
    OneLine("");
    if tail == "" {
      assert line + tail == line;
    } else {
      FirstLine(line, "");
      assert line + tail == line + "\n" + "";
    }
  }

  lemma {:induction false} FrameDispatches(codec: Codec, c: Client, e: Event, tail: string)
    requires Faithful(codec) && (tail == "" || tail == "\n")
    ensures Dispatch(codec.decode, c, Frame(codec, e) + tail)
            == if e.streamSeq > c.acknowledged then Some(Client(e.streamSeq, c.delivered + [e])) else None
  {
    FrameReads(codec, e, tail);
    DecimalReads(e.streamSeq);
    assert Join([codec.encode(e)], "\n") == codec.encode(e);
    assert codec.decode(codec.encode(e)) == Some(e);
  }

  // ---- boundaries ----

  /** Inside a frame no line break is followed by another. */
  lemma {:induction false} NoBoundaryInside(a: string, b: string, c: string, j: nat)
    requires Plain(a) && Plain(b) && Plain(c) && b != "" && c != ""
    ensures var s := a + "\n" + (b + "\n" + c);
            && (j < |s| ==> MatchAt(s + "\n\n", j) == 0)
            && MatchAt(s + "\n\n", |s|) == 2
  {
    var s := a + "\n" + (b + "\n" + c);
    var t := s + "\n\n";
    assert t[|a|] == '\n' && t[|a| + 1] == b[0] && t[|a| + 1 + |b|] == '\n' && t[|a| + 2 + |b|] == c[0];
    assert forall i :: 0 <= i < |s| && i != |a| && i != |a| + 1 + |b| ==> t[i] != '\n' && t[i] != '\r';
  }

  lemma {:induction false} FrameBoundary(codec: Codec, e: Event)
    requires Faithful(codec)
    ensures Boundary(PrintOne(codec, e), 0) == |Frame(codec, e)|
    ensures MatchAt(PrintOne(codec, e), |Frame(codec, e)|) == 2
  {
    PlainLines(codec, e);
    forall j | 0 <= j <= |Frame(codec, e)|
      ensures MatchAt(PrintOne(codec, e), j) == if j < |Frame(codec, e)| then 0 else 2
    {
      NoBoundaryInside(IdLine(e), EVENT_LINE, DataLine(codec, e), j);
    }
    FirstMatch(PrintOne(codec, e), |Frame(codec, e)|);
  }

  /** A beginning that does not reach past the first boundary holds none. */
  lemma {:induction false} NoneBefore(whole: string, text: string, frame: nat)
    requires text <= whole && text != whole && |whole| == frame + 2 && Boundary(whole, 0) == frame
    requires MatchAt(whole, frame) == 2
    ensures Boundary(text, 0) == |text|
  {
    assert text + whole[|text|..] == whole;
    if Boundary(text, 0) < |text| { BoundaryIsStable(text, whole[|text|..]); }
  }

  /** No beginning of a printed frame holds a boundary. */
  lemma {:induction false} NoEarlyBoundary(codec: Codec, e: Event, text: string)
    requires Faithful(codec) && text <= PrintOne(codec, e) && text != PrintOne(codec, e)
    ensures Boundary(text, 0) == |text|
  {
    FrameBoundary(codec, e);
    NoneBefore(PrintOne(codec, e), text, |Frame(codec, e)|);
  }

  // ---- whole streams ----

  lemma {:induction false} FrameThenRest(frame: string, rest: string)
    ensures (frame + "\n\n")[..|frame|] == frame
    ensures (frame + "\n\n")[|frame| + 2..] + rest == rest
  {
  }

  /** A frame that ends at its blank line is dispatched first. */
  lemma {:induction false} ParsesFrame(dispatch: Dispatcher, c: Client, frame: string, next: Client, rest: string,
      ended: bool)
    requires Boundary(frame + "\n\n", 0) == |frame| && MatchAt(frame + "\n\n", |frame|) == 2
    requires dispatch(c, frame) == Some(next)
    ensures Parse(dispatch, c, frame + "\n\n" + rest, ended) == Parse(dispatch, next, rest, ended)
  {
    FrameThenRest(frame, rest);
    ParseAhead(dispatch, c, frame + "\n\n", rest, ended);
  }

  lemma {:induction false} ParsesOne(codec: Codec, c: Client, e: Event, rest: string, ended: bool)
    requires Faithful(codec) && e.streamSeq > c.acknowledged
    ensures Parse(DispatchWith(codec.decode), c, PrintOne(codec, e) + rest, ended)
            == Parse(DispatchWith(codec.decode), Client(e.streamSeq, c.delivered + [e]), rest, ended)
  {
    var frame, next := Frame(codec, e), Client(e.streamSeq, c.delivered + [e]);
    FrameBoundary(codec, e);
    FrameDispatches(codec, c, e, "");
    assert frame + "" == frame;
    ParsesFrame(DispatchWith(codec.decode), c, frame, next, rest, ended);
  }

  lemma {:induction false} AscendingTail(events: seq<Event>, start: int)
    requires Ascending(events, start) && events != []
    ensures Ascending(events[1..], events[0].streamSeq)
  {
    forall i | 0 <= i < |events[1..]| ensures events[1..][i].streamSeq > events[0].streamSeq { }
  }

  /** The client once it has read some events. */
  function Having(c: Client, events: seq<Event>): Client {
    Client(CursorPast(events, c.acknowledged), c.delivered + events)
  }

  /** Printed events are read, whatever follows them. */
  lemma {:induction false} ParsesPrinted(codec: Codec, c: Client, events: seq<Event>, rest: string, ended: bool)
    requires Faithful(codec) && Ascending(events, c.acknowledged)
    ensures Parse(DispatchWith(codec.decode), c, Print(codec, events) + rest, ended)
            == Parse(DispatchWith(codec.decode), Having(c, events), rest, ended)
    decreases |events|
  {
    if events == [] {
      assert Having(c, events) == c && "" + rest == rest;
    } else {
      var next, tail := Client(events[0].streamSeq, c.delivered + [events[0]]), events[1..];
      AscendingTail(events, c.acknowledged);
      assert PrintOne(codec, events[0]) + Print(codec, tail) + rest
             == PrintOne(codec, events[0]) + (Print(codec, tail) + rest);
      ParsesOne(codec, c, events[0], Print(codec, tail) + rest, ended);
      ParsesPrinted(codec, next, tail, rest, ended);
      FirstThenRest(c, events);
    }
  }

  lemma {:induction false} FirstThenRest(c: Client, events: seq<Event>)
    requires events != []
    ensures Having(Client(events[0].streamSeq, c.delivered + [events[0]]), events[1..]) == Having(c, events)
  {
    assert c.delivered + [events[0]] + events[1..] == c.delivered + events;
  }

  lemma {:induction false} ParsesNothing(dispatch: Dispatcher, c: Client, ended: bool)
    ensures Parse(dispatch, c, "", ended) == if ended then Returned(c) else Refused(c)
  {
    assert Boundary("", 0) == 0;
  }

  /** Cut into any chunks, the printed stream is read as exactly the printed events. */
  lemma {:induction false} RoundTrip(codec: Codec, cursor: nat, events: seq<Event>, chunks: seq<string>)
    requires Faithful(codec) && Ascending(events, cursor)
    requires Concat(chunks) == Print(codec, events)
    ensures Parse(DispatchWith(codec.decode), Client(cursor, []), Concat(chunks), true)
            == Returned(Client(CursorPast(events, cursor), events))
  {
    assert Print(codec, events) + "" == Print(codec, events);
    ParsesPrinted(codec, Client(cursor, []), events, "", true);
    ParsesNothing(DispatchWith(codec.decode), Having(Client(cursor, []), events), true);
    assert [] + events == events;
  }

  // ---- streams that end early ----

  lemma {:induction false} IdOnly(text: string, e: Event)
    requires text <= IdLine(e) && Plain(text)
    ensures ReadLines(NO_FIELDS, Lines(text)).event == "message"
  {
    OneLine(text);
    assert text != "" ==> text[0] == 'i';
    FirstRead(NO_FIELDS, text, []);
    assert [text] + [] == [text];
  }

  lemma {:induction false} ShortEventLine(f: Fields, line: string)
    requires line <= EVENT_LINE && line != EVENT_LINE && f.event == "message"
    ensures ReadLine(f, line).event != EVENT_TYPE
  {
    if line != "" {
      var colon := FirstIndex(line, ':');
      assert EVENT_LINE[5] == ':' && EVENT_LINE[6] == ' ';
      if colon < |line| {
        assert line[colon] == EVENT_LINE[colon];
        if |line| > 5 { IndexIs(line, ':', 5); }
      }
    }
  }

  lemma {:induction false} ShortDataLine(codec: Codec, e: Event, f: Fields, line: string)
    requires Faithful(codec) && line <= DataLine(codec, e) && line != DataLine(codec, e) && f.data == []
    ensures codec.decode(Join(ReadLine(f, line).data, "\n")) == None
  {
    var whole := codec.encode(e);
    assert codec.encode(e)[..0] == "" && codec.decode("") == None;
    if |line| >= 6 {
      var n := |line| - 6;
      assert line == "data" + ": " + whole[..n];
      FieldLine(f, "data", whole[..n]);
      assert [] + [whole[..n]] == [whole[..n]];
      assert codec.decode(whole[..n]) == None;
    } else if |line| == 5 {
      assert line[4] == ':';
      IndexIs(line, ':', 4);
    } else if line != "" {
      assert line[0] == 'd';
      assert forall i :: 0 <= i < |line| ==> line[i] == "data: "[i] && line[i] != ':';
      assert FirstIndex(line, ':') == |line|;
    }
  }

  lemma {:induction false} TwoLines(a: string, b: string)
    requires Plain(a) && Plain(b)
    ensures Lines(a + "\n" + b) == [a, b]
  {
    FirstLine(a, b);
    OneLine(b);
  }

  lemma {:induction false} ThreeLines(a: string, b: string, c: string)
    requires Plain(a) && Plain(b) && Plain(c)
    ensures Lines(a + "\n" + (b + "\n" + c)) == [a, b, c]
  {
    FirstLine(a, b + "\n" + c);
    TwoLines(b, c);
  }

  lemma {:induction false} ReadTwo(f: Fields, a: string, b: string)
    ensures ReadLines(f, [a, b]) == ReadLine(ReadLine(f, a), b)
  {
    FirstRead(f, a, [b]);
    FirstRead(ReadLine(f, a), b, []);
    assert [a, b] == [a] + [b] && [b] == [b] + [];
  }

  lemma {:induction false} ReadThree(f: Fields, a: string, b: string, c: string)
    ensures ReadLines(f, [a, b, c]) == ReadLine(ReadLine(ReadLine(f, a), b), c)
  {
    assert [a, b, c][1..] == [b, c];
    ReadTwo(ReadLine(f, a), b, c);
  }

  lemma {:induction false} CutInEvent(codec: Codec, c: Client, e: Event, line: string)
    requires Faithful(codec) && line <= EVENT_LINE
    ensures Dispatch(codec.decode, c, IdLine(e) + "\n" + line) == None
  {
    PlainLines(codec, e);
    IdField(e);
    EventField(e);
    TwoLines(IdLine(e), line);
    ReadTwo(NO_FIELDS, IdLine(e), line);
    if line == EVENT_LINE {
      assert codec.encode(e)[..0] == "" && codec.decode("") == None;
    } else {
      ShortEventLine(AfterId(e), line);
    }
  }

  lemma {:induction false} CutInData(codec: Codec, c: Client, e: Event, line: string)
    requires Faithful(codec) && line <= DataLine(codec, e) && line != DataLine(codec, e)
    ensures Dispatch(codec.decode, c, IdLine(e) + "\n" + (EVENT_LINE + "\n" + line)) == None
  {
    PlainLines(codec, e);
    IdField(e);
    EventField(e);
    ThreeLines(IdLine(e), EVENT_LINE, line);
    ReadThree(NO_FIELDS, IdLine(e), EVENT_LINE, line);
    ShortDataLine(codec, e, AfterEvent(e), line);
  }

  lemma {:induction false} CutInId(codec: Codec, c: Client, e: Event, text: string)
    requires text <= IdLine(e)
    ensures Dispatch(codec.decode, c, text) == None
  {
    DecimalReads(e.streamSeq);
    IdOnly(text, e);
  }

  /** A frame cut off before its end is refused. */
  lemma {:induction false} CutFrameIsRefused(codec: Codec, c: Client, e: Event, text: string)
    requires Faithful(codec) && text <= Frame(codec, e) && text != Frame(codec, e)
    ensures Dispatch(codec.decode, c, text) == None
  {
    var a, b, d, n := IdLine(e), EVENT_LINE, DataLine(codec, e), |text|;
    if n <= |a| {
      CutInId(codec, c, e, text);
    } else if n <= |a| + 1 + |b| {
      assert text == a + "\n" + b[..n - |a| - 1];
      CutInEvent(codec, c, e, b[..n - |a| - 1]);
    } else {
      assert text == a + "\n" + (b + "\n" + d[..n - |a| - |b| - 2]);
      CutInData(codec, c, e, d[..n - |a| - |b| - 2]);
    }
  }

  /** A beginning of one printed event: refused unless its whole frame is there. */
  lemma {:induction false} CutEventReads(codec: Codec, c: Client, e: Event, part: string, ended: bool)
    requires Faithful(codec) && e.streamSeq > c.acknowledged
    requires part <= PrintOne(codec, e) && part != PrintOne(codec, e)
    ensures Parse(DispatchWith(codec.decode), c, part, ended) ==
            if !ended then Refused(c)
            else if part == "" then Returned(c)
            else if |part| < |Frame(codec, e)| then Refused(c)
            else Returned(Client(e.streamSeq, c.delivered + [e]))
  {
    NoEarlyBoundary(codec, e, part);
    var frame := Frame(codec, e);
    if part != "" { assert part[0] == 'i'; }
    if |part| < |frame| {
      assert part <= frame;
      CutFrameIsRefused(codec, c, e, part);
    } else {
      var tail := if |part| == |frame| then "" else "\n";
      assert part == frame + tail;
      FrameDispatches(codec, c, e, tail);
    }
  }

  /** A printed stream cut off inside its event j, or at its end. */
  ghost predicate CutAt(codec: Codec, events: seq<Event>, j: nat, part: string) {
    && j <= |events|
    && if j == |events| then part == "" else part <= PrintOne(codec, events[j]) && part != PrintOne(codec, events[j])
  }

  /** The whole frames among what arrived of a cut stream: a last frame that lacks only its
      blank line counts once the stream has ended. */
  function WholeFrames(codec: Codec, events: seq<Event>, j: nat, part: string, ended: bool): nat {
    if ended && j < |events| && |Frame(codec, events[j])| <= |part| then j + 1 else j
  }

  lemma {:induction false} TakeOneMore(c: Client, events: seq<Event>, j: nat)
    requires j < |events|
    ensures Having(c, events[..j + 1]) == Client(events[j].streamSeq, Having(c, events[..j]).delivered + [events[j]])
  {
    assert events[..j + 1] == events[..j] + [events[j]];
  }

  lemma {:induction false} AscendsBeyond(events: seq<Event>, start: nat, j: nat)
    requires Ascending(events, start) && j < |events|
    ensures Ascending(events[..j], start) && events[j].streamSeq > CursorPast(events[..j], start)
  {
  }

  /** What a read of a cut stream comes to: it hands over exactly the whole frames, and
      returns their cursor unless it is cut inside a frame or the connection failed. */
  lemma {:induction false} CutStreamExactly(codec: Codec, c: Client, events: seq<Event>, j: nat, part: string,
      ended: bool)
    requires Faithful(codec) && Ascending(events, c.acknowledged) && CutAt(codec, events, j, part)
    ensures var m := WholeFrames(codec, events, j, part, ended);
            && m <= |events|
            && Parse(DispatchWith(codec.decode), c, Print(codec, events[..j]) + part, ended) ==
               if ended && (part == "" || m == j + 1) then Returned(Having(c, events[..m]))
               else Refused(Having(c, events[..m]))
  {
    var here := Having(c, events[..j]);
    if j < |events| { AscendsBeyond(events, c.acknowledged, j); } else { assert events[..j] == events; }
    ParsesPrinted(codec, c, events[..j], part, ended);
    if j == |events| {
      ParsesNothing(DispatchWith(codec.decode), here, ended);
    } else {
      CutEventReads(codec, here, events[j], part, ended);
      TakeOneMore(c, events, j);
      assert |Frame(codec, events[j])| > 0;
    }
  }

  lemma {:induction false} PrefixBeyond(text: string, one: string, more: string)
    requires text <= one + more && one <= text
    ensures text == one + text[|one|..] && text[|one|..] <= more
  {
  }

  lemma {:induction false} Reassembled(text: string, one: string, more: string, left: string)
    requires one <= text && text[|one|..] == more + left
    ensures text == one + more + left
  {
  }

  lemma {:induction false} CutDeeper(codec: Codec, events: seq<Event>, text: string, i: nat, left: string)
    requires events != [] && PrintOne(codec, events[0]) <= text
    requires CutAt(codec, events[1..], i, left)
    requires text[|PrintOne(codec, events[0])|..] == Print(codec, events[1..][..i]) + left
    ensures CutAt(codec, events, i + 1, left) && text == Print(codec, events[..i + 1]) + left
  {
    assert events[..i + 1][1..] == events[1..][..i];
    Reassembled(text, PrintOne(codec, events[0]), Print(codec, events[1..][..i]), left);
  }

  /** Every beginning of a printed stream is cut somewhere. */
  lemma {:induction false} CutSomewhere(codec: Codec, events: seq<Event>, text: string) returns (j: nat, part: string)
    requires text <= Print(codec, events)
    ensures CutAt(codec, events, j, part) && text == Print(codec, events[..j]) + part
    decreases |events|
  {
    if events == [] {
      j, part := 0, "";
    } else {
      var one := PrintOne(codec, events[0]);
      if one <= text {
        PrefixBeyond(text, one, Print(codec, events[1..]));
        var i, left := CutSomewhere(codec, events[1..], text[|one|..]);
        j, part := i + 1, left;
        CutDeeper(codec, events, text, i, left);
      } else {
        assert text <= one;
        j, part := 0, text;
      }
    }
  }

  /** The client handed over the first m events. */
  ghost predicate ReadsSome(r: Outcome, c: Client, events: seq<Event>) {
    exists m: nat :: m <= |events| && r.client == Having(c, events[..m])
  }

  /** However the stream is cut off: the client hands over a whole number of events, and
      has the cursor of the last of them. */
  lemma {:induction false} CutStreamIsWhole(codec: Codec, c: Client, events: seq<Event>, text: string, ended: bool)
    requires Faithful(codec) && Ascending(events, c.acknowledged)
    requires text <= Print(codec, events)
    ensures ReadsSome(Parse(DispatchWith(codec.decode), c, text, ended), c, events)
  {
    var j, part := CutSomewhere(codec, events, text);
    CutStreamExactly(codec, c, events, j, part, ended);
  }

  // ---- reconnecting ----

  lemma {:induction false} AfterAscends(log: seq<Event>, cursor: nat, start: int)
    requires Ascending(log, start)
    ensures Ascending(EventsAfter(log, cursor), cursor)
    ensures Ascending(EventsAfter(log, cursor), start)
  {
    if log != [] {
      AscendingTail(log, start);
      AfterAscends(log[1..], cursor, log[0].streamSeq);
    }
  }

  lemma {:induction false} AllAfter(log: seq<Event>, cursor: nat)
    requires Ascending(log, cursor)
    ensures EventsAfter(log, cursor) == log
  {
    if log != [] {
      AscendingTail(log, cursor);
      forall i | 0 <= i < |log[1..]| ensures log[1..][i].streamSeq > cursor { }
      AllAfter(log[1..], cursor);
    }
  }

  lemma {:induction false} AfterConcat(a: seq<Event>, b: seq<Event>, cursor: nat)
    ensures EventsAfter(a + b, cursor) == EventsAfter(a, cursor) + EventsAfter(b, cursor)
  {
    if a == [] {
      assert a + b == b;
    } else {
      assert (a + b)[1..] == a[1..] + b;
      AfterConcat(a[1..], b, cursor);
    }
  }

  lemma {:induction false} NoneAfter(log: seq<Event>, cursor: nat)
    requires forall i :: 0 <= i < |log| ==> log[i].streamSeq <= cursor
    ensures EventsAfter(log, cursor) == []
  {
    if log != [] { NoneAfter(log[1..], cursor); }
  }

  /** After reading m events the rest is what comes after the last of them. */
  lemma {:induction false} RestAfter(events: seq<Event>, cursor: nat, m: nat)
    requires Ascending(events, cursor) && m <= |events|
    ensures EventsAfter(events, CursorPast(events[..m], cursor)) == events[m..]
  {
    var last := CursorPast(events[..m], cursor);
    assert events == events[..m] + events[m..];
    AfterConcat(events[..m], events[m..], last);
    NoneAfter(events[..m], last);
    AllAfter(events[m..], last);
  }

  lemma {:induction false} AfterTwice(log: seq<Event>, cursor: nat, later: nat)
    requires cursor <= later
    ensures EventsAfter(EventsAfter(log, cursor), later) == EventsAfter(log, later)
  {
    if log != [] {
      AfterTwice(log[1..], cursor, later);
      AfterConcat(if log[0].streamSeq > cursor then [log[0]] else [], EventsAfter(log[1..], cursor), later);
      assert [log[0]][1..] == [];
    }
  }

  /** One connection: the server printed the log as it then was, the stream was cut
      anywhere and arrived in any chunks, and it ended or the connection failed. */
  datatype Connection = Connection(known: nat, chunks: seq<string>, ended: bool)

  ghost predicate Possible(codec: Codec, log: seq<Event>, cursor: nat, x: Connection) {
    x.known <= |log| && Concat(x.chunks) <= Print(codec, EventsAfter(log[..x.known], cursor))
  }

  function OutcomeOf(codec: Codec, cursor: nat, x: Connection): Outcome {
    Parse(DispatchWith(codec.decode), Client(cursor, []), Concat(x.chunks), x.ended)
  }

  /** What the reader has acknowledged, the events of the connections that returned, and
      all that were handed over, in order. */
  datatype Session = Session(acknowledged: nat, returned: seq<Event>, handed: seq<Event>)

  const FRESH_SESSION := Session(0, [], [])

  /** A connection that fails leaves the cursor where it was, but what it handed over has
      been handed over. */
  function AfterConnection(s: Session, r: Outcome): Session {
    match r
    case Returned(c) => Session(c.acknowledged, s.returned + c.delivered, s.handed + c.delivered)
    case Refused(c) => s.(handed := s.handed + c.delivered)
  }

  /** Connect again and again, each time from the cursor that was last returned. */
  function Connect(codec: Codec, xs: seq<Connection>): Session {
    if xs == [] then FRESH_SESSION
    else
      var before := Connect(codec, xs[..|xs| - 1]);
      AfterConnection(before, OutcomeOf(codec, before.acknowledged, xs[|xs| - 1]))
  }

  ghost predicate AllPossible(codec: Codec, log: seq<Event>, xs: seq<Connection>) {
    forall i :: 0 <= i < |xs| ==> Possible(codec, log, Connect(codec, xs[..i]).acknowledged, xs[i])
  }

  lemma {:induction false} OneConnection(codec: Codec, log: seq<Event>, cursor: nat, x: Connection)
    requires Faithful(codec) && Ascending(log, 0) && Possible(codec, log, cursor, x)
    ensures var c := OutcomeOf(codec, cursor, x).client;
            EventsAfter(log, cursor) == c.delivered + EventsAfter(log, c.acknowledged)
  {
    var events := EventsAfter(log[..x.known], cursor);
    assert Ascending(log[..x.known], 0);
    AfterAscends(log[..x.known], cursor, 0);
    CutStreamIsWhole(codec, Client(cursor, []), events, Concat(x.chunks), x.ended);
    SomeIsLossless(log, x.known, cursor, OutcomeOf(codec, cursor, x));
  }

  lemma {:induction false} SomeIsLossless(log: seq<Event>, known: nat, cursor: nat, r: Outcome)
    requires Ascending(log, 0) && known <= |log|
    requires ReadsSome(r, Client(cursor, []), EventsAfter(log[..known], cursor))
    ensures EventsAfter(log, cursor) == r.client.delivered + EventsAfter(log, r.client.acknowledged)
  {
    var events := EventsAfter(log[..known], cursor);
    var m: nat :| m <= |events| && r.client == Having(Client(cursor, []), events[..m]);
    NothingLost(log, known, cursor, m);
    assert [] + events[..m] == events[..m];
  }

  lemma {:induction false} KnownIsBeginning(log: seq<Event>, known: nat, cursor: nat)
    requires known <= |log|
    ensures EventsAfter(log[..known], cursor) <= EventsAfter(log, cursor)
  {
    assert log == log[..known] + log[known..];
    AfterConcat(log[..known], log[known..], cursor);
  }

  lemma {:induction false} NothingLost(log: seq<Event>, known: nat, cursor: nat, m: nat)
    requires Ascending(log, 0) && known <= |log| && m <= |EventsAfter(log[..known], cursor)|
    ensures var events := EventsAfter(log[..known], cursor);
            var last := CursorPast(events[..m], cursor);
            EventsAfter(log, cursor) == events[..m] + EventsAfter(log, last)
  {
    var all, events := EventsAfter(log, cursor), EventsAfter(log[..known], cursor);
    KnownIsBeginning(log, known, cursor);
    assert all[..m] == events[..m];
    AfterAscends(log, cursor, 0);
    PrefixLeavesRest(log, cursor, m);
  }

  lemma {:induction false} PrefixLeavesRest(log: seq<Event>, cursor: nat, m: nat)
    requires m <= |EventsAfter(log, cursor)| && Ascending(EventsAfter(log, cursor), cursor)
    ensures var all := EventsAfter(log, cursor);
            all == all[..m] + EventsAfter(log, CursorPast(all[..m], cursor))
  {
    var all := EventsAfter(log, cursor);
    var last := CursorPast(all[..m], cursor);
    RestAfter(all, cursor, m);
    LastIsLater(all, cursor, m);
    AfterTwice(log, cursor, last);
  }

  lemma {:induction false} LastIsLater(events: seq<Event>, cursor: nat, m: nat)
    requires Ascending(events, cursor) && m <= |events|
    ensures cursor <= CursorPast(events[..m], cursor)
  {
    if m > 0 { assert events[..m][m - 1] == events[m - 1]; }
  }

  // ---- many connections ----

  /** What a connection did: how many events it handed over, and whether it returned. */
  datatype Turn = Turn(count: nat, returned: bool)

  function TurnOf(r: Outcome): Turn { Turn(|r.client.delivered|, r.Returned?) }

  function Turns(codec: Codec, xs: seq<Connection>): (turns: seq<Turn>)
    ensures |turns| == |xs|
  {
    if xs == [] then []
    else
      var front := xs[..|xs| - 1];
      Turns(codec, front) + [TurnOf(OutcomeOf(codec, Connect(codec, front).acknowledged, xs[|xs| - 1]))]
  }

  /** How far into the log the connections that returned have come. */
  function Place(turns: seq<Turn>): nat {
    if turns == [] then 0
    else
      var last := turns[|turns| - 1];
      Place(turns[..|turns| - 1]) + if last.returned then last.count else 0
  }

  ghost predicate InLog(log: seq<Event>, turns: seq<Turn>) {
    turns != [] ==>
      InLog(log, turns[..|turns| - 1]) && Place(turns[..|turns| - 1]) + turns[|turns| - 1].count <= |log|
  }

  /** Every connection hands over the log from the place it starts at. */
  function HandedBy(log: seq<Event>, turns: seq<Turn>): seq<Event>
    requires InLog(log, turns)
  {
    if turns == [] then []
    else
      var q := Place(turns[..|turns| - 1]);
      HandedBy(log, turns[..|turns| - 1]) + log[q..q + turns[|turns| - 1].count]
  }

  /** The session is at place q of the log, and still asks for what follows. */
  ghost predicate AtPlace(log: seq<Event>, s: Session, q: nat) {
    q <= |log| && s.returned == log[..q] && EventsAfter(log, s.acknowledged) == log[q..]
  }

  lemma {:induction false} PlaceMoves(log: seq<Event>, q: nat, next: seq<Event>, rest: seq<Event>)
    requires q <= |log| && log[q..] == next + rest
    ensures q + |next| <= |log| && next == log[q..q + |next|] && rest == log[q + |next|..]
    ensures log[..q] + next == log[..q + |next|]
  {
    assert |log[q..]| == |next| + |rest|;
    assert next == (next + rest)[..|next|] && rest == (next + rest)[|next|..];
  }

  lemma {:induction false} ConnectionMoves(log: seq<Event>, s: Session, q: nat, r: Outcome)
    requires AtPlace(log, s, q)
    requires EventsAfter(log, s.acknowledged) == r.client.delivered + EventsAfter(log, r.client.acknowledged)
    ensures q + |r.client.delivered| <= |log|
    ensures r.client.delivered == log[q..q + |r.client.delivered|]
    ensures AtPlace(log, AfterConnection(s, r), q + if r.Returned? then |r.client.delivered| else 0)
  {
    PlaceMoves(log, q, r.client.delivered, EventsAfter(log, r.client.acknowledged));
  }

  lemma {:induction false} FrontIsPossible(codec: Codec, log: seq<Event>, xs: seq<Connection>)
    requires xs != [] && AllPossible(codec, log, xs)
    ensures AllPossible(codec, log, xs[..|xs| - 1])
    ensures Possible(codec, log, Connect(codec, xs[..|xs| - 1]).acknowledged, xs[|xs| - 1])
  {
    var front := xs[..|xs| - 1];
    forall i | 0 <= i < |front| ensures Possible(codec, log, Connect(codec, front[..i]).acknowledged, front[i]) {
      assert front[..i] == xs[..i] && front[i] == xs[i];
    }
  }

  lemma {:induction false} TurnNext(log: seq<Event>, turns: seq<Turn>, t: Turn)
    requires InLog(log, turns) && Place(turns) + t.count <= |log|
    ensures InLog(log, turns + [t])
    ensures Place(turns + [t]) == Place(turns) + if t.returned then t.count else 0
    ensures HandedBy(log, turns + [t]) == HandedBy(log, turns) + log[Place(turns)..Place(turns) + t.count]
  {
    var more := turns + [t];
    assert more[..|more| - 1] == turns && more[|more| - 1] == t;
  }

  lemma {:induction false} ConnectNext(codec: Codec, front: seq<Connection>, x: Connection, before: Session, r: Outcome)
    requires Connect(codec, front) == before && OutcomeOf(codec, before.acknowledged, x) == r
    ensures Connect(codec, front + [x]) == AfterConnection(before, r)
    ensures Turns(codec, front + [x]) == Turns(codec, front) + [TurnOf(r)]
  {
    var xs := front + [x];
    assert xs[..|xs| - 1] == front && xs[|xs| - 1] == x;
  }

  /** The session is where its turns say. */
  ghost predicate SessionFits(log: seq<Event>, s: Session, turns: seq<Turn>) {
    InLog(log, turns) && AtPlace(log, s, Place(turns)) && s.handed == HandedBy(log, turns)
  }

  lemma {:induction false} SessionNext(log: seq<Event>, s: Session, turns: seq<Turn>, r: Outcome)
    requires SessionFits(log, s, turns)
    requires EventsAfter(log, s.acknowledged) == r.client.delivered + EventsAfter(log, r.client.acknowledged)
    ensures SessionFits(log, AfterConnection(s, r), turns + [TurnOf(r)])
  {
    ConnectionMoves(log, s, Place(turns), r);
    TurnNext(log, turns, TurnOf(r));
  }

  lemma {:induction false} FrontAndLast<T>(xs: seq<T>)
    requires xs != []
    ensures xs == xs[..|xs| - 1] + [xs[|xs| - 1]]
  {
  }

  /** The session after any connections, from their turns alone. */
  lemma {:induction false} SessionIs(codec: Codec, log: seq<Event>, xs: seq<Connection>)
    requires Faithful(codec) && Ascending(log, 0) && AllPossible(codec, log, xs)
    ensures SessionFits(log, Connect(codec, xs), Turns(codec, xs))
  {
    if xs == [] {
      AllAfter(log, 0);
      assert log[..0] == [] && log[0..] == log;
    } else {
      var front, x := xs[..|xs| - 1], xs[|xs| - 1];
      FrontAndLast(xs);
      FrontIsPossible(codec, log, xs);
      SessionIs(codec, log, front);
      var before := Connect(codec, front);
      var r := OutcomeOf(codec, before.acknowledged, x);
      OneConnection(codec, log, before.acknowledged, x);
      ConnectNext(codec, front, x, before, r);
      SessionNext(log, before, Turns(codec, front), r);
    }
  }

  lemma {:induction false} PlaceSplits(log: seq<Event>, s: Session, q: nat)
    requires AtPlace(log, s, q)
    ensures s.returned + EventsAfter(log, s.acknowledged) == log && |s.returned| == q
  {
  }

  /** Over any number of connections, each cut anywhere, against a growing log: the events of
      the connections that returned and what the cursor still asks for are together exactly
      the log. What failed connections handed over is not among them. */
  lemma {:induction false} ReconnectsExactly(codec: Codec, log: seq<Event>, xs: seq<Connection>)
    requires Faithful(codec) && Ascending(log, 0) && AllPossible(codec, log, xs)
    ensures var s := Connect(codec, xs); s.returned + EventsAfter(log, s.acknowledged) == log
  {
    SessionIs(codec, log, xs);
    PlaceSplits(log, Connect(codec, xs), Place(Turns(codec, xs)));
  }

  // ---- no event is skipped ----

  ghost predicate FromLog(log: seq<Event>, handed: seq<Event>, p: nat)
    requires p <= |log|
  {
    forall i :: 0 <= i < |handed| ==> handed[i] in log[..p]
  }

  ghost predicate AllHanded(log: seq<Event>, handed: seq<Event>, p: nat)
    requires p <= |log|
  {
    forall k :: 0 <= k < p ==> log[k] in handed
  }

  ghost predicate EarlierFirst(log: seq<Event>, handed: seq<Event>, p: nat)
    requires p <= |log|
  {
    forall i, k, h :: 0 <= i < |handed| && 0 <= h < k < p && handed[i] == log[k] ==> log[h] in handed[..i]
  }

  /** The first p events of the log, each after all those before it. */
  ghost predicate InOrder(log: seq<Event>, handed: seq<Event>, p: nat) {
    p <= |log| && FromLog(log, handed, p) && AllHanded(log, handed, p) && EarlierFirst(log, handed, p)
  }

  ghost predicate Batch(log: seq<Event>, batch: seq<Event>, q: nat) {
    q + |batch| <= |log| && forall i :: 0 <= i < |batch| ==> batch[i] == log[q + i]
  }

  lemma {:induction false} MoreFromLog(log: seq<Event>, handed: seq<Event>, p: nat, q: nat, batch: seq<Event>, top: nat)
    requires p <= top <= |log| && q + |batch| <= top && FromLog(log, handed, p) && Batch(log, batch, q)
    ensures FromLog(log, handed + batch, top)
  {
    var more := handed + batch;
    forall i | 0 <= i < |more| ensures more[i] in log[..top] {
      if i < |handed| {
        var k :| 0 <= k < p && log[..p][k] == handed[i];
        assert log[..top][k] == more[i];
      } else {
        assert log[..top][q + i - |handed|] == more[i];
      }
    }
  }

  lemma {:induction false} MoreHanded(log: seq<Event>, handed: seq<Event>, p: nat, q: nat, batch: seq<Event>)
    requires p <= |log| && q <= p && AllHanded(log, handed, p) && Batch(log, batch, q)
    ensures AllHanded(log, handed + batch, Max(p, q + |batch|))
  {
    forall k | 0 <= k < Max(p, q + |batch|) ensures log[k] in handed + batch {
      if k >= p { assert batch[k - q] == log[k]; }
    }
  }

  lemma {:induction false} InFront(xs: seq<Event>, more: seq<Event>, i: nat, x: Event)
    requires |xs| <= i <= |xs + more| && x in xs
    ensures x in (xs + more)[..i]
  {
    var g :| 0 <= g < |xs| && xs[g] == x;
    assert (xs + more)[..i][g] == x;
  }

  /** What precedes event k of the log was handed over before position i. */
  lemma {:induction false} EarlierIsHanded(log: seq<Event>, handed: seq<Event>, p: nat, q: nat, batch: seq<Event>,
      i: nat, k: nat, h: nat)
    requires Ascending(log, 0) && InOrder(log, handed, p) && q <= p && Batch(log, batch, q)
    requires i < |handed| + |batch| && h < k < |log| && (handed + batch)[i] == log[k]
    ensures log[h] in (handed + batch)[..i]
  {
    var more := handed + batch;
    if i < |handed| {
      assert handed[i] in log[..p];
      var j :| 0 <= j < p && log[..p][j] == handed[i];
      SamePlace(log, j, k);
      assert more[..i] == handed[..i];
    } else {
      assert more[i] == batch[i - |handed|];
      SamePlace(log, q + i - |handed|, k);
      if h < p {
        InFront(handed, batch, i, log[h]);
      } else {
        assert more[..i][|handed| + h - q] == batch[h - q];
      }
    }
  }

  lemma {:induction false} MoreEarlierFirst(log: seq<Event>, handed: seq<Event>, p: nat, q: nat, batch: seq<Event>,
      top: nat)
    requires Ascending(log, 0) && InOrder(log, handed, p) && q <= p && Batch(log, batch, q) && top <= |log|
    ensures EarlierFirst(log, handed + batch, top)
  {
    var more := handed + batch;
    forall i, k, h | 0 <= i < |more| && 0 <= h < k < top && more[i] == log[k] ensures log[h] in more[..i] {
      EarlierIsHanded(log, handed, p, q, batch, i, k, h);
    }
  }

  lemma {:induction false} MoreInOrder(log: seq<Event>, handed: seq<Event>, p: nat, q: nat, batch: seq<Event>)
    requires Ascending(log, 0) && InOrder(log, handed, p) && q <= p && Batch(log, batch, q)
    ensures InOrder(log, handed + batch, Max(p, q + |batch|))
  {
    var top := Max(p, q + |batch|);
    MoreFromLog(log, handed, p, q, batch, top);
    MoreHanded(log, handed, p, q, batch);
    MoreEarlierFirst(log, handed, p, q, batch, top);
  }

  lemma {:induction false} SamePlace(log: seq<Event>, j: nat, k: nat)
    requires Ascending(log, 0) && j < |log| && k < |log| && log[j] == log[k]
    ensures j == k
  {
  }

  lemma {:induction false} TurnInOrder(log: seq<Event>, handed: seq<Event>, p: nat, q: nat, n: nat)
    requires Ascending(log, 0) && InOrder(log, handed, p) && q <= p && q + n <= |log|
    ensures InOrder(log, handed + log[q..q + n], Max(p, q + n))
  {
    MoreInOrder(log, handed, p, q, log[q..q + n]);
  }

  lemma {:induction false} HandedInOrder(log: seq<Event>, turns: seq<Turn>) returns (p: nat)
    requires Ascending(log, 0) && InLog(log, turns)
    ensures Place(turns) <= p && InOrder(log, HandedBy(log, turns), p)
  {
    if turns == [] {
      p := 0;
    } else {
      var front, last := turns[..|turns| - 1], turns[|turns| - 1];
      var before := HandedInOrder(log, front);
      TurnInOrder(log, HandedBy(log, front), before, Place(front), last.count);
      FrontAndLast(turns);
      TurnNext(log, front, last);
      p := Max(before, Place(front) + last.count);
    }
  }

  ghost predicate NothingSkipped(log: seq<Event>, s: Session) {
    exists p: nat :: |s.returned| <= p && InOrder(log, s.handed, p)
  }

  lemma {:induction false} FitsSkipsNothing(log: seq<Event>, s: Session, turns: seq<Turn>)
    requires Ascending(log, 0) && SessionFits(log, s, turns)
    ensures NothingSkipped(log, s)
  {
    PlaceSplits(log, s, Place(turns));
    var p := HandedInOrder(log, turns);
  }

  /** No event is skipped: what has been handed over is a beginning of the log, at least as
      far as the cursor, and no event was handed over before all that precede it. */
  lemma {:induction false} NeverSkips(codec: Codec, log: seq<Event>, xs: seq<Connection>)
    requires Faithful(codec) && Ascending(log, 0) && AllPossible(codec, log, xs)
    ensures NothingSkipped(log, Connect(codec, xs))
  {
    SessionIs(codec, log, xs);
    FitsSkipsNothing(log, Connect(codec, xs), Turns(codec, xs));
  }

  // ---- when an event is handed over twice ----

  ghost predicate Repeats(handed: seq<Event>) {
    exists i, j :: 0 <= i < j < |handed| && handed[i] == handed[j]
  }

  /** A connection that failed after some event was handed over. */
  predicate Wasted(t: Turn) { !t.returned && t.count > 0 }

  predicate SomeWasted(turns: seq<Turn>) {
    exists i :: 0 <= i < |turns| && Wasted(turns[i])
  }

  /** A connection was wasted, and a later one handed over something. */
  predicate WastedThenHanded(turns: seq<Turn>) {
    exists i, j :: 0 <= i < j < |turns| && Wasted(turns[i]) && turns[j].count > 0
  }

  /** Until then the log is handed over from its beginning, beyond the cursor exactly when
      a connection was wasted. */
  ghost predicate HandedOnce(log: seq<Event>, turns: seq<Turn>, p: nat)
    requires InLog(log, turns)
  {
    && Place(turns) <= p <= |log| && HandedBy(log, turns) == log[..p]
    && (Place(turns) < p <==> SomeWasted(turns))
  }

  lemma {:induction false} MoreWasted(front: seq<Turn>, last: Turn)
    ensures SomeWasted(front + [last]) <==> SomeWasted(front) || Wasted(last)
  {
    var turns := front + [last];
    if SomeWasted(front) {
      var i :| 0 <= i < |front| && Wasted(front[i]);
      assert Wasted(turns[i]);
    }
    assert turns[|front|] == last;
  }

  lemma {:induction false} MoreHandedLater(front: seq<Turn>, last: Turn)
    ensures WastedThenHanded(front + [last]) <==> WastedThenHanded(front) || (SomeWasted(front) && last.count > 0)
  {
    var turns := front + [last];
    if WastedThenHanded(front) {
      var i, j :| 0 <= i < j < |front| && Wasted(front[i]) && front[j].count > 0;
      assert Wasted(turns[i]) && turns[j].count > 0;
    }
    if SomeWasted(front) && last.count > 0 {
      var i :| 0 <= i < |front| && Wasted(front[i]);
      assert Wasted(turns[i]) && turns[|front|].count > 0;
    }
    if WastedThenHanded(turns) {
      var i, j :| 0 <= i < j < |turns| && Wasted(turns[i]) && turns[j].count > 0;
      assert Wasted(front[i]);
    }
  }

  lemma {:induction false} LastTurn(turns: seq<Turn>)
    requires turns != []
    ensures var front, last := turns[..|turns| - 1], turns[|turns| - 1];
            && (SomeWasted(turns) <==> SomeWasted(front) || Wasted(last))
            && (WastedThenHanded(turns) <==> WastedThenHanded(front) || (SomeWasted(front) && last.count > 0))
  {
    var front, last := turns[..|turns| - 1], turns[|turns| - 1];
    FrontAndLast(turns);
    MoreWasted(front, last);
    MoreHandedLater(front, last);
  }

  lemma {:induction false} RepeatsStay(handed: seq<Event>, more: seq<Event>)
    requires Repeats(handed)
    ensures Repeats(handed + more)
  {
    var i, j :| 0 <= i < j < |handed| && handed[i] == handed[j];
    assert (handed + more)[i] == (handed + more)[j];
  }

  /** The turn that hands over the log from q again, after it was handed over up to p. */
  lemma {:induction false} SecondTime(log: seq<Event>, p: nat, q: nat, n: nat)
    requires q < p <= |log| && 0 < n && q + n <= |log|
    ensures Repeats(log[..p] + log[q..q + n])
  {
    var handed := log[..p] + log[q..q + n];
    assert handed[q] == log[q] && handed[p] == log[q];
  }

  lemma {:induction false} StillOnce(log: seq<Event>, turns: seq<Turn>, before: nat)
    requires turns != [] && InLog(log, turns)
    requires HandedOnce(log, turns[..|turns| - 1], before)
    requires SomeWasted(turns[..|turns| - 1]) ==> turns[|turns| - 1].count == 0
    ensures var q, n := Place(turns[..|turns| - 1]), turns[|turns| - 1].count;
            HandedOnce(log, turns, if n > 0 then q + n else before)
  {
    var q, n := Place(turns[..|turns| - 1]), turns[|turns| - 1].count;
    LastTurn(turns);
    if n > 0 {
      assert log[..q] + log[q..q + n] == log[..q + n];
    } else {
      assert log[..before] + log[q..q + n] == log[..before];
    }
  }

  lemma {:induction false} HandedIs(log: seq<Event>, turns: seq<Turn>) returns (p: nat)
    requires InLog(log, turns)
    ensures WastedThenHanded(turns) ==> Repeats(HandedBy(log, turns))
    ensures !WastedThenHanded(turns) ==> HandedOnce(log, turns, p)
  {
    p := 0;
    if turns == [] {
      assert log[..0] == [];
    } else {
      var front, last := turns[..|turns| - 1], turns[|turns| - 1];
      var q, n := Place(front), last.count;
      var before := HandedIs(log, front);
      LastTurn(turns);
      if WastedThenHanded(front) {
        RepeatsStay(HandedBy(log, front), log[q..q + n]);
      } else if SomeWasted(front) && n > 0 {
        SecondTime(log, before, q, n);
      } else {
        p := if n > 0 then q + n else before;
        StillOnce(log, turns, before);
      }
    }
  }

  lemma {:induction false} LogRepeatsNothing(log: seq<Event>, p: nat)
    requires Ascending(log, 0) && p <= |log|
    ensures !Repeats(log[..p])
  {
    forall i, j | 0 <= i < j < p ensures log[..p][i] != log[..p][j] {
      assert log[i].streamSeq < log[j].streamSeq;
    }
  }

  /** An event is handed over twice if and only if a connection failed after it had handed
      over an event, and a later connection hands over any; otherwise the log has been
      handed over from its beginning, once. */
  lemma {:induction false} HandedTwiceExactly(codec: Codec, log: seq<Event>, xs: seq<Connection>)
    requires Faithful(codec) && Ascending(log, 0) && AllPossible(codec, log, xs)
    ensures var handed := Connect(codec, xs).handed;
            && (Repeats(handed) <==> WastedThenHanded(Turns(codec, xs)))
            && (!Repeats(handed) <==> handed <= log)
  {
    SessionIs(codec, log, xs);
    var turns := Turns(codec, xs);
    var p := HandedIs(log, turns);
    if !WastedThenHanded(turns) { LogRepeatsNothing(log, p); }
    if HandedBy(log, turns) <= log {
      PrefixOf(HandedBy(log, turns), log);
      LogRepeatsNothing(log, |HandedBy(log, turns)|);
    }
  }

  lemma {:induction false} PrefixOf(a: seq<Event>, b: seq<Event>)
    requires a <= b
    ensures a == b[..|a|]
  {
  }

  // ---- a retry that hands an event over twice ----

  /** The first connection is cut after n characters of the second frame, the next is not. */
  function CutThenWhole(codec: Codec, log: seq<Event>, n: nat): seq<Connection>
    requires |log| == 2 && n <= |Frame(codec, log[1])|
  {
    [Connection(2, [PrintOne(codec, log[0]), Frame(codec, log[1])[..n]], true),
     Connection(2, [Print(codec, log)], true)]
  }

  lemma {:induction false} CutConnection(codec: Codec, log: seq<Event>, n: nat)
    requires Faithful(codec) && |log| == 2 && Ascending(log, 0) && 0 < n < |Frame(codec, log[1])|
    ensures var x := CutThenWhole(codec, log, n)[0];
            && Concat(x.chunks) <= Print(codec, log)
            && OutcomeOf(codec, 0, x) == Refused(Client(log[0].streamSeq, [log[0]]))
  {
    var x, part := CutThenWhole(codec, log, n)[0], Frame(codec, log[1])[..n];
    assert part <= PrintOne(codec, log[1]) && part != PrintOne(codec, log[1]) by {
      assert part == PrintOne(codec, log[1])[..n];
    }
    TwoChunks(PrintOne(codec, log[0]), part);
    OnePrinted(codec, log[0]);
    assert log[..1] == [log[0]];
    assert Concat(x.chunks) == Print(codec, log[..1]) + part;
    CutStreamExactly(codec, Client(0, []), log, 1, part, true);
    assert [] + log[..1] == [log[0]];
    TwoPrinted(codec, log);
    assert Print(codec, log)[..|Concat(x.chunks)|] == Concat(x.chunks);
  }

  lemma {:induction false} OnePrinted(codec: Codec, e: Event)
    ensures Print(codec, [e]) == PrintOne(codec, e)
  {
    assert [e][1..] == [] && Print(codec, []) == "";
    assert PrintOne(codec, e) + "" == PrintOne(codec, e);
  }

  lemma {:induction false} TwoPrinted(codec: Codec, log: seq<Event>)
    requires |log| == 2
    ensures Print(codec, log) == PrintOne(codec, log[0]) + PrintOne(codec, log[1])
  {
    OnePrinted(codec, log[1]);
    assert log[1..] == [log[1]];
  }

  lemma {:induction false} TwoChunks(a: string, b: string)
    ensures Concat([a, b]) == a + b && Concat([a]) == a
  {
    assert [a, b][1..] == [b] && [b][1..] == [] && [a][1..] == [];
    assert Concat([]) == "" && b + "" == b && a + "" == a;
  }

  lemma {:induction false} WholeConnection(codec: Codec, log: seq<Event>, n: nat)
    requires Faithful(codec) && |log| == 2 && Ascending(log, 0) && 0 < n < |Frame(codec, log[1])|
    ensures var x := CutThenWhole(codec, log, n)[1];
            && Concat(x.chunks) == Print(codec, log)
            && OutcomeOf(codec, 0, x) == Returned(Client(log[1].streamSeq, log))
  {
    var x := CutThenWhole(codec, log, n)[1];
    TwoChunks(Print(codec, log), "");
    RoundTrip(codec, 0, log, x.chunks);
  }

  /** Two events, the stream cut inside the frame of the second and then read again from
      the old cursor: the first is handed over twice. */
  lemma {:induction false} RetryHandsTwice(codec: Codec, log: seq<Event>, n: nat)
    requires Faithful(codec) && |log| == 2 && Ascending(log, 0) && 0 < n < |Frame(codec, log[1])|
    ensures var xs := CutThenWhole(codec, log, n);
            && AllPossible(codec, log, xs)
            && Connect(codec, xs) == Session(log[1].streamSeq, log, [log[0], log[0], log[1]])
  {
    var xs := CutThenWhole(codec, log, n);
    AllAfter(log, 0);
    assert log[..2] == log;
    CutConnection(codec, log, n);
    WholeConnection(codec, log, n);
    assert xs[..0] == [] && xs[..1] == [xs[0]] && xs[..1][..0] == [];
    var first := Session(0, [], [log[0]]);
    assert [] + [log[0]] == [log[0]];
    assert Connect(codec, xs[..1]) == first;
    assert [] + log == log && [log[0]] + log == [log[0], log[0], log[1]];
    assert Connect(codec, xs) == AfterConnection(first, OutcomeOf(codec, 0, xs[1]));
  }
}
