/** The domain event stream: what the server prints, and the client that cuts it into
    frames again from chunks of any size. Decoding of bytes and of event contents is
    left to functions; the framing is exact. */
module EventStream {
  import opened Checked
  import opened Strings

  /** A domain event; only its place in the stream matters here. */
  datatype Event = Event(streamSeq: nat, payload: int)

  type Decoder = string -> Option<Event>

  datatype Client = Client(acknowledged: nat, delivered: seq<Event>)

  // ---- frame boundaries: the leftmost \r?\n\r?\n ----

  /** The length of a boundary at i, zero if there is none. */
  function MatchAt(s: string, i: nat): nat {
    var a := if i < |s| && s[i] == '\r' then i + 1 else i;
    if a < |s| && s[a] == '\n' then
      if a + 1 < |s| && s[a + 1] == '\n' then a + 2 - i
      else if a + 2 < |s| && s[a + 1] == '\r' && s[a + 2] == '\n' then a + 3 - i
      else 0
    else 0
  }

  /** Where the first boundary from i on begins, |s| if there is none. */
  function Boundary(s: string, i: nat): (b: nat)
    requires i <= |s|
    ensures i <= b <= |s|
    ensures forall j :: i <= j < b ==> MatchAt(s, j) == 0
    ensures b < |s| ==> 0 < MatchAt(s, b) <= |s| - b
    decreases |s| - i
  {
    if i == |s| then |s| else if MatchAt(s, i) > 0 then i else Boundary(s, i + 1)
  }

  /** A boundary once seen stays the first whatever follows: what a chunk ends with
      never has to be taken back. */
  lemma {:induction false} BoundaryIsStable(s: string, t: string)
    requires Boundary(s, 0) < |s|
    ensures Boundary(s + t, 0) == Boundary(s, 0)
    ensures MatchAt(s + t, Boundary(s, 0)) == MatchAt(s, Boundary(s, 0))
  {
    var b := Boundary(s, 0);
    MatchIsStable(s, t, b);
    forall j | 0 <= j < b ensures MatchAt(s + t, j) == 0 {
      assert MatchAt(s, j) == 0;
      NoEarlierMatch(s, t, j, b);
    }
    FirstMatch(s + t, b);
  }

  lemma {:induction false} MatchIsStable(s: string, t: string, i: nat)
    requires MatchAt(s, i) > 0
    ensures MatchAt(s + t, i) == MatchAt(s, i)
  {
  }

  lemma {:induction false} NoEarlierMatch(s: string, t: string, j: nat, b: nat)
    requires j < b && MatchAt(s, j) == 0 && MatchAt(s, b) > 0
    ensures MatchAt(s + t, j) == 0
  {
  }

  lemma {:induction false} FirstMatch(s: string, b: nat)
    requires b < |s| && MatchAt(s, b) > 0 && forall j :: 0 <= j < b ==> MatchAt(s, j) == 0
    ensures Boundary(s, 0) == b
  {
    assert MatchAt(s, Boundary(s, 0)) >= 0;
  }

  // ---- lines and fields ----

  /** Lines end at \r?\n. */
  function Lines(s: string): seq<string> {
    var i := FirstIndex(s, '\n');
    if i == |s| then [s]
    else [if i > 0 && s[i - 1] == '\r' then s[..i - 1] else s[..i]] + Lines(s[i + 1..])
  }

  datatype Fields = Fields(event: string, id: Option<string>, data: seq<string>)

  function ReadLine(f: Fields, line: string): Fields {
    if line == "" || line[0] == ':' then f
    else
      var colon := FirstIndex(line, ':');
      var field := line[..colon];
      var raw := if colon == |line| then "" else line[colon + 1..];
      var value := if raw != "" && raw[0] == ' ' then raw[1..] else raw;
      if field == "event" then f.(event := value)
      else if field == "id" then f.(id := Some(value))
      else if field == "data" then f.(data := f.data + [value])
      else f
  }

  function ReadLines(f: Fields, lines: seq<string>): Fields
    decreases |lines|
  {
    if lines == [] then f else ReadLines(ReadLine(f, lines[0]), lines[1..])
  }

  /** 0, or digits not starting with 0. */
  predicate IsDecimal(s: string) {
    && s != "" && (forall i :: 0 <= i < |s| ==> '0' <= s[i] <= '9')
    && (s[0] == '0' ==> s == "0")
  }

  function DigitsValue(s: string): nat
    requires forall i :: 0 <= i < |s| ==> '0' <= s[i] <= '9'
  {
    if s == "" then 0 else 10 * DigitsValue(s[..|s| - 1]) + (s[|s| - 1] as int - '0' as int)
  }

  const NO_FIELDS := Fields("message", None, [])

  const EVENT_TYPE := "domain.event"

  /** One frame: refused unless it is a domain event whose id is its own sequence
      number and advances the stream. */
  function Dispatch(decode: Decoder, c: Client, frame: string): Option<Client> {
    var f := ReadLines(NO_FIELDS, Lines(frame));
    if f.event != EVENT_TYPE || f.id.None? || !IsDecimal(f.id.value) then None
    else
      match decode(Join(f.data, "\n"))
      case None => None
      case Some(e) =>
        var seqNo := DigitsValue(f.id.value);
        if seqNo != e.streamSeq || seqNo <= c.acknowledged then None
        else Some(Client(seqNo, c.delivered + [e]))
  }

  /** What is done with a frame; it may refuse it. */
  type Dispatcher = (Client, string) -> Option<Client>

  function DispatchWith(decode: Decoder): Dispatcher {
    (c: Client, frame: string) => Dispatch(decode, c, frame)
  }

  /** What trim removes. */
  predicate IsSpace(c: char) {
    || c == ' ' || '\t' <= c <= '\r' || c == '\U{A0}' || c == '\U{1680}' || '\U{2000}' <= c <= '\U{200A}'
    || c == '\U{2028}' || c == '\U{2029}' || c == '\U{202F}' || c == '\U{205F}' || c == '\U{3000}' || c == '\U{FEFF}'
  }

  predicate Blank(s: string) {
    forall i :: 0 <= i < |s| ==> IsSpace(s[i])
  }

  /** How a read ends: it returns, or it fails, at a frame it refuses or with its connection.
      Either way the client holds the events that were handed over. */
  datatype Outcome = Returned(client: Client) | Refused(client: Client)

  /** The whole text at once, of a stream that ended or whose connection failed after it.
      The framing does not depend on what is done with frames. */
  function Parse(dispatch: Dispatcher, c: Client, text: string, ended: bool): Outcome
    decreases |text|
  {
    var b := Boundary(text, 0);
    if b == |text| then ParseLast(dispatch, c, text, ended)
    else
      match dispatch(c, text[..b])
      case None => Refused(c)
      case Some(next) => Parse(dispatch, next, text[b + MatchAt(text, b)..], ended)
  }

  /** What is left at the end. */
  function ParseLast(dispatch: Dispatcher, c: Client, frame: string, ended: bool): Outcome {
    if !ended then Refused(c)
    else if Blank(frame) then Returned(c)
    else
      match dispatch(c, frame)
      case None => Refused(c)
      case Some(next) => Returned(next)
  }

  function Concat(chunks: seq<string>): string {
    if chunks == [] then "" else chunks[0] + Concat(chunks[1..])
  }

  /** What follows the first frame of a buffer and its boundary. */
  function AfterFrame(buffer: string): (left: string)
    requires Boundary(buffer, 0) < |buffer|
    ensures |left| < |buffer|
  {
    var b := Boundary(buffer, 0);
    buffer[b + MatchAt(buffer, b)..]
  }

  /** The first frame of a buffer is the first frame of everything that may follow. */
  lemma {:induction false} ParseAhead(dispatch: Dispatcher, c: Client, buffer: string, rest: string, ended: bool)
    requires Boundary(buffer, 0) < |buffer|
    ensures var b := Boundary(buffer, 0);
            && Parse(dispatch, c, buffer + rest, ended) ==
               match dispatch(c, buffer[..b])
               case None => Refused(c)
               case Some(next) => Parse(dispatch, next, AfterFrame(buffer) + rest, ended)
  {
    var b := Boundary(buffer, 0);
    var n := b + MatchAt(buffer, b);
    BoundaryIsStable(buffer, rest);
    CutsAlike(buffer, rest, b, n);
    ParseFirst(dispatch, c, buffer + rest, b, n, buffer[..b], buffer[n..] + rest, ended);
  }

  lemma {:induction false} CutsAlike(buffer: string, rest: string, b: nat, n: nat)
    requires b <= n <= |buffer|
    ensures (buffer + rest)[..b] == buffer[..b]
    ensures (buffer + rest)[n..] == buffer[n..] + rest
  {
  }

  lemma {:induction false} ParseFirst(dispatch: Dispatcher, c: Client, text: string, b: nat, n: nat, frame: string,
      left: string, ended: bool)
    requires b == Boundary(text, 0) < |text| && n == b + MatchAt(text, b)
    requires frame == text[..b] && left == text[n..]
    ensures Parse(dispatch, c, text, ended) ==
            match dispatch(c, frame)
            case None => Refused(c)
            case Some(next) => Parse(dispatch, next, left, ended)
  {
  }

  lemma {:induction false} DrainStep(dispatch: Dispatcher, c: Client, buffer: string, rest: string, ended: bool,
      goal: Outcome)
    requires Boundary(buffer, 0) < |buffer| && goal == Parse(dispatch, c, buffer + rest, ended)
    ensures var b := Boundary(buffer, 0);
            match dispatch(c, buffer[..b])
            case None => goal == Refused(c)
            case Some(next) => goal == Parse(dispatch, next, AfterFrame(buffer) + rest, ended)
  {
    ParseAhead(dispatch, c, buffer, rest, ended);
  }

  /** The inner loop: every complete frame of the buffer is dispatched. */
  method Drain(dispatch: Dispatcher, c: Client, buffer: string, ghost rest: string, ghost ended: bool,
      ghost goal: Outcome)
    returns (r: Outcome, left: string)
    requires Parse(dispatch, c, buffer + rest, ended) == goal
    ensures Boundary(left, 0) == |left|
    ensures goal == if r.Refused? then r else Parse(dispatch, r.client, left + rest, ended)
  {
    var client := c;
    left := buffer;
    while Boundary(left, 0) < |left|
      invariant goal == Parse(dispatch, client, left + rest, ended)
      decreases |left|
    {
      DrainStep(dispatch, client, left, rest, ended, goal);
      var next := dispatch(client, left[..Boundary(left, 0)]);
      if next.None? { return Refused(client), ""; }
      client := next.value;
      left := AfterFrame(left);
    }
    return Returned(client), left;
  }

  /** The client: whatever the chunks, and however they end, it does what parsing their
      concatenation does. */
  method Read(dispatch: Dispatcher, lastAcknowledged: nat, chunks: seq<string>, ended: bool) returns (r: Outcome)
    ensures r == Parse(dispatch, Client(lastAcknowledged, []), Concat(chunks), ended)
  {
    var c := Client(lastAcknowledged, []);
    var buffer := "";
    ghost var goal := Parse(dispatch, c, Concat(chunks), ended);
    assert buffer + Concat(chunks[0..]) == Concat(chunks) by { assert chunks[0..] == chunks; }
    for i := 0 to |chunks|
      invariant Boundary(buffer, 0) == |buffer|
      invariant goal == Parse(dispatch, c, buffer + Concat(chunks[i..]), ended)
    {
      ghost var rest := Concat(chunks[i + 1..]);
      NextChunk(buffer, chunks, i);
      var next, left := Drain(dispatch, c, buffer + chunks[i], rest, ended, goal);
      if next.Refused? { return next; }
      c, buffer := next.client, left;
    }
    assert buffer + Concat(chunks[|chunks|..]) == buffer;
    if !ended { return Refused(c); }
    if Blank(buffer) { return Returned(c); }
    var last := dispatch(c, buffer);
    return if last.None? then Refused(c) else Returned(last.value);
  }

  lemma {:induction false} NextChunk(buffer: string, chunks: seq<string>, i: nat)
    requires i < |chunks|
    ensures buffer + Concat(chunks[i..]) == (buffer + chunks[i]) + Concat(chunks[i + 1..])
  {
    assert chunks[i..][1..] == chunks[i + 1..];
    assert buffer + (chunks[i] + Concat(chunks[i + 1..])) == (buffer + chunks[i]) + Concat(chunks[i + 1..]);
  }
}
