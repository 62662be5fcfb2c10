/**
 The server-sent event stream: the frames the HTTP handler writes, the client's
 parsing rules (WHATWG HTML Living Standard, section 9.2.6), and what the client
 makes of a stream cut at any byte. Texts are sequences of byte-valued characters.
 */
module EventStream {
  import opened Cursors
  import opened Brokers

  // ----- The client

  datatype Message = Message(kind: string, data: string, lastEventId: string)

  /** `idBuffer` is the last event ID buffer, `lastEventId` the string sent when reconnecting. */
  datatype Parser = Parser(
    line: string,
    afterCR: bool,
    data: string,
    kind: string,
    idBuffer: string,
    lastEventId: string,
    out: seq<Message>)

  function Opened(idBuffer: string, lastEventId: string): Parser {
    Parser("", false, "", "", idBuffer, lastEventId, [])
  }

  function Field(p: Parser, name: string, value: string): Parser {
    if name == "event" then p.(kind := value)
    else if name == "data" then p.(data := p.data + value + "\n")
    else if name == "id" && '\0' !in value then p.(idBuffer := value)
    else p
  }

  function Dispatch(p: Parser): Parser {
    var q := p.(lastEventId := p.idBuffer, data := "", kind := "");
    if p.data == "" then q
    else
      var data := if p.data[|p.data| - 1] == '\n' then p.data[..|p.data| - 1] else p.data;
      q.(out := p.out + [Message(if p.kind == "" then "message" else p.kind, data, p.idBuffer)])
  }

  function EndLine(p: Parser): Parser {
    var q := p.(line := "");
    if p.line == "" then Dispatch(q)
    else if p.line[0] == ':' then q
    else
      var (name, value, _) := Cut(p.line, ':');
      Field(q, name, if value != "" && value[0] == ' ' then value[1..] else value)
  }

  /** Lines end with LF, CR or CRLF. */
  function Feed(p: Parser, c: char): Parser {
    if c == '\n' then if p.afterCR then p.(afterCR := false) else EndLine(p)
    else if c == '\r' then EndLine(p.(afterCR := false)).(afterCR := true)
    else p.(line := p.line + [c], afterCR := false)
  }

  function Parse(p: Parser, text: string): Parser
    decreases |text|
  {
    if text == "" then p else Parse(Feed(p, text[0]), text[1..])
  }

  // ----- The server

  datatype Chunk = Connected | Heartbeat | Item(event: LifecycleEvent)

  /** How an event is marshalled; the proofs ask only that the result holds no raw line break. */
  type Encoder = LifecycleEvent -> string

  function Kind(event: LifecycleEvent): string {
    if event.streamReset then "stream.reset" else "vm.lifecycle"
  }

  function Row(name: string, value: string): string {
    name + ": " + value
  }

  function Frame(chunk: Chunk, json: Encoder): string {
    match chunk
    case Connected => ": connected\n\n"
    case Heartbeat => ": heartbeat\n\n"
    case Item(e) =>
      Row("id", e.cursor) + "\n" + (Row("event", Kind(e)) + "\n" + (Row("data", json(e)) + "\n" + "\n"))
  }

  function Wire(chunks: seq<Chunk>, json: Encoder): string {
    if chunks == [] then "" else Frame(chunks[0], json) + Wire(chunks[1..], json)
  }

  predicate Unbroken(s: string) {
    '\n' !in s && '\r' !in s
  }

  ghost predicate CleanEncoder(json: Encoder) {
    forall e: LifecycleEvent :: Unbroken(json(e))
  }

  predicate CleanChunk(chunk: Chunk) {
    chunk.Item? ==> Unbroken(chunk.event.cursor) && '\0' !in chunk.event.cursor
  }

  predicate CleanChunks(chunks: seq<Chunk>) {
    forall i | 0 <= i < |chunks| :: CleanChunk(chunks[i])
  }

  // ----- What a client should see

  function ItemMessage(e: LifecycleEvent, json: Encoder): Message {
    Message(Kind(e), json(e), e.cursor)
  }

  function Items(chunks: seq<Chunk>): seq<LifecycleEvent> {
    if chunks == [] then []
    else (if chunks[0].Item? then [chunks[0].event] else []) + Items(chunks[1..])
  }

  function Messages(items: seq<LifecycleEvent>, json: Encoder): seq<Message> {
    if items == [] then [] else [ItemMessage(items[0], json)] + Messages(items[1..], json)
  }

  /** How many whole frames the first `n` bytes hold. */
  function WholeFrames(chunks: seq<Chunk>, n: nat, json: Encoder): (m: nat)
    ensures m <= |chunks|
  {
    if chunks == [] || n < |Frame(chunks[0], json)| then 0
    else 1 + WholeFrames(chunks[1..], n - |Frame(chunks[0], json)|, json)
  }

  /** The last event ID after whole frames: the last item's cursor, or the initial buffer if none came. */
  function FinalId(chunks: seq<Chunk>, idBuffer: string, lastEventId: string): string {
    var items := Items(chunks);
    if chunks == [] then lastEventId
    else if items == [] then idBuffer
    else items[|items| - 1].cursor
  }

  // ----- Proof: line by line, then frame by frame

  lemma {:induction false} ParseConcat(p: Parser, a: string, b: string)
    ensures Parse(p, a + b) == Parse(Parse(p, a), b)
    decreases |a|
  {
    if a == "" {
      assert a + b == b;
    } else {
      assert (a + b)[1..] == a[1..] + b;
      ParseConcat(Feed(p, a[0]), a[1..], b);
    }
  }

  lemma {:induction false} Absorb(p: Parser, text: string)
    requires Unbroken(text) && !p.afterCR
    ensures Parse(p, text) == p.(line := p.line + text)
    decreases |text|
  {
    if text == "" {
      assert p.line + text == p.line;
    } else {
      assert text[0] in text;
      Absorb(Feed(p, text[0]), text[1..]);
      assert p.line + [text[0]] + text[1..] == p.line + text;
    }
  }

  lemma WholeLine(p: Parser, line: string)
    requires Unbroken(line) && !p.afterCR && p.line == ""
    ensures Parse(p, line + "\n") == EndLine(p.(line := line))
  {
    ParseConcat(p, line, "\n");
    Absorb(p, line);
    assert p.line + line == line;
    var q := p.(line := line);
    assert Parse(q, "\n") == Parse(Feed(q, '\n'), "");
  }

  predicate Silent(lines: seq<string>) {
    forall i | 0 <= i < |lines| :: lines[i] != "" && Unbroken(lines[i])
  }

  function Text(lines: seq<string>): string {
    if lines == [] then "" else lines[0] + "\n" + Text(lines[1..])
  }

  /** Without a blank line nothing is dispatched, wherever the text is cut. */
  lemma {:induction false} NoBlankLine(p: Parser, lines: seq<string>, n: nat)
    requires Silent(lines) && !p.afterCR && p.line == "" && n <= |Text(lines)|
    ensures var q := Parse(p, Text(lines)[..n]);
            q.out == p.out && q.lastEventId == p.lastEventId
    decreases |lines|
  {
    if lines != [] {
      var line, rest := lines[0], Text(lines[1..]);
      var k := |line| + 1;
      if n < k {
        assert Text(lines)[..n] == line[..n];
        Absorb(p, line[..n]);
      } else {
        assert Text(lines)[..n] == (line + "\n") + rest[..n - k];
        ParseConcat(p, line + "\n", rest[..n - k]);
        WholeLine(p, line);
        NoBlankLine(EndLine(p.(line := line)), lines[1..], n - k);
      }
    }
  }

  function Lines(chunk: Chunk, json: Encoder): seq<string> {
    match chunk
    case Connected => [": connected"]
    case Heartbeat => [": heartbeat"]
    case Item(e) => [Row("id", e.cursor), Row("event", Kind(e)), Row("data", json(e))]
  }

  lemma RowUnbroken(name: string, value: string)
    requires Unbroken(name) && Unbroken(value)
    ensures Row(name, value) != "" && Unbroken(Row(name, value))
  {
  }

  lemma TextOfOne(a: string)
    ensures Text([a]) == a + "\n"
  {
    assert [a][1..] == [];
  }

  lemma TextOfThree(a: string, b: string, c: string)
    ensures a + "\n" + (b + "\n" + (c + "\n" + "\n")) == Text([a, b, c]) + "\n"
  {
    assert [a, b, c][1..] == [b, c] && [b, c][1..] == [c];
    TextOfOne(c);
    assert Text([a, b, c]) == a + "\n" + (b + "\n" + (c + "\n"));
  }

  lemma FrameIsLines(chunk: Chunk, json: Encoder)
    requires CleanEncoder(json) && CleanChunk(chunk)
    ensures Frame(chunk, json) == Text(Lines(chunk, json)) + "\n"
    ensures Silent(Lines(chunk, json))
  {
    match chunk
    case Connected =>
      TextOfOne(": connected");
    case Heartbeat =>
      TextOfOne(": heartbeat");
    case Item(e) =>
      var a, b, c := Row("id", e.cursor), Row("event", Kind(e)), Row("data", json(e));
      TextOfThree(a, b, c);
      assert Unbroken(json(e));
      RowUnbroken("id", e.cursor);
      RowUnbroken("event", Kind(e));
      RowUnbroken("data", json(e));
  }

  predicate Rested(p: Parser) {
    p.line == "" && !p.afterCR && p.data == "" && p.kind == ""
  }

  /** The effect of one whole frame on a rested parser. */
  function Digest(p: Parser, chunk: Chunk, json: Encoder): Parser {
    match chunk
    case Connected | Heartbeat => p.(lastEventId := p.idBuffer)
    case Item(e) => p.(idBuffer := e.cursor, lastEventId := e.cursor, out := p.out + [ItemMessage(e, json)])
  }

  lemma NamedField(p: Parser, name: string, value: string)
    requires Unbroken(name) && Unbroken(value) && ':' !in name && name != ""
    requires p.line == "" && !p.afterCR
    ensures Parse(p, Row(name, value) + "\n") == Field(p, name, value)
  {
    var line := Row(name, value);
    assert line == name + [':'] + (" " + value);
    CutAt(name, ':', " " + value);
    assert line[0] == name[0] && name[0] in name;
    RowUnbroken(name, value);
    WholeLine(p, line);
    assert (" " + value)[1..] == value;
  }

  lemma BlankLine(p: Parser)
    requires p.line == "" && !p.afterCR
    ensures Parse(p, "\n") == Dispatch(p)
  {
    assert Parse(p, "\n") == Parse(Feed(p, '\n'), "");
  }

  lemma KindAndData(p: Parser, kind: string, data: string)
    requires Unbroken(kind) && kind != "" && Unbroken(data) && Rested(p)
    ensures Parse(p, Row("event", kind) + "\n" + (Row("data", data) + "\n" + "\n")) ==
            p.(lastEventId := p.idBuffer, out := p.out + [Message(kind, data, p.idBuffer)])
  {
    ParseConcat(p, Row("event", kind) + "\n", Row("data", data) + "\n" + "\n");
    NamedField(p, "event", kind);
    var p1 := p.(kind := kind);
    ParseConcat(p1, Row("data", data) + "\n", "\n");
    NamedField(p1, "data", data);
    var p2 := p1.(data := data + "\n");
    assert "" + data + "\n" == data + "\n";
    assert p2.data[..|p2.data| - 1] == data;
    BlankLine(p2);
  }

  lemma WholeItem(p: Parser, id: string, kind: string, data: string)
    requires Unbroken(id) && '\0' !in id && Unbroken(kind) && kind != "" && Unbroken(data) && Rested(p)
    ensures Parse(p, Row("id", id) + "\n" + (Row("event", kind) + "\n" + (Row("data", data) + "\n" + "\n"))) ==
            p.(idBuffer := id, lastEventId := id, out := p.out + [Message(kind, data, id)])
  {
    var rest := Row("event", kind) + "\n" + (Row("data", data) + "\n" + "\n");
    ParseConcat(p, Row("id", id) + "\n", rest);
    NamedField(p, "id", id);
    KindAndData(p.(idBuffer := id), kind, data);
  }

  lemma Comment(p: Parser, line: string)
    requires Rested(p) && Unbroken(line) && line != "" && line[0] == ':'
    ensures Parse(p, line + "\n" + "\n") == p.(lastEventId := p.idBuffer)
  {
    ParseConcat(p, line + "\n", "\n");
    WholeLine(p, line);
    BlankLine(p);
  }

  lemma WholeFrame(p: Parser, chunk: Chunk, json: Encoder)
    requires CleanEncoder(json) && CleanChunk(chunk) && Rested(p)
    ensures Parse(p, Frame(chunk, json)) == Digest(p, chunk, json)
  {
    match chunk
    case Connected =>
      assert Frame(chunk, json) == ": connected" + "\n" + "\n";
      Comment(p, ": connected");
    case Heartbeat =>
      assert Frame(chunk, json) == ": heartbeat" + "\n" + "\n";
      Comment(p, ": heartbeat");
    case Item(e) =>
      assert Unbroken(json(e));
      WholeItem(p, e.cursor, Kind(e), json(e));
  }

  lemma PartFrame(p: Parser, chunk: Chunk, n: nat, json: Encoder)
    requires CleanEncoder(json) && CleanChunk(chunk) && Rested(p)
    requires n < |Frame(chunk, json)|
    ensures var q := Parse(p, Frame(chunk, json)[..n]);
            q.out == p.out && q.lastEventId == p.lastEventId
  {
    FrameIsLines(chunk, json);
    assert Frame(chunk, json)[..n] == Text(Lines(chunk, json))[..n];
    NoBlankLine(p, Lines(chunk, json), n);
  }

  lemma DigestThen(p: Parser, chunk: Chunk, rest: seq<Chunk>, json: Encoder)
    ensures var p', all := Digest(p, chunk, json), [chunk] + rest;
            && p'.out + Messages(Items(rest), json) == p.out + Messages(Items(all), json)
            && FinalId(rest, p'.idBuffer, p'.lastEventId) == FinalId(all, p.idBuffer, p.lastEventId)
  {
    var all := [chunk] + rest;
    assert all[1..] == rest;
    if chunk.Item? {
      assert Items(all) == [chunk.event] + Items(rest);
      assert Items(all)[1..] == Items(rest);
      assert Messages(Items(all), json) == [ItemMessage(chunk.event, json)] + Messages(Items(rest), json);
    } else {
      assert Items(all) == Items(rest);
    }
  }

  /** From `p` on, parser `q` has seen exactly the frames `whole`. */
  ghost predicate HasSeen(q: Parser, p: Parser, whole: seq<Chunk>, json: Encoder) {
    && q.out == p.out + Messages(Items(whole), json)
    && q.lastEventId == FinalId(whole, p.idBuffer, p.lastEventId)
  }

  lemma SeenNone(q: Parser, p: Parser, json: Encoder)
    requires q.out == p.out && q.lastEventId == p.lastEventId
    ensures HasSeen(q, p, [], json)
  {
    assert p.out + [] == p.out;
  }

  lemma SeenOneMore(q: Parser, p: Parser, chunk: Chunk, rest: seq<Chunk>, json: Encoder)
    requires HasSeen(q, Digest(p, chunk, json), rest, json)
    ensures HasSeen(q, p, [chunk] + rest, json)
  {
    DigestThen(p, chunk, rest, json);
  }

  lemma CutInside(p: Parser, chunks: seq<Chunk>, n: nat, json: Encoder)
    requires CleanEncoder(json) && chunks != [] && CleanChunk(chunks[0]) && Rested(p)
    requires n < |Frame(chunks[0], json)| && n <= |Wire(chunks, json)|
    ensures HasSeen(Parse(p, Wire(chunks, json)[..n]), p, [], json)
  {
    assert Wire(chunks, json)[..n] == Frame(chunks[0], json)[..n];
    PartFrame(p, chunks[0], n, json);
    SeenNone(Parse(p, Wire(chunks, json)[..n]), p, json);
  }

  lemma ParseBeyond(p: Parser, chunks: seq<Chunk>, n: nat, json: Encoder)
    requires CleanEncoder(json) && chunks != [] && CleanChunk(chunks[0]) && Rested(p)
    requires |Frame(chunks[0], json)| <= n <= |Wire(chunks, json)|
    ensures Parse(p, Wire(chunks, json)[..n]) ==
            Parse(Digest(p, chunks[0], json), Wire(chunks[1..], json)[..n - |Frame(chunks[0], json)|])
  {
    var frame, tail := Frame(chunks[0], json), Wire(chunks[1..], json);
    var k := n - |frame|;
    assert Wire(chunks, json) == frame + tail;
    assert (frame + tail)[..n] == frame + tail[..k];
    ParseConcat(p, frame, tail[..k]);
    WholeFrame(p, chunks[0], json);
  }

  lemma FramesBeyond(chunks: seq<Chunk>, n: nat, json: Encoder)
    requires chunks != [] && |Frame(chunks[0], json)| <= n
    ensures chunks[..WholeFrames(chunks, n, json)] ==
            [chunks[0]] + chunks[1..][..WholeFrames(chunks[1..], n - |Frame(chunks[0], json)|, json)]
  {
    var m := WholeFrames(chunks[1..], n - |Frame(chunks[0], json)|, json);
    assert WholeFrames(chunks, n, json) == 1 + m;
    assert chunks[..1 + m] == [chunks[0]] + chunks[1..][..m];
  }

  lemma {:induction false} CutFrom(p: Parser, chunks: seq<Chunk>, n: nat, json: Encoder)
    requires CleanEncoder(json) && CleanChunks(chunks) && Rested(p)
    requires n <= |Wire(chunks, json)|
    ensures HasSeen(Parse(p, Wire(chunks, json)[..n]), p, chunks[..WholeFrames(chunks, n, json)], json)
    decreases |chunks|
  {
    if chunks == [] {
      SeenNone(p, p, json);
    } else if n < |Frame(chunks[0], json)| {
      CutInside(p, chunks, n, json);
      assert chunks[..0] == [];
    } else {
      var rest, k := chunks[1..], n - |Frame(chunks[0], json)|;
      CutFrom(Digest(p, chunks[0], json), rest, k, json);
      ParseBeyond(p, chunks, n, json);
      SeenOneMore(Parse(p, Wire(chunks, json)[..n]), p, chunks[0], rest[..WholeFrames(rest, k, json)], json);
      FramesBeyond(chunks, n, json);
    }
  }

  /**
   A stream cut after any number of bytes: the client dispatches exactly the items whose
   frames came whole, each with its own type, data and cursor, and its last event ID is the
   cursor of the last of them. When only comments came whole, it is the buffer the
   connection started with.
   */
  lemma CutAnywhere(chunks: seq<Chunk>, n: nat, idBuffer: string, lastEventId: string, json: Encoder)
    requires CleanEncoder(json) && CleanChunks(chunks) && n <= |Wire(chunks, json)|
    ensures var q := Parse(Opened(idBuffer, lastEventId), Wire(chunks, json)[..n]);
            var whole := chunks[..WholeFrames(chunks, n, json)];
            && q.out == Messages(Items(whole), json)
            && q.lastEventId == FinalId(whole, idBuffer, lastEventId)
  {
    CutFrom(Opened(idBuffer, lastEventId), chunks, n, json);
  }
}
