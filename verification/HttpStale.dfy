/** What a packet that is refused for its size leaves to the next request, when it came in the middle of a body. */
module HttpStale {
  import opened HttpMessage
  import opened HttpScan
  import opened HttpBody
  import opened HttpChunkedWriter
  import opened HttpConnection
  import opened HttpHead
  import opened HttpParserSpec
  import opened HttpSession

  // ---------------------------------------------------------------------------------------------
  // The byte counter
  // ---------------------------------------------------------------------------------------------

  /** A request with a Content-Length of `n`, read by a parser that believes it has read `c` bytes already. */
  lemma StaleLength(rules: Rules, maxSize: nat, head: string, h: Parser, n: u64, c: nat, d: string)
    requires Head(rules, head, h) && AwaitsLength(rules, h, n) && |head + d| <= maxSize
    ensures var t := Input(rules, maxSize, Counted(c, NoChunk), head + d);
            var need := StillToRead(n, c);
            if |d| >= need then t == Turn(FRESH, Handle(h.message.(body := d[..need])))
            else t.reply.Silent? && |t.parser.bytes| == |head + d| && ResetOf(t.parser) == Counted((c + |d|) % U64, NoChunk)
  {
    HeadBlank(rules, head, h);
    BehindHead(rules, head, h, d, c, NoChunk);
    var s := h.(bytes := head + d, bytesRead := c, chunk := NoChunk);
    var need := StillToRead(n, c);
    assert Feed(Counted(c, NoChunk), head + d).bytes == head + d;
    assert BodyOf(s) == Body(|head|, "", c, NoChunk);
    LengthBehind(head, d, c, NoChunk, n);
  }

  lemma LengthBehind(head: string, d: string, c: nat, chunk: Chunk, n: u64)
    ensures var r := ByLength(head + d, Body(|head|, "", c, chunk), n);
            var need := StillToRead(n, c);
            if |d| >= need then r.outcome.Done? && r.body.text == d[..need] && r.body.bytesRead == 0 && r.body.chunk == chunk
            else r.outcome.More? && r.body.bytesRead == (c + |d|) % U64 && r.body.chunk == chunk
  {
    var b, need := head + d, StillToRead(n, c);
    if |d| >= need {
      assert "" + b[|head|..|head| + need] == d[..need];
    }
  }

  /** Part of a body, a packet that is too large, and another request: its body comes out cut at the end by as much as
      the first had brought, or is waited for in vain when it is shorter than that. */
  lemma StaleLengthRun(rules: Rules, maxSize: nat, head: string, h: Parser, n: u64, part: string, large: string,
                       head2: string, h2: Parser, n2: u64, body: string)
    requires Head(rules, head, h) && AwaitsLength(rules, h, n) && |part| < n
    requires |head + part| <= maxSize < |head + part| + |large|
    requires Head(rules, head2, h2) && AwaitsLength(rules, h2, n2) && |body| == n2 && |head2 + body| <= maxSize
    ensures Serve(rules, maxSize, FRESH, [head + part, large, head2 + body]).replies ==
            [Silent, TooLarge, if |part| <= n2 then Handle(h2.message.(body := body[..n2 - |part|])) else Silent]
  {
    hide Head, Parse, Headers, RequestLine;
    assert Counted(0, NoChunk) == FRESH;
    StaleLength(rules, maxSize, head, h, n, 0, part);
    var x := Input(rules, maxSize, FRESH, head + part);
    assert Input(rules, maxSize, x.parser, large) == Turn(Counted(|part|, NoChunk), TooLarge);
    StaleLength(rules, maxSize, head2, h2, n2, |part|, body);
    ThreePackets(rules, maxSize, FRESH, head + part, large, head2 + body);
  }

  /** One byte of a first body, a large packet, and a second body of two bytes, of which one is handled. */
  lemma BodyCutShort(rules: Rules, maxSize: nat, large: string) returns (h: Parser)
    requires KnowsLength(rules, "2", 2)
    requires var head := OneHeader("Content-Length", "2"); |head| + 2 <= maxSize < |head| + 1 + |large|
    ensures var head := OneHeader("Content-Length", "2");
            && Head(rules, head, h)
            && Serve(rules, maxSize, FRESH, [head + "a", large, head + "bc"]).replies ==
               [Silent, TooLarge, Handle(h.message.(body := "b"))]
  {
    hide Head, OneHeader, Serve;
    var head := OneHeader("Content-Length", "2");
    h := LengthHead(rules, "2", 2);
    StaleLengthRun(rules, maxSize, head, h, 2, "a", large, head, h, 2, "bc");
    assert "bc"[..1] == "b";
  }

  // ---------------------------------------------------------------------------------------------
  // The chunk counters
  // ---------------------------------------------------------------------------------------------

  /** A Content-Length request does not look at a chunk that was left over, and leaves it as it is. */
  lemma LengthKeepsChunk(rules: Rules, maxSize: nat, head: string, h: Parser, n: u64, chunk: Chunk, d: string)
    requires Head(rules, head, h) && AwaitsLength(rules, h, n) && n <= |d| && |head + d| <= maxSize
    ensures Input(rules, maxSize, Counted(0, chunk), head + d) == Turn(Counted(0, chunk), Handle(h.message.(body := d[..n])))
  {
    hide Headers, RequestLine, ByLength;
    HeadBlank(rules, head, h);
    BehindHead(rules, head, h, d, 0, chunk);
    assert Feed(Counted(0, chunk), head + d).bytes == head + d;
    var s := h.(bytes := head + d, bytesRead := 0, chunk := chunk);
    assert BodyOf(s) == Body(|head|, "", 0, chunk);
    LengthBehind(head, d, 0, chunk, n);
  }

  /** The reader of the next chunked request, when a chunk of `size` bytes was left over with `already` of them read. */
  function StaleReader(head: string, d: string, size: nat, already: nat): Body
    requires already <= size && size - already <= |d|
  {
    Body(|head| + (size - already) + 2, d[..size - already], 0, NoChunk)
  }

  /** What becomes of the chunked body `d` behind `head` on a parser that has such a chunk left over: the bytes still
      missing are taken from the front of `d`, its size lines included, two more are skipped, and the reader goes on there. */
  function StaleReply(rules: Rules, head: string, m: Message, d: string, size: nat, already: nat): Reply {
    if |d| + already < size + 2 then Silent
    else if size < already then Refuse(AppendOverflow)
    else ReplyTo(Onward(rules, head + d, StaleReader(head, d, size, already)), m)
  }

  /** What `onInput` replies when the body machine has stopped. */
  function ReplyTo(r: BodyResult, m: Message): Reply {
    match r.outcome
    case More => Silent
    case Done => Handle(m.(body := r.body.text))
    case Error(e) => Refuse(e)
  }

  lemma ChunkBehind(rules: Rules, head: string, m: Message, d: string, size: nat, already: nat)
    requires 0 < size <= rules.maxReserve && already <= size + 1
    ensures ReplyTo(Chunks(rules, head + d, Body(|head|, "", 0, Chunk(size, already))), m) ==
            StaleReply(rules, head, m, d, size, already)
  {
    if already <= size && size + 2 <= |d| + already {
      assert "" + (head + d)[|head|..|head| + (size - already)] == d[..size - already];
    }
  }

  lemma StaleChunk(rules: Rules, maxSize: nat, head: string, h: Parser, size: nat, already: nat, d: string)
    requires Head(rules, head, h) && AwaitsChunks(rules, h) && 0 < size <= rules.maxReserve && already <= size + 1
    requires |head + d| <= maxSize
    ensures Input(rules, maxSize, Counted(0, Chunk(size, already)), head + d).reply ==
            StaleReply(rules, head, h.message, d, size, already)
  {
    hide Head, Headers, RequestLine, Chunks, StaleReply;
    HeadBlank(rules, head, h);
    BehindHead(rules, head, h, d, 0, Chunk(size, already));
    assert Feed(Counted(0, Chunk(size, already)), head + d).bytes == head + d;
    var s := h.(bytes := head + d, bytesRead := 0, chunk := Chunk(size, already));
    BehindIs(rules, head, h);
    assert BodyOf(s) == Body(|head|, "", 0, Chunk(size, already));
    ChunkBehind(rules, head, h.message, d, size, already);
  }

  lemma BehindIs(rules: Rules, head: string, h: Parser)
    requires Head(rules, head, h)
    ensures h.pos == |head| && h.stage.BodyStage?
  {
  }

  /** How the reader stands after `k` bytes of a first chunk whose size line is complete. */
  lemma ChunkOpen(rules: Rules, b: string, s: Body, data: string, k: nat)
    requires s.chunk.NoChunk? && s.pos + k == |b| && data != "" && |data| <= rules.maxReserve && |data| < U64
    requires |Hex(|data|)| + 2 <= k < |ChunkText(data)| && b[s.pos..] == ChunkText(data)[..k]
    ensures var r := Chunks(rules, b, s);
            r.outcome.More? && r.body.chunk == Chunk(|data|, k - |Hex(|data|)| - 2) && r.body.bytesRead == s.bytesRead
  {
    assert ChunkText(data) + "" == ChunkText(data);
    var e := ShortStarts(b, s.pos, data, "");
    SizeKnown(rules, b, s, e, |data|);
  }

  lemma ChunkPart(rules: Rules, head: string, h: Parser, data: string, k: nat)
    requires Head(rules, head, h) && AwaitsChunks(rules, h) && data != "" && |data| <= rules.maxReserve && |data| < U64
    requires |Hex(|data|)| + 2 <= k < |ChunkText(data)|
    ensures var r := Parse(rules, Feed(FRESH, head + ChunkText(data)[..k]));
            r.outcome.More? && ResetOf(r.parser) == Counted(0, Chunk(|data|, k - |Hex(|data|)| - 2))
  {
    hide Headers, RequestLine, Parse, Hex, ChunkText;
    var d := ChunkText(data)[..k];
    AwaitParse(rules, head, h, d);
    AtEnd(head, d);
    ChunkOpen(rules, head + d, BodyBehind(h), data, k);
  }

  lemma ChunkLength(data: string)
    ensures |ChunkText(data)| == |Hex(|data|)| + 2 + |data| + 2
  {
  }

  /** Part of a first chunk, a packet that is too large, and another chunked request. */
  lemma StaleChunkRun(rules: Rules, maxSize: nat, head: string, h: Parser, data: string, k: nat, large: string,
                      head2: string, h2: Parser, d: string)
    requires Head(rules, head, h) && AwaitsChunks(rules, h) && data != "" && |data| <= rules.maxReserve && |data| < U64
    requires |Hex(|data|)| + 2 <= k < |ChunkText(data)|
    requires |head + ChunkText(data)[..k]| <= maxSize < |head + ChunkText(data)[..k]| + |large|
    requires Head(rules, head2, h2) && AwaitsChunks(rules, h2) && |head2 + d| <= maxSize
    ensures Serve(rules, maxSize, FRESH, [head + ChunkText(data)[..k], large, head2 + d]).replies ==
            [Silent, TooLarge, StaleReply(rules, head2, h2.message, d, |data|, k - |Hex(|data|)| - 2)]
  {
    hide Head, Parse, Headers, RequestLine, StaleReply, Hex, ChunkText;
    var p, already := head + ChunkText(data)[..k], k - |Hex(|data|)| - 2;
    ChunkPart(rules, head, h, data, k);
    assert Feed(FRESH, p).bytes == p;
    var x := Input(rules, maxSize, FRESH, p);
    assert Input(rules, maxSize, x.parser, large) == Turn(Counted(0, Chunk(|data|, already)), TooLarge);
    ChunkLength(data);
    StaleChunk(rules, maxSize, head2, h2, |data|, already, d);
    ThreePackets(rules, maxSize, FRESH, p, large, head2 + d);
  }

  /** A well-formed chunked request that is refused because one byte of a chunk of five had come before a large packet. */
  lemma ChunkLeftOver(rules: Rules, maxSize: nat, large: string)
    requires KnowsChunked(rules) && 5 <= rules.maxReserve
    requires |CHUNKED_HEAD| + 13 <= maxSize < |CHUNKED_HEAD| + 4 + |large|
    ensures Serve(rules, maxSize, FRESH, [CHUNKED_HEAD + "5\r\nh", large, CHUNKED_HEAD + "3\r\nabc\r\n0\r\n\r\n"]).replies ==
            [Silent, TooLarge, Refuse(BadChunkSize)]
  {
    hide Head, Parse, CHUNKED_HEAD, Serve;
    var h := ChunkedHead(rules);
    var d := "3\r\nabc\r\n0\r\n\r\n";
    HelloText();
    StaleChunkRun(rules, maxSize, CHUNKED_HEAD, h, "hello", 4, large, CHUNKED_HEAD, h, d);
    LeftOverReply(rules, CHUNKED_HEAD, h.message, d);
  }

  lemma HelloText()
    ensures Hex(|"hello"|) == "5" && ChunkText("hello")[..4] == "5\r\nh" && |ChunkText("hello")| == 10
  {
    assert Hex(5) == "5";
    assert ChunkText("hello") == "5\r\nhello\r\n";
  }

  lemma LeftOverReply(rules: Rules, head: string, m: Message, d: string)
    requires d == "3\r\nabc\r\n0\r\n\r\n"
    ensures StaleReply(rules, head, m, d, 5, 1) == Refuse(BadChunkSize)
  {
    var b, s := head + d, StaleReader(head, d, 5, 1);
    assert s.pos == |head| + 6 && b[s.pos] == d[6] == CR && b[s.pos + 1] == d[7] == LF;
    assert FindEol(b, s.pos) == s.pos && b[s.pos..s.pos] == "";
  }
}
