/** Complete request heads: what stands between the first byte of a request and its body. */
module HttpHead {
  import opened HttpMessage
  import opened HttpScan
  import opened HttpBody
  import opened HttpParserSpec
  import opened Options

  /** A parser that is new but for its body counters, as `ParserBase::reset` may leave it. */
  function Counted(bytesRead: nat, chunk: Chunk): Parser {
    FRESH.(bytesRead := bytesRead, chunk := chunk)
  }

  /** `head` is a complete head, up to and including its empty line; `h` is a new parser that has read it. */
  ghost predicate Head(rules: Rules, head: string, h: Parser) {
    var x := RequestLine(rules, head, 0);
    x.status.Next? &&
    var y := Headers(rules, head, x.pos);
    && y.status.Next? && y.pos == |head|
    && h == Parser(head, |head|, BodyStage, Apply(Apply(BLANK, x.effects), y.effects), 0, NoChunk)
  }

  lemma HeadBlank(rules: Rules, head: string, h: Parser)
    requires Head(rules, head, h)
    ensures h.message.body == ""
  {
    var x := RequestLine(rules, head, 0);
    KeepsBody(BLANK, x.effects);
    KeepsBody(Apply(BLANK, x.effects), Headers(rules, head, x.pos).effects);
  }

  /** Behind a complete head the body step takes over, whatever the counters say. */
  lemma BehindHead(rules: Rules, head: string, h: Parser, d: string, n: nat, c: Chunk)
    requires Head(rules, head, h)
    ensures Parse(rules, Feed(Counted(n, c), head + d)) == ParseBody(rules, h.(bytes := head + d, bytesRead := n, chunk := c))
  {
    var s := Feed(Counted(n, c), head + d);
    assert s.bytes == head + d;
    RequestLineExtend(rules, head, head + d, 0);
    var x := RequestLine(rules, head, 0);
    HeadersExtend(rules, head, head + d, x.pos);
  }

  /** An incomplete head asks for more, and leaves the counters as they are. */
  lemma ShortHead(rules: Rules, head: string, h: Parser, k: nat, n: nat, c: Chunk)
    requires Head(rules, head, h) && k < |head|
    ensures var r := Parse(rules, Feed(Counted(n, c), head[..k]));
            r.outcome.More? && !r.parser.stage.BodyStage? && r.parser.bytesRead == n && r.parser.chunk == c
  {
    var b := head[..k];
    assert Feed(Counted(n, c), b).bytes == b;
    RequestLineExtend(rules, b, head, 0);
    var x := RequestLine(rules, b, 0);
    if x.status.Next? {
      HeadersExtend(rules, b, head, x.pos);
    }
  }

  // ---------------------------------------------------------------------------------------------
  // A head with one header
  // ---------------------------------------------------------------------------------------------

  const LINE := "GET / HTTP/1.1\r\n"

  function OneHeader(name: string, value: string): string {
    LINE + name + ": " + value + "\r\n\r\n"
  }

  /** Text that may stand for a header name or value in one line. */
  predicate OneLine(text: string) {
    forall i :: 0 <= i < |text| ==> text[i] != CR && text[i] != ':'
  }

  lemma {:induction false} FindIs(b: string, p: nat, q: nat, stops: set<char>)
    requires p <= q < |b| && b[q] in stops && forall i :: p <= i < q ==> b[i] !in stops
    ensures Find(b, p, stops) == q
    decreases q - p
  {
    if p < q {
      FindIs(b, p + 1, q, stops);
    }
  }

  lemma {:induction false} FindEolIs(b: string, p: nat, q: nat)
    requires p <= q && Eol(b, q) && forall i :: p <= i < q ==> !Eol(b, i)
    ensures FindEol(b, p) == q
    decreases q - p
  {
    if p < q {
      FindEolIs(b, p + 1, q);
    }
  }

  lemma {:induction false} StrncmpIs(t: string)
    ensures StrncmpEqual(t, t)
  {
    if t != "" {
      StrncmpIs(t[1..]);
    }
  }

  lemma {:induction false} StrncmpDiffers(t: string, u: string, k: nat)
    requires k < |t| && k < |u| && t[..k] == u[..k] && t[k] != u[k]
    ensures !StrncmpEqual(t, u)
  {
    if k > 0 {
      assert t[0] == t[..k][0] == u[..k][0] == u[0];
      assert t[1..][..k - 1] == t[..k][1..] && u[1..][..k - 1] == u[..k][1..];
      StrncmpDiffers(t[1..], u[1..], k - 1);
    }
  }

  lemma VersionText()
    ensures StrncmpEqual("HTTP/1.1", "HTTP/1.1") && !StrncmpEqual("HTTP/1.1", "HTTP/1.0")
  {
    StrncmpIs("HTTP/1.1");
    assert "HTTP/1.1"[..7] == "HTTP/1.0"[..7];
    StrncmpDiffers("HTTP/1.1", "HTTP/1.0", 7);
  }

  /** `HTTP/1.1` and its line end at `p`. */
  lemma VersionAt(b: string, p: nat)
    requires p + 10 <= |b| && b[p..p + 8] == "HTTP/1.1" && Eol(b, p + 8)
    ensures VersionScan(b, p) == Scan([SetVersion(Http11)], Next, p + 10)
  {
    forall i | p <= i < p + 8 ensures !Eol(b, i) {
      assert b[i] == b[p..p + 8][i - p];
    }
    FindEolIs(b, p, p + 8);
    VersionText();
  }

  lemma VersionSlice(b: string)
    requires LINE <= b
    ensures b[6..14] == "HTTP/1.1"
  {
    var v := "HTTP/1.1";
    assert LINE == "GET / " + v + "\r\n";
    assert forall k :: 6 <= k < 14 ==> LINE[k] == v[k - 6];
    assert forall k :: 6 <= k < 14 ==> b[k] == LINE[k];
  }

  lemma SlashAt(b: string)
    requires LINE <= b
    ensures ResourceScan(b, 4) == Scan([SetResource("/"), SetVersion(Http11)], Next, |LINE|)
  {
    assert b[5] == LINE[5] && b[4] == LINE[4] && b[14] == LINE[14] && b[15] == LINE[15];
    FindIs(b, 4, 5, {'?', ' '});
    assert b[4..5] == "/";
    VersionSlice(b);
    VersionAt(b, 6);
    assert ResourceScan(b, 4) == ResourceEnd(b, 4, 5);
  }

  /** The request line `GET / HTTP/1.1` at the start of any text. */
  lemma LineScan(rules: Rules, b: string)
    requires "GET" in rules.methods && LINE <= b
    ensures RequestLine(rules, b, 0) == Scan([SetMethod("GET"), SetResource("/"), SetVersion(Http11)], Next, |LINE|)
  {
    assert b[0] == LINE[0] && b[1] == LINE[1] && b[2] == LINE[2] && b[3] == LINE[3];
    FindIs(b, 0, 3, {' '});
    assert b[0..3] == "GET";
    SlashAt(b);
  }

  /** A request line and an empty line are a complete head, and a complete request. */
  lemma BareHead(rules: Rules) returns (h: Parser)
    requires "GET" in rules.methods
    ensures Head(rules, LINE + "\r\n", h) && h.message.typed == map[]
  {
    var head := LINE + "\r\n";
    LineScan(rules, head);
    assert Eol(head, |LINE|);
    LineEffects();
    var m := BLANK.(verb := Some("GET"), resource := Some("/"), version := Some(Http11));
    assert Apply(m, []) == m;
    h := Parser(head, |head|, BodyStage, m, 0, NoChunk);
  }

  /** One header line at `p`, and the empty line behind it. */
  lemma HeaderAt(rules: Rules, b: string, p: nat, name: string, value: string)
    requires OneLine(name) && OneLine(value) && name != "" && value != "" && value[0] != ' '
    requires p <= |b| && b[p..] == name + ": " + value + "\r\n\r\n"
    requires HeaderEffects(rules, name, value).Some?
    ensures Headers(rules, b, p) == Scan(HeaderEffects(rules, name, value).value, Next, |b|)
  {
    hide Headers, HeaderEffects, Find, FindEol;
    var colon := p + |name|;
    var v := colon + 2;
    var e := v + |value|;
    HeaderShape(b, p, name, value);
    FindIs(b, p, colon, {':'});
    BlankSkipped(b, colon + 1);
    ValueEnds(b, v, value);
    LastLine(rules, b, e + 2);
    HeaderStored(rules, b, p, colon, e);
  }

  /** Where the parts of a header line stand. */
  lemma HeaderShape(b: string, p: nat, name: string, value: string)
    requires OneLine(name) && name != "" && value != "" && value[0] != ' '
    requires p <= |b| && b[p..] == name + ": " + value + "\r\n\r\n"
    ensures var v := p + |name| + 2; var e := v + |value|;
            && |b| == e + 4 && b[p..p + |name|] == name && b[v..e] == value
            && b[p + |name|] == ':' && b[p + |name| + 1] == ' ' && b[v] != ' '
            && Eol(b, e) && Eol(b, e + 2) && !Eol(b, p)
            && forall i :: p <= i < p + |name| ==> b[i] != ':'
  {
    var text := b[p..];
    assert forall i :: p <= i < |b| ==> b[i] == text[i - p];
  }

  lemma BlankSkipped(b: string, q: nat)
    requires q + 1 < |b| && b[q] == ' ' && b[q + 1] != ' '
    ensures SkipSpaces(b, q) == q + 1
  {
    assert SkipSpaces(b, q + 1) == q + 1;
  }

  lemma LastLine(rules: Rules, b: string, q: nat)
    requires q + 2 == |b| && Eol(b, q)
    ensures Headers(rules, b, q) == Scan([], Next, |b|)
  {
  }

  lemma HeaderStored(rules: Rules, b: string, p: nat, colon: nat, e: nat)
    requires p <= colon < colon + 2 <= e && e + 4 == |b| && !Eol(b, p) && Find(b, p, {':'}) == colon
    requires SkipSpaces(b, colon + 1) == colon + 2 && FindEol(b, colon + 2) == e
    requires Headers(rules, b, e + 2) == Scan([], Next, |b|) && HeaderEffects(rules, b[p..colon], b[colon + 2..e]).Some?
    ensures Headers(rules, b, p) == Scan(HeaderEffects(rules, b[p..colon], b[colon + 2..e]).value, Next, |b|)
  {
    var es := HeaderEffects(rules, b[p..colon], b[colon + 2..e]).value;
    assert Headers(rules, b, p) == HeaderLine(rules, b, p, colon) == Prepend(es, Headers(rules, b, e + 2));
    assert es + [] == es;
  }

  lemma ValueEnds(b: string, v: nat, value: string)
    requires OneLine(value) && v + |value| + 2 <= |b| && b[v..v + |value|] == value && Eol(b, v + |value|)
    ensures FindEol(b, v) == v + |value|
  {
    forall i | v <= i < v + |value| ensures !Eol(b, i) {
      assert b[i] == b[v..v + |value|][i - v];
    }
    FindEolIs(b, v, v + |value|);
  }

  /** What a new parser knows after `OneHeader`. */
  function OneMessage(name: string, value: string): Message {
    BLANK.(verb := Some("GET"), resource := Some("/"), version := Some(Http11),
           typed := map[Lower(name) := value], raw := map[Lower(name) := (name, value)])
  }

  /** A registered header is all that the head with it leaves behind. */
  lemma OneHeaderHead(rules: Rules, name: string, value: string)
    requires "GET" in rules.methods && OneLine(name) && OneLine(value) && name != "" && value != "" && value[0] != ' '
    requires HeaderEffects(rules, name, value) == Some([AddTyped(name, value), AddRaw(name, value)])
    ensures var head := OneHeader(name, value);
            Head(rules, head, Parser(head, |head|, BodyStage, OneMessage(name, value), 0, NoChunk))
  {
    var head := OneHeader(name, value);
    var rest := name + ": " + value + "\r\n\r\n";
    assert head == LINE + rest;
    assert head[|LINE|..] == rest;
    LineScan(rules, head);
    HeaderAt(rules, head, |LINE|, name, value);
    LineEffects();
    TypedEffects(Apply(BLANK, [SetMethod("GET"), SetResource("/"), SetVersion(Http11)]), name, value);
  }

  lemma LineEffects()
    ensures Apply(BLANK, [SetMethod("GET"), SetResource("/"), SetVersion(Http11)]) ==
            BLANK.(verb := Some("GET"), resource := Some("/"), version := Some(Http11))
  {
    var a, b, c := SetMethod("GET"), SetResource("/"), SetVersion(Http11);
    PairEffects(BLANK, a, b);
    assert [a, b] + [c] == [a, b, c];
    ApplyAnother(BLANK, [a, b], c);
  }

  lemma PairEffects(m: Message, a: Effect, b: Effect)
    ensures Apply(m, [a, b]) == ApplyOne(ApplyOne(m, a), b)
  {
    assert [] + [a] == [a] && [a] + [b] == [a, b];
    ApplyAnother(m, [], a);
    ApplyAnother(m, [a], b);
  }

  lemma TypedEffects(m: Message, name: string, value: string)
    ensures Apply(m, [AddTyped(name, value), AddRaw(name, value)]) ==
            m.(typed := Insert(m.typed, Lower(name), value), raw := Insert(m.raw, Lower(name), (name, value)))
  {
    PairEffects(m, AddTyped(name, value), AddRaw(name, value));
  }

  /** A chunked body is due. */
  predicate AwaitsChunks(rules: Rules, h: Parser) {
    var typed := h.message.typed;
    "content-length" !in typed && "transfer-encoding" in typed && rules.chunked(typed["transfer-encoding"])
  }

  /** A body of `n` bytes is due. */
  predicate AwaitsLength(rules: Rules, h: Parser, n: u64) {
    var typed := h.message.typed;
    "transfer-encoding" !in typed && "content-length" in typed && rules.contentLength(typed["content-length"]) == n
  }

  const CHUNKED_HEAD := OneHeader("Transfer-Encoding", "chunked")

  predicate KnowsChunked(rules: Rules) {
    && "GET" in rules.methods && rules.registered("transfer-encoding")
    && rules.accepts("transfer-encoding", "chunked") && rules.chunked("chunked")
  }

  /** A real head that announces chunks. */
  lemma ChunkedHead(rules: Rules) returns (h: Parser)
    requires KnowsChunked(rules)
    ensures Head(rules, CHUNKED_HEAD, h) && AwaitsChunks(rules, h)
  {
    var name, value := "Transfer-Encoding", "chunked";
    assert Lower(name) == "transfer-encoding";
    h := Parser(CHUNKED_HEAD, |CHUNKED_HEAD|, BodyStage, OneMessage(name, value), 0, NoChunk);
    OneHeaderHead(rules, name, value);
  }

  predicate KnowsLength(rules: Rules, value: string, n: u64) {
    && "GET" in rules.methods && rules.registered("content-length")
    && rules.accepts("content-length", value) && rules.contentLength(value) == n
  }

  /** A real head that announces `n` bytes. */
  lemma LengthHead(rules: Rules, value: string, n: u64) returns (h: Parser)
    requires KnowsLength(rules, value, n) && OneLine(value) && value != "" && value[0] != ' '
    ensures Head(rules, OneHeader("Content-Length", value), h) && AwaitsLength(rules, h, n)
  {
    var name := "Content-Length";
    var head := OneHeader(name, value);
    assert Lower(name) == "content-length";
    h := Parser(head, |head|, BodyStage, OneMessage(name, value), 0, NoChunk);
    OneHeaderHead(rules, name, value);
  }
}
