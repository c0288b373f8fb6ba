/** `ResponseStream`: a body written chunk by chunk, and read back by the chunk machine of the parser. */
module HttpChunkedWriter {
  import opened HttpMessage
  import opened HttpScan
  import opened HttpBody
  import opened HttpHead
  import opened HttpParserSpec
  import opened HttpPackets
  import opened Options

  const CRLF := "\r\n"

  /** What `ends` writes. */
  const LAST := "0\r\n\r\n"

  function HexDigit(v: nat): (c: char)
    requires v < 16
    ensures IsHex(c) && HexValue(c) == v
  {
    if v < 10 then '0' + v as char else 'a' + (v - 10) as char
  }

  /** `os << std::hex << n`. */
  function Hex(n: nat): string {
    if n < 16 then [HexDigit(n)] else Hex(n / 16) + [HexDigit(n % 16)]
  }

  /** One `write`. */
  function ChunkText(data: string): string {
    Hex(|data|) + CRLF + data + CRLF
  }

  function Encoded(chunks: seq<string>): string {
    if chunks == [] then "" else ChunkText(chunks[0]) + Encoded(chunks[1..])
  }

  /** As much of `text` as `limit` allows. */
  function Clip(text: string, limit: nat): (r: string)
    ensures |r| <= limit && |r| <= |text| && (r == text <==> |text| <= limit) && (|r| < |text| <==> |text| > limit)
  {
    if |text| <= limit then text else text[..limit]
  }

  /** The stream buffer with its limit, and the packets already handed to the transport. `head` is the response head that
      the constructor wrote; `whole` says that nothing has been cut off yet. */
  class ResponseStream {
    const maxSize: nat
    const head: string
    var buf: string
    var sent: seq<string>
    ghost var chunks: seq<string>
    ghost var ended: bool
    ghost var whole: bool

    /** All that was written, as it should go out. */
    ghost function Wire(): string
      reads this
    {
      head + (Encoded(chunks) + if ended then LAST else "")
    }

    ghost predicate Valid()
      reads this
    {
      && |buf| <= maxSize
      && (whole ==> Concat(sent) + buf == Wire())
      && (!whole ==> |Concat(sent) + buf| < |Wire()|)
    }

    /** The head, or what fits of it: the source looks at the stream after some of its lines and raises, but not after its
        headers nor after its last line end. */
    constructor (maxSize: nat, head: string)
      ensures Valid() && this.maxSize == maxSize && this.head == head && buf == Clip(head, maxSize)
      ensures chunks == [] && !ended && (whole <==> |head| <= maxSize) && sent == []
    {
      this.maxSize, this.head := maxSize, head;
      buf, sent, chunks, ended, whole := Clip(head, maxSize), [], [], false, |head| <= maxSize;
    }

    /** One insertion through `std::ostream`: it writes what fits, fails when that is not all, and does nothing once failed. */
    method Insert(good: bool, text: string) returns (ok: bool)
      requires |buf| <= maxSize
      modifies this`buf
      ensures |buf| <= maxSize
      ensures good ==> buf == Clip(old(buf) + text, maxSize) && ok == (|old(buf)| + |text| <= maxSize)
      ensures !good ==> buf == old(buf) && !ok
    {
      if !good {
        return false;
      }
      var room := maxSize - |buf|;
      buf := buf + if |text| <= room then text else text[..room];
      ok := |text| <= room;
    }

    /** `write`: the failed stream is never asked, so a chunk that does not fit is cut off and its size returned all the same. */
    method Write(data: string) returns (size: nat)
      requires Valid() && !ended
      modifies this`buf, this`chunks, this`whole
      ensures Valid() && size == |data| && chunks == old(chunks) + [data]
      ensures buf == Clip(old(buf) + ChunkText(data), maxSize)
      ensures whole == (old(whole) && |old(buf)| + |ChunkText(data)| <= maxSize)
    {
      hide Hex, Encoded, Concat;
      ghost var before, line := buf, Hex(|data|) + CRLF;
      var ok := Insert(true, Hex(|data|) + CRLF);
      ok := Insert(ok, data);
      ClipTwice(before, line, data, maxSize);
      ok := Insert(ok, CRLF);
      ClipTwice(before, line + data, CRLF, maxSize);
      size := |data|;
      OneMore(head, chunks, data, Concat(sent), before);
      chunks := chunks + [data];
      whole := whole && ok;
    }

    method Flush()
      requires Valid()
      modifies this`buf, this`sent
      ensures Valid() && buf == "" && sent == old(sent) + [old(buf)]
    {
      ConcatSnoc(sent, buf);
      sent, buf := sent + [buf], "";
    }

    /** `ends`: raises, and sends nothing, when the last chunk does not fit. It does not notice what was cut off before:
        what has been sent is what was written exactly if the stream is still whole. */
    method Ends() returns (raised: bool)
      requires Valid() && !ended
      modifies this
      ensures Valid() && ended && chunks == old(chunks) && raised == (|old(buf)| + |LAST| > maxSize)
      ensures whole == (old(whole) && !raised)
      ensures raised ==> sent == old(sent) && buf == Clip(old(buf) + LAST, maxSize)
      ensures !raised ==> buf == "" && sent == old(sent) + [old(buf) + LAST]
      ensures !raised ==> (whole <==> Concat(sent) == head + (Encoded(chunks) + LAST))
    {
      ghost var before := buf;
      var ok := Insert(true, "0" + CRLF);
      ok := Insert(ok, CRLF);
      ClipTwice(before, "0" + CRLF, CRLF, maxSize);
      assert ("0" + CRLF) + CRLF == LAST;
      Behind(head, Encoded(chunks), Concat(sent), before, LAST);
      ended, whole := true, whole && ok;
      if !ok {
        return true;
      }
      Flush();
      raised := false;
    }
  }

  /** A text behind what has gone out and is buffered, and behind what should have. */
  lemma Behind(head: string, coded: string, sent: string, buf: string, text: string)
    ensures sent + buf == head + (coded + "") ==> sent + (buf + text) == head + (coded + text)
    ensures |sent + buf| < |head + (coded + "")| ==> |sent + (buf + text)| < |head + (coded + text)|
  {
    assert coded + "" == coded;
    Regrouped(sent, buf, text);
    Regrouped(head, coded, text);
  }

  lemma OneMore(head: string, chunks: seq<string>, data: string, sent: string, buf: string)
    ensures sent + buf == head + (Encoded(chunks) + "") ==>
              sent + (buf + ChunkText(data)) == head + (Encoded(chunks + [data]) + "")
    ensures |sent + buf| < |head + (Encoded(chunks) + "")| ==>
              |sent + (buf + ChunkText(data))| < |head + (Encoded(chunks + [data]) + "")|
    ensures |Encoded(chunks + [data])| == |Encoded(chunks)| + |ChunkText(data)|
  {
    EncodedSnoc(chunks, data);
    Behind(head, Encoded(chunks), sent, buf, ChunkText(data));
    assert Encoded(chunks + [data]) + "" == Encoded(chunks) + ChunkText(data);
  }

  /** Eight bytes in a buffer with room for eight: the chunk is cut off behind its size line, `write` returns eight, the
      flush makes room again, and `ends` is content. What went out promises eight bytes and brings five, then the last chunk. */
  method CutSilently() returns (r: ResponseStream, size: nat, raised: bool)
    ensures fresh(r) && size == 8 && !raised && !r.whole && r.chunks == ["abcdefgh"]
    ensures r.sent == ["8\r\nabcde", LAST]
  {
    r := new ResponseStream(8, "");
    EightText();
    size := r.Write("abcdefgh");
    r.Flush();
    raised := r.Ends();
    assert "" + LAST == LAST;
  }

  lemma EightText()
    ensures ChunkText("abcdefgh") == "8\r\nabcdefgh\r\n" && Clip("" + ChunkText("abcdefgh"), 8) == "8\r\nabcde"
  {
    assert Hex(8) == "8";
    assert "8\r\nabcdefgh\r\n" == "8\r\nabcde" + "fgh\r\n";
  }

  /** Inserting two texts one after the other, the second only if the first fitted, is inserting both. */
  lemma ClipTwice(a: string, t: string, u: string, limit: nat)
    requires |a| <= limit
    ensures Clip(a + (t + u), limit) == if |a| + |t| <= limit then Clip(Clip(a + t, limit) + u, limit) else Clip(a + t, limit)
  {
    Regrouped(a, t, u);
    if |a| + |t| > limit {
      assert ((a + t) + u)[..limit] == (a + t)[..limit];
    }
  }

  lemma Regrouped(a: string, b: string, c: string)
    ensures a + (b + c) == (a + b) + c
  {
  }

  lemma {:induction false} EncodedSnoc(chunks: seq<string>, data: string)
    ensures Encoded(chunks + [data]) == Encoded(chunks) + ChunkText(data)
  {
    if chunks == [] {
      assert [data][1..] == [];
    } else {
      EncodedSnoc(chunks[1..], data);
      assert (chunks + [data])[1..] == chunks[1..] + [data] && (chunks + [data])[0] == chunks[0];
      Regrouped(ChunkText(chunks[0]), Encoded(chunks[1..]), ChunkText(data));
    }
  }

  lemma {:induction false} ConcatSnoc(packets: seq<string>, p: string)
    ensures Concat(packets + [p]) == Concat(packets) + p
  {
    if packets == [] {
      assert [p][1..] == [];
    } else {
      ConcatSnoc(packets[1..], p);
      assert (packets + [p])[1..] == packets[1..] + [p];
    }
  }

  // ---------------------------------------------------------------------------------------------
  // Size lines
  // ---------------------------------------------------------------------------------------------

  lemma {:induction false} HexRoundTrip(n: nat)
    ensures |Hex(n)| > 0 && forall i :: 0 <= i < |Hex(n)| ==> IsHex(Hex(n)[i])
    ensures HexNumber(Hex(n)) == n
    ensures Hex(n)[0] == '0' <==> n == 0
  {
    if n >= 16 {
      HexRoundTrip(n / 16);
      assert Hex(n)[..|Hex(n)| - 1] == Hex(n / 16);
    } else {
      assert HexNumber(Hex(n)[..0]) == 0;
    }
  }

  lemma {:induction false} AllHex(s: string)
    requires forall i :: 0 <= i < |s| ==> IsHex(s[i])
    ensures HexLength(s) == |s|
  {
    if s != "" {
      AllHex(s[1..]);
    }
  }

  lemma {:induction false} EolAt(b: string, p: nat, e: nat)
    requires p <= e <= |b| && (e < |b| ==> Eol(b, e))
    requires forall i :: p <= i < e ==> !Eol(b, i)
    ensures FindEol(b, p) == e
    decreases e - p
  {
    if p < e {
      EolAt(b, p + 1, e);
    }
  }

  /** The text `t` stands in `b` at `p`. */
  predicate At(b: string, p: nat, t: string) {
    p + |t| <= |b| && b[p..p + |t|] == t
  }

  lemma AtEnd(a: string, t: string)
    ensures At(a + t, |a|, t) && (a + t)[|a|..] == t
  {
  }

  lemma AtTail(b: string, p: nat, t: string)
    requires p + |t| == |b|
    ensures At(b, p, t) <==> b[p..] == t
  {
    assert b[p..p + |t|] == b[p..];
  }

  lemma TakeFront(a: string, t: string, k: nat)
    requires k <= |a|
    ensures (a + t)[..k] == a[..k]
  {
  }

  lemma TakeBehind(a: string, t: string, j: nat, k: nat)
    requires k == |a| + j && j <= |t|
    ensures (a + t)[..k] == a + t[..j]
  {
  }

  lemma AtSplit(b: string, p: nat, t: string, u: string)
    ensures At(b, p, t + u) <==> At(b, p, t) && At(b, p + |t|, u)
  {
    if At(b, p, t + u) {
      assert b[p..p + |t|] == (t + u)[..|t|];
      assert b[p + |t|..p + |t| + |u|] == (t + u)[|t|..];
    }
  }

  /** A printed size line reads back as the size. */
  lemma SizeLine(b: string, p: nat, n: nat)
    requires n < U64 && At(b, p, Hex(n) + CRLF)
    ensures var e := p + |Hex(n)|; e + 2 <= |b| && FindEol(b, p) == e && ChunkSize(b[p..e]) == Some(n)
  {
    var h := Hex(n);
    HexRoundTrip(n);
    AtSplit(b, p, h, CRLF);
    assert b[p + |h|..p + |h| + 2] == CRLF;
    forall i | p <= i < p + |h| ensures !Eol(b, i) {
      assert b[i] == h[i - p];
    }
    EolAt(b, p, p + |h|);
    AllHex(h);
    assert h[..|h|] == h;
  }

  // ---------------------------------------------------------------------------------------------
  // The round trip
  // ---------------------------------------------------------------------------------------------

  /** What the chunks say up to the first empty one, which reads as the end. */
  function Readable(chunks: seq<string>): string {
    if chunks == [] || chunks[0] == "" then "" else chunks[0] + Readable(chunks[1..])
  }

  ghost predicate Fits(rules: Rules, chunks: seq<string>) {
    rules.maxReserve < U64 && forall i :: 0 <= i < |chunks| ==> |chunks[i]| <= rules.maxReserve
  }

  lemma AtChunk(b: string, p: nat, data: string, rest: string)
    requires At(b, p, ChunkText(data) + rest)
    ensures var v := p + |Hex(|data|)| + 2;
            && At(b, p, Hex(|data|) + CRLF) && At(b, v, data) && At(b, v + |data| + 2, rest)
            && v + |data| + 2 + |rest| <= |b|
  {
    hide Hex;
    var line := Hex(|data|) + CRLF;
    AtSplit(b, p, ChunkText(data), rest);
    assert ChunkText(data) == line + (data + CRLF);
    AtSplit(b, p, line, data + CRLF);
    AtSplit(b, p + |line|, data, CRLF);
  }

  /** Where a written chunk's size line ends, what it says, and where the data and the rest stand. */
  lemma ChunkStarts(b: string, p: nat, data: string, rest: string) returns (e: nat)
    requires |data| < U64 && At(b, p, ChunkText(data) + rest)
    ensures && p <= e < e + 2 + |data| + 2 == p + |ChunkText(data)| <= |b|
            && FindEol(b, p) == e && ChunkSize(b[p..e]) == Some(|data|)
            && At(b, e + 2, data) && At(b, p + |ChunkText(data)|, rest)
  {
    hide Hex, ChunkSize, FindEol;
    e := p + |Hex(|data|)|;
    AtChunk(b, p, data, rest);
    SizeLine(b, p, |data|);
  }

  /** The reader behind a chunk it has read. */
  function After(s: Body, data: string): Body {
    s.(pos := s.pos + |ChunkText(data)|, text := s.text + data)
  }

  /** The chunk loop behind a chunk. */
  function Onward(rules: Rules, b: string, s: Body): BodyResult
    requires s.pos <= |b|
  {
    if s.pos == |b| then BodyResult(s, More) else Chunks(rules, b, s)
  }

  /** All the data of a chunk and its closing line are there. */
  lemma WholeChunk(rules: Rules, b: string, s: Body, data: string, started: Body)
    requires s.chunk.NoChunk? && 0 < |data| <= rules.maxReserve && At(b, started.pos, data)
    requires started == s.(pos := started.pos, chunk := Chunk(|data|, 0))
    requires started.pos + |data| + 2 == After(s, data).pos <= |b|
    ensures ChunkData(rules, b, started) == Onward(rules, b, After(s, data))
  {
    hide Chunks, Hex;
    assert b[started.pos..started.pos + (|data| - 0)] == data;
  }

  /** The chunk whose size line ends at `e`. */
  lemma ReadChunk(rules: Rules, b: string, s: Body, data: string, e: nat)
    requires s.chunk.NoChunk? && 0 < |data| <= rules.maxReserve && At(b, e + 2, data)
    requires s.pos <= e < e + 2 + |data| + 2 == After(s, data).pos <= |b|
    requires FindEol(b, s.pos) == e && ChunkSize(b[s.pos..e]) == Some(|data|)
    ensures Chunks(rules, b, s) == Onward(rules, b, After(s, data))
  {
    var started := s.(pos := e + 2, chunk := Chunk(|data|, 0));
    SizeKnown(rules, b, s, e, |data|);
    WholeChunk(rules, b, s, data, started);
  }

  /** One written chunk is read as its data, and the reader goes on behind it. */
  lemma ChunkDecodes(rules: Rules, b: string, s: Body, data: string, rest: string)
    requires s.chunk.NoChunk? && data != "" && Fits(rules, [data])
    requires At(b, s.pos, ChunkText(data) + rest)
    ensures After(s, data).pos <= |b| && At(b, After(s, data).pos, rest)
    ensures Chunks(rules, b, s) ==
            Onward(rules, b, After(s, data))
  {
    assert |[data][0]| <= rules.maxReserve;
    var e := ChunkStarts(b, s.pos, data, rest);
    ReadChunk(rules, b, s, data, e);
  }

  lemma EndDecodes(rules: Rules, b: string, s: Body)
    requires s.chunk.NoChunk? && At(b, s.pos, "0\r\n")
    ensures Chunks(rules, b, s) == BodyResult(s.(pos := s.pos + 3), Done)
  {
    assert Hex(0) + CRLF == "0\r\n";
    SizeLine(b, s.pos, 0);
  }

  ghost predicate DoneWith(r: BodyResult, text: string) {
    r.outcome.Done? && r.body.text == text
  }

  /** What `CutSilently` sends is a whole chunk to a reader, made of data and coding, and the body does not end. */
  lemma CutReads(rules: Rules, b: string, s: Body)
    requires s.chunk.NoChunk? && 8 <= rules.maxReserve && s.pos <= |b| && b[s.pos..] == "8\r\nabcde" + LAST
    ensures Chunks(rules, b, s) == BodyResult(s.(pos := |b|, text := s.text + "abcde0\r\n"), More)
  {
    var data := "abcde0\r\n";
    assert Hex(8) == "8" && |data| == 8;
    assert ChunkText(data) + "" == "8\r\nabcde" + LAST;
    AtTail(b, s.pos, ChunkText(data) + "");
    var e := ChunkStarts(b, s.pos, data, "");
    ReadChunk(rules, b, s, data, e);
  }

  /** Everything written and ended reads back as the chunks up to the first empty one. */
  lemma {:induction false} WrittenDecodes(rules: Rules, b: string, s: Body, chunks: seq<string>)
    requires Fits(rules, chunks) && s.chunk.NoChunk? && At(b, s.pos, Encoded(chunks) + LAST)
    ensures DoneWith(Chunks(rules, b, s), s.text + Readable(chunks))
    decreases chunks
  {
    if chunks == [] || chunks[0] == "" {
      EndsHere(rules, b, s, chunks);
    } else {
      var rest := Encoded(chunks[1..]) + LAST;
      assert Encoded(chunks) + LAST == ChunkText(chunks[0]) + rest;
      FitsOne(rules, chunks);
      var next := After(s, chunks[0]);
      ChunkDecodes(rules, b, s, chunks[0], rest);
      WrittenDecodes(rules, b, next, chunks[1..]);
      ReadableStep(s.text, chunks);
      assert Chunks(rules, b, s) == Chunks(rules, b, next);
    }
  }

  lemma ReadableStep(text: string, chunks: seq<string>)
    requires chunks != [] && chunks[0] != ""
    ensures text + Readable(chunks) == (text + chunks[0]) + Readable(chunks[1..])
  {
    assert Readable(chunks) == chunks[0] + Readable(chunks[1..]);
  }

  /** What stands in `b` from `p` on begins like `wire`. */
  lemma AtPrefix(b: string, p: nat, line: string, wire: string)
    requires p + |line| <= |b| && b[p..] <= wire && line <= wire
    ensures At(b, p, line)
  {
    assert b[p..p + |line|] == b[p..][..|line|] == wire[..|line|] == line;
  }

  lemma FitsOne(rules: Rules, chunks: seq<string>)
    requires Fits(rules, chunks) && chunks != []
    ensures Fits(rules, [chunks[0]]) && Fits(rules, chunks[1..])
  {
  }

  lemma EndsHere(rules: Rules, b: string, s: Body, chunks: seq<string>)
    requires s.chunk.NoChunk? && (chunks == [] || chunks[0] == "") && At(b, s.pos, Encoded(chunks) + LAST)
    ensures Chunks(rules, b, s) == BodyResult(s.(pos := s.pos + 3), Done)
  {
    var wire := Encoded(chunks) + LAST;
    assert Hex(0) + CRLF == "0\r\n";
    assert wire == "0\r\n" + wire[3..];
    AtSplit(b, s.pos, "0\r\n", wire[3..]);
    EndDecodes(rules, b, s);
  }

  /** An empty write ends the body early: nothing is lost exactly when only empty writes follow one. */
  lemma {:induction false} ReadableIsAll(chunks: seq<string>)
    ensures |Readable(chunks)| <= |Concat(chunks)|
    ensures Readable(chunks) == Concat(chunks) <==> forall i, j :: 0 <= i < j < |chunks| && chunks[i] == "" ==> chunks[j] == ""
  {
    if chunks == [] {
    } else if chunks[0] == "" {
      EmptyConcat(chunks);
      assert Readable(chunks) == Concat(chunks) <==> forall j :: 0 <= j < |chunks| ==> chunks[j] == "";
    } else {
      ReadableIsAll(chunks[1..]);
      var rest := chunks[1..];
      assert Readable(chunks) == chunks[0] + Readable(rest) && Concat(chunks) == chunks[0] + Concat(rest);
      assert Readable(chunks)[|chunks[0]|..] == Readable(rest) && Concat(chunks)[|chunks[0]|..] == Concat(rest);
      if forall i, j :: 0 <= i < j < |rest| && rest[i] == "" ==> rest[j] == "" {
        forall i, j | 0 <= i < j < |chunks| && chunks[i] == "" ensures chunks[j] == "" {
          assert rest[i - 1] == "";
        }
      } else {
        var i, j :| 0 <= i < j < |rest| && rest[i] == "" && rest[j] != "";
        assert chunks[i + 1] == "" && chunks[j + 1] != "";
      }
    }
  }

  lemma {:induction false} EmptyConcat(chunks: seq<string>)
    ensures Concat(chunks) == "" <==> forall j :: 0 <= j < |chunks| ==> chunks[j] == ""
  {
    if chunks != [] {
      EmptyConcat(chunks[1..]);
      assert forall j :: 1 <= j < |chunks| ==> chunks[j] == chunks[1..][j - 1];
      assert forall j :: 0 <= j < |chunks[1..]| ==> chunks[1..][j] == chunks[j + 1];
    }
  }

  // ---------------------------------------------------------------------------------------------
  // Over packets
  // ---------------------------------------------------------------------------------------------

  /** After `k` bytes of the encoded chunks: right behind the CR that closes the data of one that is read. */
  predicate AtGap(chunks: seq<string>, k: nat) {
    if chunks == [] || chunks[0] == "" then false
    else
      var n := |ChunkText(chunks[0])|;
      k == n - 1 || (k > n && AtGap(chunks[1..], k - n))
  }

  /** How many bytes of the coded chunks the reader takes: up to the size line of the first empty one, or of the last. */
  function ReadLength(chunks: seq<string>): (n: nat)
    ensures n <= |Encoded(chunks) + LAST|
  {
    if chunks == [] then 3
    else if chunks[0] == "" then EmptyText(); 3
    else |ChunkText(chunks[0])| + ReadLength(chunks[1..])
  }

  lemma EmptyText()
    ensures Hex(0) + CRLF == "0\r\n" && ChunkText("") == "0\r\n\r\n"
  {
  }

  /** How the reader stands after `k` bytes of the coded chunks. */
  ghost predicate Stops(r: BodyResult, chunks: seq<string>, k: nat) {
    && (if k < ReadLength(chunks) then r.outcome.More? else r.outcome.Done?)
    && ((r.outcome.More? && Torn(r.body)) <==> AtGap(chunks, k))
  }

  /** A prefix of the wire form asks for more up to the end of what is read, and stops torn exactly at a gap. */
  lemma {:induction false} PrefixStops(rules: Rules, b: string, s: Body, chunks: seq<string>, k: nat)
    requires Fits(rules, chunks) && s.chunk.NoChunk? && s.pos + k == |b| && k <= |Encoded(chunks) + LAST|
    requires b[s.pos..] == (Encoded(chunks) + LAST)[..k]
    ensures Stops(Chunks(rules, b, s), chunks, k)
    decreases chunks, 1
  {
    if chunks == [] || chunks[0] == "" {
      EndStops(rules, b, s, chunks, k);
    } else {
      var data, rest := chunks[0], Encoded(chunks[1..]) + LAST;
      assert Encoded(chunks) + LAST == ChunkText(data) + rest;
      if k < |ChunkText(data)| {
        FirstStops(rules, b, s, chunks, k);
      } else {
        assert b[s.pos..] == ChunkText(data) + rest[..k - |ChunkText(data)|];
        LaterStops(rules, b, s, chunks, k);
      }
    }
  }

  /** Not even the size line is complete. */
  lemma ShortLine(rules: Rules, b: string, s: Body, n: nat, wire: string)
    requires s.chunk.NoChunk? && s.pos <= |b| && b[s.pos..] <= wire && Hex(n) + CRLF <= wire
    requires |b| - s.pos < |Hex(n)| + 2
    ensures Chunks(rules, b, s) == BodyResult(s, More)
  {
    HexRoundTrip(n);
    var line := Hex(n) + CRLF;
    forall i | s.pos <= i < |b| ensures !Eol(b, i) {
      assert b[i] == b[s.pos..][i - s.pos] == wire[i - s.pos] == line[i - s.pos];
    }
    EolAt(b, s.pos, |b|);
  }

  /** The first chunk is not complete. */
  lemma FirstStops(rules: Rules, b: string, s: Body, chunks: seq<string>, k: nat)
    requires Fits(rules, chunks) && s.chunk.NoChunk? && s.pos + k == |b| && k <= |Encoded(chunks) + LAST|
    requires chunks != [] && chunks[0] != "" && k < |ChunkText(chunks[0])|
    requires b[s.pos..] == (Encoded(chunks) + LAST)[..k]
    ensures Stops(Chunks(rules, b, s), chunks, k)
  {
    var data, rest := chunks[0], Encoded(chunks[1..]) + LAST;
    assert Encoded(chunks) + LAST == ChunkText(data) + rest;
    FitsOne(rules, chunks);
    if k < |Hex(|data|)| + 2 {
      ShortLine(rules, b, s, |data|, ChunkText(data) + rest);
    } else {
      ShortData(rules, b, s, data, rest);
    }
    FirstGap(chunks, k);
  }

  lemma FirstGap(chunks: seq<string>, k: nat)
    requires chunks != [] && chunks[0] != "" && k < |ChunkText(chunks[0])|
    ensures k < ReadLength(chunks) && (AtGap(chunks, k) <==> k == |ChunkText(chunks[0])| - 1)
  {
  }

  /** The size line is complete, the chunk is not. */
  lemma ShortData(rules: Rules, b: string, s: Body, data: string, rest: string)
    requires s.chunk.NoChunk? && s.pos <= |b| && data != "" && Fits(rules, [data])
    requires b[s.pos..] <= ChunkText(data) + rest
    requires |Hex(|data|)| + 2 <= |b| - s.pos < |ChunkText(data)|
    ensures var r := Chunks(rules, b, s);
            r.outcome.More? && (Torn(r.body) <==> |b| - s.pos == |ChunkText(data)| - 1)
  {
    var e := ShortStarts(b, s.pos, data, rest);
    assert |[data][0]| <= rules.maxReserve;
    SizeKnown(rules, b, s, e, |data|);
    ShortChunk(rules, b, s.(pos := e + 2, chunk := Chunk(|data|, 0)));
  }

  lemma ShortStarts(b: string, p: nat, data: string, rest: string) returns (e: nat)
    requires |data| < U64 && p <= |b| && b[p..] <= ChunkText(data) + rest && |Hex(|data|)| + 2 <= |b| - p
    ensures p <= e < e + 2 <= |b| && e + 2 - p == |Hex(|data|)| + 2 && e + 2 + |data| + 2 - p == |ChunkText(data)|
    ensures FindEol(b, p) == e && ChunkSize(b[p..e]) == Some(|data|)
  {
    e := p + |Hex(|data|)|;
    var line := Hex(|data|) + CRLF;
    assert (ChunkText(data) + rest)[..|line|] == line;
    AtPrefix(b, p, line, ChunkText(data) + rest);
    SizeLine(b, p, |data|);
  }

  /** The data or its closing line is incomplete. */
  lemma ShortChunk(rules: Rules, b: string, s: Body)
    requires s.chunk.Chunk? && 0 == s.chunk.already < s.chunk.size <= rules.maxReserve
    requires s.pos <= |b| && |b| - s.pos < s.chunk.size + 2
    ensures var r := ChunkData(rules, b, s); r.outcome.More? && (Torn(r.body) <==> |b| - s.pos == s.chunk.size + 1)
  {
  }

  /** The first chunk is complete. */
  lemma {:induction false} LaterStops(rules: Rules, b: string, s: Body, chunks: seq<string>, k: nat)
    requires Fits(rules, chunks) && s.chunk.NoChunk? && s.pos + k == |b| && k <= |Encoded(chunks) + LAST|
    requires chunks != [] && chunks[0] != "" && |ChunkText(chunks[0])| <= k
    requires b[s.pos..] == ChunkText(chunks[0]) + (Encoded(chunks[1..]) + LAST)[..k - |ChunkText(chunks[0])|]
    ensures Stops(Chunks(rules, b, s), chunks, k)
    decreases chunks, 0
  {
    var data, n := chunks[0], |ChunkText(chunks[0])|;
    var rest := (Encoded(chunks[1..]) + LAST)[..k - n];
    AtTail(b, s.pos, ChunkText(data) + rest);
    FitsOne(rules, chunks);
    ChunkDecodes(rules, b, s, data, rest);
    LaterGap(chunks, k);
    if k > n {
      var next := After(s, data);
      AtTail(b, next.pos, rest);
      PrefixStops(rules, b, next, chunks[1..], k - n);
    }
  }

  lemma LaterGap(chunks: seq<string>, k: nat)
    requires chunks != [] && chunks[0] != "" && |ChunkText(chunks[0])| <= k
    ensures var n := |ChunkText(chunks[0])|;
            && (k < ReadLength(chunks) <==> k - n < ReadLength(chunks[1..]))
            && (AtGap(chunks, k) <==> k > n && AtGap(chunks[1..], k - n)) && ReadLength(chunks[1..]) > 0
  {
  }

  /** Where the body ends no chunk is open. */
  lemma EndStops(rules: Rules, b: string, s: Body, chunks: seq<string>, k: nat)
    requires s.chunk.NoChunk? && s.pos + k == |b| && k <= |Encoded(chunks) + LAST| && (chunks == [] || chunks[0] == "")
    requires b[s.pos..] == (Encoded(chunks) + LAST)[..k]
    ensures Stops(Chunks(rules, b, s), chunks, k)
  {
    var wire := Encoded(chunks) + LAST;
    EmptyText();
    assert wire[..3] == "0\r\n";
    if k < 3 {
      ShortLine(rules, b, s, 0, wire);
    } else {
      assert b[s.pos..s.pos + 3] == b[s.pos..][..3] == wire[..3];
      EndDecodes(rules, b, s);
    }
  }

  /** The chunk machine that stands behind the head `h`. */
  function BodyBehind(h: Parser): Body {
    Body(|h.bytes|, h.message.body, 0, NoChunk)
  }

  /** Behind a head that announces chunks, parsing is the chunk loop. */
  lemma AwaitParse(rules: Rules, head: string, h: Parser, d: string)
    requires Head(rules, head, h) && AwaitsChunks(rules, h)
    ensures var x := Chunks(rules, head + d, BodyBehind(h));
            Parse(rules, Feed(FRESH, head + d)) == Result(WithBody(h.(bytes := head + d), x.body), x.outcome)
  {
    BehindHead(rules, head, h, d, 0, NoChunk);
    var s := h.(bytes := head + d);
    assert BodyOf(s) == BodyBehind(h);
  }

  /** How a new parser stands after the head and `j` bytes of the coded chunks, `k` in all. */
  lemma WireStops(rules: Rules, head: string, h: Parser, chunks: seq<string>, j: nat, k: nat)
    requires Fits(rules, chunks) && j <= |Encoded(chunks) + LAST| && k == |head| + j
    requires Head(rules, head, h) && AwaitsChunks(rules, h)
    ensures var r := Parse(rules, Feed(FRESH, (head + (Encoded(chunks) + LAST))[..k]));
            && (if j < ReadLength(chunks) then r.outcome.More? else r.outcome.Done?)
            && ((r.outcome.More? && TornParser(r.parser)) <==> AtGap(chunks, j))
  {
    var wire := Encoded(chunks) + LAST;
    var d := wire[..j];
    TakeBehind(head, wire, j, k);
    AwaitParse(rules, head, h, d);
    AtEnd(head, d);
    PrefixStops(rules, head + d, BodyBehind(h), chunks, j);
    var x := Chunks(rules, head + d, BodyBehind(h));
    assert BodyOf(WithBody(h.(bytes := head + d), x.body)) == x.body;
  }

  /** No boundary in the head cuts. */
  lemma CutInHead(rules: Rules, head: string, h: Parser, d: string, k: nat)
    requires Head(rules, head, h) && k < |head|
    ensures !CutsClosing(rules, FRESH, head + d, k)
  {
    TakeFront(head, d, k);
    assert Counted(0, NoChunk) == FRESH;
    ShortHead(rules, head, h, k, 0, NoChunk);
  }

  /** Where a boundary cuts, in terms of what was written: right behind the CR that closes a chunk which is read. */
  lemma CutIsGap(rules: Rules, head: string, h: Parser, chunks: seq<string>, k: nat)
    requires Fits(rules, chunks) && k <= |head| + |Encoded(chunks) + LAST| && Head(rules, head, h) && AwaitsChunks(rules, h)
    ensures CutsClosing(rules, FRESH, head + (Encoded(chunks) + LAST), k) <==> |head| <= k && AtGap(chunks, k - |head|)
  {
    hide Head, AwaitsChunks, Encoded, Fits, AtGap, Parse;
    if k < |head| {
      CutInHead(rules, head, h, Encoded(chunks) + LAST, k);
    } else {
      WireStops(rules, head, h, chunks, k - |head|, k);
    }
  }

  /** Packet `i` brings data and starts in a gap. */
  predicate GapBefore(head: string, chunks: seq<string>, packets: seq<string>, i: nat)
    requires i <= |packets|
  {
    var k := |Concat(packets[..i])|;
    |head| <= k < |Concat(packets)| && AtGap(chunks, k - |head|)
  }

  ghost predicate Gapped(head: string, chunks: seq<string>, packets: seq<string>) {
    exists i :: 1 <= i < |packets| && GapBefore(head, chunks, packets, i)
  }

  lemma CutBeforeIsGap(rules: Rules, head: string, h: Parser, chunks: seq<string>, packets: seq<string>, i: nat)
    requires Fits(rules, chunks) && Head(rules, head, h) && AwaitsChunks(rules, h)
    requires Concat(packets) == head + (Encoded(chunks) + LAST) && i <= |packets|
    ensures CutBefore(rules, FRESH, packets, i) <==> GapBefore(head, chunks, packets, i)
  {
    PrefixLength(packets, i);
    CutIsGap(rules, head, h, chunks, |Concat(packets[..i])|);
  }

  lemma CutIsGapped(rules: Rules, head: string, h: Parser, chunks: seq<string>, packets: seq<string>)
    requires Fits(rules, chunks) && Head(rules, head, h) && AwaitsChunks(rules, h)
    requires Concat(packets) == head + (Encoded(chunks) + LAST)
    ensures Cut(rules, FRESH, packets) <==> Gapped(head, chunks, packets)
  {
    forall i | 1 <= i < |packets| ensures CutBefore(rules, FRESH, packets, i) <==> GapBefore(head, chunks, packets, i) {
      CutBeforeIsGap(rules, head, h, chunks, packets, i);
    }
  }

  lemma WholeDecodes(rules: Rules, head: string, h: Parser, chunks: seq<string>)
    requires Fits(rules, chunks) && Head(rules, head, h) && AwaitsChunks(rules, h)
    ensures var r := Parse(rules, Feed(FRESH, head + (Encoded(chunks) + LAST)));
            r.outcome.Done? && r.parser.message == h.message.(body := Readable(chunks))
  {
    var wire := Encoded(chunks) + LAST;
    HeadBlank(rules, head, h);
    AwaitParse(rules, head, h, wire);
    AtEnd(head, wire);
    WrittenDecodes(rules, head + wire, BodyBehind(h), chunks);
    assert "" + Readable(chunks) == Readable(chunks);
  }

  /** A chunked request comes out as its chunks up to the first empty one, from any packets; it fails exactly when a
      packet with data starts right behind the CR that closes a chunk which is read. */
  lemma ChunkedRoundTrip(rules: Rules, head: string, h: Parser, chunks: seq<string>, packets: seq<string>)
    requires Fits(rules, chunks) && Head(rules, head, h) && AwaitsChunks(rules, h)
    requires Concat(packets) == head + (Encoded(chunks) + LAST)
    ensures var r := Run(rules, FRESH, packets);
            if Gapped(head, chunks, packets) then r.outcome == Error(AppendOverflow)
            else r.outcome.Done? && r.parser.message == h.message.(body := Readable(chunks))
  {
    WholeDecodes(rules, head, h, chunks);
    CutIsGapped(rules, head, h, chunks, packets);
    if Cut(rules, FRESH, packets) {
      CutRun(rules, FRESH, packets);
    } else {
      UncutRun(rules, FRESH, packets);
    }
  }

  /** With no empty chunk, all that was written comes back. */
  lemma NonEmptyRoundTrip(rules: Rules, head: string, h: Parser, chunks: seq<string>, packets: seq<string>)
    requires Fits(rules, chunks) && Head(rules, head, h) && AwaitsChunks(rules, h) && "" !in chunks
    requires Concat(packets) == head + (Encoded(chunks) + LAST)
    ensures var r := Run(rules, FRESH, packets);
            if Gapped(head, chunks, packets) then r.outcome == Error(AppendOverflow)
            else r.outcome.Done? && r.parser.message == h.message.(body := Concat(chunks))
  {
    ReadableIsAll(chunks);
    ChunkedRoundTrip(rules, head, h, chunks, packets);
  }

  lemma TwoPackets(a: string, b: string)
    ensures Concat([a, b]) == a + b && Concat([a, b][..1]) == a
  {
    assert [a, b][1..] == [b] && [b][1..] == [] && b + "" == b;
    assert Concat([b]) == b + Concat([]);
    assert Concat([a, b]) == a + Concat([b]);
    assert [a, b][..1] == [a] && [a][1..] == [] && a + "" == a;
  }

  /** Two packets that meet in a gap fail, whatever was written. */
  lemma GapFails(rules: Rules, head: string, h: Parser, chunks: seq<string>, k: nat)
    requires Fits(rules, chunks) && k < |Encoded(chunks) + LAST| && AtGap(chunks, k)
    requires Head(rules, head, h) && AwaitsChunks(rules, h)
    ensures var wire := Encoded(chunks) + LAST;
            Run(rules, FRESH, [head + wire[..k], wire[k..]]).outcome == Error(AppendOverflow)
  {
    var wire := Encoded(chunks) + LAST;
    var first, second := head + wire[..k], wire[k..];
    SplitWire(head, wire, k);
    TwoPackets(first, second);
    assert GapBefore(head, chunks, [first, second], 1);
    ChunkedRoundTrip(rules, head, h, chunks, [first, second]);
  }

  lemma SplitWire(head: string, wire: string, k: nat)
    requires k <= |wire|
    ensures (head + wire[..k]) + wire[k..] == head + wire
    ensures |head + wire[..k]| == |head| + k && |wire[k..]| == |wire| - k
  {
  }

  /** The smallest failing request: a chunked body of one byte, in two packets that meet before its line feed. */
  lemma OneByteFails(rules: Rules)
    requires KnowsChunked(rules) && 0 < rules.maxReserve < U64
    ensures Run(rules, FRESH, [CHUNKED_HEAD + "1\r\na\r", "\n0\r\n\r\n"]).outcome == Error(AppendOverflow)
  {
    var h := ChunkedHead(rules);
    OneByteWire();
    GapFails(rules, CHUNKED_HEAD, h, ["a"], 5);
  }

  lemma OneByteWire()
    ensures var wire := Encoded(["a"]) + LAST; wire[..5] == "1\r\na\r" && wire[5..] == "\n0\r\n\r\n" && AtGap(["a"], 5)
  {
    assert Hex(1) == "1";
    assert ChunkText("a") == "1\r\na\r\n";
    assert Encoded(["a"][1..]) == "";
    assert Encoded(["a"]) + LAST == "1\r\na\r" + "\n0\r\n\r\n";
  }
}
