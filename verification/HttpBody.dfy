/** The body machines of http.cc: by Content-Length and chunked (section 7.1 of RFC 9112).

  Unlike the other steps they keep what they consumed, with counters that survive from one packet
  to the next.
 */
module HttpBody {
  import opened HttpMessage
  import opened HttpScan
  import opened Options

  /** Chunk::size == -1 is `NoChunk`; otherwise the size and `alreadyAppendedChunkBytes`. */
  datatype Chunk = NoChunk | Chunk(size: nat, already: nat)

  datatype Body = Body(pos: nat, text: string, bytesRead: nat, chunk: Chunk)

  datatype Outcome = More | Done | Error(error: Error)

  datatype BodyResult = BodyResult(body: Body, outcome: Outcome)

  predicate IsHex(c: char) {
    '0' <= c <= '9' || 'a' <= c <= 'f' || 'A' <= c <= 'F'
  }

  function HexValue(c: char): (v: nat)
    ensures v < 16
  {
    if '0' <= c <= '9' then (c - '0') as nat
    else if 'a' <= c <= 'f' then (c - 'a') as nat + 10
    else if 'A' <= c <= 'F' then (c - 'A') as nat + 10
    else 0
  }

  /** How many hexadecimal digits `s` starts with. */
  function HexLength(s: string): (n: nat)
    ensures n <= |s|
    decreases s
  {
    if s == "" || !IsHex(s[0]) then 0 else 1 + HexLength(s[1..])
  }

  /** The number written in hexadecimal, most significant digit first. */
  function HexNumber(s: string): nat
  {
    if s == "" then 0 else 16 * HexNumber(s[..|s| - 1]) + HexValue(s[|s| - 1])
  }

  /** `from_chars(.., 16)` on a chunk-size line, which must be followed by a carriage return. */
  function ChunkSize(line: string): Option<nat> {
    var h := HexLength(line);
    if h == 0 || HexNumber(line[..h]) >= 0x1_0000_0000_0000_0000 then None
    else if h < |line| && line[h] != CR then None
    else Some(HexNumber(line[..h]))
  }

  /** How much of a body of `n` bytes is still to come, in the 64-bit arithmetic of the code. */
  function StillToRead(n: u64, bytesRead: nat): (r: u64) {
    (n - bytesRead) % U64
  }

  function ByLength(b: string, s: Body, n: u64): (r: BodyResult)
    requires s.pos <= |b|
    ensures s.pos <= r.body.pos <= |b|
  {
    var available, need := |b| - s.pos, StillToRead(n, s.bytesRead);
    if available < need then
      BodyResult(s.(pos := |b|, text := s.text + b[s.pos..], bytesRead := (s.bytesRead + available) % U64), More)
    else
      BodyResult(s.(pos := s.pos + need, text := s.text + b[s.pos..s.pos + need], bytesRead := 0), Done)
  }

  /** Chunk data up to and including its closing CR LF. The closing bytes are skipped unread. */
  function ChunkData(rules: Rules, b: string, s: Body): (r: BodyResult)
    requires s.pos <= |b| && s.chunk.Chunk?
    ensures s.pos <= r.body.pos <= |b|
    decreases |b| - s.pos, 0
  {
    var size, already := s.chunk.size, s.chunk.already;
    var available := |b| - s.pos;
    if size == 0 then BodyResult(s.(chunk := NoChunk), Done)
    else if size > rules.maxReserve then BodyResult(s.(chunk := NoChunk), Error(ReserveRefused))
    else if available + already < size + 2 then
      BodyResult(s.(pos := |b|, text := s.text + b[s.pos..], chunk := Chunk(size, already + available)), More)
    else if size < already then
      BodyResult(s.(pos := |b|, chunk := NoChunk), Error(AppendOverflow))
    else
      var end := s.pos + (size - already);
      var next := s.(pos := end + 2, text := s.text + b[s.pos..end], chunk := NoChunk);
      if end + 2 == |b| then BodyResult(next, More) else Chunks(rules, b, next)
  }

  /** The chunk loop. */
  function Chunks(rules: Rules, b: string, s: Body): (r: BodyResult)
    requires s.pos <= |b|
    ensures s.pos <= r.body.pos <= |b|
    decreases |b| - s.pos, 1
  {
    if s.chunk.Chunk? then ChunkData(rules, b, s)
    else
      var e := FindEol(b, s.pos);
      if e == |b| then BodyResult(s, More)
      else match ChunkSize(b[s.pos..e])
           case None => BodyResult(s, Error(BadChunkSize))
           case Some(size) => ChunkData(rules, b, s.(pos := e + 2, chunk := Chunk(size, 0)))
  }

  /** After the size line at `e` the data comes next. */
  lemma SizeKnown(rules: Rules, b: string, s: Body, e: nat, size: nat)
    requires s.pos <= |b| && s.chunk.NoChunk? && e == FindEol(b, s.pos) < |b| && ChunkSize(b[s.pos..e]) == Some(size)
    ensures Chunks(rules, b, s) == ChunkData(rules, b, s.(pos := e + 2, chunk := Chunk(size, 0)))
  {
  }

  lemma SizeRefused(rules: Rules, b: string, s: Body)
    requires s.pos <= |b| && s.chunk.Chunk? && s.chunk.size > rules.maxReserve
    ensures ChunkData(rules, b, s) == BodyResult(s.(chunk := NoChunk), Error(ReserveRefused))
  {
  }

  /** `BodyStep::apply` for the typed headers `typed`. */
  function BodyStep(rules: Rules, b: string, s: Body, typed: map<string, string>): (r: BodyResult)
    requires s.pos <= |b|
    ensures s.pos <= r.body.pos <= |b|
  {
    var byLength, byChunks := "content-length" in typed, "transfer-encoding" in typed;
    if byLength && byChunks then BodyResult(s, Error(LengthAndEncoding))
    else if byLength then ByLength(b, s, rules.contentLength(typed["content-length"]))
    else if !byChunks then BodyResult(s, Done)
    else if rules.chunked(typed["transfer-encoding"]) then Chunks(rules, b, s)
    else BodyResult(s, Error(UnsupportedEncoding))
  }

  /** The carriage return that closes a chunk's data has been taken for data, and its line feed has not arrived. */
  predicate Torn(s: Body) {
    s.chunk.Chunk? && s.chunk.already > s.chunk.size
  }

  // ---------------------------------------------------------------------------------------------
  // Stopping in the middle and resuming is the same as not stopping
  // ---------------------------------------------------------------------------------------------

  /** A settled body stays as it is however much data follows; an unsettled one can be resumed. */
  ghost predicate Resumes(r: BodyResult, resumed: BodyResult, whole: BodyResult) {
    if r.outcome.More? then resumed == whole else whole == r
  }

  lemma StillToReadStep(n: u64, bytesRead: nat, a: nat)
    requires a < StillToRead(n, bytesRead)
    ensures StillToRead(n, (bytesRead + a) % U64) == StillToRead(n, bytesRead) - a
  {
  }

  /** Text taken from `b` and then from the rest of `d` is text taken from `d`. */
  lemma TakeOn(b: string, d: string, text: string, p: nat, end: nat)
    requires b <= d && p <= |b| <= end <= |d|
    ensures (text + b[p..]) + d[|b|..end] == text + d[p..end]
  {
    assert d[p..end] == b[p..] + d[|b|..end];
  }

  lemma CountOn(r: nat, a: nat, c: nat)
    ensures ((r + a) % U64 + c) % U64 == (r + (a + c)) % U64
  {
  }

  /** A body that ran out of data. */
  lemma ShortResumes(b: string, d: string, s: Body, n: u64)
    requires b <= d && s.pos <= |b| && |b| - s.pos < StillToRead(n, s.bytesRead)
    ensures ByLength(d, ByLength(b, s, n).body, n) == ByLength(d, s, n)
  {
    var a, need := |b| - s.pos, StillToRead(n, s.bytesRead);
    StillToReadStep(n, s.bytesRead, a);
    hide StillToRead;
    if s.pos + need <= |d| {
      TakeOn(b, d, s.text, s.pos, s.pos + need);
    } else {
      TakeOn(b, d, s.text, s.pos, |d|);
      CountOn(s.bytesRead, a, |d| - |b|);
    }
  }

  lemma ByLengthResumes(b: string, d: string, s: Body, n: u64)
    requires b <= d && s.pos <= |b|
    ensures Resumes(ByLength(b, s, n), ByLength(d, ByLength(b, s, n).body, n), ByLength(d, s, n))
  {
    hide StillToRead;
    var need := StillToRead(n, s.bytesRead);
    if |b| - s.pos < need {
      ShortResumes(b, d, s, n);
    } else {
      SliceExtend(b, d, s.pos, s.pos + need);
    }
  }

  /** Chunk data that ran out before its closing CR LF was complete. */
  lemma PartialResumes(rules: Rules, b: string, d: string, s: Body)
    requires b <= d && s.pos <= |b| && s.chunk.Chunk? && !Torn(s)
    requires 0 < s.chunk.size <= rules.maxReserve && |b| - s.pos + s.chunk.already < s.chunk.size + 2
    requires !(Torn(ChunkData(rules, b, s).body) && b != d)
    ensures ChunkData(rules, d, ChunkData(rules, b, s).body) == ChunkData(rules, d, s)
  {
    var r := ChunkData(rules, b, s).body;
    var end := s.pos + (s.chunk.size - s.chunk.already);
    assert r == s.(pos := |b|, text := s.text + b[s.pos..], chunk := Chunk(s.chunk.size, s.chunk.already + (|b| - s.pos)));
    TakeOn(b, d, s.text, s.pos, |d|);
    if |d| >= end + 2 && |b| <= end {
      TakeOn(b, d, s.text, s.pos, end);
    }
  }

  lemma {:induction false} ChunkDataResumes(rules: Rules, b: string, d: string, s: Body)
    requires b <= d && s.pos <= |b| && s.chunk.Chunk? && !Torn(s)
    requires var r := ChunkData(rules, b, s); !(r.outcome.More? && Torn(r.body) && b != d)
    ensures var r := ChunkData(rules, b, s);
            Resumes(r, Chunks(rules, d, r.body), ChunkData(rules, d, s))
    decreases |b| - s.pos, 0
  {
    var size, already, r := s.chunk.size, s.chunk.already, ChunkData(rules, b, s);
    if size == 0 || size > rules.maxReserve {
    } else if |b| - s.pos + already < size + 2 {
      PartialResumes(rules, b, d, s);
      assert Chunks(rules, d, r.body) == ChunkData(rules, d, r.body);
    } else {
      var end := s.pos + (size - already);
      SliceExtend(b, d, s.pos, end);
      var next := s.(pos := end + 2, text := s.text + b[s.pos..end], chunk := NoChunk);
      if end + 2 < |b| {
        ChunksResume(rules, b, d, next);
        assert r == Chunks(rules, b, next) && ChunkData(rules, d, s) == Chunks(rules, d, next);
      } else {
        assert r == BodyResult(next, More);
        if |b| == |d| {
          assert Chunks(rules, d, next) == BodyResult(next, More);
        } else {
          assert ChunkData(rules, d, s) == Chunks(rules, d, next);
        }
      }
    }
  }

  lemma {:induction false} ChunksResume(rules: Rules, b: string, d: string, s: Body)
    requires b <= d && s.pos <= |b| && !Torn(s)
    requires var r := Chunks(rules, b, s); !(r.outcome.More? && Torn(r.body) && b != d)
    ensures var r := Chunks(rules, b, s); Resumes(r, Chunks(rules, d, r.body), Chunks(rules, d, s))
    decreases |b| - s.pos, 1
  {
    hide ChunkSize, ChunkData;
    var r := Chunks(rules, b, s);
    if s.chunk.Chunk? {
      ChunkDataResumes(rules, b, d, s);
    } else {
      var e := FindEol(b, s.pos);
      if e == |b| {
        assert r == BodyResult(s, More);
      } else {
        FindEolExtend(b, d, s.pos);
        SliceExtend(b, d, s.pos, e);
        assert FindEol(d, s.pos) == e;
        var size := ChunkSize(b[s.pos..e]);
        if size.None? {
          assert r == BodyResult(s, Error(BadChunkSize)) == Chunks(rules, d, s);
        } else {
          var started := s.(pos := e + 2, chunk := Chunk(size.value, 0));
          assert r == ChunkData(rules, b, started) && Chunks(rules, d, s) == ChunkData(rules, d, started);
          ChunkDataResumes(rules, b, d, started);
        }
      }
    }
  }

  lemma BodyStepResumes(rules: Rules, b: string, d: string, s: Body, typed: map<string, string>)
    requires b <= d && s.pos <= |b| && !Torn(s)
    requires var r := BodyStep(rules, b, s, typed); !(r.outcome.More? && Torn(r.body) && b != d)
    ensures var r := BodyStep(rules, b, s, typed);
            Resumes(r, BodyStep(rules, d, r.body, typed), BodyStep(rules, d, s, typed))
  {
    var byLength, byChunks := "content-length" in typed, "transfer-encoding" in typed;
    if byLength && !byChunks {
      ByLengthResumes(b, d, s, rules.contentLength(typed["content-length"]));
    } else if !byLength && byChunks && rules.chunked(typed["transfer-encoding"]) {
      ChunksResume(rules, b, d, s);
    }
  }

  /** Only a torn chunk can end in the append error. */
  lemma {:induction false} OnlyTornOverflows(rules: Rules, b: string, s: Body)
    requires s.pos <= |b| && !Torn(s)
    ensures Chunks(rules, b, s).outcome != Error(AppendOverflow)
    decreases |b| - s.pos
  {
    var s1 := s;
    if s.chunk.NoChunk? {
      var e := FindEol(b, s.pos);
      if e == |b| || ChunkSize(b[s.pos..e]).None? {
        return;
      }
      s1 := s.(pos := e + 2, chunk := Chunk(ChunkSize(b[s.pos..e]).value, 0));
    }
    var end := s1.pos + (s1.chunk.size - s1.chunk.already);
    if 0 < s1.chunk.size && s1.chunk.already <= s1.chunk.size && end + 2 < |b| {
      OnlyTornOverflows(rules, b, s1.(pos := end + 2, text := s1.text + b[s1.pos..end], chunk := NoChunk));
    }
  }

  /** What a torn chunk looks like: all data consumed, exactly one byte too many appended. */
  predicate TornAtEnd(rules: Rules, b: string, s: Body) {
    && s.pos == |b| && s.chunk.Chunk?
    && 0 < s.chunk.size <= rules.maxReserve && s.chunk.already == s.chunk.size + 1
  }

  lemma {:induction false} TornShape(rules: Rules, b: string, s: Body)
    requires s.pos <= |b| && !Torn(s)
    requires var r := Chunks(rules, b, s); r.outcome.More? && Torn(r.body)
    ensures TornAtEnd(rules, b, Chunks(rules, b, s).body)
    decreases |b| - s.pos, 1
  {
    if s.chunk.Chunk? {
      TornShapeData(rules, b, s);
    } else {
      var e := FindEol(b, s.pos);
      TornShapeData(rules, b, s.(pos := e + 2, chunk := Chunk(ChunkSize(b[s.pos..e]).value, 0)));
    }
  }

  lemma {:induction false} TornShapeData(rules: Rules, b: string, s: Body)
    requires s.pos <= |b| && s.chunk.Chunk? && !Torn(s)
    requires var r := ChunkData(rules, b, s); r.outcome.More? && Torn(r.body)
    ensures TornAtEnd(rules, b, ChunkData(rules, b, s).body)
    decreases |b| - s.pos, 0
  {
    var end := s.pos + (s.chunk.size - s.chunk.already);
    if end + 2 < |b| {
      TornShape(rules, b, s.(pos := end + 2, text := s.text + b[s.pos..end], chunk := NoChunk));
    }
  }

  /** A torn chunk waits for data, and fails on the first byte of it. */
  lemma TornFate(rules: Rules, b: string, d: string, s: Body)
    requires TornAtEnd(rules, b, s) && b <= d
    ensures Chunks(rules, d, s) ==
            if b == d then BodyResult(s, More) else BodyResult(s.(pos := |d|, chunk := NoChunk), Error(AppendOverflow))
  {
    if b == d {
      assert s.text + d[s.pos..] == s.text;
    }
  }
}
