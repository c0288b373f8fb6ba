/** `RequestParser`: the buffer, the cursor and the three steps, as they move.

  A thrown `HttpError` or `std::exception` is a returned error; the destructor of a
  `StreamCursor::Revert` is the assignment that puts the read pointer back.
 */
module RequestParser {
  import opened HttpMessage
  import opened HttpScan
  import opened HttpBody
  import opened HttpParserSpec
  import opened HttpSession
  import opened Options

  datatype ChunkResult = Complete | Incomplete | Final | Throw(error: Error)

  const I64: int := 0x8000_0000_0000_0000

  /** A step that saw `x` ended with `status`, turned message `m` into `m'`, and stands at `p` when it succeeded. */
  ghost predicate Did(x: Scan, m: Message, status: Status, m': Message, p: nat) {
    status == x.status && m' == Apply(m, x.effects) && (status.Next? ==> p == x.pos)
  }

  lemma DidFirst(e: Effect, x: Scan, m: Message, status: Status, m': Message, p: nat)
    requires Did(x, ApplyOne(m, e), status, m', p)
    ensures Did(Prepend([e], x), m, status, m', p)
  {
    ApplyFirst(m, e, x);
  }

  lemma DidAfter(es: seq<Effect>, x: Scan, m: Message, status: Status, m': Message, p: nat)
    requires Did(x, Apply(m, es), status, m', p)
    ensures Did(Prepend(es, x), m, status, m', p)
  {
    ApplyConcat(m, es, x.effects);
  }

  /** `static_cast<ssize_t>` of a `size_t`. */
  function Signed(n: u64): int {
    if n < I64 then n else n - U64
  }

  class Parser {
    const rules: Rules
    const maxSize: nat
    var bytes: string
    var gptr: nat
    var currentStep: nat
    var request: Message
    var bytesRead: nat
    var chunkSize: int
    var chunkAppended: nat

    ghost predicate Buffered()
      reads this
    {
      && gptr <= |bytes| <= maxSize < I64 && currentStep < 3 && rules.maxReserve < I64
      && (chunkSize >= 0 ==> chunkAppended <= chunkSize + 1)
    }

    ghost predicate Valid()
      reads this
    {
      Buffered() && -1 <= chunkSize
    }

    function StageOf(): Stage
      reads this
    {
      if currentStep == 0 then LineStage else if currentStep == 1 then HeaderStage else BodyStage
    }

    function View(): HttpParserSpec.Parser
      reads this
    {
      Parser(bytes, gptr, StageOf(), request, bytesRead,
             if chunkSize < 0 then NoChunk else Chunk(chunkSize, chunkAppended))
    }

    constructor (rules: Rules, maxSize: nat)
      requires maxSize < I64 && rules.maxReserve < I64
      ensures Valid() && View() == FRESH && this.rules == rules && this.maxSize == maxSize
    {
      this.rules, this.maxSize := rules, maxSize;
      bytes, gptr, currentStep, request := "", 0, 0, BLANK;
      bytesRead, chunkSize, chunkAppended := 0, -1, 0;
    }

    /** `ArrayStreamBuf::feed`: refused, and nothing kept, when the buffer would grow too long. */
    method FeedBytes(data: string) returns (ok: bool)
      requires Valid()
      modifies this`bytes
      ensures Valid() && ok == (|old(bytes)| + |data| <= maxSize)
      ensures View() == if ok then Feed(old(View()), data) else old(View())
    {
      if |bytes| + |data| > maxSize {
        return false;
      }
      bytes := bytes + data;
      ok := true;
    }

    /** `ParserBase::reset` and `request = Request()`: the counters of the body step are not touched. */
    method Reset()
      requires Valid()
      modifies this
      ensures Valid()
      ensures View() == FRESH.(bytesRead := old(bytesRead), chunk := old(View()).chunk)
      ensures View() == FRESH <==> old(bytesRead) == 0 && old(chunkSize) == -1
    {
      bytes, gptr, currentStep := "", 0, 0;
      request := BLANK;
    }

    /** `StreamCursor::advance`: a count that is negative as a signed number passes the check and drains the buffer. */
    method Advance(count: u64) returns (ok: bool)
      requires Buffered()
      modifies this`gptr
      ensures Buffered()
      ensures ok == !(|bytes| - old(gptr) < count < I64)
      ensures gptr == if !ok then old(gptr) else if count < I64 then old(gptr) + count else |bytes|
    {
      if Signed(count) > |bytes| - gptr {
        return false;
      }
      gptr := if count <= |bytes| - gptr then gptr + count else |bytes|;
      ok := true;
    }

    /** `match_until`: moves to the first stop, or to the end of the data. */
    method MatchUntil(stops: set<char>) returns (ok: bool)
      requires Valid()
      modifies this`gptr
      ensures Valid() && gptr == Find(bytes, old(gptr), stops) && ok == (gptr < |bytes|)
    {
      while gptr < |bytes|
        invariant Valid() && Find(bytes, gptr, stops) == Find(bytes, old(gptr), stops)
      {
        if bytes[gptr] in stops {
          return true;
        }
        gptr := gptr + 1;
      }
      ok := false;
    }

    // -------------------------------------------------------------------------------------------
    // RequestLineStep
    // -------------------------------------------------------------------------------------------

    method Version() returns (status: Status)
      requires Valid()
      modifies this`gptr, this`request
      ensures Valid()
      ensures Did(VersionScan(bytes, old(gptr)), old(request), status, request, gptr)
    {
      var start := gptr;
      var ok := ToEol();
      if !ok {
        return Again;
      }
      var text := bytes[start..gptr];
      if StrncmpEqual(text, "HTTP/1.0") {
        request := request.(version := Some(Http10));
      } else if StrncmpEqual(text, "HTTP/1.1") {
        request := request.(version := Some(Http11));
      } else {
        return Failed(BadVersion);
      }
      ok := Advance(2);
      status := if ok then Next else Again;
    }

    /** One round of the query loop. */
    method Parameter() returns (ok: bool, ghost e: Effect)
      requires Valid() && Current(bytes, gptr) != ' '
      modifies this`gptr, this`request
      ensures Valid() && Took(bytes, old(gptr), ok, e, gptr)
      ensures request == if ok then ApplyOne(old(request), e) else old(request)
    {
      var keyStart, value := gptr, "";
      e := AddQuery("", "");
      ok := MatchUntil({'=', ' ', '&'});
      if !ok {
        return;
      }
      var key := bytes[keyStart..gptr];
      ghost var keyEnd := gptr;
      ok, value := AfterKey(key);
      e := AddQuery(key, value);
      if ok {
        TookParameter(bytes, keyStart, keyEnd, gptr, value);
      } else {
        ShortValue(bytes, keyStart, keyEnd);
      }
    }

    /** The three ways on from a key that ends at the read pointer. */
    method AfterKey(key: string) returns (ok: bool, value: string)
      requires Valid() && gptr < |bytes| && bytes[gptr] in {'=', ' ', '&'}
      modifies this`gptr, this`request
      ensures Valid()
      ensures if ok then ParameterAt(bytes, old(gptr), gptr, value) && request == ApplyOne(old(request), AddQuery(key, value))
              else bytes[old(gptr)] == '=' && Find(bytes, old(gptr) + 1, {' ', '&'}) == |bytes| && request == old(request)
    {
      var c := bytes[gptr];
      ok, value := true, "";
      if c == ' ' {
        request := request.(query := Insert(request.query, key, ""));
      } else if c == '&' {
        request := request.(query := Insert(request.query, key, ""));
        ok := Advance(1);
      } else {
        ok, value := TakeValue();
        if !ok {
          return;
        }
        request := request.(query := Insert(request.query, key, value));
        if bytes[gptr] == '&' {
          ok := Advance(1);
        }
      }
    }

    /** The value after the `=` at the read pointer. */
    method TakeValue() returns (ok: bool, value: string)
      requires Valid() && gptr < |bytes|
      modifies this`gptr
      ensures Valid() && old(gptr) < gptr == Find(bytes, old(gptr) + 1, {' ', '&'})
      ensures ok == (gptr < |bytes|) && (ok ==> value == bytes[old(gptr) + 1..gptr])
    {
      ok := Advance(1);
      var valueStart := gptr;
      ok := MatchUntil({' ', '&'});
      value := bytes[valueStart..gptr];
    }

    /** The query loop, up to the blank before the version. */
    method Parameters() returns (ok: bool, ghost es: seq<Effect>)
      requires Valid()
      modifies this`gptr, this`request
      ensures Valid() && request == Apply(old(request), es)
      ensures var x := QueryScan(bytes, old(gptr));
              if ok then gptr < |bytes| && x == Prepend(es, VersionScan(bytes, gptr + 1)) else x.status.Again? && x.effects == es
    {
      es := [];
      ghost var start := gptr;
      while Current(bytes, gptr) != ' '
        invariant Valid() && request == Apply(old(request), es)
        invariant QueryScan(bytes, start) == Prepend(es, QueryScan(bytes, gptr))
        decreases |bytes| - gptr
      {
        ghost var e;
        ok, e := Parameter();
        if !ok {
          assert es + [] == es;
          return;
        }
        ApplyAnother(old(request), es, e);
        PrependPrepend(es, [e], QueryScan(bytes, gptr));
        es := es + [e];
      }
      ok := true;
    }

    method Query() returns (status: Status)
      requires Valid()
      modifies this`gptr, this`request
      ensures Valid()
      ensures Did(QueryScan(bytes, old(gptr)), old(request), status, request, gptr)
    {
      var ok;
      ghost var es;
      ok, es := Parameters();
      if !ok {
        return Again;
      }
      ghost var x := VersionScan(bytes, gptr + 1);
      ok := Advance(1);
      status := Version();
      DidAfter(es, x, old(request), status, request, gptr);
    }

    method Resource() returns (status: Status)
      requires Valid()
      modifies this`gptr, this`request
      ensures Valid()
      ensures Did(ResourceScan(bytes, old(gptr)), old(request), status, request, gptr)
    {
      var start := gptr;
      while Current(bytes, gptr) != '?' && Current(bytes, gptr) != ' '
        invariant Valid() && start <= gptr && request == old(request)
        invariant Find(bytes, gptr, {'?', ' '}) == Find(bytes, start, {'?', ' '})
        decreases |bytes| - gptr
      {
        var ok := Advance(1);
        if !ok {
          return Again;
        }
      }
      assert ResourceScan(bytes, start) == ResourceEnd(bytes, start, gptr);
      status := AfterResource(start);
    }

    method AfterResource(start: nat) returns (status: Status)
      requires Valid() && start <= gptr < |bytes|
      modifies this`gptr, this`request
      ensures Valid()
      ensures Did(ResourceEnd(bytes, start, old(gptr)), old(request), status, request, gptr)
    {
      ghost var x := if bytes[gptr] == '?' then QueryScan(bytes, gptr + 1) else VersionScan(bytes, gptr + 1);
      ghost var e, m := SetResource(bytes[start..gptr]), request;
      assert ResourceEnd(bytes, start, gptr) == Prepend([e], x);
      request := request.(resource := Some(bytes[start..gptr]));
      var query := bytes[gptr] == '?';
      var ok := Advance(1);
      if query {
        status := Query();
      } else {
        status := Version();
      }
      DidFirst(e, x, m, status, request, gptr);
    }

    method RequestLineUnreverted() returns (status: Status)
      requires Valid()
      modifies this`gptr, this`request
      ensures Valid()
      ensures Did(RequestLine(rules, bytes, old(gptr)), old(request), status, request, gptr)
    {
      hide RequestLine, ResourceScan, Find;
      var start := gptr;
      var ok := MatchUntil({' '});
      MethodToken(rules, bytes, start);
      if !ok {
        return Again;
      }
      var name := bytes[start..gptr];
      if name !in rules.methods {
        return Failed(UnknownMethod);
      }
      ghost var x := ResourceScan(bytes, gptr + 1);
      request := request.(verb := Some(name));
      ok := Advance(1);
      status := Resource();
      DidFirst(SetMethod(name), x, old(request), status, request, gptr);
    }

    method RequestLineStep() returns (status: Status)
      requires Valid()
      modifies this`gptr, this`request
      ensures Valid()
      ensures var x := RequestLine(rules, bytes, old(gptr));
              && status == x.status && request == Apply(old(request), x.effects)
              && gptr == if status.Next? then x.pos else old(gptr)
    {
      var revert := gptr;
      status := RequestLineUnreverted();
      if !status.Next? {
        gptr := revert;
      }
    }

    // -------------------------------------------------------------------------------------------
    // HeadersStep
    // -------------------------------------------------------------------------------------------

    /** One header line. */
    method Header() returns (status: Status, ghost es: seq<Effect>)
      requires Valid() && !Eol(bytes, gptr)
      modifies this`gptr, this`request
      ensures Valid()
      ensures !status.Next? ==> Headers(rules, bytes, old(gptr)) == Scan([], status, old(gptr)) && request == old(request)
      ensures status.Next? ==> Headers(rules, bytes, old(gptr)) == Prepend(es, Headers(rules, bytes, gptr)) && gptr > old(gptr)
      ensures status.Next? ==> request == Apply(old(request), es)
    {
      var start := gptr;
      es := [];
      while Current(bytes, gptr) != ':'
        invariant Valid() && start <= gptr && request == old(request)
        invariant Find(bytes, gptr, {':'}) == Find(bytes, start, {':'})
        decreases |bytes| - gptr
      {
        var ok := Advance(1);
        if !ok {
          return Again, es;
        }
      }
      assert Headers(rules, bytes, start) == HeaderLine(rules, bytes, start, gptr);
      status, es := HeaderValue(start);
    }

    /** The rest of a header line whose name ends at the read pointer. */
    method HeaderValue(start: nat) returns (status: Status, ghost es: seq<Effect>)
      requires Valid() && start <= gptr < |bytes|
      modifies this`gptr, this`request
      ensures Valid()
      ensures var x := HeaderLine(rules, bytes, start, old(gptr));
              if status.Next? then x == Prepend(es, Headers(rules, bytes, gptr)) && gptr > old(gptr) && request == Apply(old(request), es)
              else x == Scan([], status, start) && request == old(request)
    {
      hide HeaderLine, Headers, Find, FindEol, SkipSpaces, HeaderEffects, Apply;
      ghost var colon := gptr;
      es := [];
      var ok := Advance(1);
      var name := bytes[start..gptr - 1];
      SkipBlanks();
      var valueStart := gptr;
      ok := ToEol();
      if !ok {
        ShortLine(rules, bytes, start, colon, valueStart);
        return Again, es;
      }
      ghost var end := gptr;
      status, es := StoreHeader(name, bytes[valueStart..gptr]);
      if !status.Next? {
        RefusedLine(rules, bytes, start, colon, valueStart, end);
        return;
      }
      StoredLine(rules, bytes, start, colon, valueStart, end, es);
      ok := Advance(2);
    }

    /** `while (cursor.current() == ' ')`. */
    method SkipBlanks()
      requires Valid()
      modifies this`gptr
      ensures Valid() && old(gptr) <= gptr == SkipSpaces(bytes, old(gptr))
    {
      while Current(bytes, gptr) == ' '
        invariant Valid() && old(gptr) <= gptr && SkipSpaces(bytes, gptr) == SkipSpaces(bytes, old(gptr))
        decreases |bytes| - gptr
      {
        var ok := Advance(1);
      }
    }

    /** The loop that every line reader ends with. */
    method ToEol() returns (ok: bool)
      requires Valid()
      modifies this`gptr
      ensures Valid() && old(gptr) <= gptr
      ensures if ok then gptr == FindEol(bytes, old(gptr)) < |bytes| else FindEol(bytes, old(gptr)) == |bytes|
    {
      while !Eol(bytes, gptr)
        invariant Valid() && old(gptr) <= gptr && FindEol(bytes, gptr) == FindEol(bytes, old(gptr))
        decreases |bytes| - gptr
      {
        ok := Advance(1);
        if !ok {
          return;
        }
      }
      ok := true;
    }

    /** The typed store of one header. A throwing parser ends the message, so what it left behind is not tracked. */
    method StoreKnown(name: string, value: string) returns (ok: bool, ghost first: seq<Effect>)
      requires Valid()
      modifies this`request
      ensures Valid()
      ensures HeaderEffects(rules, name, value) == if ok then Some(first + [AddRaw(name, value)]) else None
      ensures request == if ok then Apply(old(request), first) else old(request)
    {
      ok, first := true, [];
      if Lower(name) == "cookie" {
        var cookies := rules.cookies(value);
        if cookies.None? {
          return false, [];
        }
        request := request.(cookies := JarAll(map[], cookies.value));
        first := [ReplaceCookies(cookies.value)];
      } else if Lower(name) == "set-cookie" {
        var cookie := rules.setCookie(value);
        if cookie.None? {
          return false, [];
        }
        request := request.(cookies := Jar(request.cookies, cookie.value));
        first := [AddCookie(cookie.value)];
      } else if rules.registered(Lower(name)) {
        if !rules.accepts(Lower(name), value) {
          return false, [];
        }
        request := request.(typed := Insert(request.typed, Lower(name), value));
        first := [AddTyped(name, value)];
      }
      SingleEffect(old(request), first, AddRaw(name, value));
    }

    method StoreHeader(name: string, value: string) returns (status: Status, ghost es: seq<Effect>)
      requires Valid()
      modifies this`request
      ensures Valid()
      ensures match HeaderEffects(rules, name, value)
              case None => status == Failed(BadHeader) && request == old(request)
              case Some(fs) => status == Next && es == fs && request == Apply(old(request), es)
    {
      var ok;
      ghost var first, m := [], request;
      ok, first := StoreKnown(name, value);
      es := first + [AddRaw(name, value)];
      if !ok {
        return Failed(BadHeader), es;
      }
      request := request.(raw := Insert(request.raw, Lower(name), (name, value)));
      ApplyAnother(m, first, AddRaw(name, value));
      status := Next;
    }

    method HeadersStep() returns (status: Status)
      requires Valid()
      modifies this`gptr, this`request
      ensures Valid()
      ensures var x := Headers(rules, bytes, old(gptr));
              && status == x.status && request == Apply(old(request), x.effects)
              && gptr == if status.Next? then x.pos else old(gptr)
    {
      var revert := gptr;
      ghost var es: seq<Effect> := [];
      while !Eol(bytes, gptr)
        invariant Valid() && request == Apply(old(request), es)
        invariant Headers(rules, bytes, revert) == Prepend(es, Headers(rules, bytes, gptr))
        decreases |bytes| - gptr
      {
        ghost var more;
        status, more := Header();
        if !status.Next? {
          gptr := revert;
          assert es + [] == es;
          return;
        }
        ApplyConcat(old(request), es, more);
        PrependPrepend(es, more, Headers(rules, bytes, gptr));
        es := es + more;
      }
      assert Headers(rules, bytes, gptr) == Scan([], Next, gptr + 2) && es + [] == es;
      var ok := Advance(2);
      status := Next;
    }

    // -------------------------------------------------------------------------------------------
    // BodyStep
    // -------------------------------------------------------------------------------------------

    /** `readBody`: takes `size` bytes, or all there is. */
    method ReadBody(size: u64) returns (complete: bool)
      requires Valid()
      modifies this`gptr, this`request, this`bytesRead
      ensures Valid() && complete == (size <= |bytes| - old(gptr))
      ensures gptr == if complete then old(gptr) + size else |bytes|
      ensures request == old(request).(body := old(request).body + bytes[old(gptr)..gptr])
      ensures bytesRead == if complete then old(bytesRead) else (old(bytesRead) + (|bytes| - old(gptr))) % U64
    {
      var token, available := gptr, |bytes| - gptr;
      if available < size {
        var ok := Advance(available);
        request := request.(body := request.body + bytes[token..gptr]);
        bytesRead := (bytesRead + available) % U64;
        return false;
      }
      var ok := Advance(size);
      request := request.(body := request.body + bytes[token..gptr]);
      complete := true;
    }

    method ParseContentLength(contentLength: u64) returns (outcome: Outcome)
      requires Valid()
      modifies this`gptr, this`request, this`bytesRead
      ensures Valid()
      ensures var r := ByLength(bytes, BodyOf(old(View())), contentLength);
              outcome == r.outcome && View() == WithBody(old(View()), r.body)
    {
      hide ByLength;
      var complete;
      ghost var s := BodyOf(View());
      LengthEnds(bytes, s, contentLength);
      if bytesRead > 0 {
        complete := ReadBody((contentLength - bytesRead) % U64);
      } else {
        complete := ReadBody(contentLength);
      }
      if !complete {
        return More;
      }
      bytesRead := 0;
      outcome := Done;
    }

    /** `Chunk::parse`, first part: the size line, unless a size is already known. */
    method ChunkHeader() returns (result: ChunkResult)
      requires Valid() && chunkSize == -1
      modifies this`gptr, this`chunkSize, this`chunkAppended
      ensures Buffered()
      ensures var e := FindEol(bytes, old(gptr));
              match result
              case Incomplete => Valid() && e == |bytes| && gptr == old(gptr) && chunkSize == -1
              case Throw(_) => Valid() && e < |bytes| && result == Throw(BadChunkSize) && ChunkSize(bytes[old(gptr)..e]).None? && gptr == old(gptr)
              case Final => false
              case Complete =>
                && e < |bytes| && gptr == e + 2 && chunkAppended == 0
                && var size := ChunkSize(bytes[old(gptr)..e]);
                   size.Some? && size.value < U64 && chunkSize == Signed(size.value)
    {
      var revert := gptr;
      var ok := ToEol();
      if !ok {
        gptr := revert;
        return Incomplete;
      }
      var size := ChunkSize(bytes[revert..gptr]);
      if size.None? {
        gptr := revert;
        return Throw(BadChunkSize);
      }
      ok := Advance(2);
      chunkSize, chunkAppended := Signed(size.value), 0;
      result := Complete;
    }

    /** `Chunk::parse`, second part, for a size that is known. */
    method ChunkBytes() returns (result: ChunkResult)
      requires Buffered() && -I64 <= chunkSize < I64
      modifies this`gptr, this`request, this`chunkAppended
      ensures Buffered()
      ensures chunkSize < 0 ==> result == Throw(ReserveRefused) && gptr == old(gptr) && request == old(request)
      ensures result.Complete? ==> gptr > old(gptr)
      ensures OnlyBody(old(request), request)
      ensures chunkSize >= 0 ==> ChunkDid(ChunkData(rules, bytes, BodyOf(old(View()))), result, BodyOf(View()))
    {
      hide Chunks;
      if chunkSize == 0 {
        return Final;
      }
      if chunkSize < 0 || chunkSize > rules.maxReserve {
        return Throw(ReserveRefused);
      }
      if |bytes| - gptr + chunkAppended < chunkSize + 2 {
        ChunkPart();
        return Incomplete;
      }
      result := ChunkRest();
    }

    /** Not enough data for the chunk and its closing line: everything that is there is appended. */
    method ChunkPart()
      requires Buffered() && 0 < chunkSize && |bytes| - gptr + chunkAppended < chunkSize + 2
      modifies this`gptr, this`request, this`chunkAppended
      ensures Buffered()
      ensures var s := BodyOf(old(View()));
              BodyOf(View()) == s.(pos := |bytes|, text := s.text + bytes[s.pos..],
                                   chunk := Chunk(chunkSize, s.chunk.already + (|bytes| - s.pos)))
      ensures OnlyBody(old(request), request)
    {
      var token, available := gptr, |bytes| - gptr;
      var ok := Advance(available);
      request := request.(body := request.body + bytes[token..gptr]);
      chunkAppended := chunkAppended + available;
    }

    /** Enough data: the rest of the chunk is appended, and its closing line skipped. */
    method ChunkRest() returns (result: ChunkResult)
      requires Buffered() && 0 < chunkSize < I64 && |bytes| - gptr + chunkAppended >= chunkSize + 2
      modifies this`gptr, this`request
      ensures Buffered()
      ensures result == if chunkSize < chunkAppended then Throw(AppendOverflow) else Complete
      ensures gptr == if chunkSize < chunkAppended then |bytes| else old(gptr) + (chunkSize - chunkAppended) + 2
      ensures request == if chunkSize < chunkAppended then old(request)
                         else old(request).(body := old(request).body + bytes[old(gptr)..gptr - 2])
    {
      var token := gptr;
      var ok := Advance((chunkSize - chunkAppended) % U64);
      if chunkSize < chunkAppended {
        ok := Advance(2);
        return Throw(AppendOverflow);
      }
      ok := Advance(2);
      request := request.(body := request.body + bytes[token..token + (chunkSize - chunkAppended)]);
      result := Complete;
    }

    /** `r` is the chunk loop from some point on; one `Chunk::parse` there gave `result` and left `after`. */
    ghost predicate ChunkDid(r: BodyResult, result: ChunkResult, after: Body)
      requires after.pos <= |bytes|
      reads this`bytes
    {
      var clear := after.(chunk := NoChunk);
      match result
      case Incomplete => r == BodyResult(after, More)
      case Final => r == BodyResult(clear, Done)
      case Throw(e) => r == BodyResult(clear, Error(e))
      case Complete => r == if after.pos == |bytes| then BodyResult(clear, More) else Chunks(rules, bytes, clear)
    }

    method ChunkParse() returns (result: ChunkResult)
      requires Valid() && chunkSize < I64
      modifies this`gptr, this`request, this`chunkSize, this`chunkAppended
      ensures Buffered() && (result.Throw? || (Valid() && chunkSize < I64))
      ensures ChunkDid(Chunks(rules, bytes, BodyOf(old(View()))), result, BodyOf(View()))
      ensures result.Complete? ==> gptr > old(gptr)
      ensures OnlyBody(old(request), request)
    {
      hide Chunks, ChunkData, FindEol, ChunkSize;
      ghost var s := BodyOf(View());
      if chunkSize == -1 {
        result := ChunkHeader();
        NoSize(rules, bytes, s);
        if !result.Complete? {
          return;
        }
        ghost var size := ChunkSize(bytes[s.pos..gptr - 2]).value;
        SizeKnown(rules, bytes, s, gptr - 2, size);
        if chunkSize < 0 {
          SizeRefused(rules, bytes, s.(pos := gptr, chunk := Chunk(size, 0)));
        }
      } else {
        SizeIs(rules, bytes, s);
      }
      assert chunkSize >= 0 ==> Chunks(rules, bytes, s) == ChunkData(rules, bytes, BodyOf(View()));
      result := ChunkBytes();
    }

    /** The loop of `parseTransferEncoding`; what it throws has already reset the chunk. */
    method ParseChunked() returns (outcome: Outcome)
      requires Valid() && chunkSize < I64
      modifies this`gptr, this`request, this`chunkSize, this`chunkAppended
      ensures Valid() && chunkSize < I64
      ensures BodyResult(BodyOf(View()), outcome) == Chunks(rules, bytes, BodyOf(old(View())))
      ensures OnlyBody(old(request), request)
    {
      ghost var whole := Chunks(rules, bytes, BodyOf(View()));
      var result := ChunkParse();
      while result.Complete?
        invariant Buffered() && (result.Throw? || (Valid() && chunkSize < I64))
        invariant ChunkDid(whole, result, BodyOf(View()))
        invariant OnlyBody(old(request), request)
        decreases |bytes| - gptr, if result.Complete? then 1 else 0
      {
        chunkSize := -1;
        if gptr == |bytes| {
          return More;
        }
        result := ChunkParse();
      }
      match result {
        case Incomplete => outcome := More;
        case Final => chunkSize := -1; outcome := Done;
        case Throw(e) => chunkSize := -1; outcome := Error(e);
      }
    }

    /** `BodyStep::apply`. */
    method BodyStepApply() returns (outcome: Outcome)
      requires Valid() && chunkSize < I64
      modifies this`gptr, this`request, this`bytesRead, this`chunkSize, this`chunkAppended
      ensures Valid() && chunkSize < I64
      ensures HttpParserSpec.Result(View(), outcome) == ParseBody(rules, old(View()))
    {
      var cl, te := "content-length" in request.typed, "transfer-encoding" in request.typed;
      if cl && te {
        return Error(LengthAndEncoding);
      }
      if cl {
        outcome := ParseContentLength(rules.contentLength(request.typed["content-length"]));
        return;
      }
      if te {
        if rules.chunked(request.typed["transfer-encoding"]) {
          outcome := ParseChunked();
          return;
        }
        return Error(UnsupportedEncoding);
      }
      outcome := Done;
    }

    /** `ParserBase::parse`: steps are applied until one does not ask for the next. */
    method Parse() returns (outcome: Outcome)
      requires Valid() && chunkSize < I64
      modifies this`gptr, this`currentStep, this`request, this`bytesRead, this`chunkSize, this`chunkAppended
      ensures Valid() && chunkSize < I64
      ensures HttpParserSpec.Result(View(), outcome) == HttpParserSpec.Parse(rules, old(View()))
    {
      hide RequestLine, Headers, ParseBody, Apply;
      while currentStep < 2
        invariant Valid() && chunkSize < I64
        invariant HttpParserSpec.Parse(rules, View()) == HttpParserSpec.Parse(rules, old(View()))
        decreases 2 - currentStep
      {
        var status;
        if currentStep == 0 {
          status := RequestLineStep();
        } else {
          status := HeadersStep();
        }
        match status {
          case Again => return More;
          case Failed(e) => return Error(e);
          case Next => currentStep := currentStep + 1;
        }
      }
      outcome := BodyStepApply();
    }

    /** `Handler::onInput`: one packet; a settled or refused request resets the parser. */
    method OnInput(data: string) returns (reply: Reply)
      requires Valid() && chunkSize < I64
      modifies this
      ensures Valid() && chunkSize < I64
      ensures Turn(View(), reply) == Input(rules, maxSize, old(View()), data)
    {
      var ok := FeedBytes(data);
      if !ok {
        Reset();
        return TooLarge;
      }
      var outcome := Parse();
      match outcome {
        case More => reply := Silent;
        case Done => reply := Handle(request); Reset();
        case Error(e) => reply := Refuse(e); Reset();
      }
    }
  }

  /** A body step touches nothing of the message but its body. */
  ghost predicate OnlyBody(m: Message, m': Message) {
    m' == m.(body := m'.body)
  }

  /** From `p` the query loop adds one parameter and goes on at `q`, or runs out of data. */
  ghost predicate Took(b: string, p: nat, ok: bool, e: Effect, q: nat)
    requires p <= |b| && q <= |b|
  {
    if ok then p < q && QueryScan(b, p) == Prepend([e], QueryScan(b, q)) else QueryScan(b, p) == Scan([], Again, p)
  }

  lemma ShortValue(b: string, p: nat, e: nat)
    requires p <= e < |b| && b[p] != ' ' && e == Find(b, p, {'=', ' ', '&'}) && b[e] == '=' && Find(b, e + 1, {' ', '&'}) == |b|
    ensures QueryScan(b, p) == Scan([], Again, p)
  {
    assert QueryScan(b, p) == QueryKey(b, p, e) == QueryValue(b, p, e);
  }

  /** Behind a key that ends at `e` comes `value`, and the loop goes on at `q`. */
  ghost predicate ParameterAt(b: string, e: nat, q: nat, value: string) {
    && e <= q <= |b| && e < |b|
    && match b[e]
       case ' ' => q == e && value == ""
       case '&' => q == e + 1 && value == ""
       case _ => var f := Find(b, e + 1, {' ', '&'});
                 f < |b| && value == b[e + 1..f] && q == if b[f] == '&' then f + 1 else f
  }

  lemma TookValue(b: string, p: nat, e: nat, q: nat, value: string)
    requires p <= e && ParameterAt(b, e, q, value) && b[e] != ' ' && b[e] != '&'
    ensures QueryKey(b, p, e) == Prepend([AddQuery(b[p..e], value)], QueryScan(b, q))
  {
    hide VersionScan;
    var f := Find(b, e + 1, {' ', '&'});
    assert QueryKey(b, p, e) == QueryValue(b, p, e) == QueryPair(b, p, e, f);
    if b[f] == ' ' {
      assert QueryScan(b, q) == VersionScan(b, q + 1);
    }
  }

  lemma TookParameter(b: string, p: nat, e: nat, q: nat, value: string)
    requires p <= e && ParameterAt(b, e, q, value) && b[p] != ' ' && e == Find(b, p, {'=', ' ', '&'})
    ensures Took(b, p, true, AddQuery(b[p..e], value), q)
  {
    hide VersionScan;
    assert QueryScan(b, p) == QueryKey(b, p, e);
    if b[e] != ' ' && b[e] != '&' {
      TookValue(b, p, e, q, value);
    } else if b[e] == ' ' {
      assert QueryScan(b, q) == VersionScan(b, q + 1);
    }
  }

  lemma MethodToken(rules: Rules, b: string, p: nat)
    requires p <= |b|
    ensures var e, x := Find(b, p, {' '}), RequestLine(rules, b, p);
            if e == |b| then x == Scan([], Again, p)
            else if b[p..e] !in rules.methods then x == Scan([], Failed(UnknownMethod), p)
            else x == Prepend([SetMethod(b[p..e])], ResourceScan(b, e + 1))
  {
  }

  lemma LengthEnds(b: string, s: Body, n: u64)
    requires s.pos <= |b|
    ensures var need := if s.bytesRead > 0 then (n - s.bytesRead) % U64 else n;
            ByLength(b, s, n) ==
            if |b| - s.pos < need then
              BodyResult(s.(pos := |b|, text := s.text + b[s.pos..|b|], bytesRead := (s.bytesRead + (|b| - s.pos)) % U64), More)
            else BodyResult(s.(pos := s.pos + need, text := s.text + b[s.pos..s.pos + need], bytesRead := 0), Done)
  {
    assert b[s.pos..] == b[s.pos..|b|];
  }

  /** A size line that is incomplete, or wrong. */
  lemma NoSize(rules: Rules, b: string, s: Body)
    requires s.pos <= |b| && s.chunk.NoChunk?
    ensures var e := FindEol(b, s.pos);
            && (e == |b| ==> Chunks(rules, b, s) == BodyResult(s, More))
            && (e < |b| && ChunkSize(b[s.pos..e]).None? ==> Chunks(rules, b, s) == BodyResult(s, Error(BadChunkSize)))
  {
  }

  lemma SizeIs(rules: Rules, b: string, s: Body)
    requires s.pos <= |b| && s.chunk.Chunk?
    ensures Chunks(rules, b, s) == ChunkData(rules, b, s)
  {
  }

  lemma ShortLine(rules: Rules, b: string, p: nat, colon: nat, v: nat)
    requires p <= colon < |b| && v == SkipSpaces(b, colon + 1) && FindEol(b, v) == |b|
    ensures HeaderLine(rules, b, p, colon) == Scan([], Again, p)
  {
  }

  lemma RefusedLine(rules: Rules, b: string, p: nat, colon: nat, v: nat, e: nat)
    requires p <= colon < |b| && v == SkipSpaces(b, colon + 1) && e == FindEol(b, v) < |b|
    requires HeaderEffects(rules, b[p..colon], b[v..e]).None?
    ensures HeaderLine(rules, b, p, colon) == Scan([], Failed(BadHeader), p)
  {
  }

  lemma StoredLine(rules: Rules, b: string, p: nat, colon: nat, v: nat, e: nat, es: seq<Effect>)
    requires p <= colon < |b| && v == SkipSpaces(b, colon + 1) && e == FindEol(b, v) < |b|
    requires HeaderEffects(rules, b[p..colon], b[v..e]) == Some(es)
    ensures HeaderLine(rules, b, p, colon) == Prepend(es, Headers(rules, b, e + 2))
  {
  }

  lemma ApplyFirst(m: Message, e: Effect, x: Scan)
    ensures Apply(m, Prepend([e], x).effects) == Apply(ApplyOne(m, e), x.effects)
  {
    ApplyConcat(m, [e], x.effects);
    ApplyAnother(m, [], e);
    assert [] + [e] == [e];
  }

  lemma SingleEffect(m: Message, first: seq<Effect>, e: Effect)
    requires |first| <= 1
    ensures first + [e] == if first == [] then [e] else [first[0], e]
    ensures Apply(m, first) == if first == [] then m else ApplyOne(m, first[0])
  {
    if first != [] {
      ApplyAnother(m, [], first[0]);
      assert [] + [first[0]] == first;
    }
  }

  lemma PrependPrepend(es: seq<Effect>, fs: seq<Effect>, x: Scan)
    ensures Prepend(es, Prepend(fs, x)) == Prepend(es + fs, x)
  {
  }
}
