/** Two requests on one connection: when the second is served as on a new parser, and what goes wrong otherwise. */
module HttpConnection {
  import opened HttpMessage
  import opened HttpScan
  import opened HttpBody
  import opened HttpChunkedWriter
  import opened HttpHead
  import opened HttpPackets
  import opened HttpParserSpec
  import opened HttpSession

  // ---------------------------------------------------------------------------------------------
  // What is left of a chunked request
  // ---------------------------------------------------------------------------------------------

  /** A new parser that has been fed `b` and could make nothing of it yet. */
  function Waiting(b: string): Parser {
    FRESH.(bytes := b)
  }

  lemma {:induction false} NoSpaceFind(b: string, p: nat)
    requires p <= |b| && ' ' !in b
    ensures Find(b, p, {' '}) == |b|
    decreases |b| - p
  {
    if p < |b| {
      NoSpaceFind(b, p + 1);
    }
  }

  /** Without a blank there is not even a method. */
  lemma WaitsOn(rules: Rules, b: string, d: string)
    requires ' ' !in b + d
    ensures Parse(rules, Feed(Waiting(b), d)) == Result(Waiting(b + d), More)
  {
    NoSpaceFind(b + d, 0);
  }

  function Silences(n: nat): (r: seq<Reply>)
    ensures |r| == n
  {
    seq(n, _ => Silent)
  }

  lemma {:induction false} WaitsLong(rules: Rules, maxSize: nat, b: string, packets: seq<string>)
    requires ' ' !in b + Concat(packets) && |b| + |Concat(packets)| <= maxSize
    ensures Serve(rules, maxSize, Waiting(b), packets) == Service(Waiting(b + Concat(packets)), Silences(|packets|))
    decreases packets
  {
    if packets == [] {
      assert b + "" == b;
    } else {
      var p, rest := packets[0], Concat(packets[1..]);
      assert b + (p + rest) == (b + p) + rest;
      WaitsOn(rules, b, p);
      WaitsLong(rules, maxSize, b + p, packets[1..]);
      assert [Silent] + Silences(|packets| - 1) == Silences(|packets|);
    }
  }

  /** Every prefix of `whole` shorter than `e` asks for more, every longer one is handled as `m`. */
  ghost predicate Settles(rules: Rules, whole: string, e: nat, m: Message) {
    && e <= |whole|
    && forall k :: 0 <= k <= |whole| ==> SettlesAt(rules, whole, e, m, k)
  }

  ghost predicate SettlesAt(rules: Rules, whole: string, e: nat, m: Message, k: nat)
    requires k <= |whole|
  {
    var r := Parse(rules, Feed(FRESH, whole[..k]));
    && (k < e ==> r.outcome.More?)
    && (k >= e ==> Settled(r, m))
  }

  predicate Settled(r: Result, m: Message) {
    r.outcome.Done? && r.parser.message == m && Clear(r.parser)
  }

  /** `n` bytes have been fed, and no packet starts in a place that tears the parser before it is done. */
  predicate Untorn(rules: Rules, whole: string, e: nat, n: nat, packets: seq<string>)
    decreases packets
  {
    && (n < e && n <= |whole| ==> UntornAt(rules, whole, n))
    && (packets == [] || Untorn(rules, whole, e, n + |packets[0]|, packets[1..]))
  }

  predicate UntornAt(rules: Rules, whole: string, n: nat)
    requires n <= |whole|
  {
    !TornParser(Parse(rules, Feed(FRESH, whole[..n])).parser)
  }

  /** What the packets bring behind the one that brings byte `e`, when `n` bytes came before them. */
  function Tail(n: nat, packets: seq<string>, e: nat): string
    decreases packets
  {
    if packets == [] then ""
    else if n + |packets[0]| >= e then Concat(packets[1..])
    else Tail(n + |packets[0]|, packets[1..], e)
  }

  function Answers(n: nat, packets: seq<string>, e: nat, m: Message): seq<Reply>
    decreases packets
  {
    if packets == [] then []
    else if n + |packets[0]| >= e then [Handle(m)] + Silences(|packets| - 1)
    else [Silent] + Answers(n + |packets[0]|, packets[1..], e, m)
  }

  /** A packet with data starts at byte `p` or later. */
  ghost predicate StartsBehind(packets: seq<string>, p: int) {
    exists i :: 0 <= i < |packets| && StartsAt(packets, p, i)
  }

  predicate StartsAt(packets: seq<string>, p: int, i: nat)
    requires i < |packets|
  {
    packets[i] != "" && |Concat(packets[..i])| >= p
  }

  /** Something is left exactly when a packet with data starts behind byte `e`. */
  lemma {:induction false} TailStarts(n: nat, packets: seq<string>, e: nat)
    requires n < e
    ensures Tail(n, packets, e) != "" <==> StartsBehind(packets, e - n)
    decreases packets
  {
    if packets != [] {
      var p, rest := packets[0], packets[1..];
      ShiftStarts(packets, e - n);
      if n + |p| >= e {
        AllBehind(rest, e - n - |p|);
      } else {
        TailStarts(n + |p|, rest, e);
      }
    }
  }

  lemma AllBehind(packets: seq<string>, p: int)
    requires p <= 0
    ensures StartsBehind(packets, p) <==> Concat(packets) != ""
  {
    EmptyConcat(packets);
    if Concat(packets) != "" {
      var i :| 0 <= i < |packets| && packets[i] != "";
      assert StartsAt(packets, p, i);
    }
  }

  /** Behind the first packet the count starts anew. */
  lemma ShiftStarts(packets: seq<string>, p: int)
    requires packets != [] && p > 0
    ensures StartsBehind(packets, p) <==> StartsBehind(packets[1..], p - |packets[0]|)
  {
    var rest := packets[1..];
    assert Concat(packets[..0]) == "";
    if StartsBehind(packets, p) {
      var i :| 0 <= i < |packets| && StartsAt(packets, p, i);
      assert packets[..i][1..] == rest[..i - 1];
      assert StartsAt(rest, p - |packets[0]|, i - 1);
    }
    if StartsBehind(rest, p - |packets[0]|) {
      var i :| 0 <= i < |rest| && StartsAt(rest, p - |packets[0]|, i);
      assert packets[..i + 1][1..] == rest[..i];
      assert StartsAt(packets, p, i + 1);
    }
  }

  // ---------------------------------------------------------------------------------------------
  // The first request
  // ---------------------------------------------------------------------------------------------

  /** One packet of a request that settles at byte `e`, when `c` has been fed before and left `s`. */
  lemma FeedOn(rules: Rules, maxSize: nat, whole: string, e: nat, m: Message, c: string, s: Parser, p: string)
    requires c + p <= whole && |whole| <= maxSize && Settles(rules, whole, e, m)
    requires Parse(rules, Feed(FRESH, c)) == Result(s, More) && !TornParser(s)
    ensures s.pos <= |s.bytes|
    ensures Input(rules, maxSize, s, p) ==
            if |c| + |p| >= e then Turn(FRESH, Handle(m)) else Turn(Parse(rules, Feed(FRESH, c + p)).parser, Silent)
    ensures |c| + |p| < e ==> Parse(rules, Feed(FRESH, c + p)).outcome.More?
  {
    FeedTwice(rules, FRESH, c, p);
    assert whole[..|c| + |p|] == c + p;
    assert SettlesAt(rules, whole, e, m, |c| + |p|);
  }

  /** A request is handled with the packet that brings its byte `e`; the rest of it waits for the next request. */
  lemma {:induction false} ServeFrom(rules: Rules, maxSize: nat, whole: string, e: nat, m: Message, c: string, s: Parser,
                                     packets: seq<string>)
    requires c + Concat(packets) == whole && |c| < e && |whole| <= maxSize
    requires Settles(rules, whole, e, m) && Untorn(rules, whole, e, |c|, packets) && ' ' !in whole[e..]
    requires Parse(rules, Feed(FRESH, c)) == Result(s, More)
    ensures s.pos <= |s.bytes|
    ensures Serve(rules, maxSize, s, packets) == Service(Waiting(Tail(|c|, packets, e)), Answers(|c|, packets, e, m))
    decreases packets
  {
    hide Parse, Input, SettlesAt, TornParser;
    var p, rest := packets[0], Concat(packets[1..]);
    assert c + (p + rest) == (c + p) + rest;
    assert UntornAt(rules, whole, |c|) && whole[..|c|] == c;
    FeedOn(rules, maxSize, whole, e, m, c, s, p);
    if |c| + |p| >= e {
      NoSpaceLeft(whole, c + p, rest, e);
      ServeLast(rules, maxSize, e, m, |c|, s, packets);
    } else {
      ServeFrom(rules, maxSize, whole, e, m, c + p, Parse(rules, Feed(FRESH, c + p)).parser, packets[1..]);
    }
  }

  /** The packet that settles the request, and the packets after it. */
  lemma ServeLast(rules: Rules, maxSize: nat, e: nat, m: Message, n: nat, s: Parser, packets: seq<string>)
    requires s.pos <= |s.bytes| && packets != [] && n + |packets[0]| >= e
    requires Input(rules, maxSize, s, packets[0]) == Turn(FRESH, Handle(m))
    requires ' ' !in Concat(packets[1..]) && |Concat(packets[1..])| <= maxSize
    ensures Serve(rules, maxSize, s, packets) == Service(Waiting(Tail(n, packets, e)), Answers(n, packets, e, m))
  {
    var rest := Concat(packets[1..]);
    assert "" + rest == rest && Waiting("") == FRESH;
    WaitsLong(rules, maxSize, "", packets[1..]);
  }

  lemma NoSpaceLeft(whole: string, c: string, rest: string, e: nat)
    requires whole == c + rest && e <= |c| && ' ' !in whole[e..]
    ensures ' ' !in rest
  {
    forall i | 0 <= i < |rest| ensures rest[i] != ' ' {
      assert rest[i] == whole[e..][|c| + i - e];
    }
  }

  /** Nothing of the head alone settles or tears a new parser. */
  lemma InHead(rules: Rules, head: string, h: Parser, wire: string, k: nat)
    requires Head(rules, head, h) && k < |head|
    ensures var r := Parse(rules, Feed(FRESH, (head + wire)[..k])); r.outcome.More? && !TornParser(r.parser)
  {
    TakeFront(head, wire, k);
    assert Counted(0, NoChunk) == FRESH;
    ShortHead(rules, head, h, k, 0, NoChunk);
  }

  /** What a prefix has settled, the whole has settled alike. */
  lemma DoneEarly(rules: Rules, a: string, d: string, m: Message)
    requires Parse(rules, Feed(FRESH, a)).outcome.Done? && Parse(rules, Feed(FRESH, a + d)).parser.message == m
    ensures Settled(Parse(rules, Feed(FRESH, a)), m)
  {
    SettlesClear(rules, Feed(FRESH, a));
    ParseResumes(rules, Feed(FRESH, a), d);
    FeedAgain(FRESH, a, d);
  }

  /** A chunked request settles at the end of what is read of it. */
  lemma ChunkedSettlesAt(rules: Rules, head: string, h: Parser, chunks: seq<string>, whole: string, e: nat, m: Message, k: nat)
    requires Fits(rules, chunks) && Head(rules, head, h) && AwaitsChunks(rules, h) && k <= |whole|
    requires whole == head + (Encoded(chunks) + LAST) && e == |head| + ReadLength(chunks)
    requires m == h.message.(body := Readable(chunks))
    ensures SettlesAt(rules, whole, e, m, k)
  {
    hide Parse, Headers, RequestLine, Settled;
    if k < |head| {
      InHead(rules, head, h, Encoded(chunks) + LAST, k);
    } else {
      WireStops(rules, head, h, chunks, k - |head|, k);
      if k >= e {
        WholeDecodes(rules, head, h, chunks);
        assert whole[..k] + whole[k..] == whole;
        DoneEarly(rules, whole[..k], whole[k..], m);
      }
    }
  }

  lemma ChunkedSettles(rules: Rules, head: string, h: Parser, chunks: seq<string>, whole: string, e: nat, m: Message)
    requires Fits(rules, chunks) && Head(rules, head, h) && AwaitsChunks(rules, h)
    requires whole == head + (Encoded(chunks) + LAST) && e == |head| + ReadLength(chunks)
    requires m == h.message.(body := Readable(chunks))
    ensures Settles(rules, whole, e, m)
  {
    forall k | 0 <= k <= |whole| ensures SettlesAt(rules, whole, e, m, k) {
      ChunkedSettlesAt(rules, head, h, chunks, whole, e, m, k);
    }
  }

  lemma ChunkedUntornAt(rules: Rules, head: string, h: Parser, chunks: seq<string>, whole: string, k: nat)
    requires Fits(rules, chunks) && Head(rules, head, h) && AwaitsChunks(rules, h) && k <= |whole|
    requires whole == head + (Encoded(chunks) + LAST) && (|head| <= k ==> !AtGap(chunks, k - |head|))
    requires k < |head| + ReadLength(chunks)
    ensures UntornAt(rules, whole, k)
  {
    if k < |head| {
      InHead(rules, head, h, Encoded(chunks) + LAST, k);
    } else {
      WireStops(rules, head, h, chunks, k - |head|, k);
    }
  }

  lemma {:induction false} ChunkedUntorn(rules: Rules, head: string, h: Parser, chunks: seq<string>, packets: seq<string>,
                                         e: nat, i: nat)
    requires Fits(rules, chunks) && Head(rules, head, h) && AwaitsChunks(rules, h) && i <= |packets|
    requires Concat(packets) == head + (Encoded(chunks) + LAST) && !Gapped(head, chunks, packets)
    requires e == |head| + ReadLength(chunks)
    ensures Untorn(rules, Concat(packets), e, |Concat(packets[..i])|, packets[i..])
    decreases |packets| - i
  {
    hide UntornAt, Head, AtGap;
    var whole, k := Concat(packets), |Concat(packets[..i])|;
    if k < e && k <= |whole| {
      HeadNotEmpty(rules, head, h);
      if |head| <= k {
        NoGapAt(head, chunks, packets, i, k - |head|);
      }
      ChunkedUntornAt(rules, head, h, chunks, whole, k);
    }
    if i < |packets| {
      PrefixStep(packets, i);
      assert packets[i..][1..] == packets[i + 1..];
      ChunkedUntorn(rules, head, h, chunks, packets, e, i + 1);
    }
  }

  lemma PrefixStep(packets: seq<string>, i: nat)
    requires i < |packets|
    ensures |Concat(packets[..i + 1])| == |Concat(packets[..i])| + |packets[i]|
  {
    assert packets[..i + 1] == packets[..i] + [packets[i]];
    ConcatSnoc(packets[..i], packets[i]);
  }

  lemma NoGapAt(head: string, chunks: seq<string>, packets: seq<string>, i: nat, j: nat)
    requires i <= |packets| && |Concat(packets[..i])| == |head| + j && head != "" && j < ReadLength(chunks)
    requires Concat(packets) == head + (Encoded(chunks) + LAST) && !Gapped(head, chunks, packets)
    ensures !AtGap(chunks, j)
  {
    assert packets[..0] == [] && packets[..|packets|] == packets;
    assert 1 <= i < |packets| && !GapBefore(head, chunks, packets, i);
  }

  lemma HeadNotEmpty(rules: Rules, head: string, h: Parser)
    requires Head(rules, head, h)
    ensures head != ""
  {
  }

  lemma AllUntorn(rules: Rules, head: string, h: Parser, chunks: seq<string>, packets: seq<string>, e: nat)
    requires Fits(rules, chunks) && Head(rules, head, h) && AwaitsChunks(rules, h)
    requires Concat(packets) == head + (Encoded(chunks) + LAST) && !Gapped(head, chunks, packets)
    requires e == |head| + ReadLength(chunks)
    ensures Untorn(rules, Concat(packets), e, 0, packets)
  {
    hide Head, Gapped, AwaitsChunks, Untorn, Encoded, ReadLength, Fits;
    assert packets[0..] == packets && packets[..0] == [];
    ChunkedUntorn(rules, head, h, chunks, packets, e, 0);
  }

  lemma NothingYet(rules: Rules, whole: string)
    ensures Feed(FRESH, "") == FRESH && Parse(rules, FRESH) == Result(FRESH, More) && "" + whole == whole
  {
  }

  /** A chunked request, whole packets, on a new connection. */
  lemma FirstServed(rules: Rules, maxSize: nat, head: string, h: Parser, chunks: seq<string>, packets: seq<string>)
    requires Fits(rules, chunks) && Head(rules, head, h) && AwaitsChunks(rules, h) && "" !in chunks
    requires Concat(packets) == head + (Encoded(chunks) + LAST) && |Concat(packets)| <= maxSize
    requires !Gapped(head, chunks, packets)
    ensures var e := |head| + ReadLength(chunks);
            Serve(rules, maxSize, FRESH, packets) ==
            Service(Waiting(Tail(0, packets, e)), Answers(0, packets, e, h.message.(body := Concat(chunks))))
  {
    hide Settles, Head, Gapped, AwaitsChunks, Headers, Untorn, Serve, Parse, Encoded, ReadLength, Answers, Tail, Readable, Fits, Concat;
    var whole, e := Concat(packets), |head| + ReadLength(chunks);
    ReadableIsAll(chunks);
    ChunkedSettles(rules, head, h, chunks, whole, e, h.message.(body := Readable(chunks)));
    AllUntorn(rules, head, h, chunks, packets, e);
    LastLineFeed(head, chunks);
    HeadNotEmpty(rules, head, h);
    NothingYet(rules, whole);
    ServeFrom(rules, maxSize, whole, e, h.message.(body := Concat(chunks)), "", FRESH, packets);
  }

  /** Only the last line end is never read. */
  lemma {:induction false} LastLineFeed(head: string, chunks: seq<string>)
    requires "" !in chunks
    ensures var e := |head| + ReadLength(chunks); var whole := head + (Encoded(chunks) + LAST);
            e + 2 == |whole| && whole[e..] == CRLF
    decreases chunks
  {
    var wire := Encoded(chunks) + LAST;
    if chunks == [] {
      assert wire == LAST && (head + LAST)[|head| + 3..] == LAST[3..];
    } else {
      var rest := Encoded(chunks[1..]) + LAST;
      assert wire == ChunkText(chunks[0]) + rest;
      assert head + wire == (head + ChunkText(chunks[0])) + rest;
      LastLineFeed(head + ChunkText(chunks[0]), chunks[1..]);
    }
  }

  // ---------------------------------------------------------------------------------------------
  // The second request
  // ---------------------------------------------------------------------------------------------

  /** The first answer that is not silence. */
  function FirstAnswer(replies: seq<Reply>): Reply {
    if replies == [] then Silent else if replies[0].Silent? then FirstAnswer(replies[1..]) else replies[0]
  }

  /** No method starts with the end of a line. */
  ghost predicate PlainMethods(rules: Rules) {
    forall m :: m in rules.methods && m != "" ==> m[0] != CR && m[0] != LF
  }

  /** A rest of a line end. */
  predicate LineRest(l: string) {
    l != "" && ' ' !in l && (l[0] == CR || l[0] == LF)
  }

  lemma {:induction false} SpaceFound(b: string, p: nat)
    requires p <= |b| && ' ' in b[p..]
    ensures Find(b, p, {' '}) < |b|
    decreases |b| - p
  {
    if b[p] != ' ' {
      assert b[p..] == [b[p]] + b[p + 1..];
      SpaceFound(b, p + 1);
    }
  }

  /** With a rest of a line end in front, the method is unknown. */
  lemma GarbledMethod(rules: Rules, l: string, p: string, q: string)
    requires PlainMethods(rules) && LineRest(l) && ' ' in p + q
    ensures Parse(rules, Feed(Waiting(l + p), q)).outcome == Error(UnknownMethod)
    ensures Clear(Parse(rules, Feed(Waiting(l + p), q)).parser)
  {
    var b := (l + p) + q;
    assert b == l + (p + q);
    assert ' ' in b[0..];
    SpaceFound(b, 0);
    var e := Find(b, 0, {' '});
    assert e > 0 && b[0..e][0] == l[0];
  }

  /** Whatever the next request is, a rest of a line end in front of it has it refused. */
  lemma {:induction false} Garbled(rules: Rules, maxSize: nat, l: string, p: string, packets: seq<string>)
    requires PlainMethods(rules) && LineRest(l) && ' ' !in p
    requires !FirstAnswer(Serve(rules, maxSize, Waiting(p), packets).replies).Silent?
    ensures FirstAnswer(Serve(rules, maxSize, Waiting(l + p), packets).replies) in {Refuse(UnknownMethod), TooLarge}
    decreases packets
  {
    var q := packets[0];
    if |l + p| + |q| <= maxSize {
      if ' ' in p + q {
        GarbledMethod(rules, l, p, q);
      } else {
        assert (l + p) + q == l + (p + q);
        WaitsOn(rules, p, q);
        WaitsOn(rules, l + p, q);
        Garbled(rules, maxSize, l, p + q, packets[1..]);
      }
    }
  }

  lemma SliceInFront(p: string, rest: string, k: nat)
    requires k <= |p|
    ensures IsTail((p + rest)[k..], rest)
  {
    assert (p + rest)[k..] == p[k..] + rest;
  }

  lemma SliceBehind(p: string, rest: string, k: nat)
    requires |p| <= k <= |p| + |rest|
    ensures (p + rest)[k..] == rest[k - |p|..]
  {
  }

  lemma {:induction false} TailIsRest(n: nat, packets: seq<string>, e: nat)
    requires n < e
    ensures Tail(n, packets, e) == "" || (e - n <= |Concat(packets)| && IsTail(Concat(packets)[e - n..], Tail(n, packets, e)))
    decreases packets
  {
    hide IsTail;
    if packets != [] {
      var p, rest := packets[0], Concat(packets[1..]);
      if n + |p| >= e {
        SliceInFront(p, rest, e - n);
      } else {
        TailIsRest(n + |p|, packets[1..], e);
        if Tail(n + |p|, packets[1..], e) != "" {
          SliceBehind(p, rest, e - n);
        }
      }
    }
  }

  /** `t` is what `s` ends with. */
  predicate IsTail(s: string, t: string) {
    |t| <= |s| && s[|s| - |t|..] == t
  }

  lemma CrlfTail(t: string)
    requires t != "" && IsTail(CRLF, t)
    ensures LineRest(t)
  {
    assert t == CRLF || t == "\n";
  }

  /** What the first request leaves: nothing, or the rest of its last line end. */
  lemma LeftBehind(head: string, chunks: seq<string>, first: seq<string>, e: nat)
    requires Concat(first) == head + (Encoded(chunks) + LAST) && "" !in chunks && 0 < e == |head| + ReadLength(chunks)
    ensures var l := Tail(0, first, e); (l != "" <==> StartsBehind(first, e)) && (l == "" || LineRest(l))
  {
    TailStarts(0, first, e);
    if Tail(0, first, e) != "" {
      TailIsRest(0, first, e);
      LastLineFeed(head, chunks);
      CrlfTail(Tail(0, first, e));
    }
  }

  /** A request behind `l`, against the same request on a new connection. */
  ghost predicate Follows(rules: Rules, maxSize: nat, l: string, second: seq<string>) {
    var r := Serve(rules, maxSize, Waiting(l), second);
    && (r == Serve(rules, maxSize, FRESH, second) <==> l == "")
    && (l != "" ==> FirstAnswer(r.replies) in {Refuse(UnknownMethod), TooLarge})
  }

  lemma FollowsRest(rules: Rules, maxSize: nat, l: string, second: seq<string>)
    requires PlainMethods(rules) && (l == "" || LineRest(l))
    requires FirstAnswer(Serve(rules, maxSize, FRESH, second).replies).Handle?
    ensures Follows(rules, maxSize, l, second)
  {
    assert Waiting("") == FRESH && l + "" == l;
    if l != "" {
      Garbled(rules, maxSize, l, "", second);
    }
  }

  /** The request after a chunked one is served as on a new connection exactly if no packet with data starts behind
      the last size line of the first; if one does, that request is refused. */
  lemma SecondRequest(rules: Rules, maxSize: nat, head: string, h: Parser, chunks: seq<string>, first: seq<string>,
                      second: seq<string>)
    requires Fits(rules, chunks) && Head(rules, head, h) && AwaitsChunks(rules, h) && "" !in chunks
    requires Concat(first) == head + (Encoded(chunks) + LAST) && |Concat(first)| <= maxSize
    requires !Gapped(head, chunks, first) && PlainMethods(rules)
    requires FirstAnswer(Serve(rules, maxSize, FRESH, second).replies).Handle?
    ensures var r := Serve(rules, maxSize, Serve(rules, maxSize, FRESH, first).parser, second);
            && (r == Serve(rules, maxSize, FRESH, second) <==> !StartsBehind(first, |head| + ReadLength(chunks)))
            && (StartsBehind(first, |head| + ReadLength(chunks)) ==> FirstAnswer(r.replies) in {Refuse(UnknownMethod), TooLarge})
  {
    hide Head, Gapped, AwaitsChunks, StartsBehind, Parse;
    HeadNotEmpty(rules, head, h);
    var e := |head| + ReadLength(chunks);
    FirstServed(rules, maxSize, head, h, chunks, first);
    LeftBehind(head, chunks, first, e);
    FollowsRest(rules, maxSize, Tail(0, first, e), second);
  }

  const GET := LINE + "\r\n"

  /** A request without a body, on a new connection. */
  lemma GoodRequest(rules: Rules, maxSize: nat) returns (m: Message)
    requires "GET" in rules.methods && |GET| <= maxSize
    ensures Input(rules, maxSize, FRESH, GET) == Turn(FRESH, Handle(m))
  {
    hide Head, RequestLine, Headers;
    var h := BareHead(rules);
    m := h.message;
    assert GET + "" == GET && Counted(0, NoChunk) == FRESH;
    BehindHead(rules, GET, h, "", 0, NoChunk);
    BareShape(rules, h);
  }

  lemma BareShape(rules: Rules, h: Parser)
    requires Head(rules, GET, h)
    ensures h == Parser(GET, |GET|, BodyStage, h.message, 0, NoChunk)
  {
  }

  /** The line feed packet alone, and the next request in its own packet. */
  lemma LateLineFeed(rules: Rules, maxSize: nat)
    requires "\r\nGET" !in rules.methods && |CRLF + GET| <= maxSize
    ensures Input(rules, maxSize, FRESH, CRLF) == Turn(Waiting(CRLF), Silent)
    ensures Input(rules, maxSize, Waiting(CRLF), GET) == Turn(FRESH, Refuse(UnknownMethod))
  {
    hide Parse;
    WaitsOn(rules, "", CRLF);
    assert "" + CRLF == CRLF && Waiting("") == FRESH;
    LateMethod(rules);
  }

  lemma LateMethod(rules: Rules)
    requires "\r\nGET" !in rules.methods
    ensures var r := Parse(rules, Feed(Waiting(CRLF), GET)); r.outcome == Error(UnknownMethod) && Clear(r.parser)
  {
    hide ResourceScan, Headers, ParseBody;
    var b := CRLF + GET;
    assert b[5] == ' ' && forall i :: 0 <= i < 5 ==> b[i] != ' ';
    FindIs(b, 0, 5, {' '});
    assert b[0..5] == b[..5] == "\r\nGET";
    assert Feed(Waiting(CRLF), GET).bytes == b;
  }

  /** The smallest such connection: a chunked request without chunks whose last line end comes late, and a request
      that is refused for it, although a new connection would handle it. */
  lemma LateLineFeedSession(rules: Rules, maxSize: nat) returns (m: Message)
    requires KnowsChunked(rules) && "\r\nGET" !in rules.methods && rules.maxReserve < U64
    requires |CHUNKED_HEAD + LAST| <= maxSize && |CRLF + GET| <= maxSize
    ensures Serve(rules, maxSize, FRESH, [CHUNKED_HEAD + "0\r\n", CRLF, GET]) ==
            Service(FRESH, [Handle(m), Silent, Refuse(UnknownMethod)])
    ensures FirstAnswer(Serve(rules, maxSize, FRESH, [GET]).replies).Handle?
  {
    hide Head, Parse, CHUNKED_HEAD, Serve, Input;
    GoodFirst(rules, maxSize);
    var h := ChunkedHead(rules);
    m := h.message.(body := "");
    ChunkedSettlesAt(rules, CHUNKED_HEAD, h, [], CHUNKED_HEAD + LAST, |CHUNKED_HEAD| + 3, m, |CHUNKED_HEAD| + 3);
    assert (CHUNKED_HEAD + LAST)[..|CHUNKED_HEAD| + 3] == CHUNKED_HEAD + "0\r\n";
    Answered(rules, maxSize, CHUNKED_HEAD + "0\r\n", m);
    LateLineFeed(rules, maxSize);
    ThreePackets(rules, maxSize, FRESH, CHUNKED_HEAD + "0\r\n", CRLF, GET);
  }

  lemma GoodFirst(rules: Rules, maxSize: nat)
    requires "GET" in rules.methods && |GET| <= maxSize
    ensures FirstAnswer(Serve(rules, maxSize, FRESH, [GET]).replies).Handle?
  {
    hide Input;
    var m := GoodRequest(rules, maxSize);
    assert [GET][1..] == [];
  }

  lemma Answered(rules: Rules, maxSize: nat, p: string, m: Message)
    requires |p| <= maxSize && Settled(Parse(rules, Feed(FRESH, p)), m)
    ensures Input(rules, maxSize, FRESH, p) == Turn(FRESH, Handle(m))
  {
    hide Parse;
  }

  lemma ThreePackets(rules: Rules, maxSize: nat, s: Parser, a: string, b: string, c: string)
    requires s.pos <= |s.bytes|
    ensures var x := Input(rules, maxSize, s, a); var y := Input(rules, maxSize, x.parser, b); var z := Input(rules, maxSize, y.parser, c);
            Serve(rules, maxSize, s, [a, b, c]) == Service(z.parser, [x.reply, y.reply, z.reply])
  {
    hide Input;
    assert [a, b, c][1..] == [b, c] && [b, c][1..] == [c] && [c][1..] == [];
    var x := Input(rules, maxSize, s, a);
    var y := Input(rules, maxSize, x.parser, b);
    var z := Input(rules, maxSize, y.parser, c);
    assert Serve(rules, maxSize, z.parser, []) == Service(z.parser, []);
    assert Serve(rules, maxSize, y.parser, [c]) == Service(z.parser, [z.reply]);
    assert Serve(rules, maxSize, x.parser, [b, c]) == Service(z.parser, [y.reply, z.reply]);
  }
}
