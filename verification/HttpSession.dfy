/** What one request leaves behind for the next one on the same connection. */
module HttpSession {
  import opened HttpMessage
  import opened HttpScan
  import opened HttpBody
  import opened HttpParserSpec
  import opened Options

  /** The body counters are only in use while the body they count is being read. */
  predicate Sane(rules: Rules, s: Parser) {
    var typed := s.message.typed;
    && s.pos <= |s.bytes|
    && (s.bytesRead > 0 ==> s.stage.BodyStage? && "content-length" in typed && "transfer-encoding" !in typed)
    && (s.chunk.Chunk? ==>
          && s.stage.BodyStage? && "content-length" !in typed
          && "transfer-encoding" in typed && rules.chunked(typed["transfer-encoding"]))
  }

  predicate Clear(s: Parser) {
    s.bytesRead == 0 && s.chunk.NoChunk?
  }

  lemma {:induction false} ChunksSettleClear(rules: Rules, b: string, s: Body)
    requires s.pos <= |b|
    ensures var r := Chunks(rules, b, s); r.body.bytesRead == s.bytesRead && (!r.outcome.More? ==> r.body.chunk.NoChunk?)
    decreases |b| - s.pos
  {
    var s1 := s;
    if s.chunk.NoChunk? {
      var e := FindEol(b, s.pos);
      if e == |b| || ChunkSize(b[s.pos..e]).None? {
        return;
      }
      s1 := s.(pos := e + 2, chunk := Chunk(ChunkSize(b[s.pos..e]).value, 0));
    }
    var end := s1.pos + (s1.chunk.size - s1.chunk.already);
    if 0 < s1.chunk.size && s1.chunk.already <= s1.chunk.size && end + 2 < |b| {
      ChunksSettleClear(rules, b, s1.(pos := end + 2, text := s1.text + b[s1.pos..end], chunk := NoChunk));
    }
  }

  lemma BodySettlesClear(rules: Rules, s: Parser)
    requires Sane(rules, s) && s.stage.BodyStage?
    ensures var r := ParseBody(rules, s); if r.outcome.More? then Sane(rules, r.parser) else Clear(r.parser)
  {
    ChunksSettleClear(rules, s.bytes, BodyOf(s));
  }

  /** A request that is handled or refused leaves clear counters; one that waits leaves a sane parser. */
  lemma SettlesClear(rules: Rules, s: Parser)
    requires Sane(rules, s)
    ensures var r := Parse(rules, s); if r.outcome.More? then Sane(rules, r.parser) else Clear(r.parser)
  {
    var s1 := s;
    if s1.stage.LineStage? {
      var x := RequestLine(rules, s1.bytes, s1.pos);
      if !x.status.Next? { return; }
      s1 := s1.(message := Apply(s1.message, x.effects), pos := x.pos, stage := HeaderStage);
    }
    if s1.stage.HeaderStage? {
      var x := Headers(rules, s1.bytes, s1.pos);
      if !x.status.Next? { return; }
      s1 := s1.(message := Apply(s1.message, x.effects), pos := x.pos, stage := BodyStage);
    }
    BodySettlesClear(rules, s1);
  }

  // ---------------------------------------------------------------------------------------------
  // Packet after packet
  // ---------------------------------------------------------------------------------------------

  /** What `onInput` makes of a packet. */
  datatype Reply = Silent | Handle(message: Message) | Refuse(error: Error) | TooLarge

  /** `ParserBase::reset` and `request = Request()`: the body counters stay. */
  function ResetOf(s: Parser): Parser {
    FRESH.(bytesRead := s.bytesRead, chunk := s.chunk)
  }

  datatype Turn = Turn(parser: Parser, reply: Reply)

  /** `Handler::onInput` with a buffer of `maxSize` bytes. */
  function Input(rules: Rules, maxSize: nat, s: Parser, data: string): (t: Turn)
    requires s.pos <= |s.bytes|
    ensures t.parser.pos <= |t.parser.bytes|
  {
    if |s.bytes| + |data| > maxSize then Turn(ResetOf(s), TooLarge)
    else
      var r := Parse(rules, Feed(s, data));
      match r.outcome
      case More => Turn(r.parser, Silent)
      case Done => Turn(ResetOf(r.parser), Handle(r.parser.message))
      case Error(e) => Turn(ResetOf(r.parser), Refuse(e))
  }

  datatype Service = Service(parser: Parser, replies: seq<Reply>)

  /** A whole connection, packet by packet. */
  function Serve(rules: Rules, maxSize: nat, s: Parser, packets: seq<string>): (r: Service)
    requires s.pos <= |s.bytes|
    ensures r.parser.pos <= |r.parser.bytes| && |r.replies| == |packets|
    decreases packets
  {
    if packets == [] then Service(s, [])
    else
      var t := Input(rules, maxSize, s, packets[0]);
      var r := Serve(rules, maxSize, t.parser, packets[1..]);
      Service(r.parser, [t.reply] + r.replies)
  }

  lemma {:induction false} ServeConcat(rules: Rules, maxSize: nat, s: Parser, first: seq<string>, second: seq<string>)
    requires s.pos <= |s.bytes|
    ensures var a := Serve(rules, maxSize, s, first);
            var b := Serve(rules, maxSize, a.parser, second);
            Serve(rules, maxSize, s, first + second) == Service(b.parser, a.replies + b.replies)
    decreases first
  {
    if first == [] {
      assert first + second == second;
      var b := Serve(rules, maxSize, s, second);
      assert [] + b.replies == b.replies;
    } else {
      var t := Input(rules, maxSize, s, first[0]);
      assert (first + second)[0] == first[0] && (first + second)[1..] == first[1..] + second;
      ServeConcat(rules, maxSize, t.parser, first[1..], second);
      var a := Serve(rules, maxSize, t.parser, first[1..]);
      var b := Serve(rules, maxSize, a.parser, second);
      assert [t.reply] + (a.replies + b.replies) == ([t.reply] + a.replies) + b.replies;
    }
  }

  // ---------------------------------------------------------------------------------------------
  // When the next request starts afresh
  // ---------------------------------------------------------------------------------------------

  /** A packet that is refused for its size while a body counter is in use. */
  predicate Strands(rules: Rules, maxSize: nat, s: Parser, data: string)
    requires s.pos <= |s.bytes|
  {
    Input(rules, maxSize, s, data).reply.TooLarge? && !Clear(s)
  }

  /** One packet: whatever answers it leaves a new parser, exactly unless the packet strands a counter. */
  lemma AnswerFresh(rules: Rules, maxSize: nat, s: Parser, data: string)
    requires Sane(rules, s)
    ensures var t := Input(rules, maxSize, s, data);
            && (t.reply.Silent? ==> Sane(rules, t.parser))
            && (!t.reply.Silent? ==> (t.parser == FRESH <==> !Strands(rules, maxSize, s, data)))
  {
    if |s.bytes| + |data| <= maxSize {
      SettlesClear(rules, Feed(s, data));
    }
  }

  /** Some packet of the connection strands a counter. */
  predicate Stranded(rules: Rules, maxSize: nat, s: Parser, packets: seq<string>)
    requires s.pos <= |s.bytes|
    decreases packets
  {
    packets != [] &&
    (Strands(rules, maxSize, s, packets[0]) || Stranded(rules, maxSize, Input(rules, maxSize, s, packets[0]).parser, packets[1..]))
  }

  /** Every answer on the connection leaves a new parser behind it. */
  predicate AlwaysFresh(rules: Rules, maxSize: nat, s: Parser, packets: seq<string>)
    requires s.pos <= |s.bytes|
    decreases packets
  {
    packets == [] ||
    var t := Input(rules, maxSize, s, packets[0]);
    (!t.reply.Silent? ==> t.parser == FRESH) && AlwaysFresh(rules, maxSize, t.parser, packets[1..])
  }

  /** On any connection every request starts on a new parser, exactly unless a packet was refused for its size while
      a body counter was in use. */
  lemma {:induction false} FreshUnlessStranded(rules: Rules, maxSize: nat, s: Parser, packets: seq<string>)
    requires Sane(rules, s)
    ensures AlwaysFresh(rules, maxSize, s, packets) <==> !Stranded(rules, maxSize, s, packets)
    decreases packets
  {
    if packets != [] {
      AnswerFresh(rules, maxSize, s, packets[0]);
      if !Strands(rules, maxSize, s, packets[0]) {
        FreshUnlessStranded(rules, maxSize, Input(rules, maxSize, s, packets[0]).parser, packets[1..]);
      }
    }
  }
}
