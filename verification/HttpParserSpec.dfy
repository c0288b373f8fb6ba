/** The three-step request parser as a function, and its independence from packet boundaries. */
module HttpParserSpec {
  import opened HttpMessage
  import opened HttpScan
  import opened HttpBody

  datatype Stage = LineStage | HeaderStage | BodyStage

  /** Everything a `RequestParser` remembers between two packets. */
  datatype Parser = Parser(bytes: string, pos: nat, stage: Stage, message: Message, bytesRead: nat, chunk: Chunk)

  datatype Result = Result(parser: Parser, outcome: Outcome)

  const FRESH := Parser("", 0, LineStage, BLANK, 0, NoChunk)

  function Feed(s: Parser, data: string): Parser {
    s.(bytes := s.bytes + data)
  }

  function BodyOf(s: Parser): Body {
    Body(s.pos, s.message.body, s.bytesRead, s.chunk)
  }

  function WithBody(s: Parser, b: Body): Parser {
    s.(pos := b.pos, message := s.message.(body := b.text), bytesRead := b.bytesRead, chunk := b.chunk)
  }

  function ParseBody(rules: Rules, s: Parser): (r: Result)
    requires s.pos <= |s.bytes|
    ensures r.parser.pos <= |r.parser.bytes| == |s.bytes|
  {
    var x := BodyStep(rules, s.bytes, BodyOf(s), s.message.typed);
    Result(WithBody(s, x.body), x.outcome)
  }

  function ParseHeaders(rules: Rules, s: Parser): (r: Result)
    requires s.pos <= |s.bytes|
    ensures r.parser.pos <= |r.parser.bytes| == |s.bytes|
  {
    var x := Headers(rules, s.bytes, s.pos);
    var s1 := s.(message := Apply(s.message, x.effects));
    match x.status
    case Again => Result(s1, More)
    case Failed(e) => Result(s1, Error(e))
    case Next => ParseBody(rules, s1.(pos := x.pos, stage := BodyStage))
  }

  function ParseLine(rules: Rules, s: Parser): (r: Result)
    requires s.pos <= |s.bytes|
    ensures r.parser.pos <= |r.parser.bytes| == |s.bytes|
  {
    var x := RequestLine(rules, s.bytes, s.pos);
    var s1 := s.(message := Apply(s.message, x.effects));
    match x.status
    case Again => Result(s1, More)
    case Failed(e) => Result(s1, Error(e))
    case Next => ParseHeaders(rules, s1.(pos := x.pos, stage := HeaderStage))
  }

  /** `ParserBase::parse`. */
  function Parse(rules: Rules, s: Parser): (r: Result)
    requires s.pos <= |s.bytes|
    ensures r.parser.pos <= |r.parser.bytes| == |s.bytes|
  {
    match s.stage
    case LineStage => ParseLine(rules, s)
    case HeaderStage => ParseHeaders(rules, s)
    case BodyStage => ParseBody(rules, s)
  }

  /** Packets fed and parsed one after the other, until the first Done or error. */
  function Run(rules: Rules, s: Parser, packets: seq<string>): Result
    requires s.pos <= |s.bytes|
    decreases packets
  {
    if packets == [] then Result(s, More)
    else
      var r := Parse(rules, Feed(s, packets[0]));
      if r.outcome.More? then Run(rules, r.parser, packets[1..]) else r
  }

  function Concat(packets: seq<string>): string {
    if packets == [] then "" else packets[0] + Concat(packets[1..])
  }

  predicate TornParser(s: Parser) {
    Torn(BodyOf(s))
  }

  // ---------------------------------------------------------------------------------------------
  // Parsing resumes
  // ---------------------------------------------------------------------------------------------

  /** Parsing what is there, then parsing on with `d`, against parsing all of it at once. */
  ghost predicate Resumable(rules: Rules, s: Parser, d: string, r: Result)
    requires s.pos <= |s.bytes| && r.parser.pos <= |r.parser.bytes|
  {
    Parse(rules, Feed(s, d)) == if r.outcome.More? then Parse(rules, Feed(r.parser, d)) else Result(Feed(r.parser, d), r.outcome)
  }

  lemma BodyResumes(rules: Rules, s: Parser, d: string)
    requires s.pos <= |s.bytes| && s.stage.BodyStage? && !TornParser(s)
    requires var r := ParseBody(rules, s); !(r.outcome.More? && TornParser(r.parser) && d != "")
    ensures Resumable(rules, s, d, ParseBody(rules, s))
  {
    var r := ParseBody(rules, s);
    var x := BodyStep(rules, s.bytes, BodyOf(s), s.message.typed);
    assert BodyOf(r.parser) == x.body;
    BodyStepResumes(rules, s.bytes, s.bytes + d, BodyOf(s), s.message.typed);
  }

  lemma HeadersResume(rules: Rules, s: Parser, d: string)
    requires s.pos <= |s.bytes| && s.stage.HeaderStage? && !TornParser(s)
    requires var r := ParseHeaders(rules, s); !(r.outcome.More? && TornParser(r.parser) && d != "")
    ensures Resumable(rules, s, d, ParseHeaders(rules, s))
  {
    var x, y := Headers(rules, s.bytes, s.pos), Headers(rules, s.bytes + d, s.pos);
    HeadersExtend(rules, s.bytes, s.bytes + d, s.pos);
    var s1 := s.(message := Apply(s.message, x.effects));
    if x.status.Again? {
      Replay(s.message, x.effects, y.effects);
    } else if x.status.Next? {
      var s2 := s1.(pos := x.pos, stage := BodyStage);
      KeepsBody(s.message, x.effects);
      BodyResumes(rules, s2, d);
      assert Feed(s, d).(message := s1.message, pos := x.pos, stage := BodyStage) == Feed(s2, d);
    }
  }

  lemma LineResumes(rules: Rules, s: Parser, d: string)
    requires s.pos <= |s.bytes| && s.stage.LineStage? && !TornParser(s)
    requires var r := ParseLine(rules, s); !(r.outcome.More? && TornParser(r.parser) && d != "")
    ensures Resumable(rules, s, d, ParseLine(rules, s))
  {
    var x, y := RequestLine(rules, s.bytes, s.pos), RequestLine(rules, s.bytes + d, s.pos);
    RequestLineExtend(rules, s.bytes, s.bytes + d, s.pos);
    var s1 := s.(message := Apply(s.message, x.effects));
    if x.status.Again? {
      Replay(s.message, x.effects, y.effects);
    } else if x.status.Next? {
      var s2 := s1.(pos := x.pos, stage := HeaderStage);
      HeadersResume(rules, s2, d);
      assert Feed(s, d).(message := s1.message, pos := x.pos, stage := HeaderStage) == Feed(s2, d);
    }
  }

  lemma KeepsBody(m: Message, es: seq<Effect>)
    ensures Apply(m, es).body == m.body
  {
    ApplyOverlay(m, es);
  }

  /** A pause after any prefix is invisible, unless it tears a chunk's closing CR LF and more data follows. */
  lemma ParseResumes(rules: Rules, s: Parser, d: string)
    requires s.pos <= |s.bytes| && !TornParser(s)
    requires var r := Parse(rules, s); !(r.outcome.More? && TornParser(r.parser) && d != "")
    ensures Resumable(rules, s, d, Parse(rules, s))
  {
    match s.stage
    case LineStage => LineResumes(rules, s, d);
    case HeaderStage => HeadersResume(rules, s, d);
    case BodyStage => BodyResumes(rules, s, d);
  }
}
