/** Feeding a request packet by packet against feeding it whole. */
module HttpPackets {
  import opened HttpMessage
  import opened HttpScan
  import opened HttpBody
  import opened HttpParserSpec

  /** The packet run ended like the whole parse: same outcome, message, position and counters. */
  ghost predicate Same(r: Result, whole: Result) {
    && r.outcome == whole.outcome
    && r.parser.bytes <= whole.parser.bytes
    && r.parser == whole.parser.(bytes := r.parser.bytes)
  }

  /** After the first `k` bytes of `data` the parser stands between the CR and the LF that close a chunk's data. */
  predicate CutsClosing(rules: Rules, s: Parser, data: string, k: nat)
    requires s.pos <= |s.bytes| && k <= |data|
  {
    var r := Parse(rules, Feed(s, data[..k]));
    r.outcome.More? && TornParser(r.parser)
  }

  /** Packet number `i` brings data and starts right at such a place. */
  predicate CutBefore(rules: Rules, s: Parser, packets: seq<string>, i: nat)
    requires s.pos <= |s.bytes| && i <= |packets|
  {
    PrefixLength(packets, i);
    var k := |Concat(packets[..i])|;
    k < |Concat(packets)| && CutsClosing(rules, s, Concat(packets), k)
  }

  lemma {:induction false} PrefixLength(packets: seq<string>, i: nat)
    requires i <= |packets|
    ensures |Concat(packets[..i])| <= |Concat(packets)|
    ensures Concat(packets)[..|Concat(packets[..i])|] == Concat(packets[..i])
  {
    if i > 0 {
      PrefixLength(packets[1..], i - 1);
      assert packets[..i][1..] == packets[1..][..i - 1];
    }
  }

  ghost predicate Cut(rules: Rules, s: Parser, packets: seq<string>)
    requires s.pos <= |s.bytes|
  {
    exists i :: 1 <= i < |packets| && CutBefore(rules, s, packets, i)
  }

  lemma FeedAgain(s: Parser, p: string, d: string)
    ensures Feed(Feed(s, p), d) == Feed(s, p + d)
  {
    assert (s.bytes + p) + d == s.bytes + (p + d);
  }

  lemma {:induction false} EmptyRun(rules: Rules, t: Parser, packets: seq<string>)
    requires t.pos <= |t.bytes| && Parse(rules, t) == Result(t, More)
    requires Concat(packets) == ""
    ensures Run(rules, t, packets) == Result(t, More)
  {
    if packets != [] {
      assert packets[0] == "" && Feed(t, "") == t;
      EmptyRun(rules, t, packets[1..]);
    }
  }

  /** The cuts of the later packets, seen after the first one has been parsed. */
  lemma ShiftCut(rules: Rules, s: Parser, packets: seq<string>, r: Parser, i: nat)
    requires s.pos <= |s.bytes| && !TornParser(s) && i + 1 < |packets|
    requires Parse(rules, Feed(s, packets[0])) == Result(r, More) && !TornParser(r)
    ensures r.pos <= |r.bytes|
    ensures CutBefore(rules, s, packets, i + 1) <==> CutBefore(rules, r, packets[1..], i)
  {
    var p, rest := packets[0], packets[1..];
    PrefixLength(packets, i + 1);
    PrefixLength(rest, i);
    assert packets[..i + 1][1..] == rest[..i];
    var d := Concat(rest[..i]);
    assert Concat(packets[..i + 1]) == p + d;
    ParseResumes(rules, Feed(s, p), d);
    FeedAgain(s, p, d);
  }

  /** Once the first packet has settled the parse, no later boundary cuts anything. */
  lemma SettledUncut(rules: Rules, s: Parser, packets: seq<string>, i: nat)
    requires s.pos <= |s.bytes| && !TornParser(s) && 1 <= i < |packets|
    requires !Parse(rules, Feed(s, packets[0])).outcome.More?
    ensures !CutBefore(rules, s, packets, i)
  {
    PrefixLength(packets, i);
    assert packets[..i][0] == packets[0];
    var d := Concat(packets[..i][1..]);
    ParseResumes(rules, Feed(s, packets[0]), d);
    FeedAgain(s, packets[0], d);
  }

  /** Without a cut, packets make no difference. */
  lemma {:induction false} UncutRun(rules: Rules, s: Parser, packets: seq<string>)
    requires s.pos <= |s.bytes| && !TornParser(s) && packets != []
    requires !Cut(rules, s, packets)
    ensures Same(Run(rules, s, packets), Parse(rules, Feed(s, Concat(packets))))
    decreases packets
  {
    var p, rest := packets[0], packets[1..];
    var s1 := Feed(s, p);
    var r, d := Parse(rules, s1), Concat(rest);
    assert Feed(s1, d) == Feed(s, Concat(packets));
    if !r.outcome.More? {
      ParseResumes(rules, s1, d);
    } else if rest == [] {
      assert Run(rules, r.parser, rest) == r && p + "" == p;
    } else if d == "" {
      ParseResumes(rules, s1, d);
      assert Feed(s1, "") == s1 && Feed(r.parser, "") == r.parser;
      EmptyRun(rules, r.parser, rest);
    } else {
      UncutStep(rules, s, packets);
      UncutRun(rules, r.parser, rest);
      assert Run(rules, s, packets) == Run(rules, r.parser, rest);
    }
  }

  /** After an uncut first packet the rest is uncut, and leads to the same end. */
  lemma UncutStep(rules: Rules, s: Parser, packets: seq<string>)
    requires s.pos <= |s.bytes| && !TornParser(s) && |packets| > 1 && Concat(packets[1..]) != ""
    requires !Cut(rules, s, packets)
    requires Parse(rules, Feed(s, packets[0])).outcome.More?
    ensures var r := Parse(rules, Feed(s, packets[0]));
            && !TornParser(r.parser) && !Cut(rules, r.parser, packets[1..])
            && Parse(rules, Feed(r.parser, Concat(packets[1..]))) == Parse(rules, Feed(s, Concat(packets)))
  {
    var p, rest := packets[0], packets[1..];
    var r, d := Parse(rules, Feed(s, p)), Concat(rest);
    assert !TornParser(r.parser) by {
      FirstBoundary(rules, s, packets);
      assert !CutBefore(rules, s, packets, 1);
    }
    assert !Cut(rules, r.parser, rest) by {
      if Cut(rules, r.parser, rest) {
        LaterCut(rules, s, packets);
      }
    }
    FeedTwice(rules, s, p, d);
  }

  lemma FeedTwice(rules: Rules, s: Parser, p: string, d: string)
    requires s.pos <= |s.bytes| && !TornParser(s)
    requires var r := Parse(rules, Feed(s, p)); r.outcome.More? && !TornParser(r.parser)
    ensures Parse(rules, Feed(Parse(rules, Feed(s, p)).parser, d)) == Parse(rules, Feed(s, p + d))
  {
    ParseResumes(rules, Feed(s, p), d);
    FeedAgain(s, p, d);
  }

  /** A cut among the later packets is a cut. */
  lemma LaterCut(rules: Rules, s: Parser, packets: seq<string>)
    requires s.pos <= |s.bytes| && !TornParser(s) && packets != []
    requires var r := Parse(rules, Feed(s, packets[0]));
             r.outcome.More? && !TornParser(r.parser) && Cut(rules, r.parser, packets[1..])
    ensures Cut(rules, s, packets)
  {
    var r, rest := Parse(rules, Feed(s, packets[0])).parser, packets[1..];
    var i :| 1 <= i < |rest| && CutBefore(rules, r, rest, i);
    ShiftCut(rules, s, packets, r, i);
  }

  lemma FirstBoundary(rules: Rules, s: Parser, packets: seq<string>)
    requires s.pos <= |s.bytes| && |packets| > 1
    ensures var r := Parse(rules, Feed(s, packets[0]));
            CutBefore(rules, s, packets, 1) <==> Concat(packets[1..]) != "" && r.outcome.More? && TornParser(r.parser)
  {
    PrefixLength(packets, 1);
    assert packets[..1][1..] == [];
    assert Concat(packets[..1]) == packets[0] + "" == packets[0];
  }

  /** The parser as it stands after a torn chunk. */
  predicate TornStop(rules: Rules, t: Parser) {
    && t.stage.BodyStage? && TornAtEnd(rules, t.bytes, BodyOf(t))
    && "content-length" !in t.message.typed && "transfer-encoding" in t.message.typed
    && rules.chunked(t.message.typed["transfer-encoding"])
  }

  lemma TornParse(rules: Rules, s: Parser)
    requires s.pos <= |s.bytes| && !TornParser(s)
    requires var r := Parse(rules, s); r.outcome.More? && TornParser(r.parser)
    ensures TornStop(rules, Parse(rules, s).parser)
  {
    var r := Parse(rules, s);
    var s1 := s;
    if s1.stage.LineStage? {
      var x := RequestLine(rules, s1.bytes, s1.pos);
      s1 := s1.(message := Apply(s1.message, x.effects), pos := x.pos, stage := HeaderStage);
    }
    if s1.stage.HeaderStage? {
      var x := Headers(rules, s1.bytes, s1.pos);
      s1 := s1.(message := Apply(s1.message, x.effects), pos := x.pos, stage := BodyStage);
    }
    assert r == ParseBody(rules, s1);
    TornShape(rules, s1.bytes, BodyOf(s1));
    assert BodyOf(r.parser) == Chunks(rules, s1.bytes, BodyOf(s1)).body;
  }

  lemma {:induction false} TornRun(rules: Rules, t: Parser, packets: seq<string>)
    requires TornStop(rules, t) && Concat(packets) != ""
    ensures Run(rules, t, packets).outcome == Error(AppendOverflow)
    decreases packets
  {
    TornFate(rules, t.bytes, t.bytes + packets[0], BodyOf(t));
    if packets[0] == "" {
      assert Feed(t, "") == t;
      assert Parse(rules, t) == Result(t, More);
      TornRun(rules, t, packets[1..]);
    }
  }

  lemma NeverOverflows(rules: Rules, s: Parser)
    requires s.pos <= |s.bytes| && !TornParser(s)
    ensures Parse(rules, s).outcome != Error(AppendOverflow)
  {
    var s1 := s;
    if s1.stage.LineStage? {
      var x := RequestLine(rules, s1.bytes, s1.pos);
      if !x.status.Next? { return; }
      s1 := s1.(message := Apply(s1.message, x.effects), pos := x.pos, stage := HeaderStage);
    }
    if s1.stage.HeaderStage? {
      var x := Headers(rules, s1.bytes, s1.pos);
      if !x.status.Next? { return; }
      s1 := s1.(message := Apply(s1.message, x.effects), pos := x.pos, stage := BodyStage);
    }
    OnlyTornOverflows(rules, s1.bytes, BodyOf(s1));
  }

  /** A cut behind the first boundary is a cut of the later packets. */
  lemma CutStep(rules: Rules, s: Parser, packets: seq<string>, r: Parser, i: nat)
    requires s.pos <= |s.bytes| && !TornParser(s) && 1 <= i < |packets|
    requires Parse(rules, Feed(s, packets[0])) == Result(r, More) && !TornParser(r)
    requires CutBefore(rules, s, packets, i)
    ensures r.pos <= |r.bytes| && Cut(rules, r, packets[1..])
  {
    FirstBoundary(rules, s, packets);
    ShiftCut(rules, s, packets, r, i - 1);
  }

  /** With a cut, the run fails where the whole parse does not. */
  lemma {:induction false} CutRun(rules: Rules, s: Parser, packets: seq<string>)
    requires s.pos <= |s.bytes| && !TornParser(s)
    requires Cut(rules, s, packets)
    ensures Run(rules, s, packets).outcome == Error(AppendOverflow)
    decreases packets
  {
    var i :| 1 <= i < |packets| && CutBefore(rules, s, packets, i);
    var p, rest := packets[0], packets[1..];
    var r := Parse(rules, Feed(s, p));
    if !r.outcome.More? {
      SettledUncut(rules, s, packets, i);
    } else {
      FirstBoundary(rules, s, packets);
      if TornParser(r.parser) {
        NonEmptyRest(packets, i);
        TornParse(rules, Feed(s, p));
        TornRun(rules, r.parser, rest);
      } else {
        CutStep(rules, s, packets, r.parser, i);
        CutRun(rules, r.parser, rest);
      }
    }
  }

  lemma NonEmptyRest(packets: seq<string>, i: nat)
    requires 1 <= i < |packets| && |Concat(packets[..i])| < |Concat(packets)|
    ensures Concat(packets[1..]) != ""
  {
    assert packets[..i][0] == packets[0];
  }

  /** A request parses the same however it is cut into packets, exactly when no packet with data
      starts between the CR and the LF that close a chunk's data. */
  lemma PacketIndependence(rules: Rules, packets: seq<string>)
    requires packets != []
    ensures Same(Run(rules, FRESH, packets), Parse(rules, Feed(FRESH, Concat(packets)))) <==> !Cut(rules, FRESH, packets)
  {
    if Cut(rules, FRESH, packets) {
      CutRun(rules, FRESH, packets);
      NeverOverflows(rules, Feed(FRESH, Concat(packets)));
    } else {
      UncutRun(rules, FRESH, packets);
    }
  }
}
