/** The request line and the header block, read from a buffer that may be cut anywhere.

  A scan yields the effects it had before it stopped, how it stopped, and the next position.
  `Extends` says what more bytes may change: nothing once the scan has settled, and only further
  effects while it asked for more.
 */
module HttpScan {
  import opened HttpMessage
  import opened Options

  datatype Error =
    | UnknownMethod
    | BadVersion
    | BadHeader
    | LengthAndEncoding
    | UnsupportedEncoding
    | BadChunkSize
    | ReserveRefused
    | AppendOverflow

  const U64: nat := 0x1_0000_0000_0000_0000

  type u64 = n: nat | n < U64

  /** Tables and parsers that live in other files: method names, registered headers, cookies, typed values. */
  datatype Rules = Rules(
    methods: set<string>,
    registered: string -> bool,
    accepts: (string, string) -> bool,
    cookies: string -> Option<seq<Cookie>>,
    setCookie: string -> Option<Cookie>,
    contentLength: string -> u64,
    chunked: string -> bool,
    maxReserve: nat)

  datatype Status = Again | Next | Failed(error: Error)

  datatype Scan = Scan(effects: seq<Effect>, status: Status, pos: nat)

  const CR: char := '\r'
  const LF: char := '\n'
  const EOF_CHAR: char := '\U{FF}'

  function Current(b: string, p: nat): char {
    if p < |b| then b[p] else EOF_CHAR
  }

  predicate Eol(b: string, p: nat) {
    p + 1 < |b| && b[p] == CR && b[p + 1] == LF
  }

  /** The first position at or after `p` whose byte is in `stops`, or the end. */
  function Find(b: string, p: nat, stops: set<char>): (q: nat)
    requires p <= |b|
    ensures p <= q <= |b|
    ensures q < |b| ==> b[q] in stops
    decreases |b| - p
  {
    if p == |b| || b[p] in stops then p else Find(b, p + 1, stops)
  }

  /** The first end of line at or after `p`, or the end of the data. */
  function FindEol(b: string, p: nat): (q: nat)
    requires p <= |b|
    ensures p <= q <= |b|
    ensures q < |b| ==> Eol(b, q)
    decreases |b| - p
  {
    if p == |b| || Eol(b, p) then p else FindEol(b, p + 1)
  }

  function SkipSpaces(b: string, p: nat): (q: nat)
    requires p <= |b|
    ensures p <= q <= |b|
    ensures q < |b| ==> b[q] != ' '
    decreases |b| - p
  {
    if p == |b| || b[p] != ' ' then p else SkipSpaces(b, p + 1)
  }

  /** `strncmp(text, literal, |text|) == 0`, where `literal` stands for itself and its terminating zero. */
  predicate StrncmpEqual(text: string, literal: string) {
    if text == "" then true
    else if literal == "" then text[0] == '\0'
    else text[0] == literal[0] && StrncmpEqual(text[1..], literal[1..])
  }

  function Prepend(es: seq<Effect>, x: Scan): Scan {
    x.(effects := es + x.effects)
  }

  function VersionScan(b: string, p: nat): (x: Scan)
    requires p <= |b|
    ensures x.status.Next? ==> p <= x.pos <= |b|
    ensures x.status != Failed(AppendOverflow)
  {
    var e := FindEol(b, p);
    if e == |b| then Scan([], Again, p)
    else if StrncmpEqual(b[p..e], "HTTP/1.0") then Scan([SetVersion(Http10)], Next, e + 2)
    else if StrncmpEqual(b[p..e], "HTTP/1.1") then Scan([SetVersion(Http11)], Next, e + 2)
    else Scan([], Failed(BadVersion), p)
  }

  /** The query parameters from `p` on, then the version. */
  function QueryScan(b: string, p: nat): (x: Scan)
    requires p <= |b|
    ensures x.status.Next? ==> p <= x.pos <= |b|
    ensures x.status != Failed(AppendOverflow)
    decreases |b| - p
  {
    if p < |b| && b[p] == ' ' then VersionScan(b, p + 1)
    else
      var e := Find(b, p, {'=', ' ', '&'});
      if e == |b| then Scan([], Again, p)
      else QueryKey(b, p, e)
  }

  /** A key that ends at `e`, with or without a value, and what follows. */
  function QueryKey(b: string, p: nat, e: nat): (x: Scan)
    requires p <= e < |b|
    ensures x.status.Next? ==> p <= x.pos <= |b|
    ensures x.status != Failed(AppendOverflow)
    decreases |b| - p, 1
  {
    if b[e] == ' ' then Prepend([AddQuery(b[p..e], "")], VersionScan(b, e + 1))
    else if b[e] == '&' then Prepend([AddQuery(b[p..e], "")], QueryScan(b, e + 1))
    else QueryValue(b, p, e)
  }

  /** A key that ends at the `=` at `e`: its value comes next. */
  function QueryValue(b: string, p: nat, e: nat): (x: Scan)
    requires p <= e < |b|
    ensures x.status.Next? ==> p <= x.pos <= |b|
    ensures x.status != Failed(AppendOverflow)
    decreases |b| - p, 0
  {
    var f := Find(b, e + 1, {' ', '&'});
    if f == |b| then Scan([], Again, p) else QueryPair(b, p, e, f)
  }

  function QueryPair(b: string, p: nat, e: nat, f: nat): (x: Scan)
    requires p <= e < f < |b|
    ensures x.status.Next? ==> p <= x.pos <= |b|
    ensures x.status != Failed(AppendOverflow)
    decreases |b| - p, 0, 0
  {
    var es := [AddQuery(b[p..e], b[e + 1..f])];
    if b[f] == '&' then Prepend(es, QueryScan(b, f + 1)) else Prepend(es, VersionScan(b, f + 1))
  }

  function ResourceScan(b: string, p: nat): (x: Scan)
    requires p <= |b|
    ensures x.status.Next? ==> p <= x.pos <= |b|
    ensures x.status != Failed(AppendOverflow)
  {
    var e := Find(b, p, {'?', ' '});
    if e == |b| then Scan([], Again, p) else ResourceEnd(b, p, e)
  }

  function ResourceEnd(b: string, p: nat, e: nat): (x: Scan)
    requires p <= e < |b|
    ensures x.status.Next? ==> p <= x.pos <= |b|
    ensures x.status != Failed(AppendOverflow)
  {
    var es := [SetResource(b[p..e])];
    if b[e] == '?' then Prepend(es, QueryScan(b, e + 1)) else Prepend(es, VersionScan(b, e + 1))
  }

  function RequestLine(rules: Rules, b: string, p: nat): (x: Scan)
    requires p <= |b|
    ensures x.status.Next? ==> p <= x.pos <= |b|
    ensures x.status != Failed(AppendOverflow)
  {
    var e := Find(b, p, {' '});
    if e == |b| then Scan([], Again, p)
    else if b[p..e] !in rules.methods then Scan([], Failed(UnknownMethod), p)
    else Prepend([SetMethod(b[p..e])], ResourceScan(b, e + 1))
  }

  /** What one complete header line does, or None when its parser throws. */
  function HeaderEffects(rules: Rules, name: string, value: string): Option<seq<Effect>> {
    if Lower(name) == "cookie" then
      match rules.cookies(value)
      case None => None
      case Some(cs) => Some([ReplaceCookies(cs), AddRaw(name, value)])
    else if Lower(name) == "set-cookie" then
      match rules.setCookie(value)
      case None => None
      case Some(c) => Some([AddCookie(c), AddRaw(name, value)])
    else if rules.registered(Lower(name)) then
      if rules.accepts(Lower(name), value) then Some([AddTyped(name, value), AddRaw(name, value)]) else None
    else Some([AddRaw(name, value)])
  }

  function Headers(rules: Rules, b: string, p: nat): (x: Scan)
    requires p <= |b|
    ensures x.status.Next? ==> p <= x.pos <= |b|
    ensures x.status != Failed(AppendOverflow)
    decreases |b| - p
  {
    if Eol(b, p) then Scan([], Next, p + 2)
    else
      var colon := Find(b, p, {':'});
      if colon == |b| then Scan([], Again, p) else HeaderLine(rules, b, p, colon)
  }

  /** The header line whose name ends at `colon`, and the lines after it. */
  function HeaderLine(rules: Rules, b: string, p: nat, colon: nat): (x: Scan)
    requires p <= colon < |b|
    ensures x.status.Next? ==> p <= x.pos <= |b|
    ensures x.status != Failed(AppendOverflow)
    decreases |b| - p, 0
  {
    var v := SkipSpaces(b, colon + 1);
    var e := FindEol(b, v);
    if e == |b| then Scan([], Again, p)
    else match HeaderEffects(rules, b[p..colon], b[v..e])
         case None => Scan([], Failed(BadHeader), p)
         case Some(es) => Prepend(es, Headers(rules, b, e + 2))
  }

  // ---------------------------------------------------------------------------------------------
  // More bytes only complete what was started
  // ---------------------------------------------------------------------------------------------

  ghost predicate Extends(x: Scan, y: Scan) {
    if x.status.Again? then x.effects <= y.effects else x == y
  }

  lemma {:induction false} FindExtend(b: string, d: string, p: nat, stops: set<char>)
    requires b <= d
    requires p <= |b|
    ensures Find(b, p, stops) < |b| ==> Find(d, p, stops) == Find(b, p, stops)
    ensures Find(b, p, stops) == |b| ==> Find(d, p, stops) >= |b|
    decreases |b| - p
  {
    if p < |b| && b[p] !in stops {
      FindExtend(b, d, p + 1, stops);
    }
  }

  lemma {:induction false} FindEolExtend(b: string, d: string, p: nat)
    requires b <= d
    requires p <= |b|
    ensures FindEol(b, p) < |b| ==> FindEol(d, p) == FindEol(b, p)
    decreases |b| - p
  {
    if p < |b| && !Eol(b, p) && FindEol(b, p) < |b| {
      FindEolExtend(b, d, p + 1);
    }
  }

  lemma {:induction false} SkipSpacesExtend(b: string, d: string, p: nat)
    requires b <= d
    requires p <= |b|
    ensures SkipSpaces(b, p) < |b| ==> SkipSpaces(d, p) == SkipSpaces(b, p)
    decreases |b| - p
  {
    if p < |b| && b[p] == ' ' {
      SkipSpacesExtend(b, d, p + 1);
    }
  }

  lemma SliceExtend(b: string, d: string, p: nat, q: nat)
    requires b <= d
    requires p <= q <= |b|
    ensures d[p..q] == b[p..q]
  {
  }

  lemma VersionExtend(b: string, d: string, p: nat)
    requires b <= d
    requires p <= |b|
    ensures Extends(VersionScan(b, p), VersionScan(d, p))
  {
    FindEolExtend(b, d, p);
    SliceExtend(b, d, p, FindEol(b, p));
  }

  lemma PrependExtend(es: seq<Effect>, x: Scan, y: Scan)
    requires Extends(x, y)
    ensures Extends(Prepend(es, x), Prepend(es, y))
  {
  }

  lemma {:induction false} QueryExtend(b: string, d: string, p: nat)
    requires b <= d
    requires p <= |b|
    ensures Extends(QueryScan(b, p), QueryScan(d, p))
    decreases |b| - p
  {
    var e := Find(b, p, {'=', ' ', '&'});
    FindExtend(b, d, p, {'=', ' ', '&'});
    if p < |b| && b[p] == ' ' {
      VersionExtend(b, d, p + 1);
      assert QueryScan(b, p) == VersionScan(b, p + 1) && QueryScan(d, p) == VersionScan(d, p + 1);
    } else if e == |b| {
      assert QueryScan(b, p) == Scan([], Again, p);
    } else {
      assert Find(d, p, {'=', ' ', '&'}) == e && p < |d| && d[p] == b[p];
      assert QueryScan(b, p) == QueryKey(b, p, e) && QueryScan(d, p) == QueryKey(d, p, e);
      QueryKeyExtend(b, d, p, e);
    }
  }

  lemma {:induction false} QueryKeyExtend(b: string, d: string, p: nat, e: nat)
    requires b <= d
    requires p <= e < |b|
    ensures Extends(QueryKey(b, p, e), QueryKey(d, p, e))
    decreases |b| - p, 1
  {
    SliceExtend(b, d, p, e);
    var es := [AddQuery(b[p..e], "")];
    if b[e] == ' ' {
      VersionExtend(b, d, e + 1);
      PrependExtend(es, VersionScan(b, e + 1), VersionScan(d, e + 1));
    } else if b[e] == '&' {
      QueryExtend(b, d, e + 1);
      PrependExtend(es, QueryScan(b, e + 1), QueryScan(d, e + 1));
    } else {
      QueryValueExtend(b, d, p, e);
    }
  }

  lemma {:induction false} QueryValueExtend(b: string, d: string, p: nat, e: nat)
    requires b <= d
    requires p <= e < |b|
    ensures Extends(QueryValue(b, p, e), QueryValue(d, p, e))
    decreases |b| - p, 0
  {
    var f := Find(b, e + 1, {' ', '&'});
    FindExtend(b, d, e + 1, {' ', '&'});
    if f == |b| {
      assert QueryValue(b, p, e) == Scan([], Again, p);
    } else {
      assert Find(d, e + 1, {' ', '&'}) == f;
      assert QueryValue(b, p, e) == QueryPair(b, p, e, f) && QueryValue(d, p, e) == QueryPair(d, p, e, f);
      QueryPairExtend(b, d, p, e, f);
    }
  }

  lemma {:induction false} QueryPairExtend(b: string, d: string, p: nat, e: nat, f: nat)
    requires b <= d
    requires p <= e < f < |b|
    ensures Extends(QueryPair(b, p, e, f), QueryPair(d, p, e, f))
    decreases |b| - p, 0, 0
  {
    SliceExtend(b, d, e + 1, f);
    SliceExtend(b, d, p, e);
    var es := [AddQuery(b[p..e], b[e + 1..f])];
    if b[f] == '&' {
      QueryExtend(b, d, f + 1);
      PrependExtend(es, QueryScan(b, f + 1), QueryScan(d, f + 1));
    } else {
      VersionExtend(b, d, f + 1);
      PrependExtend(es, VersionScan(b, f + 1), VersionScan(d, f + 1));
    }
  }

  lemma ResourceEndExtend(b: string, d: string, p: nat, e: nat)
    requires b <= d
    requires p <= e < |b|
    ensures Extends(ResourceEnd(b, p, e), ResourceEnd(d, p, e))
  {
    SliceExtend(b, d, p, e);
    var es := [SetResource(b[p..e])];
    if b[e] == '?' {
      QueryExtend(b, d, e + 1);
      PrependExtend(es, QueryScan(b, e + 1), QueryScan(d, e + 1));
    } else {
      VersionExtend(b, d, e + 1);
      PrependExtend(es, VersionScan(b, e + 1), VersionScan(d, e + 1));
    }
  }

  lemma ResourceExtend(b: string, d: string, p: nat)
    requires b <= d
    requires p <= |b|
    ensures Extends(ResourceScan(b, p), ResourceScan(d, p))
  {
    var e := Find(b, p, {'?', ' '});
    FindExtend(b, d, p, {'?', ' '});
    if e == |b| {
      assert ResourceScan(b, p) == Scan([], Again, p);
    } else {
      assert ResourceScan(b, p) == ResourceEnd(b, p, e) && ResourceScan(d, p) == ResourceEnd(d, p, e);
      ResourceEndExtend(b, d, p, e);
    }
  }

  lemma RequestLineExtend(rules: Rules, b: string, d: string, p: nat)
    requires b <= d
    requires p <= |b|
    ensures Extends(RequestLine(rules, b, p), RequestLine(rules, d, p))
  {
    hide Find, ResourceScan;
    var x, y := RequestLine(rules, b, p), RequestLine(rules, d, p);
    var e := Find(b, p, {' '});
    FindExtend(b, d, p, {' '});
    if e == |b| {
      assert x == Scan([], Again, p);
      assert Extends(x, y);
    } else {
      SliceExtend(b, d, p, e);
      assert e < |d| && Find(d, p, {' '}) == e;
      if b[p..e] !in rules.methods {
        assert x == Scan([], Failed(UnknownMethod), p);
        assert y == x;
      } else {
        ResourceExtend(b, d, e + 1);
        assert x == Prepend([SetMethod(b[p..e])], ResourceScan(b, e + 1));
        assert y == Prepend([SetMethod(b[p..e])], ResourceScan(d, e + 1));
        PrependExtend([SetMethod(b[p..e])], ResourceScan(b, e + 1), ResourceScan(d, e + 1));
      }
    }
  }

  lemma {:induction false} HeadersExtend(rules: Rules, b: string, d: string, p: nat)
    requires b <= d
    requires p <= |b|
    ensures Extends(Headers(rules, b, p), Headers(rules, d, p))
    decreases |b| - p
  {
    var x, y := Headers(rules, b, p), Headers(rules, d, p);
    var colon := Find(b, p, {':'});
    FindExtend(b, d, p, {':'});
    if Eol(b, p) {
      assert Eol(d, p);
    } else if colon == |b| {
      assert x == Scan([], Again, p);
    } else {
      assert !Eol(d, p) && Find(d, p, {':'}) == colon;
      assert x == HeaderLine(rules, b, p, colon) && y == HeaderLine(rules, d, p, colon);
      HeaderLineExtend(rules, b, d, p, colon);
    }
  }

  lemma {:induction false} HeaderLineExtend(rules: Rules, b: string, d: string, p: nat, colon: nat)
    requires b <= d
    requires p <= colon < |b|
    ensures Extends(HeaderLine(rules, b, p, colon), HeaderLine(rules, d, p, colon))
    decreases |b| - p, 0
  {
    var x, y := HeaderLine(rules, b, p, colon), HeaderLine(rules, d, p, colon);
    var v := SkipSpaces(b, colon + 1);
    SkipSpacesExtend(b, d, colon + 1);
    var e := FindEol(b, v);
    if e == |b| {
      assert x == Scan([], Again, p);
    } else {
      FindEolExtend(b, d, v);
      SliceExtend(b, d, p, colon);
      SliceExtend(b, d, v, e);
      assert SkipSpaces(d, colon + 1) == v && FindEol(d, v) == e;
      var es := HeaderEffects(rules, b[p..colon], b[v..e]);
      if es.None? {
        assert x == y;
      } else {
        HeadersExtend(rules, b, d, e + 2);
        assert x == Prepend(es.value, Headers(rules, b, e + 2)) && y == Prepend(es.value, Headers(rules, d, e + 2));
        PrependExtend(es.value, Headers(rules, b, e + 2), Headers(rules, d, e + 2));
      }
    }
  }
}
