/** Request heads as they are written, and what a new parser knows when it has read one.

  `FirstOf` says of a store which of the written entries it keeps, without the parser's own
  operations; a request with any method, resource, query, version text and header lines is printed
  and read back.
 */
module HttpPrint {
  import opened HttpMessage
  import opened HttpScan
  import opened HttpBody
  import opened HttpParserSpec
  import opened HttpHead
  import opened Options

  // ---------------------------------------------------------------------------------------------
  // The first entry of each key
  // ---------------------------------------------------------------------------------------------

  ghost predicate Occurs<K, V>(ps: seq<(K, V)>, k: K) {
    exists i :: 0 <= i < |ps| && ps[i].0 == k
  }

  ghost predicate FirstAt<K, V>(ps: seq<(K, V)>, i: nat)
    requires i < |ps|
  {
    forall j :: 0 <= j < i ==> ps[j].0 != ps[i].0
  }

  /** `m` has the keys of `ps`, each with the value that it first came with. */
  ghost predicate FirstOf<K(!new), V>(m: map<K, V>, ps: seq<(K, V)>) {
    && (forall k :: k in m <==> Occurs(ps, k))
    && (forall i :: 0 <= i < |ps| && FirstAt(ps, i) ==> ps[i].0 in m && m[ps[i].0] == ps[i].1)
  }

  lemma FirstNone<K(!new), V>()
    ensures FirstOf<K, V>(map[], [])
  {
  }

  lemma FirstMore<K(!new), V>(m: map<K, V>, ps: seq<(K, V)>, k: K, v: V)
    requires FirstOf(m, ps)
    ensures FirstOf(Insert(m, k, v), ps + [(k, v)])
  {
    var qs, m' := ps + [(k, v)], Insert(m, k, v);
    forall x ensures x in m' <==> Occurs(qs, x) {
      if Occurs(ps, x) {
        var i :| 0 <= i < |ps| && ps[i].0 == x;
        assert qs[i].0 == x;
      }
      assert qs[|ps|].0 == k;
      if Occurs(qs, x) && x != k {
        var i :| 0 <= i < |qs| && qs[i].0 == x;
        assert ps[i].0 == x;
      }
    }
    forall i | 0 <= i < |qs| && FirstAt(qs, i) ensures qs[i].0 in m' && m'[qs[i].0] == qs[i].1 {
      FirstKept(m, ps, k, v, i);
    }
  }

  lemma FirstKept<K(!new), V>(m: map<K, V>, ps: seq<(K, V)>, k: K, v: V, i: nat)
    requires FirstOf(m, ps) && i <= |ps| && FirstAt(ps + [(k, v)], i)
    ensures var x := (ps + [(k, v)])[i]; x.0 in Insert(m, k, v) && Insert(m, k, v)[x.0] == x.1
  {
    var qs := ps + [(k, v)];
    if i < |ps| {
      assert forall j :: 0 <= j < i ==> ps[j].0 == qs[j].0;
      assert FirstAt(ps, i);
    } else {
      assert forall j :: 0 <= j < |ps| ==> qs[j].0 == ps[j].0;
      assert !Occurs(ps, k);
    }
  }

  /** A store is settled by what was written. */
  lemma FirstOfIsOne<K(!new), V>(m: map<K, V>, n: map<K, V>, ps: seq<(K, V)>)
    requires FirstOf(m, ps) && FirstOf(n, ps)
    ensures m == n
  {
    forall k | k in m ensures m[k] == n[k] {
      assert Occurs(ps, k);
      var i :| 0 <= i < |ps| && ps[i].0 == k;
      var j := First(ps, i);
    }
  }

  lemma First<K, V>(ps: seq<(K, V)>, i: nat) returns (j: nat)
    requires i < |ps|
    ensures j <= i && ps[j].0 == ps[i].0 && FirstAt(ps, j)
  {
    j := 0;
    while ps[j].0 != ps[i].0
      invariant j <= i
      invariant forall x :: 0 <= x < j ==> ps[x].0 != ps[i].0
      decreases i - j
    {
      j := j + 1;
    }
  }

  // ---------------------------------------------------------------------------------------------
  // What is written
  // ---------------------------------------------------------------------------------------------

  /** A query parameter, with or without a value. */
  datatype Item = Item(key: string, value: Option<string>)

  /** A header line: its name, the blanks behind the colon, its value. */
  datatype Field = Field(name: string, blanks: nat, value: string)

  datatype Request = Request(verb: string, resource: string, query: Option<seq<Item>>, version: string, fields: seq<Field>)

  function ItemText(x: Item): string {
    match x.value
    case None => x.key
    case Some(v) => x.key + "=" + v
  }

  function QueryText(xs: seq<Item>): string {
    if xs == [] then ""
    else if |xs| == 1 then ItemText(xs[0])
    else ItemText(xs[0]) + "&" + QueryText(xs[1..])
  }

  function Blanks(n: nat): string {
    seq(n, _ => ' ')
  }

  function FieldText(f: Field): string {
    f.name + ":" + Blanks(f.blanks) + f.value + "\r\n"
  }

  function FieldsText(fs: seq<Field>): string {
    if fs == [] then "" else FieldText(fs[0]) + FieldsText(fs[1..])
  }

  function LineText(t: Request): string {
    t.verb + " " + t.resource + (if t.query.Some? then "?" + QueryText(t.query.value) else "") + " " + t.version + "\r\n"
  }

  function Print(t: Request): string {
    LineText(t) + FieldsText(t.fields) + "\r\n"
  }

  predicate Without(s: string, stops: set<char>) {
    forall i :: 0 <= i < |s| ==> s[i] !in stops
  }

  /** No line ends inside the text. */
  predicate OnLine(s: string) {
    forall i :: 0 <= i < |s| - 1 ==> !(s[i] == CR && s[i + 1] == LF)
  }

  predicate ItemOk(x: Item) {
    Without(x.key, {'=', ' ', '&'}) && (x.value.Some? ==> Without(x.value.value, {' ', '&'}))
  }

  /** An empty last item would not be seen. */
  predicate ItemsOk(xs: seq<Item>) {
    && (forall i :: 0 <= i < |xs| ==> ItemOk(xs[i]))
    && (xs != [] ==> ItemText(xs[|xs| - 1]) != "")
  }

  predicate FieldOk(f: Field) {
    && Without(f.name, {':'}) && !("\r\n" <= f.name)
    && OnLine(f.value) && (f.value != "" ==> f.value[0] != ' ')
  }

  function Items(t: Request): seq<Item> {
    if t.query.Some? then t.query.value else []
  }

  predicate Printable(t: Request) {
    && Without(t.verb, {' '}) && Without(t.resource, {'?', ' '}) && ItemsOk(Items(t)) && OnLine(t.version)
    && forall i :: 0 <= i < |t.fields| ==> FieldOk(t.fields[i])
  }

  // ---------------------------------------------------------------------------------------------
  // The version text
  // ---------------------------------------------------------------------------------------------

  /** What `strncmp` over the length of the text takes for `literal`: a beginning of it, or all of it and a zero. */
  predicate PassesFor(text: string, literal: string) {
    text <= literal || literal + "\0" <= text
  }

  lemma {:induction false} StrncmpPasses(text: string, literal: string)
    ensures StrncmpEqual(text, literal) <==> PassesFor(text, literal)
    decreases text
  {
    if text == "" {
    } else if literal == "" {
      assert literal + "\0" == "\0";
    } else {
      StrncmpPasses(text[1..], literal[1..]);
      assert text == [text[0]] + text[1..] && literal == [literal[0]] + literal[1..];
      assert literal + "\0" == [literal[0]] + (literal[1..] + "\0");
      if text[0] == literal[0] {
        PrefixTail(text, literal);
        PrefixTail(literal + "\0", text);
        assert (literal + "\0")[1..] == literal[1..] + "\0";
      }
    }
  }

  lemma PrefixTail(a: string, b: string)
    requires a != "" && b != "" && a[0] == b[0]
    ensures a <= b <==> a[1..] <= b[1..]
  {
    if a[1..] <= b[1..] {
      assert a == [a[0]] + a[1..] && b == [b[0]] + b[1..];
      assert forall i :: 0 <= i < |a| ==> a[i] == b[i];
    }
  }

  /** The version that a version text stands for. */
  function VersionOf(text: string): Option<Version> {
    if PassesFor(text, "HTTP/1.0") then Some(Http10)
    else if PassesFor(text, "HTTP/1.1") then Some(Http11)
    else None
  }

  lemma VersionReads(b: string, p: nat, version: string, rest: string)
    requires p <= |b| && b[p..] == version + "\r\n" + rest && OnLine(version)
    ensures VersionScan(b, p) == match VersionOf(version)
                                 case Some(v) => Scan([SetVersion(v)], Next, p + |version| + 2)
                                 case None => Scan([], Failed(BadVersion), p)
    ensures p + |version| + 2 <= |b| && b[p + |version| + 2..] == rest
  {
    Split(b, p, version, "\r\n" + rest);
    assert b[p..] == version + ("\r\n" + rest);
    LineEnds(b, p, version, rest);
    StrncmpPasses(version, "HTTP/1.0");
    StrncmpPasses(version, "HTTP/1.1");
  }

  /** Where a piece of text stands. */
  lemma Split(b: string, p: nat, piece: string, rest: string)
    requires p <= |b| && b[p..] == piece + rest
    ensures p + |piece| <= |b| && b[p..p + |piece|] == piece && b[p + |piece|..] == rest
    ensures forall i :: 0 <= i < |piece| ==> b[p + i] == piece[i]
  {
    assert forall i :: 0 <= i < |piece| ==> b[p + i] == b[p..][i];
    assert b[p..][..|piece|] == piece && b[p..][|piece|..] == rest;
  }

  /** A text without a line end inside ends at the line end behind it. */
  lemma LineEnds(b: string, p: nat, piece: string, rest: string)
    requires p <= |b| && b[p..] == piece + ("\r\n" + rest) && OnLine(piece)
    ensures p + |piece| + 2 <= |b| && FindEol(b, p) == p + |piece| && b[p + |piece| + 2..] == rest
  {
    Split(b, p, piece, "\r\n" + rest);
    Split(b, p + |piece|, "\r\n", rest);
    var q := p + |piece|;
    assert b[q + 0] == '\r' && b[q + 1] == '\n';
    forall i | p <= i < q ensures !Eol(b, i) {
      assert b[p + (i - p)] == piece[i - p];
      if i + 1 < q {
        assert b[p + (i + 1 - p)] == piece[i + 1 - p];
      }
    }
    FindEolIs(b, p, q);
  }

  // ---------------------------------------------------------------------------------------------
  // The query
  // ---------------------------------------------------------------------------------------------

  function ValueOf(x: Item): string {
    if x.value.Some? then x.value.value else ""
  }

  /** A text without stops ends at the stop behind it. */
  lemma StopsAt(b: string, p: nat, piece: string, stop: char, rest: string, stops: set<char>)
    requires p <= |b| && b[p..] == piece + ([stop] + rest) && Without(piece, stops) && stop in stops
    ensures p + |piece| < |b| && Find(b, p, stops) == p + |piece| && b[p + |piece|] == stop && b[p..p + |piece|] == piece
    ensures b[p + |piece| + 1..] == rest
  {
    Split(b, p, piece, [stop] + rest);
    Split(b, p + |piece|, [stop], rest);
    var q := p + |piece|;
    assert b[q + 0] == stop;
    forall i | p <= i < q ensures b[i] !in stops {
      assert b[p + (i - p)] == piece[i - p];
    }
    FindIs(b, p, q, stops);
  }

  /** What stands behind an item: more items or the version. */
  function AfterItem(b: string, q: nat, stop: char): Scan
    requires q <= |b|
  {
    if stop == '&' then QueryScan(b, q) else VersionScan(b, q)
  }

  lemma Joined(a: string, sep: string, b: string, tail: string)
    ensures (a + sep + b) + tail == a + (sep + (b + tail))
  {
  }

  lemma ItemReads(b: string, p: nat, x: Item, stop: char, rest: string)
    requires p <= |b| && b[p..] == ItemText(x) + ([stop] + rest) && ItemOk(x)
    requires stop == '&' || (stop == ' ' && ItemText(x) != "")
    ensures var q := p + |ItemText(x)|;
            q < |b| && b[q + 1..] == rest && QueryScan(b, p) == Prepend([AddQuery(x.key, ValueOf(x))], AfterItem(b, q + 1, stop))
  {
    hide QueryScan, AfterItem, Without;
    if x.value.None? {
      KeyReads(b, p, x.key, stop, rest);
    } else {
      Joined(x.key, "=", x.value.value, [stop] + rest);
      PairReads(b, p, x.key, x.value.value, stop, rest);
    }
  }

  lemma KeyReads(b: string, p: nat, key: string, stop: char, rest: string)
    requires p <= |b| && b[p..] == key + ([stop] + rest) && Without(key, {'=', ' ', '&'})
    requires stop == '&' || (stop == ' ' && key != "")
    ensures var q := p + |key|;
            q < |b| && b[q + 1..] == rest && QueryScan(b, p) == Prepend([AddQuery(key, "")], AfterItem(b, q + 1, stop))
  {
    StopsAt(b, p, key, stop, rest, {'=', ' ', '&'});
    Split(b, p, key, [stop] + rest);
    assert key != "" ==> b[p + 0] == key[0];
    assert QueryScan(b, p) == QueryKey(b, p, p + |key|);
  }

  lemma PairReads(b: string, p: nat, key: string, value: string, stop: char, rest: string)
    requires p <= |b| && b[p..] == key + ("=" + (value + ([stop] + rest)))
    requires Without(key, {'=', ' ', '&'}) && Without(value, {' ', '&'}) && (stop == '&' || stop == ' ')
    ensures var q := p + |key| + 1 + |value|;
            q < |b| && b[q + 1..] == rest && QueryScan(b, p) == Prepend([AddQuery(key, value)], AfterItem(b, q + 1, stop))
  {
    hide Find, QueryScan, AfterItem;
    var e, after := p + |key|, value + ([stop] + rest);
    StopsAt(b, p, key, '=', after, {'=', ' ', '&'});
    NotBlank(b, p, key, after);
    StopsAt(b, e + 1, value, stop, rest, {' ', '&'});
    PairScan(b, p, e, e + 1 + |value|);
  }

  lemma NotBlank(b: string, p: nat, key: string, after: string)
    requires p <= |b| && b[p..] == key + (['='] + after) && Without(key, {'=', ' ', '&'})
    ensures p < |b| && b[p] != ' '
  {
    assert b[p..][0] == b[p] && b[p..][0] == (if key == "" then '=' else key[0]);
  }

  lemma PairScan(b: string, p: nat, e: nat, f: nat)
    requires p <= e < f < |b| && b[p] != ' ' && b[e] == '=' && (b[f] == '&' || b[f] == ' ')
    requires Find(b, p, {'=', ' ', '&'}) == e && Find(b, e + 1, {' ', '&'}) == f
    ensures QueryScan(b, p) == Prepend([AddQuery(b[p..e], b[e + 1..f])], AfterItem(b, f + 1, b[f]))
  {
    hide Find;
    assert QueryScan(b, p) == QueryKey(b, p, e);
    assert QueryKey(b, p, e) == QueryValue(b, p, e);
    assert QueryValue(b, p, e) == QueryPair(b, p, e, f);
  }

  function Adds(xs: seq<Item>): seq<Effect> {
    if xs == [] then [] else [AddQuery(xs[0].key, ValueOf(xs[0]))] + Adds(xs[1..])
  }

  lemma {:induction false} QueryReads(b: string, p: nat, xs: seq<Item>, rest: string)
    requires p <= |b| && b[p..] == QueryText(xs) + ([' '] + rest) && ItemsOk(xs)
    ensures var q := p + |QueryText(xs)|;
            q < |b| && b[q + 1..] == rest && QueryScan(b, p) == Prepend(Adds(xs), VersionScan(b, q + 1))
    decreases |xs|
  {
    hide QueryScan, VersionScan, ItemText;
    if xs == [] {
      BlankQuery(b, p, rest);
    } else if |xs| == 1 {
      ItemReads(b, p, xs[0], ' ', rest);
      assert [AddQuery(xs[0].key, ValueOf(xs[0]))] + Adds([]) == Adds(xs);
    } else {
      var tail := QueryText(xs[1..]) + ([' '] + rest);
      assert b[p..] == ItemText(xs[0]) + (['&'] + tail);
      ItemReads(b, p, xs[0], '&', tail);
      var q := p + |ItemText(xs[0])|;
      QueryReads(b, q + 1, xs[1..], rest);
    }
  }

  lemma BlankQuery(b: string, p: nat, rest: string)
    requires p <= |b| && b[p..] == [' '] + rest
    ensures p < |b| && b[p + 1..] == rest && QueryScan(b, p) == VersionScan(b, p + 1)
  {
    assert b[p..][0] == ' ';
  }

  // ---------------------------------------------------------------------------------------------
  // The request line
  // ---------------------------------------------------------------------------------------------

  function VersionEffects(version: string): seq<Effect> {
    match VersionOf(version)
    case Some(v) => [SetVersion(v)]
    case None => []
  }

  function LineEffectsOf(t: Request): seq<Effect> {
    [SetMethod(t.verb)] + ([SetResource(t.resource)] + (Adds(Items(t)) + VersionEffects(t.version)))
  }

  /** What is left from the resource on. */
  function FromResource(t: Request, rest: string): string {
    t.resource + ((if t.query.Some? then "?" + QueryText(t.query.value) else "") + ([' '] + (t.version + "\r\n" + rest)))
  }

  /** How a scan of the rest of the request line ends. */
  ghost predicate LineEndsAs(b: string, x: Scan, t: Request, rest: string) {
    && (VersionOf(t.version).Some? ==> x.status.Next? && x.pos <= |b| && b[x.pos..] == rest)
    && (VersionOf(t.version).None? ==> x.status == Failed(BadVersion))
  }

  lemma VersionEndsAs(b: string, p: nat, t: Request, rest: string)
    requires p <= |b| && b[p..] == t.version + "\r\n" + rest && OnLine(t.version)
    ensures VersionScan(b, p).effects == VersionEffects(t.version) && LineEndsAs(b, VersionScan(b, p), t, rest)
  {
    hide VersionScan, PassesFor;
    VersionReads(b, p, t.version, rest);
  }

  lemma MarkedResource(b: string, p: nat, t: Request, rest: string)
    requires p <= |b| && t.query.Some? && Printable(t)
    requires b[p..] == t.resource + (['?'] + (QueryText(t.query.value) + ([' '] + (t.version + "\r\n" + rest))))
    ensures var x := ResourceScan(b, p);
            && x.effects == [SetResource(t.resource)] + (Adds(Items(t)) + VersionEffects(t.version))
            && LineEndsAs(b, x, t, rest)
  {
    hide Find, QueryScan, QueryText, VersionScan, VersionEffects, Adds, LineEndsAs;
    var after := t.version + "\r\n" + rest;
    StopsAt(b, p, t.resource, '?', QueryText(t.query.value) + ([' '] + after), {'?', ' '});
    var e := p + |t.resource|;
    QueryReads(b, e + 1, t.query.value, after);
    var q := e + 1 + |QueryText(t.query.value)| + 1;
    VersionEndsAs(b, q, t, rest);
    assert ResourceScan(b, p) == Prepend([SetResource(t.resource)], Prepend(Adds(Items(t)), VersionScan(b, q)));
    PrependEndsAs(b, VersionScan(b, q), ResourceScan(b, p), t, rest);
  }

  lemma PrependEndsAs(b: string, x: Scan, y: Scan, t: Request, rest: string)
    requires LineEndsAs(b, x, t, rest) && y.status == x.status && y.pos == x.pos
    ensures LineEndsAs(b, y, t, rest)
  {
  }

  lemma BareResource(b: string, p: nat, t: Request, rest: string)
    requires p <= |b| && t.query.None? && Printable(t)
    requires b[p..] == t.resource + ([' '] + (t.version + "\r\n" + rest))
    ensures var x := ResourceScan(b, p);
            && x.effects == [SetResource(t.resource)] + (Adds(Items(t)) + VersionEffects(t.version))
            && LineEndsAs(b, x, t, rest)
  {
    hide Find, VersionScan, VersionEffects, LineEndsAs;
    var after := t.version + "\r\n" + rest;
    StopsAt(b, p, t.resource, ' ', after, {'?', ' '});
    var q := p + |t.resource| + 1;
    VersionEndsAs(b, q, t, rest);
    AddsNothing();
    assert ResourceScan(b, p) == Prepend([SetResource(t.resource)], VersionScan(b, q));
    assert [] + VersionEffects(t.version) == VersionEffects(t.version);
    PrependEndsAs(b, VersionScan(b, q), ResourceScan(b, p), t, rest);
  }

  lemma ResourceReads(b: string, p: nat, t: Request, rest: string)
    requires p <= |b| && b[p..] == FromResource(t, rest) && Printable(t)
    ensures var x := ResourceScan(b, p);
            && x.effects == [SetResource(t.resource)] + (Adds(Items(t)) + VersionEffects(t.version))
            && LineEndsAs(b, x, t, rest)
  {
    hide ResourceScan, LineEndsAs, VersionEffects, Adds, Printable;
    if t.query.Some? {
      var tail := [' '] + (t.version + "\r\n" + rest);
      assert ("?" + QueryText(t.query.value)) + tail == ['?'] + (QueryText(t.query.value) + tail);
      MarkedResource(b, p, t, rest);
    } else {
      assert "" + ([' '] + (t.version + "\r\n" + rest)) == [' '] + (t.version + "\r\n" + rest);
      BareResource(b, p, t, rest);
    }
  }

  lemma AddsNothing()
    ensures Adds([]) == []
  {
  }

  lemma LineSplit(t: Request, rest: string)
    ensures LineText(t) + rest == t.verb + ([' '] + FromResource(t, rest))
  {
    var q, v := if t.query.Some? then "?" + QueryText(t.query.value) else "", t.version + "\r\n";
    assert LineText(t) == t.verb + " " + t.resource + q + " " + v;
    assert (t.verb + " " + t.resource + q + " " + v) + rest == t.verb + (" " + (t.resource + (q + (" " + (v + rest)))));
  }

  lemma LineReads(rules: Rules, b: string, t: Request, rest: string)
    requires b == LineText(t) + rest && Printable(t) && t.verb in rules.methods
    ensures RequestLine(rules, b, 0).effects == LineEffectsOf(t) && LineEndsAs(b, RequestLine(rules, b, 0), t, rest)
  {
    hide Find, ResourceScan, VersionEffects, LineEndsAs, LineText, FromResource, Adds;
    LineSplit(t, rest);
    assert b[0..] == b;
    StopsAt(b, 0, t.verb, ' ', FromResource(t, rest), {' '});
    ResourceReads(b, |t.verb| + 1, t, rest);
    PrependEndsAs(b, ResourceScan(b, |t.verb| + 1), RequestLine(rules, b, 0), t, rest);
  }

  /** A method that the table does not have. */
  lemma UnknownVerb(rules: Rules, b: string, verb: string, rest: string)
    requires b == verb + ([' '] + rest) && Without(verb, {' '}) && verb !in rules.methods
    ensures RequestLine(rules, b, 0) == Scan([], Failed(UnknownMethod), 0)
  {
    hide Find;
    assert b[0..] == b;
    StopsAt(b, 0, verb, ' ', rest, {' '});
  }

  // ---------------------------------------------------------------------------------------------
  // Header lines
  // ---------------------------------------------------------------------------------------------

  lemma {:induction false} BlanksSkipped(b: string, p: nat, n: nat, rest: string)
    requires p <= |b| && b[p..] == Blanks(n) + rest && (rest != "" ==> rest[0] != ' ')
    ensures p + n <= |b| && SkipSpaces(b, p) == p + n && b[p + n..] == rest
    decreases n
  {
    if n == 0 {
      assert Blanks(0) + rest == rest;
      assert p < |b| ==> b[p] == b[p..][0];
    } else {
      assert Blanks(n) + rest == [' '] + (Blanks(n - 1) + rest);
      Split(b, p, [' '], Blanks(n - 1) + rest);
      assert b[p + 0] == ' ';
      BlanksSkipped(b, p + 1, n - 1, rest);
    }
  }

  lemma FieldSplit(f: Field, rest: string)
    ensures FieldText(f) + rest == f.name + ([':'] + (Blanks(f.blanks) + (f.value + ("\r\n" + rest))))
    ensures |FieldText(f)| == |f.name| + 1 + f.blanks + |f.value| + 2
  {
    var s, t := Blanks(f.blanks), "\r\n";
    assert FieldText(f) == f.name + ":" + s + f.value + t;
    assert (f.name + ":" + s + f.value + t) + rest == f.name + (":" + (s + (f.value + (t + rest))));
  }

  /** A header line does not look like the empty line. */
  lemma NotEmptyLine(b: string, p: nat, name: string, tail: string)
    requires p <= |b| && b[p..] == name + ([':'] + tail) && !("\r\n" <= name)
    ensures !Eol(b, p)
  {
    if |name| >= 2 {
      assert b[p] == b[p..][0] == name[0] && b[p + 1] == b[p..][1] == name[1];
    } else if |name| == 1 {
      assert b[p + 1] == b[p..][1] == ':';
    } else {
      assert b[p] == b[p..][0] == ':';
    }
  }

  /** One header line at `p`, and what stands behind it. */
  lemma FieldReads(rules: Rules, b: string, p: nat, f: Field, rest: string)
    requires p <= |b| && b[p..] == FieldText(f) + rest && FieldOk(f)
    ensures var q := p + |FieldText(f)|;
            && q <= |b| && b[q..] == rest
            && Headers(rules, b, p) == match HeaderEffects(rules, f.name, f.value)
                                       case None => Scan([], Failed(BadHeader), p)
                                       case Some(es) => Prepend(es, Headers(rules, b, q))
  {
    hide Find, FindEol, SkipSpaces, HeaderEffects, Headers, Blanks, FieldText, OnLine, Without;
    var v := p + |f.name| + 1 + f.blanks;
    FieldParts(b, p, f, rest);
    ValueParts(b, v, f.value, rest);
    LineFound(rules, b, p, p + |f.name|, v, v + |f.value|);
  }

  lemma ValueParts(b: string, v: nat, value: string, rest: string)
    requires v <= |b| && b[v..] == value + ("\r\n" + rest) && OnLine(value)
    ensures var e := v + |value|; e + 2 <= |b| && FindEol(b, v) == e && b[v..e] == value && b[e + 2..] == rest
  {
    hide FindEol, OnLine;
    LineEnds(b, v, value, rest);
    Split(b, v, value, "\r\n" + rest);
  }

  /** Its name and the blanks. */
  lemma FieldParts(b: string, p: nat, f: Field, rest: string)
    requires p <= |b| && b[p..] == FieldText(f) + rest && FieldOk(f)
    ensures var colon := p + |f.name|; var v := colon + 1 + f.blanks;
            && v <= |b| && !Eol(b, p) && Find(b, p, {':'}) == colon && b[p..colon] == f.name
            && SkipSpaces(b, colon + 1) == v && b[v..] == f.value + ("\r\n" + rest)
            && |FieldText(f)| == |f.name| + 1 + f.blanks + |f.value| + 2
  {
    hide Find, SkipSpaces, Blanks, FieldText, OnLine, Without;
    FieldSplit(f, rest);
    NameParts(b, p, f.name, Blanks(f.blanks) + (f.value + ("\r\n" + rest)));
    BlankParts(b, p + |f.name| + 1, f.blanks, f.value, rest);
  }

  lemma NameParts(b: string, p: nat, name: string, tail: string)
    requires p <= |b| && b[p..] == name + ([':'] + tail) && Without(name, {':'}) && !("\r\n" <= name)
    ensures var colon := p + |name|;
            && colon < |b| && !Eol(b, p) && Find(b, p, {':'}) == colon && b[p..colon] == name && b[colon + 1..] == tail
  {
    hide Find, Without;
    StopsAt(b, p, name, ':', tail, {':'});
    NotEmptyLine(b, p, name, tail);
  }

  lemma BlankParts(b: string, q: nat, n: nat, value: string, rest: string)
    requires q <= |b| && b[q..] == Blanks(n) + (value + ("\r\n" + rest)) && (value != "" ==> value[0] != ' ')
    ensures q + n <= |b| && SkipSpaces(b, q) == q + n && b[q + n..] == value + ("\r\n" + rest)
  {
    hide SkipSpaces, Blanks;
    var after := value + ("\r\n" + rest);
    assert after[0] == if value == "" then '\r' else value[0];
    BlanksSkipped(b, q, n, after);
  }

  lemma LineFound(rules: Rules, b: string, p: nat, colon: nat, v: nat, e: nat)
    requires p <= colon < v <= e && e + 2 <= |b| && !Eol(b, p) && Find(b, p, {':'}) == colon
    requires SkipSpaces(b, colon + 1) == v && FindEol(b, v) == e
    ensures Headers(rules, b, p) == match HeaderEffects(rules, b[p..colon], b[v..e])
                                    case None => Scan([], Failed(BadHeader), p)
                                    case Some(es) => Prepend(es, Headers(rules, b, e + 2))
  {
    hide Find, FindEol, SkipSpaces, HeaderEffects;
    assert Headers(rules, b, p) == HeaderLine(rules, b, p, colon);
  }

  /** The header's own parser throws. */
  predicate Refused(rules: Rules, f: Field) {
    var name := Lower(f.name);
    if name == "cookie" then rules.cookies(f.value).None?
    else if name == "set-cookie" then rules.setCookie(f.value).None?
    else rules.registered(name) && !rules.accepts(name, f.value)
  }

  lemma RefusedHasNone(rules: Rules, f: Field)
    ensures HeaderEffects(rules, f.name, f.value).None? <==> Refused(rules, f)
  {
  }

  ghost predicate AllTaken(rules: Rules, fs: seq<Field>) {
    forall i :: 0 <= i < |fs| ==> !Refused(rules, fs[i])
  }

  function FieldsEffects(rules: Rules, fs: seq<Field>): seq<Effect> {
    if fs == [] then []
    else match HeaderEffects(rules, fs[0].name, fs[0].value)
         case None => []
         case Some(es) => es + FieldsEffects(rules, fs[1..])
  }

  /** The header block: all of it, or up to the first line that is refused. */
  lemma {:induction false} FieldsRead(rules: Rules, b: string, p: nat, fs: seq<Field>)
    requires p <= |b| && b[p..] == FieldsText(fs) + "\r\n" && forall i :: 0 <= i < |fs| ==> FieldOk(fs[i])
    ensures Headers(rules, b, p).effects == FieldsEffects(rules, fs)
    ensures AllTaken(rules, fs) ==> Headers(rules, b, p).status.Next? && Headers(rules, b, p).pos == |b|
    ensures !AllTaken(rules, fs) ==> Headers(rules, b, p).status == Failed(BadHeader)
    decreases |fs|
  {
    hide Headers, HeaderEffects, FieldText, Refused;
    if fs == [] {
      assert b[p..] == "\r\n";
      EmptyLine(rules, b, p);
    } else {
      var tail := FieldsText(fs[1..]) + "\r\n";
      assert b[p..] == FieldText(fs[0]) + tail;
      FieldReads(rules, b, p, fs[0], tail);
      RefusedHasNone(rules, fs[0]);
      FieldsRead(rules, b, p + |FieldText(fs[0])|, fs[1..]);
      TakenRest(rules, fs);
    }
  }

  lemma TakenRest(rules: Rules, fs: seq<Field>)
    requires fs != []
    ensures AllTaken(rules, fs) <==> !Refused(rules, fs[0]) && AllTaken(rules, fs[1..])
  {
    hide Refused;
    if AllTaken(rules, fs[1..]) && !Refused(rules, fs[0]) {
      forall i | 0 <= i < |fs| ensures !Refused(rules, fs[i]) {
        if i > 0 {
          assert fs[1..][i - 1] == fs[i];
        }
      }
    }
  }

  lemma EmptyLine(rules: Rules, b: string, p: nat)
    requires p <= |b| && b[p..] == "\r\n"
    ensures Headers(rules, b, p) == Scan([], Next, |b|)
  {
    assert b[p] == b[p..][0] && b[p + 1] == b[p..][1];
  }

  // ---------------------------------------------------------------------------------------------
  // What the message holds
  // ---------------------------------------------------------------------------------------------

  /** The query parameters as they were written. */
  function QueryPairs(xs: seq<Item>): seq<(string, string)> {
    seq(|xs|, i requires 0 <= i < |xs| => (xs[i].key, ValueOf(xs[i])))
  }

  /** Every header line under its name in lower case. */
  function RawPairs(fs: seq<Field>): seq<(string, (string, string))> {
    seq(|fs|, i requires 0 <= i < |fs| => (Lower(fs[i].name), (fs[i].name, fs[i].value)))
  }

  predicate IsCookie(f: Field) {
    Lower(f.name) == "cookie"
  }

  predicate IsSetCookie(f: Field) {
    Lower(f.name) == "set-cookie"
  }

  /** Those of the registered headers. */
  function TypedPairs(rules: Rules, fs: seq<Field>): seq<(string, string)> {
    if fs == [] then []
    else
      var f := fs[|fs| - 1];
      TypedPairs(rules, fs[..|fs| - 1])
      + if !IsCookie(f) && !IsSetCookie(f) && rules.registered(Lower(f.name)) then [(Lower(f.name), f.value)] else []
  }

  /** The cookies of the last Cookie line and of the Set-Cookie lines behind it. */
  function CookieList(rules: Rules, fs: seq<Field>): seq<Cookie> {
    if fs == [] then []
    else
      var f := fs[|fs| - 1];
      if IsCookie(f) then
        if rules.cookies(f.value).Some? then rules.cookies(f.value).value else []
      else
        CookieList(rules, fs[..|fs| - 1])
        + if IsSetCookie(f) && rules.setCookie(f.value).Some? then [rules.setCookie(f.value).value] else []
  }

  function Keyed(cs: seq<Cookie>): seq<((string, string), Cookie)> {
    seq(|cs|, i requires 0 <= i < |cs| => ((cs[i].name, cs[i].value), cs[i]))
  }

  /** The stores after the header lines `fs`. */
  ghost predicate Stored(rules: Rules, m: Message, fs: seq<Field>) {
    && FirstOf(m.raw, RawPairs(fs))
    && FirstOf(m.typed, TypedPairs(rules, fs))
    && FirstOf(m.cookies, Keyed(CookieList(rules, fs)))
  }

  /** What header lines have no part in. */
  predicate SameLine(m: Message, n: Message) {
    m.verb == n.verb && m.resource == n.resource && m.version == n.version && m.query == n.query && m.body == n.body
  }

  lemma {:induction false} JarHolds(jar: map<(string, string), Cookie>, old_: seq<Cookie>, cs: seq<Cookie>)
    requires FirstOf(jar, Keyed(old_))
    ensures FirstOf(JarAll(jar, cs), Keyed(old_ + cs))
    decreases cs
  {
    hide FirstOf;
    if cs == [] {
      assert old_ + cs == old_;
    } else {
      JarOne(jar, old_, cs[0]);
      JarHolds(Jar(jar, cs[0]), old_ + [cs[0]], cs[1..]);
      assert old_ + [cs[0]] + cs[1..] == old_ + cs;
    }
  }

  lemma JarOne(jar: map<(string, string), Cookie>, old_: seq<Cookie>, c: Cookie)
    requires FirstOf(jar, Keyed(old_))
    ensures FirstOf(Jar(jar, c), Keyed(old_ + [c]))
  {
    hide FirstOf;
    FirstMore(jar, Keyed(old_), (c.name, c.value), c);
    assert Keyed(old_ + [c]) == Keyed(old_) + [((c.name, c.value), c)];
  }

  lemma RawHolds(m: Message, fs: seq<Field>, f: Field)
    requires FirstOf(m.raw, RawPairs(fs))
    ensures FirstOf(Insert(m.raw, Lower(f.name), (f.name, f.value)), RawPairs(fs + [f]))
  {
    hide FirstOf, Lower;
    FirstMore(m.raw, RawPairs(fs), Lower(f.name), (f.name, f.value));
    assert RawPairs(fs + [f]) == RawPairs(fs) + [(Lower(f.name), (f.name, f.value))];
  }

  lemma Snoc(fs: seq<Field>, f: Field)
    ensures (fs + [f])[..|fs + [f]| - 1] == fs && (fs + [f])[|fs + [f]| - 1] == f
  {
  }

  /** A Cookie line replaces the jar. */
  lemma CookieLine(rules: Rules, m: Message, fs: seq<Field>, f: Field)
    requires Stored(rules, m, fs) && IsCookie(f) && rules.cookies(f.value).Some?
    ensures Stored(rules, ApplyOne(ApplyOne(m, ReplaceCookies(rules.cookies(f.value).value)), AddRaw(f.name, f.value)), fs + [f])
  {
    hide FirstOf, Lower, JarAll;
    Snoc(fs, f);
    var cs := rules.cookies(f.value).value;
    FirstNone<(string, string), Cookie>();
    assert Keyed([]) == [];
    JarHolds(map[], [], cs);
    assert [] + cs == cs;
    RawHolds(m, fs, f);
    assert TypedPairs(rules, fs) + [] == TypedPairs(rules, fs);
  }

  lemma SetCookieLine(rules: Rules, m: Message, fs: seq<Field>, f: Field)
    requires Stored(rules, m, fs) && IsSetCookie(f) && rules.setCookie(f.value).Some?
    ensures Stored(rules, ApplyOne(ApplyOne(m, AddCookie(rules.setCookie(f.value).value)), AddRaw(f.name, f.value)), fs + [f])
  {
    hide FirstOf, Lower;
    Snoc(fs, f);
    var c := rules.setCookie(f.value).value;
    JarOne(m.cookies, CookieList(rules, fs), c);
    RawHolds(m, fs, f);
    assert TypedPairs(rules, fs) + [] == TypedPairs(rules, fs);
    assert CookieList(rules, fs + [f]) == CookieList(rules, fs) + [c];
  }

  lemma TypedLine(rules: Rules, m: Message, fs: seq<Field>, f: Field)
    requires Stored(rules, m, fs) && !IsCookie(f) && !IsSetCookie(f) && rules.registered(Lower(f.name))
    ensures Stored(rules, ApplyOne(ApplyOne(m, AddTyped(f.name, f.value)), AddRaw(f.name, f.value)), fs + [f])
  {
    hide FirstOf, Lower;
    Snoc(fs, f);
    FirstMore(m.typed, TypedPairs(rules, fs), Lower(f.name), f.value);
    RawHolds(m, fs, f);
    assert CookieList(rules, fs) + [] == CookieList(rules, fs);
  }

  lemma PlainLine(rules: Rules, m: Message, fs: seq<Field>, f: Field)
    requires Stored(rules, m, fs) && !IsCookie(f) && !IsSetCookie(f) && !rules.registered(Lower(f.name))
    ensures Stored(rules, ApplyOne(m, AddRaw(f.name, f.value)), fs + [f])
  {
    hide FirstOf, Lower;
    Snoc(fs, f);
    RawHolds(m, fs, f);
    assert TypedPairs(rules, fs) + [] == TypedPairs(rules, fs);
    assert CookieList(rules, fs) + [] == CookieList(rules, fs);
  }

  lemma LineStored(rules: Rules, m: Message, fs: seq<Field>, f: Field)
    requires Stored(rules, m, fs) && !Refused(rules, f)
    ensures HeaderEffects(rules, f.name, f.value).Some?
    ensures var n := Apply(m, HeaderEffects(rules, f.name, f.value).value); Stored(rules, n, fs + [f]) && SameLine(m, n)
  {
    hide Stored, Lower, Apply, ApplyOne;
    RefusedHasNone(rules, f);
    var name, value := f.name, f.value;
    if IsCookie(f) {
      CookieLine(rules, m, fs, f);
      TwoEffects(m, ReplaceCookies(rules.cookies(value).value), AddRaw(name, value));
    } else if IsSetCookie(f) {
      SetCookieLine(rules, m, fs, f);
      TwoEffects(m, AddCookie(rules.setCookie(value).value), AddRaw(name, value));
    } else if rules.registered(Lower(name)) {
      TypedLine(rules, m, fs, f);
      TwoEffects(m, AddTyped(name, value), AddRaw(name, value));
    } else {
      PlainLine(rules, m, fs, f);
      OneEffect(m, AddRaw(name, value));
    }
  }

  predicate HeaderEffect(e: Effect) {
    e.ReplaceCookies? || e.AddCookie? || e.AddTyped? || e.AddRaw?
  }

  lemma TwoEffects(m: Message, d: Effect, e: Effect)
    requires HeaderEffect(d) && HeaderEffect(e)
    ensures Apply(m, [d, e]) == ApplyOne(ApplyOne(m, d), e) && SameLine(m, Apply(m, [d, e]))
  {
    hide Apply, Lower, JarAll;
    PairEffects(m, d, e);
  }

  lemma OneEffect(m: Message, e: Effect)
    requires HeaderEffect(e)
    ensures Apply(m, [e]) == ApplyOne(m, e) && SameLine(m, Apply(m, [e]))
  {
    hide Apply, Lower, JarAll;
    assert [] + [e] == [e];
    NoEffect(m);
    ApplyAnother(m, [], e);
  }

  lemma {:induction false} FieldsStored(rules: Rules, m: Message, done: seq<Field>, fs: seq<Field>)
    requires Stored(rules, m, done) && AllTaken(rules, fs)
    ensures var n := Apply(m, FieldsEffects(rules, fs)); Stored(rules, n, done + fs) && SameLine(m, n)
    decreases |fs|
  {
    hide Stored, HeaderEffects, Refused, Apply;
    if fs == [] {
      assert done + fs == done;
      NoEffect(m);
    } else {
      TakenRest(rules, fs);
      LineStored(rules, m, done, fs[0]);
      var es := HeaderEffects(rules, fs[0].name, fs[0].value).value;
      FieldsStored(rules, Apply(m, es), done + [fs[0]], fs[1..]);
      ApplyConcat(m, es, FieldsEffects(rules, fs[1..]));
      assert done + [fs[0]] + fs[1..] == done + fs;
    }
  }

  lemma NoEffect(m: Message)
    ensures Apply(m, []) == m
  {
  }

  /** The query after the parameters `xs`. */
  lemma {:induction false} QueryStored(m: Message, done: seq<Item>, xs: seq<Item>)
    requires FirstOf(m.query, QueryPairs(done))
    ensures var n := Apply(m, Adds(xs)); FirstOf(n.query, QueryPairs(done + xs)) && n == m.(query := n.query)
    decreases |xs|
  {
    hide FirstOf, Apply, ValueOf;
    if xs == [] {
      assert done + xs == done;
      NoEffect(m);
    } else {
      var key, value := xs[0].key, ValueOf(xs[0]);
      FirstMore(m.query, QueryPairs(done), key, value);
      assert QueryPairs(done + [xs[0]]) == QueryPairs(done) + [(key, value)];
      QueryOne(m, key, value);
      QueryStored(Apply(m, [AddQuery(key, value)]), done + [xs[0]], xs[1..]);
      ApplyConcat(m, [AddQuery(key, value)], Adds(xs[1..]));
      assert done + [xs[0]] + xs[1..] == done + xs;
    }
  }

  lemma QueryOne(m: Message, key: string, value: string)
    ensures Apply(m, [AddQuery(key, value)]) == m.(query := Insert(m.query, key, value))
  {
    assert [] + [AddQuery(key, value)] == [AddQuery(key, value)];
    ApplyAnother(m, [], AddQuery(key, value));
  }

  // ---------------------------------------------------------------------------------------------
  // What a new parser makes of a printed request
  // ---------------------------------------------------------------------------------------------

  /** What the request line means. */
  ghost predicate MeansLine(t: Request, m: Message) {
    && m.verb == Some(t.verb) && m.resource == Some(t.resource) && m.version == VersionOf(t.version)
    && FirstOf(m.query, QueryPairs(Items(t))) && m.body == ""
  }

  /** What the whole head means. */
  ghost predicate Means(rules: Rules, t: Request, m: Message) {
    MeansLine(t, m) && Stored(rules, m, t.fields)
  }

  lemma LineMeans(rules: Rules, t: Request)
    requires VersionOf(t.version).Some?
    ensures MeansLine(t, Apply(BLANK, LineEffectsOf(t))) && Stored(rules, Apply(BLANK, LineEffectsOf(t)), [])
  {
    hide FirstOf, Apply, Adds, VersionOf, ApplyOne;
    var m := BLANK.(verb := Some(t.verb), resource := Some(t.resource));
    VerbMeans(t);
    var xs := Items(t);
    FirstNone<string, string>();
    assert QueryPairs([]) == [];
    QueryStored(m, [], xs);
    assert [] + xs == xs;
    var n := Apply(m, Adds(xs));
    VersionMeans(n, VersionOf(t.version).value);
    var head, tail := [SetMethod(t.verb), SetResource(t.resource)], [SetVersion(VersionOf(t.version).value)];
    assert LineEffectsOf(t) == head + (Adds(xs) + tail);
    ApplyConcat(BLANK, head, Adds(xs) + tail);
    ApplyConcat(m, Adds(xs), tail);
    NothingStored(rules, n.(version := VersionOf(t.version)));
  }

  lemma VerbMeans(t: Request)
    ensures Apply(BLANK, [SetMethod(t.verb), SetResource(t.resource)]) == BLANK.(verb := Some(t.verb), resource := Some(t.resource))
  {
    PairEffects(BLANK, SetMethod(t.verb), SetResource(t.resource));
  }

  lemma VersionMeans(m: Message, v: Version)
    ensures Apply(m, [SetVersion(v)]) == m.(version := Some(v))
  {
    assert [] + [SetVersion(v)] == [SetVersion(v)];
    ApplyAnother(m, [], SetVersion(v));
  }

  lemma NothingStored(rules: Rules, m: Message)
    requires m.raw == map[] && m.typed == map[] && m.cookies == map[]
    ensures Stored(rules, m, [])
  {
    hide FirstOf;
    FirstNone<string, (string, string)>();
    FirstNone<string, string>();
    FirstNone<(string, string), Cookie>();
    assert RawPairs([]) == [] && Keyed([]) == [];
  }

  /** A new parser with a printed request before it. */
  function Start(t: Request): Parser {
    Feed(FRESH, Print(t))
  }

  /** The header step takes over with what the line has left. */
  lemma LineDone(rules: Rules, t: Request)
    requires Printable(t) && t.verb in rules.methods && VersionOf(t.version).Some?
    ensures var x := RequestLine(rules, Print(t), 0);
            && x.pos <= |Print(t)| && Print(t)[x.pos..] == FieldsText(t.fields) + "\r\n"
            && Parse(rules, Start(t)) ==
               ParseHeaders(rules, Parser(Print(t), x.pos, HeaderStage, Apply(BLANK, LineEffectsOf(t)), 0, NoChunk))
  {
    hide RequestLine, Headers, LineEffectsOf, Apply, VersionOf, LineText;
    var rest := FieldsText(t.fields) + "\r\n";
    assert Print(t) == LineText(t) + rest;
    LineReads(rules, Print(t), t, rest);
    LineEnded(Print(t), RequestLine(rules, Print(t), 0), t, rest);
    assert Start(t).bytes == Print(t);
  }

  lemma LineEnded(b: string, x: Scan, t: Request, rest: string)
    requires LineEndsAs(b, x, t, rest) && VersionOf(t.version).Some?
    ensures x.status.Next? && x.pos <= |b| && b[x.pos..] == rest
  {
  }

  /** Any request that is written as a request should be comes back as it was written: its method, its resource and
      its version, for each query parameter, header and cookie the first value that came with it. What becomes of
      the body depends on the headers that announce it. */
  lemma PrintedRequest(rules: Rules, t: Request)
    requires Printable(t) && t.verb in rules.methods && VersionOf(t.version).Some? && AllTaken(rules, t.fields)
    ensures var r := Parse(rules, Start(t));
            && Means(rules, t, r.parser.message) && r.parser.pos == |Print(t)| && r.parser.stage.BodyStage?
            && r.outcome == Announced(rules, r.parser.message.typed)
  {
    hide RequestLine, Headers, FieldsEffects, LineEffectsOf, Apply, Print, Stored, MeansLine, AllTaken;
    LineDone(rules, t);
    LineMeans(rules, t);
    var x := RequestLine(rules, Print(t), 0);
    var s := Parser(Print(t), x.pos, HeaderStage, Apply(BLANK, LineEffectsOf(t)), 0, NoChunk);
    FieldsRead(rules, Print(t), x.pos, t.fields);
    FieldsStored(rules, s.message, [], t.fields);
    assert [] + t.fields == t.fields;
    var m := Apply(s.message, FieldsEffects(rules, t.fields));
    LineKept(t, s.message, m);
    NoBody(rules, Print(t), m);
  }

  lemma LineKept(t: Request, m: Message, n: Message)
    requires MeansLine(t, m) && SameLine(m, n)
    ensures MeansLine(t, n) && n.body == ""
  {
  }

  /** What the body step says with no byte of the body there. */
  function Announced(rules: Rules, typed: map<string, string>): Outcome {
    if "content-length" in typed then
      if "transfer-encoding" in typed then Error(LengthAndEncoding)
      else if rules.contentLength(typed["content-length"]) == 0 then Done
      else More
    else if "transfer-encoding" in typed then
      if rules.chunked(typed["transfer-encoding"]) then More else Error(UnsupportedEncoding)
    else Done
  }

  lemma NoBody(rules: Rules, b: string, m: Message)
    requires m.body == ""
    ensures var r := ParseBody(rules, Parser(b, |b|, BodyStage, m, 0, NoChunk));
            r.parser.message == m && r.parser.pos == |b| && r.parser.stage.BodyStage? && r.outcome == Announced(rules, m.typed)
  {
    assert b[|b|..] == "" && b[|b|..|b|] == "";
    assert FindEol(b, |b|) == |b|;
  }

  lemma RefusedOutcome(rules: Rules, t: Request)
    requires Printable(t) && t.verb in rules.methods && VersionOf(t.version).Some? && !AllTaken(rules, t.fields)
    ensures Parse(rules, Start(t)).outcome == Error(BadHeader)
  {
    hide RequestLine, Headers, FieldsEffects, LineEffectsOf, Apply, Print, AllTaken;
    LineDone(rules, t);
    FieldsRead(rules, Print(t), RequestLine(rules, Print(t), 0).pos, t.fields);
  }

  lemma BadVersionOutcome(rules: Rules, t: Request)
    requires Printable(t) && t.verb in rules.methods && VersionOf(t.version).None?
    ensures Parse(rules, Start(t)).outcome == Error(BadVersion)
  {
    hide RequestLine, LineEffectsOf, Apply, LineText, VersionOf;
    var rest := FieldsText(t.fields) + "\r\n";
    assert Print(t) == LineText(t) + rest;
    LineReads(rules, Print(t), t, rest);
    assert Start(t).bytes == Print(t);
  }

  /** A request is refused for its version exactly if the version text stands for none. */
  lemma PrintedBadVersion(rules: Rules, t: Request)
    requires Printable(t) && t.verb in rules.methods
    ensures Parse(rules, Start(t)).outcome == Error(BadVersion) <==> VersionOf(t.version).None?
  {
    hide Parse, Print, VersionOf, AllTaken, Printable, Means, PassesFor;
    if VersionOf(t.version).None? {
      BadVersionOutcome(rules, t);
    } else if AllTaken(rules, t.fields) {
      PrintedRequest(rules, t);
    } else {
      RefusedOutcome(rules, t);
    }
  }

  /** And for a header exactly if some header line is one that its own parser refuses. */
  lemma PrintedRefused(rules: Rules, t: Request)
    requires Printable(t) && t.verb in rules.methods && VersionOf(t.version).Some?
    ensures Parse(rules, Start(t)).outcome == Error(BadHeader) <==> !AllTaken(rules, t.fields)
  {
    hide Parse, Print, VersionOf, AllTaken, Printable, Means, PassesFor;
    if AllTaken(rules, t.fields) {
      PrintedRequest(rules, t);
    } else {
      RefusedOutcome(rules, t);
    }
  }

  /** A method that the table does not have. */
  lemma PrintedUnknownVerb(rules: Rules, t: Request)
    requires Printable(t) && t.verb !in rules.methods
    ensures Parse(rules, Start(t)) == Result(Start(t), Error(UnknownMethod))
  {
    hide RequestLine, FromResource, LineText;
    var rest := FieldsText(t.fields) + "\r\n";
    assert Print(t) == LineText(t) + rest;
    LineSplit(t, rest);
    UnknownVerb(rules, Print(t), t.verb, FromResource(t, rest));
    assert Start(t).bytes == Print(t);
    NoEffect(BLANK);
  }

  // ---------------------------------------------------------------------------------------------
  // The headers that announce a body
  // ---------------------------------------------------------------------------------------------

  /** One of the lines is the header `name`, in whatever case it is written. */
  ghost predicate Names(fs: seq<Field>, name: string) {
    exists i :: 0 <= i < |fs| && Lower(fs[i].name) == name
  }

  lemma OccursSplit<K, V>(ps: seq<(K, V)>, qs: seq<(K, V)>, k: K)
    ensures Occurs(ps + qs, k) <==> Occurs(ps, k) || Occurs(qs, k)
  {
    if Occurs(ps, k) {
      var i :| 0 <= i < |ps| && ps[i].0 == k;
      assert (ps + qs)[i].0 == k;
    }
    if Occurs(qs, k) {
      var i :| 0 <= i < |qs| && qs[i].0 == k;
      assert (ps + qs)[|ps| + i].0 == k;
    }
  }

  lemma NamesSplit(fs: seq<Field>, f: Field, name: string)
    ensures Names(fs + [f], name) <==> Names(fs, name) || Lower(f.name) == name
  {
    hide Lower;
    var gs := fs + [f];
    if Names(fs, name) {
      var i :| 0 <= i < |fs| && Lower(fs[i].name) == name;
      assert Lower(gs[i].name) == name;
    }
    assert gs[|fs|] == f;
  }

  lemma {:induction false} TypedNames(rules: Rules, fs: seq<Field>, name: string)
    requires rules.registered(name) && name != "cookie" && name != "set-cookie"
    ensures Occurs(TypedPairs(rules, fs), name) <==> Names(fs, name)
    decreases |fs|
  {
    hide Lower, Names;
    if fs == [] {
      NoNames(name);
    } else {
      var n := |fs| - 1;
      var f := fs[n];
      TypedNames(rules, fs[..n], name);
      assert fs == fs[..n] + [f];
      NamesSplit(fs[..n], f, name);
      var more := if !IsCookie(f) && !IsSetCookie(f) && rules.registered(Lower(f.name)) then [(Lower(f.name), f.value)] else [];
      OccursSplit(TypedPairs(rules, fs[..n]), more, name);
      assert more != [] ==> more[0].0 == Lower(f.name);
    }
  }

  lemma NoNames(name: string)
    ensures !Names([], name)
  {
  }

  lemma MeansTyped(rules: Rules, t: Request, m: Message, name: string)
    requires Means(rules, t, m)
    ensures name in m.typed <==> Occurs(TypedPairs(rules, t.fields), name)
  {
    hide Occurs, TypedPairs, MeansLine;
  }

  /** A request that announces its body twice over is refused, whatever else it says. */
  lemma BothLengths(rules: Rules, t: Request)
    requires Printable(t) && t.verb in rules.methods && VersionOf(t.version).Some? && AllTaken(rules, t.fields)
    requires rules.registered("content-length") && rules.registered("transfer-encoding")
    ensures Parse(rules, Start(t)).outcome == Error(LengthAndEncoding)
       <==> Names(t.fields, "content-length") && Names(t.fields, "transfer-encoding")
  {
    hide Names, Occurs, Parse, Print, AllTaken, Printable, Means, TypedPairs, VersionOf;
    PrintedRequest(rules, t);
    var m := Parse(rules, Start(t)).parser.message;
    TypedNames(rules, t.fields, "content-length");
    TypedNames(rules, t.fields, "transfer-encoding");
    MeansTyped(rules, t, m, "content-length");
    MeansTyped(rules, t, m, "transfer-encoding");
  }
}
