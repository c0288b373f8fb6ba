/** What a request parser has learnt so far, and the effects by which it learns more.

  Every store is filled the way the header collection, the query and the cookie jar are: an entry
  already present wins. A step that ran out of bytes keeps its effects and is replayed from its
  first byte, so the law that matters here is `Replay`.
 */
module HttpMessage {
  import opened Options

  datatype Version = Http10 | Http11

  datatype Cookie = Cookie(name: string, value: string, attributes: string)

  /** `verb`, `resource` and `version` are None until the request line has set them. */
  datatype Message = Message(
    verb: Option<string>,
    resource: Option<string>,
    version: Option<Version>,
    query: map<string, string>,
    cookies: map<(string, string), Cookie>,
    typed: map<string, string>,
    raw: map<string, (string, string)>,
    body: string)

  const BLANK := Message(None, None, None, map[], map[], map[], map[], "")

  datatype Effect =
    | SetMethod(verb: string)
    | SetResource(resource: string)
    | AddQuery(key: string, value: string)
    | SetVersion(version: Version)
    | ReplaceCookies(cookies: seq<Cookie>)
    | AddCookie(cookie: Cookie)
    | AddTyped(name: string, text: string)
    | AddRaw(name: string, text: string)

  function LowerChar(c: char): char {
    if 'A' <= c <= 'Z' then c - 'A' + 'a' else c
  }

  function Lower(s: string): string {
    seq(|s|, i requires 0 <= i < |s| => LowerChar(s[i]))
  }

  /** `insert`: an existing entry stays. */
  function Insert<K, V>(m: map<K, V>, k: K, v: V): map<K, V> {
    if k in m then m else m[k := v]
  }

  function Jar(jar: map<(string, string), Cookie>, c: Cookie): map<(string, string), Cookie> {
    Insert(jar, (c.name, c.value), c)
  }

  function JarAll(jar: map<(string, string), Cookie>, cs: seq<Cookie>): map<(string, string), Cookie>
    decreases cs
  {
    if cs == [] then jar else JarAll(Jar(jar, cs[0]), cs[1..])
  }

  function ApplyOne(m: Message, e: Effect): Message {
    match e
    case SetMethod(x) => m.(verb := Some(x))
    case SetResource(x) => m.(resource := Some(x))
    case AddQuery(k, v) => m.(query := Insert(m.query, k, v))
    case SetVersion(x) => m.(version := Some(x))
    case ReplaceCookies(cs) => m.(cookies := JarAll(map[], cs))
    case AddCookie(c) => m.(cookies := Jar(m.cookies, c))
    case AddTyped(n, v) => m.(typed := Insert(m.typed, Lower(n), v))
    case AddRaw(n, v) => m.(raw := Insert(m.raw, Lower(n), (n, v)))
  }

  function Apply(m: Message, es: seq<Effect>): Message {
    if es == [] then m else ApplyOne(Apply(m, es[..|es| - 1]), es[|es| - 1])
  }

  lemma {:induction false} ApplyConcat(m: Message, es: seq<Effect>, fs: seq<Effect>)
    ensures Apply(m, es + fs) == Apply(Apply(m, es), fs)
  {
    if fs == [] {
      assert es + fs == es;
    } else {
      var k := |fs| - 1;
      assert (es + fs)[..|es + fs| - 1] == es + fs[..k];
      ApplyConcat(m, es, fs[..k]);
    }
  }

  lemma ApplyAnother(m: Message, es: seq<Effect>, e: Effect)
    ensures Apply(m, es + [e]) == ApplyOne(Apply(m, es), e)
  {
    assert (es + [e])[..|es|] == es;
  }

  predicate Wipes(es: seq<Effect>) {
    exists i :: 0 <= i < |es| && es[i].ReplaceCookies?
  }

  function Later<T>(new_: Option<T>, old_: Option<T>): Option<T> {
    if new_.Some? then new_ else old_
  }

  /** `r` is `m` with the findings `d` of a blank start laid under or over it, store by store. */
  ghost predicate Overlay(m: Message, d: Message, wiped: bool, r: Message) {
    && r.verb == Later(d.verb, m.verb)
    && r.resource == Later(d.resource, m.resource)
    && r.version == Later(d.version, m.version)
    && r.query == d.query + m.query
    && r.cookies == (if wiped then d.cookies else d.cookies + m.cookies)
    && r.typed == d.typed + m.typed
    && r.raw == d.raw + m.raw
    && r.body == m.body
  }

  lemma InsertOver<K, V>(d: map<K, V>, m: map<K, V>, k: K, v: V)
    ensures Insert(d + m, k, v) == Insert(d, k, v) + m
  {
  }

  lemma OverlayOne(m: Message, d: Message, wiped: bool, r: Message, e: Effect)
    requires Overlay(m, d, wiped, r)
    ensures Overlay(m, ApplyOne(d, e), wiped || e.ReplaceCookies?, ApplyOne(r, e))
  {
    match e
    case AddQuery(k, v) => InsertOver(d.query, m.query, k, v);
    case AddCookie(c) => InsertOver(d.cookies, m.cookies, (c.name, c.value), c);
    case AddTyped(n, v) => InsertOver(d.typed, m.typed, Lower(n), v);
    case AddRaw(n, v) => InsertOver(d.raw, m.raw, Lower(n), (n, v));
    case _ =>
  }

  lemma {:induction false} ApplyOverlay(m: Message, es: seq<Effect>)
    ensures Overlay(m, Apply(BLANK, es), Wipes(es), Apply(m, es))
  {
    if es == [] {
    } else {
      var k := |es| - 1;
      ApplyOverlay(m, es[..k]);
      OverlayOne(m, Apply(BLANK, es[..k]), Wipes(es[..k]), Apply(m, es[..k]), es[k]);
      assert Wipes(es) <==> Wipes(es[..k]) || es[k].ReplaceCookies?;
    }
  }

  lemma Idempotent(m: Message, es: seq<Effect>)
    ensures Apply(Apply(m, es), es) == Apply(m, es)
  {
    ApplyOverlay(m, es);
    ApplyOverlay(Apply(m, es), es);
  }

  /** Replaying a step over the effects of its own earlier, shorter attempt changes nothing. */
  lemma Replay(m: Message, es: seq<Effect>, fs: seq<Effect>)
    requires es <= fs
    ensures Apply(Apply(m, es), fs) == Apply(m, fs)
  {
    var rest := fs[|es|..];
    assert fs == es + rest;
    ApplyConcat(m, es, rest);
    ApplyConcat(Apply(m, es), es, rest);
    Idempotent(m, es);
  }
}
