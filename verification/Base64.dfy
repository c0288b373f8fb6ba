/** Base 64 (section 4 of RFC 4648): what the encoder and the decoder compute, and their round trips. */
module Base64 {

  type byte = bv8

  datatype Result<T> = Ok(value: T) | Err(error: Error)

  datatype Error = TooShort | NotMultipleOfFour

  function EncodeByte(b: byte): char {
    if b < 26 then b as char + 'A'
    else if b < 52 then b as char + 71 as char
    else if b < 62 then b as char - 4 as char
    else if b == 62 then '+'
    else if b == 63 then '/'
    else 64 as char
  }

  function DecodeCharacter(c: char): byte {
    if 'A' <= c <= 'Z' then (c - 'A') as byte
    else if 'a' <= c <= 'z' then (c - 71 as char) as byte
    else if '0' <= c <= '9' then (c + 4 as char) as byte
    else if c == '+' then 62
    else if c == '/' then 63
    else 255
  }

  predicate Decodable(c: char) {
    DecodeCharacter(c) < 64
  }

  lemma SextetRoundTrip(b: byte)
    requires b < 64
    ensures DecodeCharacter(EncodeByte(b)) == b && Decodable(EncodeByte(b)) && EncodeByte(b) != '='
  {
  }

  lemma NarrowAndBack(n: nat)
    requires n < 64
    ensures (n as byte) as nat == n && (n as byte) < 64
    ensures n < 26 <==> (n as byte) < 26
    ensures n < 52 <==> (n as byte) < 52
    ensures n < 62 <==> (n as byte) < 62
  {
  }

  lemma CharacterRoundTrip(c: char)
    requires Decodable(c)
    ensures EncodeByte(DecodeCharacter(c)) == c
  {
    if 'A' <= c <= 'Z' {
      NarrowAndBack((c - 'A') as nat);
    } else if 'a' <= c <= 'z' {
      NarrowAndBack((c - 71 as char) as nat);
    } else if '0' <= c <= '9' {
      NarrowAndBack((c + 4 as char) as nat);
    }
  }

  // ---------------------------------------------------------------------------------------------
  // Octets and sextets
  // ---------------------------------------------------------------------------------------------

  function Sextet1(x: byte): byte { x >> 2 }

  function Sextet2(x: byte, y: byte): byte { ((x & 0x03) << 4) | (y >> 4) }

  function Sextet3(y: byte, z: byte): byte { ((y & 0x0F) << 2) | (z >> 6) }

  function Sextet4(z: byte): byte { z & 0x3F }

  function Octet1(p: byte, q: byte): byte { (p << 2) | (q >> 4) }

  function Octet2(q: byte, r: byte): byte { (q << 4) | (r >> 2) }

  function Octet3(r: byte, t: byte): byte { (r << 6) | t }

  lemma OctetsBack(x: byte, y: byte, z: byte)
    ensures Sextet1(x) < 64 && Sextet2(x, y) < 64 && Sextet3(y, z) < 64 && Sextet4(z) < 64
    ensures Octet1(Sextet1(x), Sextet2(x, y)) == x
    ensures Octet2(Sextet2(x, y), Sextet3(y, z)) == y
    ensures Octet3(Sextet3(y, z), Sextet4(z)) == z
  {
  }

  lemma SextetsBack(p: byte, q: byte, r: byte, t: byte)
    requires p < 64 && q < 64 && r < 64 && t < 64
    ensures Sextet1(Octet1(p, q)) == p
    ensures Sextet2(Octet1(p, q), Octet2(q, r)) == q
    ensures Sextet3(Octet2(q, r), Octet3(r, t)) == r
    ensures Sextet4(Octet3(r, t)) == t
    ensures Sextet2(Octet1(p, q), 0) == q <==> q & 0x0F == 0
    ensures Sextet3(Octet2(q, r), 0) == r <==> r & 0x03 == 0
  {
  }

  lemma TailBits(x: byte)
    ensures Sextet2(x, 0) & 0x0F == 0 && Sextet3(x, 0) & 0x03 == 0
    ensures (x & 0x03) << 4 == Sextet2(x, 0) && (x & 0x0F) << 2 == Sextet3(x, 0)
  {
  }

  // ---------------------------------------------------------------------------------------------
  // The coding as a function
  // ---------------------------------------------------------------------------------------------

  function Quad(x: byte, y: byte, z: byte): string {
    [EncodeByte(Sextet1(x)), EncodeByte(Sextet2(x, y)), EncodeByte(Sextet3(y, z)), EncodeByte(Sextet4(z))]
  }

  function QuadOne(x: byte): string {
    [EncodeByte(Sextet1(x)), EncodeByte(Sextet2(x, 0)), '=', '=']
  }

  function QuadTwo(x: byte, y: byte): string {
    [EncodeByte(Sextet1(x)), EncodeByte(Sextet2(x, y)), EncodeByte(Sextet3(y, 0)), '=']
  }

  function Encoded(x: seq<byte>): string {
    match |x|
    case 0 => ""
    case 1 => QuadOne(x[0])
    case 2 => QuadTwo(x[0], x[1])
    case _ => Quad(x[0], x[1], x[2]) + Encoded(x[3..])
  }

  /** The length of the longest prefix of decodable characters. */
  function Plain(s: string): (n: nat)
    ensures n <= |s|
    ensures forall i :: 0 <= i < n ==> Decodable(s[i])
    ensures n < |s| ==> !Decodable(s[n])
  {
    if s == "" || !Decodable(s[0]) then 0 else 1 + Plain(s[1..])
  }

  function Sextet(s: string, i: nat): byte
    requires i < |s|
  {
    DecodeCharacter(s[i])
  }

  function Triple(s: string): seq<byte>
    requires |s| >= 4
  {
    [Octet1(Sextet(s, 0), Sextet(s, 1)), Octet2(Sextet(s, 1), Sextet(s, 2)), Octet3(Sextet(s, 2), Sextet(s, 3))]
  }

  /** Characters without padding; a single one left over says nothing. */
  function Octets(s: string): seq<byte> {
    match |s|
    case 0 => []
    case 1 => []
    case 2 => [Octet1(Sextet(s, 0), Sextet(s, 1))]
    case 3 => [Octet1(Sextet(s, 0), Sextet(s, 1)), Octet2(Sextet(s, 1), Sextet(s, 2))]
    case _ => Triple(s) + Octets(s[4..])
  }

  function Decoded(s: string): Result<seq<byte>> {
    if s == "" then Ok([])
    else if |s| < 4 then Err(TooShort)
    else if |s| % 4 != 0 then Err(NotMultipleOfFour)
    else Ok(Octets(s[..Plain(s)]))
  }

  /** Sections 3.5 and 4 of RFC 4648: only the last quantum may be padded, and its unused bits are zero. */
  predicate Canonical(s: string) {
    s == "" ||
    (|s| >= 4 && if |s| == 4 then FullQuad(s) || PaddedOne(s) || PaddedTwo(s) else FullQuad(s) && Canonical(s[4..]))
  }

  predicate FullQuad(s: string)
    requires |s| >= 4
  {
    Decodable(s[0]) && Decodable(s[1]) && Decodable(s[2]) && Decodable(s[3])
  }

  predicate PaddedOne(s: string)
    requires |s| >= 4
  {
    Decodable(s[0]) && Decodable(s[1]) && Sextet(s, 1) & 0x0F == 0 && s[2] == '=' && s[3] == '='
  }

  predicate PaddedTwo(s: string)
    requires |s| >= 4
  {
    Decodable(s[0]) && Decodable(s[1]) && Decodable(s[2]) && Sextet(s, 2) & 0x03 == 0 && s[3] == '='
  }

  // ---------------------------------------------------------------------------------------------
  // Round trips
  // ---------------------------------------------------------------------------------------------

  lemma QuadBack(x: byte, y: byte, z: byte)
    ensures FullQuad(Quad(x, y, z)) && Triple(Quad(x, y, z)) == [x, y, z]
  {
    OctetsBack(x, y, z);
    SextetRoundTrip(Sextet1(x));
    SextetRoundTrip(Sextet2(x, y));
    SextetRoundTrip(Sextet3(y, z));
    SextetRoundTrip(Sextet4(z));
  }

  lemma QuadOneBack(x: byte)
    ensures PaddedOne(QuadOne(x)) && Octets(QuadOne(x)[..2]) == [x]
  {
    OctetsBack(x, 0, 0);
    TailBits(x);
    SextetRoundTrip(Sextet1(x));
    SextetRoundTrip(Sextet2(x, 0));
  }

  lemma QuadTwoBack(x: byte, y: byte)
    ensures PaddedTwo(QuadTwo(x, y)) && Octets(QuadTwo(x, y)[..3]) == [x, y]
  {
    OctetsBack(x, y, 0);
    TailBits(y);
    SextetRoundTrip(Sextet1(x));
    SextetRoundTrip(Sextet2(x, y));
    SextetRoundTrip(Sextet3(y, 0));
  }

  lemma {:induction false} PlainIs(s: string, n: nat)
    requires n <= |s| && (forall i :: 0 <= i < n ==> Decodable(s[i])) && (n < |s| ==> !Decodable(s[n]))
    ensures Plain(s) == n
  {
  }

  lemma PlainSkip(s: string)
    requires |s| >= 4 && FullQuad(s)
    ensures Plain(s) == 4 + Plain(s[4..])
  {
    assert s[1..][1..] == s[2..] && s[2..][1..] == s[3..] && s[3..][1..] == s[4..];
    assert Plain(s[3..]) == 1 + Plain(s[4..]);
    assert Plain(s[2..]) == 1 + Plain(s[3..]);
    assert Plain(s[1..]) == 1 + Plain(s[2..]);
  }

  lemma FirstGroup(t: string)
    requires |t| >= 4
    ensures Octets(t) == Triple(t) + Octets(t[4..])
  {
  }

  lemma Associate<T>(a: seq<T>, b: seq<T>, c: seq<T>)
    ensures a + (b + c) == (a + b) + c
  {
  }

  lemma FrontThree<T>(x: seq<T>)
    requires |x| >= 3
    ensures x == [x[0], x[1], x[2]] + x[3..]
  {
  }

  /** A leading full quantum. */
  lemma PlainQuad(s: string)
    requires |s| >= 4 && FullQuad(s)
    ensures Plain(s) == 4 + Plain(s[4..]) && Octets(s[..Plain(s)]) == Triple(s) + Octets(s[4..][..Plain(s[4..])])
  {
    var n := Plain(s[4..]);
    PlainSkip(s);
    var t := s[..4 + n];
    assert t[4..] == s[4..][..n];
    assert Triple(t) == Triple(s);
    FirstGroup(t);
  }

  /** Decoding undoes encoding, and the encoding is canonical. */
  lemma {:induction false} DecodeEncode(x: seq<byte>)
    ensures Decoded(Encoded(x)) == Ok(x)
    ensures Canonical(Encoded(x))
  {
    if |x| == 0 {
      DecodedIs("");
    } else if |x| < 3 {
      DecodeEncodeTail(x);
    } else {
      DecodeEncode(x[3..]);
      EncodedStep(x);
      FrontThree(x);
      EncodedLength(x[3..]);
      QuadBack(x[0], x[1], x[2]);
      DecodeEncodeStep(Quad(x[0], x[1], x[2]), Encoded(x[3..]), [x[0], x[1], x[2]], x[3..]);
    }
  }

  lemma EncodedStep(x: seq<byte>)
    requires |x| >= 3
    ensures Encoded(x) == Quad(x[0], x[1], x[2]) + Encoded(x[3..])
  {
  }

  /** Four characters for every started group of three octets. */
  lemma {:induction false} EncodedLength(x: seq<byte>)
    ensures |Encoded(x)| == 4 * ((|x| + 2) / 3)
  {
    if |x| >= 3 {
      EncodedLength(x[3..]);
    }
  }

  lemma DecodeEncodeTail(x: seq<byte>)
    requires 1 <= |x| <= 2
    ensures Decoded(Encoded(x)) == Ok(x) && |Encoded(x)| == 4 && Canonical(Encoded(x))
  {
    if |x| == 1 {
      QuadOneBack(x[0]);
      PlainIs(QuadOne(x[0]), 2);
      DecodedIs(QuadOne(x[0]));
      assert x == [x[0]];
    } else {
      QuadTwoBack(x[0], x[1]);
      PlainIs(QuadTwo(x[0], x[1]), 3);
      DecodedIs(QuadTwo(x[0], x[1]));
      assert x == [x[0], x[1]];
    }
  }

  lemma FourMore(n: nat)
    ensures (4 + n) % 4 == n % 4 && (n + 4) % 4 == n % 4
  {
  }

  lemma DecodedIs(s: string)
    requires |s| % 4 == 0
    ensures Decoded(s) == Ok(Octets(s[..Plain(s)]))
  {
    assert s == "" ==> s[..Plain(s)] == "" && Octets("") == [];
  }

  /** A full quantum in front of what decodes. */
  lemma DecodedFront(s: string, y: seq<byte>)
    requires |s| >= 4 && |s| % 4 == 0 && FullQuad(s) && Decoded(s[4..]) == Ok(y)
    ensures Decoded(s) == Ok(Triple(s) + y)
  {
    FourMore(|s[4..]|);
    PlainQuad(s);
    DecodedIs(s);
    DecodedIs(s[4..]);
  }

  lemma DecodeEncodeStep(q: string, rest: string, x: seq<byte>, y: seq<byte>)
    requires |q| == 4 && FullQuad(q) && Triple(q) == x && Decoded(rest) == Ok(y) && |rest| % 4 == 0 && Canonical(rest)
    ensures Decoded(q + rest) == Ok(x + y) && Canonical(q + rest)
  {
    var s := q + rest;
    QuadFirst(q, rest);
    FourMore(|rest|);
    assert s[4..] == rest && |s| == 4 + |rest|;
    DecodedFront(s, y);
  }

  lemma QuadFirst(q: string, rest: string)
    requires |q| == 4 && FullQuad(q) && Canonical(rest)
    ensures var s := q + rest; s[4..] == rest && FullQuad(s) && Triple(s) == Triple(q) && Canonical(s)
  {
    assert (q + rest)[4..] == rest;
  }

  /** A decodable string comes back from its octets exactly when it is canonical. */
  lemma EncodeDecode(s: string)
    requires Decoded(s).Ok?
    ensures Encoded(Decoded(s).value) == s <==> Canonical(s)
  {
    if Canonical(s) {
      CanonicalBack(s);
    } else {
      DecodeEncode(Decoded(s).value);
    }
  }

  lemma {:induction false} CanonicalBack(s: string)
    requires Canonical(s)
    ensures Decoded(s).Ok? && Encoded(Decoded(s).value) == s
  {
    if s == "" {
    } else if |s| == 4 && !FullQuad(s) {
      PaddedBack(s);
    } else {
      CanonicalRest(s);
      CanonicalBack(s[4..]);
      FullBack(s);
      CanonicalStep(s, Decoded(s[4..]).value);
    }
  }

  lemma CanonicalStep(s: string, y: seq<byte>)
    requires |s| >= 4 && FullQuad(s) && Decoded(s[4..]) == Ok(y) && Encoded(y) == s[4..]
    requires Quad(Triple(s)[0], Triple(s)[1], Triple(s)[2]) == s[..4]
    ensures Decoded(s).Ok? && Encoded(Decoded(s).value) == s
  {
    FourMore(|s[4..]|);
    DecodedFront(s, y);
    Regroup(s, y);
  }

  /** Encoding the first octets and the rest apart. */
  lemma Regroup(s: string, y: seq<byte>)
    requires |s| >= 4 && FullQuad(s) && Quad(Triple(s)[0], Triple(s)[1], Triple(s)[2]) == s[..4] && Encoded(y) == s[4..]
    ensures Encoded(Triple(s) + y) == s
  {
    var x := Triple(s) + y;
    assert x[3..] == y;
    EncodedStep(x);
  }

  lemma CanonicalRest(s: string)
    requires Canonical(s) && s != "" && !(|s| == 4 && !FullQuad(s))
    ensures |s| >= 4 && FullQuad(s) && Canonical(s[4..])
  {
    if |s| == 4 {
      assert s[4..] == "";
    }
  }

  lemma FullBack(s: string)
    requires |s| >= 4 && FullQuad(s)
    ensures Quad(Triple(s)[0], Triple(s)[1], Triple(s)[2]) == s[..4]
  {
    SextetsBack(Sextet(s, 0), Sextet(s, 1), Sextet(s, 2), Sextet(s, 3));
    CharacterRoundTrip(s[0]);
    CharacterRoundTrip(s[1]);
    CharacterRoundTrip(s[2]);
    CharacterRoundTrip(s[3]);
  }

  lemma PaddedBack(s: string)
    requires |s| == 4 && (PaddedOne(s) || PaddedTwo(s))
    ensures Decoded(s).Ok? && Encoded(Decoded(s).value) == s
  {
    CharacterRoundTrip(s[0]);
    CharacterRoundTrip(s[1]);
    if PaddedOne(s) {
      PlainIs(s, 2);
      SextetsBack(Sextet(s, 0), Sextet(s, 1), 0, 0);
      assert Octets(s[..2]) == [Octet1(Sextet(s, 0), Sextet(s, 1))];
    } else {
      PlainIs(s, 3);
      CharacterRoundTrip(s[2]);
      SextetsBack(Sextet(s, 0), Sextet(s, 1), Sextet(s, 2), 0);
      assert Octets(s[..3]) == [Octet1(Sextet(s, 0), Sextet(s, 1)), Octet2(Sextet(s, 1), Sextet(s, 2))];
    }
  }
}
