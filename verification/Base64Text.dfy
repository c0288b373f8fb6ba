/** The coding of Base64.dfy against section 4 of RFC 4648: its alphabet, its 24-bit groups and its test vectors. */
module Base64Text {
  import opened Base64

  const UPPER := "ABCDEFGHIJKLMNOPQRSTUVWXYZ"
  const LOWER := "abcdefghijklmnopqrstuvwxyz"
  const DIGITS := "0123456789"

  /** Table 1 of RFC 4648. */
  const ALPHABET := UPPER + LOWER + DIGITS + "+/"

  lemma UpperAt(i: nat)
    requires i < 26
    ensures UPPER[i] == 'A' + i as char
  {
  }

  lemma LowerAt(i: nat)
    requires i < 26
    ensures LOWER[i] == 'a' + i as char
  {
  }

  lemma DigitAt(i: nat)
    requires i < 10
    ensures DIGITS[i] == '0' + i as char
  {
  }

  lemma AlphabetAt(i: nat)
    requires i < 64
    ensures |ALPHABET| == 64
    ensures ALPHABET[i] == if i < 26 then UPPER[i] else if i < 52 then LOWER[i - 26] else if i < 62 then DIGITS[i - 52] else "+/"[i - 62]
  {
  }

  /** Every sextet is written with its character of the table. */
  lemma AlphabetEncodes(b: byte)
    requires b < 64
    ensures |ALPHABET| == 64 && b as nat < 64 && EncodeByte(b) == ALPHABET[b as nat]
  {
    var n := b as nat;
    NarrowAndBack(n);
    AlphabetAt(n);
    if n < 26 {
      UpperAt(n);
    } else if n < 52 {
      LowerAt(n - 26);
    } else if n < 62 {
      DigitAt(n - 52);
    }
  }

  /** Exactly the characters of the table can be decoded, each to its position. */
  lemma AlphabetDecodes(c: char)
    ensures |ALPHABET| == 64 && (Decodable(c) <==> c in ALPHABET)
    ensures Decodable(c) ==> DecodeCharacter(c) as nat < 64 && ALPHABET[DecodeCharacter(c) as nat] == c
  {
    AlphabetAt(0);
    if Decodable(c) {
      CharacterRoundTrip(c);
      AlphabetEncodes(DecodeCharacter(c));
    }
    if c in ALPHABET {
      var i :| 0 <= i < 64 && ALPHABET[i] == c;
      NarrowAndBack(i);
      AlphabetEncodes(i as byte);
      SextetRoundTrip(i as byte);
    }
  }

  // ---------------------------------------------------------------------------------------------
  // Groups as numbers
  // ---------------------------------------------------------------------------------------------

  lemma ShiftRight(x: byte)
    ensures (x >> 2) as nat == x as nat / 4 && (x >> 4) as nat == x as nat / 16 && (x >> 6) as nat == x as nat / 64
  {
  }

  lemma LowTwo(x: byte)
    ensures (x & 0x03) as nat == x as nat % 4
  {
  }

  lemma LowFour(x: byte)
    ensures (x & 0x0F) as nat == x as nat % 16
  {
  }

  lemma LowSix(x: byte)
    ensures (x & 0x3F) as nat == x as nat % 64
  {
  }

  lemma ShiftLeft(x: byte)
    requires x < 4
    ensures (x << 4) as nat == x as nat * 16
  {
  }

  lemma ShiftLeftTwo(x: byte)
    requires x < 16
    ensures (x << 2) as nat == x as nat * 4
  {
  }

  lemma OrIsPlus(a: byte, b: byte)
    requires a & b == 0
    ensures a | b == a + b
  {
  }

  lemma SextetNumbers(x: byte, y: byte, z: byte)
    ensures Sextet1(x) as nat == x as nat / 4
    ensures Sextet2(x, y) as nat == (x as nat % 4) * 16 + y as nat / 16
    ensures Sextet3(y, z) as nat == (y as nat % 16) * 4 + z as nat / 64
    ensures Sextet4(z) as nat == z as nat % 64
  {
    ShiftRight(x);
    ShiftRight(y);
    ShiftRight(z);
    LowTwo(x);
    LowFour(y);
    LowSix(z);
    ShiftLeft(x & 0x03);
    ShiftLeftTwo(y & 0x0F);
    SumNumber((x & 0x03) << 4, y >> 4);
    SumNumber((y & 0x0F) << 2, z >> 6);
  }

  lemma SumNumber(a: byte, b: byte)
    requires a & b == 0 && a < 64 && b < 64
    ensures (a | b) as nat == a as nat + b as nat
  {
    OrIsPlus(a, b);
  }

  /** The character of the table for a number of six bits. */
  function Letter(n: nat): char
    requires n < 64
  {
    AlphabetAt(n);
    ALPHABET[n]
  }

  lemma LetterIs(b: byte)
    requires b < 64
    ensures b as nat < 64 && EncodeByte(b) == Letter(b as nat)
  {
    AlphabetEncodes(b);
  }

  lemma Div64(n: nat, q: nat, r: nat)
    requires n == 64 * q + r && r < 64
    ensures n / 64 == q && n % 64 == r
  {
  }

  lemma Div4096(n: nat, q: nat, r: nat)
    requires n == 4096 * q + r && r < 4096
    ensures n / 4096 == q
  {
  }

  lemma Div262144(n: nat, q: nat, r: nat)
    requires n == 262144 * q + r && r < 262144
    ensures n / 262144 == q
  {
  }

  /** Four sextets, and the number that they make. */
  lemma Sextets(n: nat, a: nat, b: nat, c: nat, d: nat)
    requires a < 64 && b < 64 && c < 64 && d < 64 && n == 262144 * a + 4096 * b + 64 * c + d
    ensures n / 262144 == a && n / 4096 % 64 == b && n / 64 % 64 == c && n % 64 == d
  {
    Div262144(n, a, 4096 * b + 64 * c + d);
    Div4096(n, 64 * a + b, 64 * c + d);
    Div64(64 * a + b, a, b);
    Div64(n, 64 * (64 * a + b) + c, d);
    Div64(64 * (64 * a + b) + c, 64 * a + b, c);
  }

  /** Three octets are one number of 24 bits, written six bits at a time, most significant first. */
  function ThreeText(x: nat, y: nat, z: nat): (s: string)
    requires x < 256 && y < 256 && z < 256
    ensures |s| == 4
  {
    var n := 65536 * x + 256 * y + z;
    [Letter(n / 262144 % 64), Letter(n / 4096 % 64), Letter(n / 64 % 64), Letter(n % 64)]
  }

  /** Two octets, filled up with two zero bits. */
  function TwoText(x: nat, y: nat): (s: string)
    requires x < 256 && y < 256
    ensures |s| == 4
  {
    var n := 4 * (256 * x + y);
    [Letter(n / 4096 % 64), Letter(n / 64 % 64), Letter(n % 64), '=']
  }

  /** One octet, filled up with four zero bits. */
  function OneText(x: nat): (s: string)
    requires x < 256
    ensures |s| == 4
  {
    var n := 16 * x;
    [Letter(n / 64 % 64), Letter(n % 64), '=', '=']
  }

  lemma SextetsLow(x: byte, y: byte, z: byte)
    ensures Sextet1(x) < 64 && Sextet2(x, y) < 64 && Sextet3(y, z) < 64 && Sextet4(z) < 64
  {
    OctetsBack(x, y, z);
  }

  /** The four characters, sextet by sextet. */
  lemma QuadLetters(x: byte, y: byte, z: byte)
    ensures var a, b, c, d := x as nat / 4, (x as nat % 4) * 16 + y as nat / 16, (y as nat % 16) * 4 + z as nat / 64, z as nat % 64;
            && a < 64 && b < 64 && c < 64 && d < 64
            && EncodeByte(Sextet1(x)) == Letter(a) && EncodeByte(Sextet2(x, y)) == Letter(b)
            && EncodeByte(Sextet3(y, z)) == Letter(c) && EncodeByte(Sextet4(z)) == Letter(d)
  {
    hide Letter, EncodeByte, Sextet1, Sextet2, Sextet3, Sextet4;
    SextetNumbers(x, y, z);
    SextetsLow(x, y, z);
    LetterIs(Sextet1(x));
    LetterIs(Sextet2(x, y));
    LetterIs(Sextet3(y, z));
    LetterIs(Sextet4(z));
  }

  lemma ThreeLetters(x: nat, y: nat, z: nat)
    requires x < 256 && y < 256 && z < 256
    ensures x / 4 < 64 && (x % 4) * 16 + y / 16 < 64 && (y % 16) * 4 + z / 64 < 64
    ensures ThreeText(x, y, z) == [Letter(x / 4), Letter((x % 4) * 16 + y / 16), Letter((y % 16) * 4 + z / 64), Letter(z % 64)]
  {
    hide Letter;
    Sextets(65536 * x + 256 * y + z, x / 4, (x % 4) * 16 + y / 16, (y % 16) * 4 + z / 64, z % 64);
  }

  lemma TwoLetters(x: nat, y: nat)
    requires x < 256 && y < 256
    ensures x / 4 < 64 && (x % 4) * 16 + y / 16 < 64 && (y % 16) * 4 < 64
    ensures TwoText(x, y) == [Letter(x / 4), Letter((x % 4) * 16 + y / 16), Letter((y % 16) * 4), '=']
  {
    hide Letter;
    Sextets(4 * (256 * x + y), 0, x / 4, (x % 4) * 16 + y / 16, (y % 16) * 4);
  }

  lemma OneLetters(x: nat)
    requires x < 256
    ensures x / 4 < 64 && (x % 4) * 16 < 64
    ensures OneText(x) == [Letter(x / 4), Letter((x % 4) * 16), '=', '=']
  {
    hide Letter;
    Sextets(16 * x, 0, 0, x / 4, (x % 4) * 16);
  }

  lemma ThreeIs(x: byte, y: byte, z: byte)
    ensures Quad(x, y, z) == ThreeText(x as nat, y as nat, z as nat)
  {
    hide Letter, EncodeByte, Sextet1, Sextet2, Sextet3, Sextet4, ThreeText;
    QuadLetters(x, y, z);
    ThreeLetters(x as nat, y as nat, z as nat);
  }

  lemma TwoIs(x: byte, y: byte)
    ensures QuadTwo(x, y) == TwoText(x as nat, y as nat)
  {
    hide Letter, EncodeByte, Sextet1, Sextet2, Sextet3, Sextet4, TwoText;
    QuadLetters(x, y, 0);
    TwoLetters(x as nat, y as nat);
  }

  lemma OneIs(x: byte)
    ensures QuadOne(x) == OneText(x as nat)
  {
    hide Letter, EncodeByte, Sextet1, Sextet2, Sextet3, Sextet4, OneText;
    QuadLetters(x, 0, 0);
    OneLetters(x as nat);
  }

  /** The group of four characters for the three octets from `3 * g` on, or for those that are left. */
  function GroupText(x: seq<byte>, g: nat): string
    requires 3 * g < |x|
  {
    var rest := |x| - 3 * g;
    if rest == 1 then OneText(x[3 * g] as nat)
    else if rest == 2 then TwoText(x[3 * g] as nat, x[3 * g + 1] as nat)
    else ThreeText(x[3 * g] as nat, x[3 * g + 1] as nat, x[3 * g + 2] as nat)
  }

  lemma FirstText(x: seq<byte>)
    requires x != []
    ensures |Encoded(x)| >= 4 && Encoded(x)[..4] == GroupText(x, 0)
    ensures |x| >= 3 ==> Encoded(x)[4..] == Encoded(x[3..])
  {
    hide OneText, TwoText, ThreeText, Quad, QuadOne, QuadTwo;
    if |x| == 1 {
      OneIs(x[0]);
    } else if |x| == 2 {
      TwoIs(x[0], x[1]);
    } else {
      ThreeIs(x[0], x[1], x[2]);
      assert Encoded(x) == Quad(x[0], x[1], x[2]) + Encoded(x[3..]);
    }
  }

  lemma GroupLater(x: seq<byte>, g: nat)
    requires |x| >= 3 && g > 0 && 3 * g < |x|
    ensures GroupText(x[3..], g - 1) == GroupText(x, g)
  {
    hide OneText, TwoText, ThreeText;
    var y := x[3..];
    assert forall k :: 0 <= k < |y| ==> y[k] == x[3 + k];
    assert 3 * (g - 1) + 3 == 3 * g;
  }

  /** The encoding of any octets, group by group. */
  lemma {:induction false} EncodedText(x: seq<byte>, g: nat)
    requires 3 * g < |x|
    ensures 4 * g + 4 <= |Encoded(x)| && Encoded(x)[4 * g..4 * g + 4] == GroupText(x, g)
    decreases g
  {
    hide Encoded, GroupText;
    FirstText(x);
    if g > 0 {
      EncodedText(x[3..], g - 1);
      GroupLater(x, g);
      var t := Encoded(x)[4..];
      assert t[4 * g - 4..4 * g] == Encoded(x)[4 * g..4 * g + 4];
    }
  }

  /** What is refused, and as what; anything else yields octets. */
  lemma RefusedText(s: string)
    ensures Decoded(s) == Err(TooShort) <==> 0 < |s| < 4
    ensures Decoded(s) == Err(NotMultipleOfFour) <==> |s| > 4 && |s| % 4 != 0
    ensures Decoded(s).Ok? <==> |s| % 4 == 0
  {
  }

  /** The test vectors of section 10 of RFC 4648 for "f", "fo", "foo" and "foobar". */
  lemma Vectors()
    ensures Encoded([0x66]) == "Zg==" && Encoded([0x66, 0x6F]) == "Zm8=" && Encoded([0x66, 0x6F, 0x6F]) == "Zm9v"
    ensures Encoded([0x66, 0x6F, 0x6F, 0x62, 0x61, 0x72]) == "Zm9vYmFy"
  {
    var foo, bar := [0x66 as byte, 0x6F, 0x6F], [0x62 as byte, 0x61, 0x72];
    assert (foo + bar)[3..] == bar && foo[3..] == [] && bar[3..] == [];
    assert Encoded(foo) == "Zm9v";
    assert Encoded(bar) == "YmFy";
    assert foo + bar == [0x66, 0x6F, 0x6F, 0x62, 0x61, 0x72];
    EncodedStep(foo + bar);
  }

  // ---------------------------------------------------------------------------------------------
  // What is read of a text that is not canonical
  // ---------------------------------------------------------------------------------------------

  predicate AllDecodable(t: string) {
    forall i :: 0 <= i < |t| ==> Decodable(t[i])
  }

  /** `d` is what the characters `t` say, eight bits at a time: encoding `d` gives back every character that is
      settled by whole octets, and of one that is cut the bits that the octets cover. */
  ghost predicate Says(t: string, d: seq<byte>) {
    && |d| == 6 * |t| / 8 && |Encoded(d)| >= 8 * |d| / 6
    && (forall i :: 0 <= i < 8 * |d| / 6 ==> i < |t| && Encoded(d)[i] == t[i])
    && (|t| % 4 == 2 ==> |Encoded(d)| >= |t| && Sextet(Encoded(d), |t| - 1) == Sextet(t, |t| - 1) & 0x30)
    && (|t| % 4 == 3 ==> |Encoded(d)| >= |t| && Sextet(Encoded(d), |t| - 1) == Sextet(t, |t| - 1) & 0x3C)
  }

  lemma CutBits(p: byte, q: byte, r: byte)
    requires p < 64 && q < 64 && r < 64
    ensures Sextet1(Octet1(p, q)) == p && Sextet2(Octet1(p, q), 0) == q & 0x30
    ensures Sextet2(Octet1(p, q), Octet2(q, r)) == q && Sextet3(Octet2(q, r), 0) == r & 0x3C
  {
  }

  lemma SaysTwo(t: string)
    requires |t| == 2 && AllDecodable(t)
    ensures Says(t, Octets(t))
  {
    var p, q := Sextet(t, 0), Sextet(t, 1);
    CutBits(p, q, 0);
    CharacterRoundTrip(t[0]);
    SextetRoundTrip(q & 0x30);
  }

  lemma SaysThree(t: string)
    requires |t| == 3 && AllDecodable(t)
    ensures Says(t, Octets(t))
  {
    var p, q, r := Sextet(t, 0), Sextet(t, 1), Sextet(t, 2);
    CutBits(p, q, r);
    CharacterRoundTrip(t[0]);
    CharacterRoundTrip(t[1]);
    SextetRoundTrip(r & 0x3C);
  }

  lemma TripleBack(t: string)
    requires |t| >= 4 && AllDecodable(t)
    ensures |Triple(t)| == 3 && Quad(Triple(t)[0], Triple(t)[1], Triple(t)[2]) == t[..4]
  {
    SextetsBack(Sextet(t, 0), Sextet(t, 1), Sextet(t, 2), Sextet(t, 3));
    CharacterRoundTrip(t[0]);
    CharacterRoundTrip(t[1]);
    CharacterRoundTrip(t[2]);
    CharacterRoundTrip(t[3]);
  }

  lemma SaysMore(t: string, d: seq<byte>, e: seq<byte>)
    requires |t| >= 4 && Says(t[4..], d) && |e| == |d| + 3 && Encoded(e) == t[..4] + Encoded(d)
    ensures Says(t, e)
  {
    hide Encoded, Sextet;
    var u := t[4..];
    assert 6 * |t| / 8 == 3 + 6 * |u| / 8 && 8 * |e| / 6 == 4 + 8 * |d| / 6;
    forall i | 0 <= i < 8 * |e| / 6 ensures i < |t| && Encoded(e)[i] == t[i] {
      if i >= 4 {
        assert Encoded(e)[i] == Encoded(d)[i - 4] == u[i - 4];
      }
    }
    SaysCut(t, d, e);
  }

  lemma SaysCut(t: string, d: seq<byte>, e: seq<byte>)
    requires |t| >= 4 && Says(t[4..], d) && Encoded(e) == t[..4] + Encoded(d)
    ensures |t| % 4 == 2 ==> |Encoded(e)| >= |t| && Sextet(Encoded(e), |t| - 1) == Sextet(t, |t| - 1) & 0x30
    ensures |t| % 4 == 3 ==> |Encoded(e)| >= |t| && Sextet(Encoded(e), |t| - 1) == Sextet(t, |t| - 1) & 0x3C
  {
    hide Encoded, Decodable, DecodeCharacter;
    assert |t[4..]| % 4 == |t| % 4;
    if |t| % 4 >= 2 {
      assert Encoded(e)[|t| - 1] == Encoded(d)[|t| - 5] && t[|t| - 1] == t[4..][|t| - 5];
    }
  }

  lemma {:induction false} OctetsSay(t: string)
    requires AllDecodable(t)
    ensures Says(t, Octets(t))
    decreases |t|
  {
    hide Says;
    if |t| < 2 {
      SaysNothing(t);
    } else if |t| == 2 {
      SaysTwo(t);
    } else if |t| == 3 {
      SaysThree(t);
    } else {
      OctetsSay(t[4..]);
      FirstGroup(t);
      TripleBack(t);
      var e := Octets(t);
      assert e[3..] == Octets(t[4..]);
      EncodedStep(e);
      SaysMore(t, Octets(t[4..]), e);
    }
  }

  lemma SaysNothing(t: string)
    requires |t| < 2
    ensures Says(t, Octets(t))
  {
  }

  /** A text of whole groups is read up to its first character outside the table, padding or not; whatever stands behind
      it is dropped, and so are the bits that fill no octet. */
  lemma DecodedPrefix(s: string, n: nat)
    requires |s| % 4 == 0 && n <= |s| && AllDecodable(s[..n]) && (n < |s| ==> s[n] !in ALPHABET)
    ensures Decoded(s).Ok? && Says(s[..n], Decoded(s).value)
  {
    if n < |s| {
      AlphabetDecodes(s[n]);
    }
    assert forall i :: 0 <= i < n ==> s[..n][i] == s[i];
    PlainIs(s, n);
    DecodedIs(s);
    OctetsSay(s[..n]);
  }
}
