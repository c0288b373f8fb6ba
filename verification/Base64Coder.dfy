/** `Base64Encoder` and `Base64Decoder`: index-stepping loops over a preallocated buffer. */
module Base64Coder {
  import opened Base64

  lemma {:induction false} OctetsSplit(t: string, k: nat)
    requires 4 * k <= |t|
    ensures Octets(t) == Octets(t[..4 * k]) + Octets(t[4 * k..])
  {
    if k == 0 {
      assert t[..0] == "" && t[0..] == t;
      assert Octets("") == [] && [] + Octets(t) == Octets(t);
    } else {
      OctetsSplit(t[4..], k - 1);
      OctetsFront(t, k);
    }
  }

  lemma SameTriple(p: string, t: string)
    requires 4 <= |p| && p <= t
    ensures Triple(p) == Triple(t)
  {
    assert forall i :: 0 <= i < |p| ==> p[i] == t[i];
  }

  /** The first group split off on both sides. */
  lemma OctetsFront(t: string, k: nat)
    requires 0 < k && 4 * k <= |t|
    requires Octets(t[4..]) == Octets(t[4..][..4 * (k - 1)]) + Octets(t[4..][4 * (k - 1)..])
    ensures Octets(t) == Octets(t[..4 * k]) + Octets(t[4 * k..])
  {
    hide Octets, Triple;
    var p := t[..4 * k];
    assert p[4..] == t[4..][..4 * (k - 1)];
    assert t[4..][4 * (k - 1)..] == t[4 * k..];
    FirstGroup(t);
    FirstGroup(p);
    SameTriple(p, t);
    Associate(Triple(t), Octets(p[4..]), Octets(t[4 * k..]));
  }

  lemma OneGroup(t: string)
    requires |t| == 4
    ensures Octets(t) == Triple(t)
  {
    assert t[4..] == "" && Triple(t) + [] == Triple(t);
  }

  /** Whole groups of three octets, and what an unfinished group adds. */
  function OctetsLength(n: nat): nat {
    n / 4 * 3 + if n % 4 == 2 then 1 else if n % 4 == 3 then 2 else 0
  }

  lemma {:induction false} OctetsSize(t: string)
    ensures |Octets(t)| == OctetsLength(|t|)
  {
    if |t| >= 4 {
      OctetsSize(t[4..]);
      FirstGroup(t);
      assert (|t| - 4) / 4 == |t| / 4 - 1 && (|t| - 4) % 4 == |t| % 4;
    }
  }

  class Decoder {
    const encoded: string
    var data: array<byte>

    constructor (encoded: string)
      ensures this.encoded == encoded
    {
      this.encoded := encoded;
      data := new byte[0];
    }

    /** The characters before the first one that cannot be decoded. */
    function Text(): (t: string) {
      encoded[..Plain(encoded)]
    }

    method CalculateDecodedSize() returns (r: Result<nat>)
      ensures match Decoded(encoded)
              case Err(e) => r == Err(e)
              case Ok(v) => r == Ok(|v|) && |v| == OctetsLength(|Text()|)
    {
      if |encoded| == 0 {
        return Ok(0);
      }
      if |encoded| < 4 {
        return Err(TooShort);
      }
      if |encoded| % 4 != 0 {
        return Err(NotMultipleOfFour);
      }
      var end := 0;
      while DecodeCharacter(encoded[end]) < 64
        invariant end < |encoded|
        invariant forall i :: 0 <= i < end ==> Decodable(encoded[i])
        decreases |encoded| - end
      {
        end := end + 1;
        if end == |encoded| {
          break;
        }
      }
      PlainIs(encoded, end);
      OctetsSize(Text());
      var size := end / 4 * 3;
      r := match end % 4 case 2 => Ok(size + 1) case 3 => Ok(size + 2) case _ => Ok(size);
    }

    /** The sextet of a character, which has to be in bounds and decodable. */
    function At(i: nat): byte
      requires i < |Text()|
    {
      DecodeCharacter(encoded[i])
    }

    method Decode() returns (error: Result<()>)
      modifies this
      ensures match Decoded(encoded)
              case Err(e) => error == Err(e) && data == old(data)
              case Ok(v) => error == Ok(()) && fresh(data) && data[..] == v
    {
      var size := CalculateDecodedSize();
      if size.Err? {
        return Err(size.error);
      }
      data := new byte[size.value](_ => 0);
      DecodeAll(size.value);
      DecodedText();
      error := Ok(());
    }

    lemma DecodedText()
      requires Decoded(encoded).Ok?
      ensures Decoded(encoded).value == Octets(Text())
    {
      FourMore(|encoded|);
      DecodedIs(encoded);
    }

    method DecodeAll(size: nat)
      requires data.Length == size == OctetsLength(|Text()|)
      modifies data
      ensures data[..] == Octets(Text())
    {
      assert Text()[..0] == "" && Octets("") == [];
      hide Octets, OctetsLength, Triple, Unfinished;
      ghost var k := 0;
      var inputOffset, outputOffset, index := 0, 0, 2;
      while index < size
        invariant inputOffset == 4 * k <= |Text()| && outputOffset == 3 * k && index == 3 * k + 2 && 3 * k <= size
        invariant data[..3 * k] == Octets(Text()[..4 * k])
      {
        GroupInside(|Text()|, k);
        WriteTriple(inputOffset, outputOffset);
        GroupDone(Text(), k);
        inputOffset, outputOffset, index := inputOffset + 4, outputOffset + 3, index + 3;
        k := k + 1;
      }
      TailShape(|Text()|, k);
      TailOctets(Text(), k);
      ghost var t, i := Text(), inputOffset;
      DecodeTail(size, inputOffset, outputOffset);
      Assembled(data[..], outputOffset, Octets(t[..i]), Octets(t[i..]));
    }

    /** The octets of an unfinished group. */
    method DecodeTail(size: nat, i: nat, o: nat)
      requires o <= size == data.Length && size % 3 == size - o && i <= |Text()|
      requires size % 3 == if |Text()| == i + 2 then 1 else if |Text()| == i + 3 then 2 else 0
      modifies data
      ensures data[..o] == old(data[..o]) && data[o..] == Unfinished(Text(), i)
    {
      match size % 3 {
        case 1 =>
          data[o] := Octet1(At(i), At(i + 1));
        case 2 =>
          data[o] := Octet1(At(i), At(i + 1));
          data[o + 1] := Octet2(At(i + 1), At(i + 2));
        case _ =>
      }
    }

    method WriteTriple(i: nat, o: nat)
      requires i + 4 <= |Text()| && o + 3 <= data.Length
      modifies data
      ensures data[..o] == old(data[..o]) && data[o..o + 3] == Triple(Text()[i..i + 4])
      ensures data[..o + 3] == old(data[..o]) + Triple(Text()[i..i + 4])
    {
      hide Octet1, Octet2, Octet3, Plain, DecodeCharacter;
      data[o] := Octet1(At(i), At(i + 1));
      data[o + 1] := Octet2(At(i + 1), At(i + 2));
      data[o + 2] := Octet3(At(i + 2), At(i + 3));
      assert data[..o + 3] == data[..o] + data[o..o + 3];
    }
  }

  lemma Assembled(all: seq<byte>, o: nat, front: seq<byte>, back: seq<byte>)
    requires o <= |all| && all[..o] == front && all[o..] == back
    ensures all == front + back
  {
  }

  lemma GroupInside(n: nat, k: nat)
    requires 3 * k + 2 < OctetsLength(n)
    ensures 4 * k + 4 <= n && 3 * k + 3 <= OctetsLength(n)
  {
  }

  lemma GroupDone(t: string, k: nat)
    requires 4 * k + 4 <= |t|
    ensures Octets(t[..4 * k + 4]) == Octets(t[..4 * k]) + Triple(t[4 * k..4 * k + 4])
  {
    hide Octets, Triple;
    var p := t[..4 * k + 4];
    OctetsSplit(p, k);
    assert p[..4 * k] == t[..4 * k] && p[4 * k..] == t[4 * k..4 * k + 4];
    OneGroup(t[4 * k..4 * k + 4]);
  }

  lemma TailShape(n: nat, k: nat)
    requires 4 * k <= n && 3 * k <= OctetsLength(n) <= 3 * k + 2
    ensures n < 4 * k + 4 && OctetsLength(n) % 3 == OctetsLength(n) - 3 * k
    ensures OctetsLength(n) % 3 == if n == 4 * k + 2 then 1 else if n == 4 * k + 3 then 2 else 0
  {
  }

  /** The octets of the two or three characters from `i` on. */
  function Unfinished(t: string, i: nat): seq<byte> {
    if |t| == i + 2 then [Octet1(Sextet(t, i), Sextet(t, i + 1))]
    else if |t| == i + 3 then [Octet1(Sextet(t, i), Sextet(t, i + 1)), Octet2(Sextet(t, i + 1), Sextet(t, i + 2))]
    else []
  }

  /** The unfinished group. */
  lemma TailOctets(t: string, k: nat)
    requires 4 * k <= |t| < 4 * k + 4
    ensures Octets(t) == Octets(t[..4 * k]) + Octets(t[4 * k..])
    ensures Octets(t[4 * k..]) == Unfinished(t, 4 * k)
  {
    hide Octets, Unfinished;
    OctetsSplit(t, k);
    LastOctets(t, 4 * k);
  }

  lemma LastOctets(t: string, i: nat)
    requires i <= |t| < i + 4
    ensures Octets(t[i..]) == Unfinished(t, i)
  {
    hide Octet1, Octet2;
  }

  // ---------------------------------------------------------------------------------------------
  // The encoder
  // ---------------------------------------------------------------------------------------------

  lemma {:induction false} EncodedSplit(x: seq<byte>, k: nat)
    requires 3 * k <= |x|
    ensures Encoded(x) == Encoded(x[..3 * k]) + Encoded(x[3 * k..])
  {
    if k == 0 {
      assert x[..0] == [] && x[0..] == x && Encoded([]) == "" && "" + Encoded(x) == Encoded(x);
    } else {
      EncodedSplit(x[3..], k - 1);
      EncodedFront(x, k);
    }
  }

  lemma EncodedFront(x: seq<byte>, k: nat)
    requires 0 < k && 3 * k <= |x|
    requires Encoded(x[3..]) == Encoded(x[3..][..3 * (k - 1)]) + Encoded(x[3..][3 * (k - 1)..])
    ensures Encoded(x) == Encoded(x[..3 * k]) + Encoded(x[3 * k..])
  {
    var p := x[..3 * k];
    assert p[3..] == x[3..][..3 * (k - 1)];
    assert x[3..][3 * (k - 1)..] == x[3 * k..];
    EncodedStep(x);
    EncodedStep(p);
    assert p[0] == x[0] && p[1] == x[1] && p[2] == x[2];
    Associate(Quad(x[0], x[1], x[2]), Encoded(p[3..]), Encoded(x[3 * k..]));
  }

  /** The octets `x` from `i` on, as a quantum. */
  function QuadAt(x: seq<byte>, i: nat): (q: string)
    requires i + 3 <= |x|
    ensures |q| == 4
  {
    Quad(x[i], x[i + 1], x[i + 2])
  }

  lemma EncodedGroup(x: seq<byte>, k: nat)
    requires 3 * k + 3 <= |x|
    ensures Encoded(x[..3 * k + 3]) == Encoded(x[..3 * k]) + QuadAt(x, 3 * k)
  {
    var p := x[..3 * k + 3];
    EncodedSplit(p, k);
    var g := p[3 * k..];
    assert p[..3 * k] == x[..3 * k] && g == [x[3 * k], x[3 * k + 1], x[3 * k + 2]];
    EncodedStep(g);
    assert g[3..] == [] && Encoded([]) == "" && QuadAt(x, 3 * k) + "" == QuadAt(x, 3 * k);
  }

  /** The last quantum, padded. */
  function LastQuad(x: seq<byte>, i: nat): string
    requires i <= |x| <= i + 2
  {
    if |x| == i + 1 then QuadOne(x[i]) else if |x| == i + 2 then QuadTwo(x[i], x[i + 1]) else ""
  }

  lemma EncodedTail(x: seq<byte>, k: nat)
    requires 3 * k <= |x| <= 3 * k + 2
    ensures Encoded(x) == Encoded(x[..3 * k]) + LastQuad(x, 3 * k)
  {
    EncodedSplit(x, k);
    var g := x[3 * k..];
    assert Encoded(g) == LastQuad(x, 3 * k);
  }

  class Encoder {
    const input: seq<byte>
    var encoded: array<char>

    constructor (input: seq<byte>)
      ensures this.input == input
    {
      this.input := input;
      encoded := new char[0];
    }

    /** Masking with `~3` clears the two lowest bits. */
    static function CalculateEncodedSize(decodedSize: nat): (n: nat)
      ensures n == 4 * ((decodedSize + 2) / 3)
    {
      var m := 4 * decodedSize / 3 + 3;
      m - m % 4
    }

    method Encode()
      modifies this
      ensures fresh(encoded) && encoded[..] == Encoded(input)
      ensures encoded.Length == CalculateEncodedSize(|input|)
    {
      encoded := new char[CalculateEncodedSize(|input|)](_ => '!');
      EncodedLength(input);
      EncodeAll();
    }

    method EncodeAll()
      requires encoded.Length == |Encoded(input)| == 4 * ((|input| + 2) / 3)
      modifies encoded
      ensures encoded[..] == Encoded(input)
    {
      var octetTriplets := |input| / 3;
      var inputOffset, outputOffset := 0, 0;
      for index := 0 to octetTriplets
        invariant inputOffset == 3 * index && outputOffset == 4 * index
        invariant encoded[..4 * index] == Encoded(input[..3 * index])
      {
        RoomFor(|input|, index);
        WriteQuad(inputOffset, outputOffset);
        EncodedGroup(input, index);
        inputOffset, outputOffset := inputOffset + 3, outputOffset + 4;
      }
      RoomAfter(|input|);
      EncodedTail(input, octetTriplets);
      WriteLast(inputOffset, outputOffset);
      assert encoded[..] == encoded[..outputOffset] + encoded[outputOffset..];
    }

    method WriteQuad(i: nat, o: nat)
      requires i + 3 <= |input| && o + 4 <= encoded.Length
      modifies encoded
      ensures encoded[..o + 4] == old(encoded[..o]) + QuadAt(input, i)
    {
      encoded[o] := EncodeByte(input[i] >> 2);
      encoded[o + 1] := EncodeByte(((input[i] & 0x03) << 4) | (input[i + 1] >> 4));
      encoded[o + 2] := EncodeByte(((input[i + 1] & 0x0F) << 2) | (input[i + 2] >> 6));
      encoded[o + 3] := EncodeByte(input[i + 2] & 0x3F);
      assert encoded[..o + 4] == encoded[..o] + encoded[o..o + 4];
      assert encoded[o..o + 4] == QuadAt(input, i);
    }

    /** The switch on the octets left over. */
    method WriteLast(i: nat, o: nat)
      requires i <= |input| <= i + 2 && |input| % 3 == |input| - i
      requires encoded.Length == if |input| == i then o else o + 4
      modifies encoded
      ensures encoded[..o] == old(encoded[..o]) && encoded[o..] == LastQuad(input, i)
    {
      match |input| % 3 {
        case 1 =>
          TailBits(input[i]);
          encoded[o] := EncodeByte(input[i] >> 2);
          encoded[o + 1] := EncodeByte((input[i] & 0x03) << 4);
          encoded[o + 2] := '=';
          encoded[o + 3] := '=';
        case 2 =>
          TailBits(input[i + 1]);
          encoded[o] := EncodeByte(input[i] >> 2);
          encoded[o + 1] := EncodeByte(((input[i] & 0x03) << 4) | (input[i + 1] >> 4));
          encoded[o + 2] := EncodeByte((input[i + 1] & 0x0F) << 2);
          encoded[o + 3] := '=';
        case _ =>
      }
    }
  }

  lemma RoomFor(n: nat, k: nat)
    requires k < n / 3
    ensures 3 * k + 3 <= n && 4 * k + 4 <= 4 * ((n + 2) / 3)
  {
  }

  lemma RoomAfter(n: nat)
    ensures var k := n / 3; 3 * k <= n <= 3 * k + 2 && n % 3 == n - 3 * k
    ensures 4 * ((n + 2) / 3) == if n == 3 * (n / 3) then 4 * (n / 3) else 4 * (n / 3) + 4
  {
  }
}
