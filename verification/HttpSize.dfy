/** Chunk sizes as they may be written (section 7.1 of RFC 9112): in base 16, in either case, with leading zeros. */
module HttpSize {
  import opened HttpMessage
  import opened HttpScan
  import opened HttpBody
  import opened HttpHead
  import opened HttpPrint
  import opened HttpParserSpec
  import opened HttpChunkedWriter
  import opened Options

  const DIGITS := "0123456789abcdef"

  const CAPITALS := "0123456789ABCDEF"

  /** `s` is the number `n` in base 16, digit by digit from the last one. */
  predicate Spells(s: string, n: nat)
    decreases s
  {
    s != "" &&
    var last, rest := s[|s| - 1], s[..|s| - 1];
    (last == DIGITS[n % 16] || last == CAPITALS[n % 16]) && if rest == "" then n < 16 else Spells(rest, n / 16)
  }

  lemma DigitAt(v: nat)
    requires v < 16
    ensures DIGITS[v] == if v < 10 then '0' + v as char else 'a' + (v - 10) as char
    ensures CAPITALS[v] == if v < 10 then '0' + v as char else 'A' + (v - 10) as char
  {
  }

  lemma DigitIs(c: char, v: nat)
    requires v < 16
    ensures IsHex(c) && HexValue(c) == v <==> c == DIGITS[v] || c == CAPITALS[v]
  {
    DigitAt(v);
  }

  predicate HexText(s: string) {
    s != "" && forall i :: 0 <= i < |s| ==> IsHex(s[i])
  }

  lemma Sixteen(n: nat, m: nat, v: nat)
    requires v < 16
    ensures n == 16 * m + v <==> m == n / 16 && v == n % 16
  {
  }

  lemma HexTextLast(s: string)
    requires s != ""
    ensures HexText(s) <==> IsHex(s[|s| - 1]) && (s[..|s| - 1] == "" || HexText(s[..|s| - 1]))
  {
    var rest := s[..|s| - 1];
    if HexText(rest) && IsHex(s[|s| - 1]) {
      forall i | 0 <= i < |s| ensures IsHex(s[i]) {
        assert i < |rest| ==> rest[i] == s[i];
      }
    }
  }

  /** What is read of a text of digits is the number that it spells. */
  lemma {:induction false} SpellsNumber(s: string, n: nat)
    ensures Spells(s, n) <==> HexText(s) && HexNumber(s) == n
    decreases s
  {
    hide HexText, IsHex, HexValue;
    if s == "" {
      NoText();
    } else {
      var last, rest := s[|s| - 1], s[..|s| - 1];
      HexTextLast(s);
      DigitIs(last, n % 16);
      Sixteen(n, HexNumber(rest), HexValue(last));
      if rest != "" {
        SpellsNumber(rest, n / 16);
      }
    }
  }

  lemma NoText()
    ensures !HexText("")
  {
  }

  /** The writer's sizes are spelt in the small digits, without leading zeros. */
  lemma {:induction false} HexSpells(n: nat)
    ensures Spells(Hex(n), n) && (n > 0 ==> Hex(n)[0] != '0') && forall i :: 0 <= i < |Hex(n)| ==> Hex(n)[i] in DIGITS
    decreases n
  {
    HexRoundTrip(n);
    SpellsNumber(Hex(n), n);
    DigitAt(n % 16);
    assert DIGITS[n % 16] == HexDigit(n % 16);
    if n >= 16 {
      HexSpells(n / 16);
    }
  }

  lemma {:induction false} LengthStops(s: string, h: nat)
    requires h <= |s| && (forall i :: 0 <= i < h ==> IsHex(s[i])) && (h < |s| ==> !IsHex(s[h]))
    ensures HexLength(s) == h
    decreases h
  {
    if h > 0 {
      LengthStops(s[1..], h - 1);
    }
  }

  lemma {:induction false} LengthIsHex(s: string)
    ensures forall i :: 0 <= i < HexLength(s) ==> IsHex(s[i])
    ensures HexLength(s) < |s| ==> !IsHex(s[HexLength(s)])
  {
    if s != "" && IsHex(s[0]) {
      LengthIsHex(s[1..]);
      forall i | 0 <= i < HexLength(s) ensures IsHex(s[i]) {
        assert i > 0 ==> s[1..][i - 1] == s[i];
      }
    }
  }

  /** The first `h` characters of the size line spell `n`, and a carriage return or nothing follows. */
  predicate SizeLine(line: string, h: nat, n: nat) {
    h <= |line| && Spells(line[..h], n) && n < 0x1_0000_0000_0000_0000 && (h < |line| ==> line[h] == '\r')
  }

  /** A size line is understood exactly if it is a number below 2^64 in base 16, and as that number. */
  lemma SizeIff(line: string, n: nat)
    ensures ChunkSize(line) == Some(n) <==> exists h :: 0 <= h <= |line| && SizeLine(line, h, n)
  {
    hide Spells, HexNumber, HexLength;
    LengthIsHex(line);
    var k := HexLength(line);
    SpellsNumber(line[..k], n);
    if ChunkSize(line) == Some(n) {
      assert HexText(line[..k]);
      assert SizeLine(line, k, n);
    }
    forall h | 0 <= h <= |line| && SizeLine(line, h, n) ensures ChunkSize(line) == Some(n) {
      SpellsNumber(line[..h], n);
      assert forall i :: 0 <= i < h ==> IsHex(line[..h][i]);
      LengthStops(line, h);
    }
  }

  /** What the chunk loop makes of a size line that says nothing. */
  lemma SizeLineBad(rules: Rules, b: string, s: Body, line: string, rest: string)
    requires s.pos <= |b| && s.chunk.NoChunk? && b[s.pos..] == line + ("\r\n" + rest) && OnLine(line)
    requires forall h: nat, n: nat :: h <= |line| ==> !SizeLine(line, h, n)
    ensures Chunks(rules, b, s) == BodyResult(s, Error(BadChunkSize))
  {
    hide FindEol, ChunkSize, SizeLine, OnLine;
    ValueParts(b, s.pos, line, rest);
    if ChunkSize(line).Some? {
      SizeIff(line, ChunkSize(line).value);
    }
  }

  /** And of one that says `n`: the last chunk, more than the parser will take, or `n` bytes to come. */
  lemma SizeLineGood(rules: Rules, b: string, s: Body, line: string, rest: string, h: nat, n: nat)
    requires s.pos <= |b| && s.chunk.NoChunk? && b[s.pos..] == line + ("\r\n" + rest) && OnLine(line) && SizeLine(line, h, n)
    ensures var q, r := s.pos + |line| + 2, Chunks(rules, b, s);
            && (n == 0 ==> r == BodyResult(s.(pos := q), Done))
            && (n > rules.maxReserve && n > 0 ==> r == BodyResult(s.(pos := q), Error(ReserveRefused)))
            && (0 < n <= rules.maxReserve && rest == "" ==> r == BodyResult(s.(pos := q, chunk := Chunk(n, 0)), More))
  {
    hide FindEol, ChunkSize, SizeLine, OnLine;
    ValueParts(b, s.pos, line, rest);
    LineWithin(line, h, n);
    SizeIff(line, n);
    var e := s.pos + |line|;
    SizeKnown(rules, b, s, e, n);
    var t := s.(pos := e + 2, chunk := Chunk(n, 0));
    DataNext(rules, b, t, rest);
  }

  lemma DataNext(rules: Rules, b: string, s: Body, rest: string)
    requires s.pos <= |b| && s.chunk.Chunk? && s.chunk.already == 0 && b[s.pos..] == rest
    ensures var n, r := s.chunk.size, ChunkData(rules, b, s);
            && (n == 0 ==> r == BodyResult(s.(chunk := NoChunk), Done))
            && (n > rules.maxReserve && n > 0 ==> r == BodyResult(s.(chunk := NoChunk), Error(ReserveRefused)))
            && (0 < n <= rules.maxReserve && rest == "" ==> r == BodyResult(s, More))
  {
    hide Chunks;
    assert rest == "" ==> s.pos == |b| && s.text + b[s.pos..] == s.text;
  }

  lemma LineWithin(line: string, h: nat, n: nat)
    requires SizeLine(line, h, n)
    ensures h <= |line|
  {
  }

  /** Capitals and a leading zero in a real size line. */
  lemma CapitalSize()
    ensures ChunkSize("0aF") == Some(175) && ChunkSize("0AF\r;") == Some(175)
  {
    hide ChunkSize;
    DigitAt(10);
    DigitAt(15);
    assert "0aF"[..2] == "0a" && "0a"[..1] == "0" && "0AF"[..2] == "0A" && "0A"[..1] == "0";
    assert Spells("0", 0) && Spells("0a", 10) && Spells("0A", 10);
    assert "0aF"[..3] == "0aF" && "0AF\r;"[..3] == "0AF";
    assert SizeLine("0aF", 3, 175) && SizeLine("0AF\r;", 3, 175);
    SizeIff("0aF", 175);
    SizeIff("0AF\r;", 175);
  }
}
