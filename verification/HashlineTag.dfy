/** The four-digit line tags of the hashline view. */
module HashlineTag {

  /** A line as UTF-16 code units. */
  type CodeUnit = c: nat | c < 0x1_0000

  const HALF := 0x1_0000
  const WORD := 0x1_0000_0000

  function WithoutReturn(line: seq<CodeUnit>): seq<CodeUnit> {
    if line != [] && line[|line| - 1] == 13 then line[..|line| - 1] else line
  }

  function Pow2(bits: nat): nat {
    if bits == 0 then 1 else 2 * Pow2(bits - 1)
  }

  /** Bitwise exclusive or, on the low `bits` bits. */
  function Xor(a: nat, b: nat, bits: nat): (r: nat)
    ensures r < Pow2(bits)
  {
    if bits == 0 then 0
    else (if a % 2 == b % 2 then 0 else 1) + 2 * Xor(a / 2, b / 2, bits - 1)
  }

  /** Where b has no high bits, those of a stay. */
  lemma {:induction false} XorKeepsHigh(high: nat, low: nat, b: nat, bits: nat, more: nat)
    requires low < Pow2(bits) && b < Pow2(bits) && high < Pow2(more)
    ensures Xor(Pow2(bits) * high + low, b, bits + more) == Pow2(bits) * high + Xor(low, b, bits)
  {
    if bits == 0 {
      XorZero(high, more);
    } else {
      var half := Pow2(bits - 1) * high;
      assert Pow2(bits) * high == 2 * half;
      assert (2 * half + low) / 2 == half + low / 2 && (2 * half + low) % 2 == low % 2;
      XorKeepsHigh(high, low / 2, b / 2, bits - 1, more);
    }
  }

  lemma {:induction false} XorZero(a: nat, bits: nat)
    requires a < Pow2(bits)
    ensures Xor(a, 0, bits) == a
  {
    if bits > 0 {
      XorZero(a / 2, bits - 1);
    }
  }

  lemma TwiceProduct(x: nat, y: nat)
    ensures 2 * (x * y) == (2 * x) * y
  {
  }

  lemma Pow2Step(bits: nat)
    ensures Pow2(0) == 1 && Pow2(bits + 1) == 2 * Pow2(bits)
  {
  }

  lemma {:induction false} Pow2Adds(a: nat, b: nat)
    ensures Pow2(a + b) == Pow2(a) * Pow2(b)
  {
    hide Pow2;
    if a == 0 {
      Pow2Step(0);
    } else {
      Pow2Adds(a - 1, b);
      Pow2Step(a - 1 + b);
      Pow2Step(a - 1);
      TwiceProduct(Pow2(a - 1), Pow2(b));
    }
  }

  lemma PowersOfTwo()
    ensures Pow2(16) == HALF && Pow2(32) == WORD
  {
    assert Pow2(8) == 256 by {
      assert Pow2(4) == 16 by { assert Pow2(2) == 4; }
      Pow2Adds(4, 4);
    }
    Pow2Adds(8, 8);
    Pow2Adds(16, 16);
  }

  /** One round of the hash on unsigned 32-bit words, and the same round on 16 bits. */
  function Mix(hash: nat, unit: CodeUnit): nat {
    Xor(hash, unit, 32) * 0x01000193 % WORD
  }

  function ShortMix(hash: CodeUnit, unit: CodeUnit): CodeUnit {
    Xor(hash, unit, 16) * 0x0193 % HALF
  }

  lemma ProductLow(high: nat, low: nat)
    ensures (HALF * high + low) * 0x01000193 % WORD % HALF == low * 0x0193 % HALF
  {
    var product := (HALF * high + low) * 0x01000193;
    var turns := high * 0x01000193 + low * 0x0100;
    assert product == HALF * turns + low * 0x0193;
    assert product % WORD == product - WORD * (product / WORD);
    SameHalf(low * 0x0193, turns - HALF * (product / WORD));
  }

  lemma SameHalf(x: int, turns: int)
    ensures (HALF * turns + x) % HALF == x % HALF
  {
  }

  /** The low half of a round depends on the low half of the hash only. */
  lemma LowHalfSuffices(hash: nat, unit: CodeUnit)
    requires hash < WORD
    ensures Mix(hash, unit) % HALF == ShortMix(hash % HALF, unit)
  {
    hide Xor, Pow2;
    PowersOfTwo();
    XorKeepsHigh(hash / HALF, hash % HALF, unit, 16, 16);
    ProductLow(hash / HALF, Xor(hash % HALF, unit, 16));
  }

  /** The hash the loop computes, and the hash with sixteen bits of state only. */
  function LongHash(units: seq<CodeUnit>): (hash: nat)
    ensures hash < WORD
  {
    if units == [] then 0x811c9dc5 else Mix(LongHash(units[..|units| - 1]), units[|units| - 1])
  }

  function ShortHash(units: seq<CodeUnit>): CodeUnit {
    if units == [] then 0x9dc5 else ShortMix(ShortHash(units[..|units| - 1]), units[|units| - 1])
  }

  /** For the tag, sixteen bits of state are as good as thirty-two. */
  lemma {:induction false} ShortHashSuffices(units: seq<CodeUnit>)
    ensures LongHash(units) % HALF == ShortHash(units)
  {
    hide Mix, ShortMix;
    if units != [] {
      ShortHashSuffices(units[..|units| - 1]);
      LowHalfSuffices(LongHash(units[..|units| - 1]), units[|units| - 1]);
    }
  }

  function HexDigit(d: nat): (c: char)
    requires d < 16
  {
    if d < 10 then ('0' as int + d) as char else ('A' as int + d - 10) as char
  }

  /** n.toString(16).toUpperCase() */
  function Hex(n: nat): (s: string) {
    if n < 16 then [HexDigit(n)] else Hex(n / 16) + [HexDigit(n % 16)]
  }

  function PadStart(s: string, size: nat): string
    decreases size - |s|
  {
    if |s| >= size then s else PadStart("0" + s, size)
  }

  function Tag(n: nat): string {
    PadStart(Hex(n), 4)
  }

  /** A tag is exactly the four hexadecimal digits of its number. */
  lemma TagDigits(n: nat)
    requires n < 0x1_0000
    ensures Tag(n) == [HexDigit(n / 4096), HexDigit(n / 256 % 16), HexDigit(n / 16 % 16), HexDigit(n % 16)]
  {
    var a, b, c := n / 16, n / 256, n / 4096;
    assert a / 16 == b && b / 16 == c;
    if n < 16 {
      assert Hex(n) == [HexDigit(n)];
      Pads([HexDigit(n)]);
    } else if n < 256 {
      assert Hex(n) == [HexDigit(a), HexDigit(n % 16)];
      Pads(Hex(n));
    } else if n < 4096 {
      assert Hex(a) == [HexDigit(b), HexDigit(a % 16)];
      assert Hex(n) == [HexDigit(b), HexDigit(a % 16), HexDigit(n % 16)];
      Pads(Hex(n));
    } else {
      assert Hex(b) == [HexDigit(c), HexDigit(b % 16)];
      assert Hex(a) == [HexDigit(c), HexDigit(b % 16), HexDigit(a % 16)];
      assert Hex(n) == [HexDigit(c), HexDigit(b % 16), HexDigit(a % 16), HexDigit(n % 16)];
      Pads(Hex(n));
    }
  }

  lemma Pads(s: string)
    requires 1 <= |s| <= 4
    ensures PadStart(s, 4) ==
            if |s| == 4 then s else if |s| == 3 then "0" + s else if |s| == 2 then "00" + s else "000" + s
  {
    assert PadStart("0" + ("0" + ("0" + s)), 4) == PadStart("0" + ("0" + s), 4) || |s| > 1;
    assert "0" + ("0" + s) == "00" + s;
    assert "0" + ("00" + s) == "000" + s;
  }

  lemma HexDigitsDiffer(d: nat, e: nat)
    requires d < 16 && e < 16 && HexDigit(d) == HexDigit(e)
    ensures d == e
  {
  }

  lemma Nibbles(n: nat)
    ensures n == 4096 * (n / 4096) + 256 * (n / 256 % 16) + 16 * (n / 16 % 16) + n % 16
    ensures n < 0x1_0000 ==> n / 4096 < 16
  {
    assert n / 256 == (n / 16) / 16 && n / 4096 == (n / 256) / 16;
  }

  /** Two numbers get the same tag only if they are the same. */
  lemma TagsTellApart(n: nat, m: nat)
    requires n < 0x1_0000 && m < 0x1_0000
    ensures Tag(n) == Tag(m) <==> n == m
  {
    hide Tag, HexDigit;
    if Tag(n) == Tag(m) {
      Nibbles(n);
      Nibbles(m);
      TagDigits(n);
      TagDigits(m);
      assert Tag(n)[0] == Tag(m)[0] && Tag(n)[1] == Tag(m)[1] && Tag(n)[2] == Tag(m)[2] && Tag(n)[3] == Tag(m)[3];
      HexDigitsDiffer(n / 4096, m / 4096);
      HexDigitsDiffer(n / 256 % 16, m / 256 % 16);
      HexDigitsDiffer(n / 16 % 16, m / 16 % 16);
      HexDigitsDiffer(n % 16, m % 16);
    }
  }

  method HashLine(line: seq<CodeUnit>) returns (hash: nat)
    ensures hash == LongHash(line)
  {
    hide Xor;
    hash := 0x811c9dc5;
    for i := 0 to |line|
      invariant hash == LongHash(line[..i])
    {
      assert line[..i + 1][..i] == line[..i];
      hash := Xor(hash, line[i], 32);
      hash := hash * 0x01000193 % WORD;
    }
    assert line[..|line|] == line;
  }

  /** The tag depends on sixteen bits of state and ignores one trailing carriage return. */
  method ComputeLineTag(line: seq<CodeUnit>) returns (tag: string)
    ensures tag == Tag(ShortHash(WithoutReturn(line)))
  {
    var normalized := WithoutReturn(line);
    var hash := HashLine(normalized);
    ShortHashSuffices(normalized);
    tag := Tag(hash % HALF);
  }

  /** Lines get the same tag exactly when their short hashes agree. */
  lemma SameTagExactly(a: seq<CodeUnit>, b: seq<CodeUnit>)
    ensures Tag(ShortHash(a)) == Tag(ShortHash(b)) <==> ShortHash(a) == ShortHash(b)
  {
    TagsTellApart(ShortHash(a), ShortHash(b));
  }
}
