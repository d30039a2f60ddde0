/** The operand texts the disassembler prints (gobjdump.go:48-85): `%02x`
    hexadecimal bytes and `%d` of a byte taken as `int8`. Each format comes
    with a parser, and the round trip shows the text determines the value. */
module Text {
  import opened Bits

  /** A lower-case hexadecimal digit character. */
  predicate IsHexDigit(c: char) {
    '0' <= c <= '9' || 'a' <= c <= 'f'
  }

  /** One lower-case hexadecimal digit, as `%x` prints it. */
  function HexDigit(n: nat): (c: char)
    requires n < 16
    ensures IsHexDigit(c)
    ensures HexValue(c) == n
  {
    if n < 10 then ('0' as int + n) as char else ('a' as int + n - 10) as char
  }

  /** The value of a lower-case hexadecimal digit; 0 for any other char. */
  function HexValue(c: char): nat {
    if '0' <= c <= '9' then c as int - '0' as int
    else if 'a' <= c <= 'f' then c as int - 'a' as int + 10
    else 0
  }

  /** `%02x`: two digits, high nibble first. */
  function Hex2(b: bv8): (t: string)
    ensures |t| == 2
    ensures forall i :: 0 <= i < 2 ==> IsHexDigit(t[i])
    ensures HexValue(t[0]) * 16 + HexValue(t[1]) == b as int
  {
    [HexDigit((b >> 4) as int), HexDigit((b & 0xF) as int)]
  }

  /** Reading two hexadecimal digits back. */
  function ParseHex2(t: string): nat
    requires |t| == 2
  {
    HexValue(t[0]) * 16 + HexValue(t[1])
  }

  /** `%02x` is read back to the byte it printed, and two lower-case
      hexadecimal digits that read as `b` are the `%02x` text of `b`. */
  lemma {:induction false} Hex2RoundTrip(b: bv8, t: string)
    ensures ParseHex2(Hex2(b)) == b as int
    ensures |t| == 2 && IsHexDigit(t[0]) && IsHexDigit(t[1]) && ParseHex2(t) == b as int ==> Hex2(b) == t
  {
    if |t| == 2 && IsHexDigit(t[0]) && IsHexDigit(t[1]) && ParseHex2(t) == b as int {
      HexDigitOfValue(t[0]);
      HexDigitOfValue(t[1]);
      var hi, lo := HexValue(t[0]), HexValue(t[1]);
      NibblesOf(b, hi, lo);
      assert Hex2(b) == [HexDigit(hi), HexDigit(lo)] == [t[0], t[1]];
      assert [t[0], t[1]] == t;
    }
  }

  /** A hexadecimal digit is printed back from its value. */
  lemma {:induction false} HexDigitOfValue(c: char)
    requires IsHexDigit(c)
    ensures HexValue(c) < 16 && HexDigit(HexValue(c)) == c
  {
  }

  /** The byte of value `16 * hi + lo` has high nibble `hi` and low nibble `lo`. */
  lemma {:induction false} NibblesOf(b: bv8, hi: nat, lo: nat)
    requires hi < 16 && lo < 16 && b as int == 16 * hi + lo
    ensures (b >> 4) as int == hi && (b & 0xF) as int == lo
  {
    assert b as int == 16 * (b >> 4) as int + (b & 0xF) as int;
    assert (b & 0xF) as int < 16;
  }

  /** `0x%02x`, the imm8 text. */
  function Imm8Text(b: bv8): (t: string)
    ensures |t| == 4 && t[..2] == "0x"
    ensures forall i :: 2 <= i < 4 ==> IsHexDigit(t[i])
    ensures ParseHex2(t[2..]) == b as int
  {
    "0x" + Hex2(b)
  }

  /** `0x%02x%02x` of the high then the low byte, the imm16 text: the
      little-endian pair printed as one big-endian number. */
  function Imm16Text(lo: bv8, hi: bv8): (t: string)
    ensures |t| == 6 && t[..2] == "0x"
    ensures forall i :: 2 <= i < 6 ==> IsHexDigit(t[i])
    ensures ParseHex2(t[2..4]) * 256 + ParseHex2(t[4..]) == hi as int * 256 + lo as int
  {
    "0x" + Hex2(hi) + Hex2(lo)
  }

  /** `[0x%02x%02x]`, the imm16_addr text. */
  function Imm16AddrText(lo: bv8, hi: bv8): (t: string)
    ensures |t| == 8 && t[0] == '[' && t[7] == ']'
    ensures t[1..7] == Imm16Text(lo, hi)
  {
    "[" + Imm16Text(lo, hi) + "]"
  }

  /** A decimal digit. */
  function DigitChar(d: nat): (c: char)
    requires d < 10
    ensures '0' <= c <= '9'
    ensures c as int - '0' as int == d
  {
    ('0' as int + d) as char
  }

  /** The decimal digits of `n`, most significant first, no leading zero. */
  function Digits(n: nat): (t: string)
    ensures 1 <= |t|
    ensures forall i :: 0 <= i < |t| ==> '0' <= t[i] <= '9'
    ensures |t| > 1 ==> t[0] != '0'
    ensures IsDecimal(t)
    decreases n
  {
    if n < 10 then [DigitChar(n)] else Digits(n / 10) + [DigitChar(n % 10)]
  }

  /** Reading decimal digits back, most significant first. */
  function ParseDigits(t: string): nat
    decreases |t|
  {
    if |t| == 0 then 0
    else ParseDigits(t[..|t| - 1]) * 10 + (t[|t| - 1] as int - '0' as int) % 10
  }

  /** The decimal text of `n` reads back as `n`. */
  lemma {:induction false} DigitsRoundTrip(n: nat)
    ensures ParseDigits(Digits(n)) == n
    decreases n
  {
    if n >= 10 {
      var t := Digits(n);
      assert t[..|t| - 1] == Digits(n / 10);
      DigitsRoundTrip(n / 10);
    }
  }

  /** Plain decimal notation: at least one digit, digits only, and no
      leading zero unless the number is 0. */
  predicate IsDecimal(t: string) {
    && 1 <= |t|
    && (forall i :: 0 <= i < |t| ==> '0' <= t[i] <= '9')
    && (|t| > 1 ==> t[0] != '0')
  }

  /** `%d` of `int8(b)`: a minus sign before negative values, then the
      magnitude in plain decimal. */
  function SignedText(b: bv8): (t: string)
    ensures 1 <= |t| <= 4
    ensures t[0] == '-' <==> b >= 0x80
    ensures IsDecimal(if b >= 0x80 then t[1..] else t)
  {
    var v := Signed(b);
    var magnitude: nat := if v < 0 then -v else v;
    SmallDigits(magnitude);
    if v < 0 then Negative(Digits(magnitude)) else Digits(magnitude)
  }

  /** A minus sign before a decimal text. */
  function Negative(u: string): (t: string)
    ensures |t| == |u| + 1 && t[0] == '-' && t[1..] == u
  {
    "-" + u
  }

  /** Numbers below 1000 have at most three digits. */
  lemma {:induction false} SmallDigits(n: nat)
    requires n < 1000
    ensures |Digits(n)| <= 3
  {
    if n >= 10 {
      SmallDigits(n / 10);
      if n / 10 < 10 {
        assert |Digits(n / 10)| == 1;
      }
    }
  }

  /** Reading an optionally negative decimal number back. */
  function ParseSigned(t: string): int {
    if |t| > 0 && t[0] == '-' then -(ParseDigits(t[1..]) as int) else ParseDigits(t)
  }

  /** The signed text reads back as the `int8` value it printed. */
  lemma {:induction false} SignedRoundTrip(b: bv8)
    ensures ParseSigned(SignedText(b)) == Signed(b)
  {
    if b >= 0x80 {
      NegativeTextRoundTrip(b);
    } else {
      assert SignedText(b) == Digits(Signed(b));
      DigitsRoundTrip(Signed(b));
    }
  }

  /** A byte with the top bit set prints as a minus sign and its magnitude. */
  lemma {:induction false} NegativeTextRoundTrip(b: bv8)
    requires b >= 0x80
    ensures ParseSigned(SignedText(b)) == Signed(b)
  {
    var k: nat := -Signed(b);
    assert SignedText(b) == Negative(Digits(k));
    NegativeRoundTrip(k);
  }

  /** A minus sign before the digits of `k` reads back as `-k`. */
  lemma {:induction false} NegativeRoundTrip(k: nat)
    ensures ParseSigned(Negative(Digits(k))) == -(k as int)
  {
    DigitsRoundTrip(k);
  }
}
