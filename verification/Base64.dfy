/** Base64 as common/Base64.hpp codes it, against section 4 of RFC 4648. */
module Base64 {

  type Byte = x: int | 0 <= x < 256

  datatype Decoded = Bytes(bytes: seq<Byte>) | InvalidChar | InvalidLength

  const TWO_31: int := 0x8000_0000
  const TWO_32: int := 0x1_0000_0000

  /** The alphabet, indexed by digit. */
  function Char64(d: int): char
    requires 0 <= d < 64
  {
    if d < 26 then 'A' + d as char
    else if d < 52 then 'a' + (d - 26) as char
    else if d < 62 then '0' + (d - 52) as char
    else if d == 62 then '+' else '/'
  }

  /** The reverse table; -1 marks a character outside the alphabet. */
  function Lookup(c: char): (d: int)
    ensures -1 <= d < 64
    ensures d != -1 ==> c == Char64(d)
  {
    if 'A' <= c <= 'Z' then c as int - 'A' as int
    else if 'a' <= c <= 'z' then c as int - 'a' as int + 26
    else if '0' <= c <= '9' then c as int - '0' as int + 52
    else if c == '+' then 62 else if c == '/' then 63 else -1
  }

  lemma LookupChar(d: int)
    requires 0 <= d < 64
    ensures Lookup(Char64(d)) == d && Char64(d) != '=' && Char64(d) != '|'
  {
  }

  // ---------------------------------------------------------------- encoding

  /** A whole group: shifts and masks over three bytes. */
  function Group(a: Byte, b: Byte, c: Byte): string {
    [Char64(a / 4), Char64(a % 4 * 16 + b / 16), Char64(b % 16 * 4 + c / 64), Char64(c % 64)]
  }

  function Encode(s: seq<Byte>): string {
    if s == [] then ""
    else if |s| == 1 then [Char64(s[0] / 4), Char64(s[0] % 4 * 16), '=', '=']
    else if |s| == 2 then [Char64(s[0] / 4), Char64(s[0] % 4 * 16 + s[1] / 16), Char64(s[1] % 16 * 4), '=']
    else Group(s[0], s[1], s[2]) + Encode(s[3..])
  }

  method Base64Encode(data: seq<Byte>) returns (out: string)
    ensures out == Encode(data)
  {
    out := "";
    var i := 0;
    while i + 2 < |data|
      invariant 0 <= i <= |data|
      invariant out + Encode(data[i..]) == Encode(data)
    {
      assert data[i..][3..] == data[i + 3..];
      var group := [Char64(data[i] / 4), Char64(data[i] % 4 * 16 + data[i + 1] / 16),
                    Char64(data[i + 1] % 16 * 4 + data[i + 2] / 64), Char64(data[i + 2] % 64)];
      assert out + (group + Encode(data[i + 3..])) == out + group + Encode(data[i + 3..]);
      out := out + group;
      i := i + 3;
    }
    if i < |data| {
      var rest := [Char64(data[i] / 4)];
      if i + 1 < |data| {
        rest := rest + [Char64(data[i] % 4 * 16 + data[i + 1] / 16)];
        rest := rest + [Char64(data[i + 1] % 16 * 4)];
      } else {
        rest := rest + [Char64(data[i] % 4 * 16)];
        rest := rest + "=";
      }
      rest := rest + "=";
      assert rest == Encode(data[i..]);
      out := out + rest;
    }
  }

  lemma MulAtLeast(m: int, k: int)
    requires 0 < m && 0 < k
    ensures m <= m * k
  {
  }

  lemma QuotientUnique(m: int, q: int, r: int, q': int, r': int)
    requires 0 <= r < m && 0 <= r' < m && m * q + r == m * q' + r'
    ensures q == q' && r == r'
  {
    assert m * (q - q') == r' - r && m * (q' - q) == r - r';
    if q > q' { MulAtLeast(m, q - q'); }
    if q' > q { MulAtLeast(m, q' - q); }
  }

  lemma DivMod(q: int, r: int, m: int)
    requires 0 <= r < m
    ensures (m * q + r) / m == q && (m * q + r) % m == r
  {
    var x := m * q + r;
    QuotientUnique(m, q, r, x / m, x % m);
  }

  /** Section 4 of RFC 4648: a group is 24 bits cut into four 6-bit digits, most significant first. */
  lemma GroupIsTwentyFourBits(a: Byte, b: Byte, c: Byte)
    ensures var n := a * 65536 + b * 256 + c;
            Group(a, b, c) == [Char64(n / 262144), Char64(n / 4096 % 64), Char64(n / 64 % 64), Char64(n % 64)]
  {
    var n := a * 65536 + b * 256 + c;
    DivMod(a / 4, a % 4 * 65536 + b * 256 + c, 262144);
    assert n == 262144 * (a / 4) + (a % 4 * 65536 + b * 256 + c);
    DivMod(a * 16 + b / 16, b % 16 * 256 + c, 4096);
    assert n == 4096 * (a * 16 + b / 16) + (b % 16 * 256 + c);
    DivMod(a / 4, a % 4 * 16 + b / 16, 64);
    assert a * 16 + b / 16 == 64 * (a / 4) + (a % 4 * 16 + b / 16);
    DivMod(a * 1024 + b * 4 + c / 64, c % 64, 64);
    assert n == 64 * (a * 1024 + b * 4 + c / 64) + c % 64;
    DivMod(a * 16 + b / 16, b % 16 * 4 + c / 64, 64);
    assert a * 1024 + b * 4 + c / 64 == 64 * (a * 16 + b / 16) + (b % 16 * 4 + c / 64);
  }

  predicate Known(c: char) {
    c == '=' || Lookup(c) != -1
  }

  ghost predicate AllKnown(s: string) {
    forall i :: 0 <= i < |s| ==> Known(s[i])
  }

  lemma CharKnown(d: int)
    requires 0 <= d < 64
    ensures Known(Char64(d))
  {
    LookupChar(d);
  }

  lemma QuadKnown(d0: int, d1: int, d2: int, d3: int)
    requires 0 <= d0 < 64 && 0 <= d1 < 64 && 0 <= d2 < 64 && 0 <= d3 < 64
    ensures AllKnown([Char64(d0), Char64(d1), Char64(d2), Char64(d3)])
    ensures AllKnown([Char64(d0), Char64(d1), Char64(d2), '='])
    ensures AllKnown([Char64(d0), Char64(d1), '=', '='])
  {
    CharKnown(d0);
    CharKnown(d1);
    CharKnown(d2);
    CharKnown(d3);
  }

  lemma AllKnownConcat(s: string, t: string)
    requires AllKnown(s) && AllKnown(t)
    ensures AllKnown(s + t)
  {
  }

  lemma {:induction false} EncodeKnown(s: seq<Byte>)
    ensures AllKnown(Encode(s))
  {
    if |s| == 1 {
      QuadKnown(s[0] / 4, s[0] % 4 * 16, 0, 0);
    } else if |s| == 2 {
      QuadKnown(s[0] / 4, s[0] % 4 * 16 + s[1] / 16, s[1] % 16 * 4, 0);
    } else if |s| >= 3 {
      EncodeKnown(s[3..]);
      QuadKnown(s[0] / 4, s[0] % 4 * 16 + s[1] / 16, s[1] % 16 * 4 + s[2] / 64, s[2] % 64);
      AllKnownConcat(Group(s[0], s[1], s[2]), Encode(s[3..]));
    }
  }

  lemma {:induction false} EncodeLength(s: seq<Byte>)
    ensures |Encode(s)| == 4 * ((|s| + 2) / 3)
  {
    if |s| >= 3 {
      EncodeLength(s[3..]);
      assert Encode(s) == Group(s[0], s[1], s[2]) + Encode(s[3..]);
      assert |s| + 2 == |s[3..]| + 2 + 3;
    }
  }

  // ---------------------------------------------------------------- decoding

  /** Two's complement truncation to 32 bits. */
  function Wrap32(x: int): int {
    (x + TWO_31) % TWO_32 - TWO_31
  }

  function Prepend(b: Byte, d: Decoded): Decoded {
    match d
    case Bytes(bytes) => Bytes([b] + bytes)
    case _ => d
  }

  /** The accumulator after one more digit: a 32-bit shift left by six that drops the high bits. */
  function Shifted(val: int, d: int): int {
    Wrap32(val * 64) + d
  }

  /** The eight bits above position `valb` of the accumulator. */
  function TopByte(val: int, valb: int): Byte {
    if valb == 5 then val / 32 % 256
    else if valb == 4 then val / 16 % 256
    else if valb == 3 then val / 8 % 256
    else if valb == 2 then val / 4 % 256
    else if valb == 1 then val / 2 % 256
    else val % 256
  }

  /** The loop of base64_decode from a given accumulator on. */
  function DecodeFrom(s: string, val: int, valb: int): Decoded
    requires -8 <= valb < 0
  {
    if s == "" || s[0] == '=' then Bytes([])
    else if Lookup(s[0]) == -1 then InvalidChar
    else
      var val' := Shifted(val, Lookup(s[0]));
      if valb + 6 >= 0
      then Prepend(TopByte(val', valb + 6), DecodeFrom(s[1..], val', valb - 2))
      else DecodeFrom(s[1..], val', valb + 6)
  }

  function Decode(data: string): Decoded {
    if data == "" then Bytes([])
    else if |data| % 4 != 0 then InvalidLength
    else DecodeFrom(data, 0, -8)
  }

  method Base64Decode(data: string) returns (r: Decoded)
    ensures r == Decode(data)
  {
    if data == "" { return Bytes([]); }
    if |data| % 4 != 0 { return InvalidLength; }
    var out: seq<Byte> := [];
    var val, valb := 0, -8;
    var i := 0;
    while i < |data|
      invariant 0 <= i <= |data| && -8 <= valb < 0
      invariant After(out, DecodeFrom(data[i..], val, valb)) == DecodeFrom(data, 0, -8)
    {
      assert data[i..][1..] == data[i + 1..];
      if data[i] == '=' { break; }
      if Lookup(data[i]) == -1 { return InvalidChar; }
      val := Shifted(val, Lookup(data[i]));
      valb := valb + 6;
      if valb >= 0 {
        AfterPrepend(out, TopByte(val, valb), DecodeFrom(data[i + 1..], val, valb - 8));
        out := out + [TopByte(val, valb)];
        valb := valb - 8;
      }
      i := i + 1;
    }
    return Bytes(out);
  }

  /** Bytes already put out, before what is still to come. */
  function After(out: seq<Byte>, d: Decoded): Decoded {
    match d
    case Bytes(bytes) => Bytes(out + bytes)
    case _ => d
  }

  lemma AfterPrepend(out: seq<Byte>, b: Byte, d: Decoded)
    ensures After(out, Prepend(b, d)) == After(out + [b], d)
  {
    match d
    case Bytes(bytes) => assert out + ([b] + bytes) == out + [b] + bytes;
    case _ =>
  }

  // ---------------------------------------------------------------- the round trip

  lemma WrapDrops(x: int) returns (k: int)
    ensures Wrap32(x) == x + k * TWO_32
  {
    k := -((x + TWO_31) / TWO_32);
  }

  /** Only the last digit matters for the bits that are still to come out; what fell off the top is a multiple of 4096. */
  lemma LowBits(val: int, d: int) returns (q: int)
    ensures Shifted(val, d) == 4096 * q + 64 * (val % 64) + d
  {
    var k := WrapDrops(val * 64);
    q := val / 64 + k * (TWO_32 / 4096);
  }

  /** The byte completed by digit `d` after digit `p`, by bit position. */
  function ByteFrom(p: int, d: int, valb: int): Byte {
    (if valb == -2 then p * 4 + d / 16 else if valb == -4 then p % 16 * 16 + d / 4 else p % 4 * 64 + d) % 256
  }

  lemma Sixteenths(s: int, q: int, p: int, d: int)
    requires s == 4096 * q + 64 * p + d && 0 <= p < 64 && 0 <= d < 64
    ensures s / 16 % 256 == p * 4 + d / 16 == (p * 4 + d / 16) % 256
  {
    var c, e := d / 16, d % 16;
    var byte := p * 4 + c;
    assert d == 16 * c + e && 0 <= byte < 256;
    var x := q * 256 + byte;
    assert s == x * 16 + e;
    DivMod(x, e, 16);
    DivMod(q, byte, 256);
  }

  lemma Quarters(s: int, q: int, p: int, d: int)
    requires s == 4096 * q + 64 * p + d && 0 <= p < 64 && 0 <= d < 64
    ensures s / 4 % 256 == p % 16 * 16 + d / 4 == (p % 16 * 16 + d / 4) % 256
  {
    var a, b, c, e := p / 16, p % 16, d / 4, d % 4;
    var byte := b * 16 + c;
    assert p == 16 * a + b && d == 4 * c + e && 0 <= byte < 256;
    var x := (4 * q + a) * 256 + byte;
    assert s == x * 4 + e;
    DivMod(x, e, 4);
    DivMod(4 * q + a, byte, 256);
  }

  lemma Ones(s: int, q: int, p: int, d: int)
    requires s == 4096 * q + 64 * p + d && 0 <= p < 64 && 0 <= d < 64
    ensures s % 256 == p % 4 * 64 + d == (p % 4 * 64 + d) % 256
  {
    var a, b := p / 4, p % 4;
    var byte := b * 64 + d;
    assert p == 4 * a + b && 0 <= byte < 256;
    assert s == (16 * q + a) * 256 + byte;
    DivMod(16 * q + a, byte, 256);
  }

  /** Bits that fell off the top of the accumulator never reach an output byte. */
  lemma DigitByte(val: int, d: int, valb: int)
    requires 0 <= d < 64 && (valb == -2 || valb == -4 || valb == -6)
    ensures TopByte(Shifted(val, d), valb + 6) == ByteFrom(val % 64, d, valb)
  {
    var q := LowBits(val, d);
    var s := Shifted(val, d);
    if valb == -2 {
      Sixteenths(s, q, val % 64, d);
    } else if valb == -4 {
      Quarters(s, q, val % 64, d);
    } else {
      Ones(s, q, val % 64, d);
    }
  }

  lemma LastDigit(val: int, d: int)
    requires 0 <= d < 64
    ensures Shifted(val, d) % 64 == d
  {
    var q := LowBits(val, d);
    DivMod(64 * q + val % 64, d, 64);
  }

  /** The decoder's step on a digit. */
  lemma {:induction false} DigitStep(d: int, rest: string, val: int, valb: int)
    requires 0 <= d < 64 && -8 <= valb < 0
    ensures DecodeFrom([Char64(d)] + rest, val, valb) ==
              if valb + 6 >= 0
              then Prepend(TopByte(Shifted(val, d), valb + 6), DecodeFrom(rest, Shifted(val, d), valb - 2))
              else DecodeFrom(rest, Shifted(val, d), valb + 6)
  {
    LookupChar(d);
    assert ([Char64(d)] + rest)[1..] == rest;
  }

  /** One digit of a group: the accumulator is then known by that digit alone. */
  lemma TakeDigit(d: int, rest: string, val: int, valb: int) returns (val': int)
    requires 0 <= d < 64 && (valb == -8 || valb == -2 || valb == -4 || valb == -6)
    ensures val' % 64 == d
    ensures DecodeFrom([Char64(d)] + rest, val, valb) ==
              if valb == -8 then DecodeFrom(rest, val', -2)
              else Prepend(ByteFrom(val % 64, d, valb), DecodeFrom(rest, val', valb - 2))
  {
    val' := Shifted(val, d);
    LastDigit(val, d);
    DigitStep(d, rest, val, valb);
    if valb != -8 { DigitByte(val, d, valb); }
  }

  lemma Quads(a: char, b: char, c: char, d: char, rest: string)
    ensures [a, b] + rest == [a] + ([b] + rest)
    ensures [a, b, c] + rest == [a, b] + ([c] + rest)
    ensures [a, b, c, d] + rest == [a, b, c] + ([d] + rest)
  {
  }

  /** Two digits give one byte, whatever the accumulator held. */
  lemma Decode2(d0: int, d1: int, rest: string, val: int) returns (val': int)
    requires 0 <= d0 < 64 && 0 <= d1 < 64
    ensures val' % 64 == d1
    ensures DecodeFrom([Char64(d0), Char64(d1)] + rest, val, -8) == Prepend(ByteFrom(d0, d1, -2), DecodeFrom(rest, val', -4))
  {
    Quads(Char64(d0), Char64(d1), 'A', 'A', rest);
    var v := TakeDigit(d0, [Char64(d1)] + rest, val, -8);
    val' := TakeDigit(d1, rest, v, -2);
  }

  lemma Decode3(d0: int, d1: int, d2: int, rest: string, val: int) returns (val': int)
    requires 0 <= d0 < 64 && 0 <= d1 < 64 && 0 <= d2 < 64
    ensures val' % 64 == d2
    ensures DecodeFrom([Char64(d0), Char64(d1), Char64(d2)] + rest, val, -8)
         == Prepend(ByteFrom(d0, d1, -2), Prepend(ByteFrom(d1, d2, -4), DecodeFrom(rest, val', -6)))
  {
    Quads(Char64(d0), Char64(d1), Char64(d2), 'A', rest);
    var v := Decode2(d0, d1, [Char64(d2)] + rest, val);
    val' := TakeDigit(d2, rest, v, -4);
  }

  lemma Decode4(d0: int, d1: int, d2: int, d3: int, rest: string, val: int) returns (val': int)
    requires 0 <= d0 < 64 && 0 <= d1 < 64 && 0 <= d2 < 64 && 0 <= d3 < 64
    ensures DecodeFrom([Char64(d0), Char64(d1), Char64(d2), Char64(d3)] + rest, val, -8)
         == Prepend(ByteFrom(d0, d1, -2), Prepend(ByteFrom(d1, d2, -4),
              Prepend(ByteFrom(d2, d3, -6), DecodeFrom(rest, val', -8))))
  {
    Quads(Char64(d0), Char64(d1), Char64(d2), Char64(d3), rest);
    var v := Decode3(d0, d1, d2, [Char64(d3)] + rest, val);
    val' := TakeDigit(d3, rest, v, -6);
  }

  /** A byte cut into two digits, with whatever shares the second one. */
  lemma FirstByte(a: Byte, low: int)
    requires 0 <= low < 16
    ensures ByteFrom(a / 4, a % 4 * 16 + low, -2) == a
  {
    DivMod(a % 4, low, 16);
  }

  lemma SecondByte(high: int, b: Byte, low: int)
    requires 0 <= high < 4 && 0 <= low < 4
    ensures ByteFrom(high * 16 + b / 16, b % 16 * 4 + low, -4) == b
  {
    DivMod(high, b / 16, 16);
    DivMod(b % 16, low, 4);
  }

  lemma ThirdByte(high: int, c: Byte)
    requires 0 <= high < 16
    ensures ByteFrom(high * 4 + c / 64, c % 64, -6) == c
  {
    DivMod(high, c / 64, 4);
  }

  lemma DecodeOne(a: Byte, val: int)
    ensures DecodeFrom(Encode([a]), val, -8) == Bytes([a])
  {
    var _ := Decode2(a / 4, a % 4 * 16, "==", val);
    assert Encode([a]) == [Char64(a / 4), Char64(a % 4 * 16)] + "==";
    FirstByte(a, 0);
  }

  lemma DecodeTwo(a: Byte, b: Byte, val: int)
    ensures DecodeFrom(Encode([a, b]), val, -8) == Bytes([a, b])
  {
    var d0, d1, d2 := a / 4, a % 4 * 16 + b / 16, b % 16 * 4;
    var _ := Decode3(d0, d1, d2, "=", val);
    assert Encode([a, b]) == [Char64(d0), Char64(d1), Char64(d2)] + "=";
    FirstByte(a, b / 16);
    SecondByte(a % 4, b, 0);
  }

  lemma PrependThree(a: Byte, b: Byte, c: Byte, d: Decoded)
    ensures Prepend(a, Prepend(b, Prepend(c, d))) == After([a, b, c], d)
  {
    if d.Bytes? { assert [a] + ([b] + ([c] + d.bytes)) == [a, b, c] + d.bytes; }
  }

  /** A whole group decodes to its three bytes and leaves the bit position where it was. */
  lemma DecodeGroup(a: Byte, b: Byte, c: Byte, rest: string, val: int) returns (val': int)
    ensures DecodeFrom(Group(a, b, c) + rest, val, -8) == After([a, b, c], DecodeFrom(rest, val', -8))
  {
    var d0, d1, d2, d3 := a / 4, a % 4 * 16 + b / 16, b % 16 * 4 + c / 64, c % 64;
    val' := Decode4(d0, d1, d2, d3, rest, val);
    FirstByte(a, b / 16);
    SecondByte(a % 4, b, c / 64);
    ThirdByte(b % 16, c);
    PrependThree(a, b, c, DecodeFrom(rest, val', -8));
  }

  /** From any accumulator, the encoding decodes to the bytes it was made from. */
  lemma {:induction false} DecodeEncodeFrom(s: seq<Byte>, val: int)
    ensures DecodeFrom(Encode(s), val, -8) == Bytes(s)
  {
    if |s| == 1 {
      assert s == [s[0]];
      DecodeOne(s[0], val);
    } else if |s| == 2 {
      assert s == [s[0], s[1]];
      DecodeTwo(s[0], s[1], val);
    } else if |s| >= 3 {
      var val' := DecodeGroup(s[0], s[1], s[2], Encode(s[3..]), val);
      DecodeEncodeFrom(s[3..], val');
      assert s == [s[0], s[1], s[2]] + s[3..];
    }
  }

  /** decode(encode(s)) == s for every byte string. */
  lemma {:induction false} DecodeEncode(s: seq<Byte>)
    ensures Decode(Encode(s)) == Bytes(s)
  {
    EncodeLength(s);
    assert |Encode(s)| % 4 == 0;
    DecodeEncodeFrom(s, 0);
  }

  /** Base64 text never contains the wire separator. */
  lemma {:induction false} EncodeBarFree(s: seq<Byte>)
    ensures forall i :: 0 <= i < |Encode(s)| ==> Encode(s)[i] != '|'
  {
    EncodeKnown(s);
    assert forall i :: 0 <= i < |Encode(s)| ==> Known(Encode(s)[i]);
  }

  // ---------------------------------------------------------------- what is accepted

  /** Where decoding stops: the first padding character, or the end. */
  function PadAt(s: string): (n: nat)
    ensures n <= |s| && (n < |s| ==> s[n] == '=')
  {
    if s == "" || s[0] == '=' then 0 else 1 + PadAt(s[1..])
  }

  lemma {:induction false} DecodeFromAccepts(s: string, val: int, valb: int)
    requires -8 <= valb < 0
    ensures DecodeFrom(s, val, valb).Bytes? <==> forall i :: 0 <= i < PadAt(s) ==> Lookup(s[i]) != -1
    ensures DecodeFrom(s, val, valb).Bytes? ==> |DecodeFrom(s, val, valb).bytes| == (6 * PadAt(s) + valb + 8) / 8
    ensures !DecodeFrom(s, val, valb).Bytes? ==> DecodeFrom(s, val, valb) == InvalidChar
  {
    if s != "" && s[0] != '=' && Lookup(s[0]) != -1 {
      var val' := Shifted(val, Lookup(s[0]));
      var rest := s[1..];
      DecodeFromAccepts(rest, val', if valb + 6 >= 0 then valb - 2 else valb + 6);
      assert PadAt(s) == 1 + PadAt(rest);
      assert forall i :: 0 <= i < PadAt(rest) ==> rest[i] == s[i + 1];
      if forall i :: 0 <= i < PadAt(rest) ==> Lookup(rest[i]) != -1 {
        forall i | 0 <= i < PadAt(s) ensures Lookup(s[i]) != -1 { if i > 0 { assert s[i] == rest[i - 1]; } }
      } else {
        var i :| 0 <= i < PadAt(rest) && Lookup(rest[i]) == -1;
        assert Lookup(s[i + 1]) == -1;
      }
    }
  }

  /** Text is accepted exactly when its length is a multiple of four and nothing before the padding is foreign. */
  lemma {:induction false} DecodeAcceptsIff(data: string)
    ensures Decode(data).Bytes? <==> |data| % 4 == 0 && forall i :: 0 <= i < PadAt(data) ==> Lookup(data[i]) != -1
    ensures Decode(data).Bytes? ==> |Decode(data).bytes| == 3 * PadAt(data) / 4
  {
    DecodeFromAccepts(data, 0, -8);
  }
}
