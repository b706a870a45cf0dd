/** CRC-16/CCITT-FALSE as four upper-case hexadecimal digits: data object "63" of the EMV QR Code
    Specification for Payment Systems, Merchant-Presented Mode. The 16-bit register is the sequence of
    its bits, most significant first. */
module Crc16 {
  import opened Numbers
  import opened Division
  import opened Entities

  const ZEROS8: Bits := [false, false, false, false, false, false, false, false]
  const ONES8: Bits := [true, true, true, true, true, true, true, true]
  const INITIAL: Bits := ONES8 + ONES8  // 0xFFFF
  const POLYNOMIAL: Bits :=  // 0x1021
    [false, false, false, true, false, false, false, false, false, false, true, false, false, false, false, true]

  /** Python's str.encode("ascii") raises for any other character. */
  predicate IsAscii(data: string) {
    forall i | 0 <= i < |data| :: data[i] < 128 as char
  }

  function Xor(a: Bits, b: Bits): (r: Bits)
    requires |a| == |b|
    ensures |r| == |a|
  {
    seq(|a|, i requires 0 <= i < |a| => a[i] != b[i])
  }

  /** The `width` low bits of a number. */
  function ToBits(n: nat, width: nat): (r: Bits)
    ensures |r| == width
  {
    if width == 0 then [] else ToBits(n / 2, width - 1) + [n % 2 == 1]
  }

  /** (crc << 1) ^ 0x1021 if the top bit is set, crc << 1 otherwise, kept to 16 bits. */
  function ShiftOut(crc: Bits): (r: Bits)
    requires |crc| == 16
    ensures |r| == 16
  {
    var shifted := crc[1..] + [false];
    if crc[0] then Xor(shifted, POLYNOMIAL) else shifted
  }

  function Shift(crc: Bits, times: nat): (r: Bits)
    requires |crc| == 16
    ensures |r| == 16
  {
    if times == 0 then crc else ShiftOut(Shift(crc, times - 1))
  }

  /** crc ^ (byte << 8) followed by eight shifts. */
  function Feed(crc: Bits, c: char): (r: Bits)
    requires |crc| == 16
    ensures |r| == 16
  {
    Shift(Xor(crc, ToBits(c as int, 8) + ZEROS8), 8)
  }

  /** The register after the characters of `data`, starting from `crc`. */
  function Register(crc: Bits, data: string): (r: Bits)
    requires |crc| == 16
    ensures |r| == 16
  {
    if data == [] then crc
    else Feed(Register(crc, data[..|data| - 1]), data[|data| - 1])
  }

  function Bit(b: bool): nat {
    if b then 1 else 0
  }

  /** The digit of the four bits from 4 * k on. */
  function HexDigit(crc: Bits, k: nat): char
    requires |crc| == 16 && k < 4
  {
    "0123456789ABCDEF"[8 * Bit(crc[4 * k]) + 4 * Bit(crc[4 * k + 1]) + 2 * Bit(crc[4 * k + 2]) + Bit(crc[4 * k + 3])]
  }

  function Hex4(crc: Bits): (r: string)
    requires |crc| == 16
    ensures |r| == 4
  {
    [HexDigit(crc, 0), HexDigit(crc, 1), HexDigit(crc, 2), HexDigit(crc, 3)]
  }

  function Checksum(data: string): (r: string)
    ensures |r| == 4
  {
    Hex4(Register(INITIAL, data))
  }

  /** One round for each character, and in it one shift for each bit. */
  method ComputeChecksum(data: string) returns (checksum: string)
    ensures checksum == Checksum(data) && IsChecksumOf(checksum, data)
  {
    var crc := INITIAL;
    for i := 0 to |data|
      invariant |crc| == 16
      invariant crc == Register(INITIAL, data[..i])
    {
      crc := Xor(crc, ToBits(data[i] as int, 8) + ZEROS8);
      ghost var loaded := crc;
      for bit := 0 to 8
        invariant |crc| == 16
        invariant crc == Shift(loaded, bit)
      {
        crc := if crc[0] then Xor(crc[1..] + [false], POLYNOMIAL) else crc[1..] + [false];
      }
      assert data[..i + 1][..i] == data[..i];
    }
    assert data[..|data|] == data;
    checksum := Hex4(crc);
    RegisterDivides(data);
  }

  // ----- the register holds the remainder of what was shifted in

  /** One shift brings down the next coefficient of the dividend. */
  lemma BringDown(d: Bits, q: Bits, r: Bits)
    requires IsDivision(d, q, r)
    ensures IsDivision(d + [false], q + [r[0]], ShiftOut(r))
  {
    var d', q', r' := d + [false], q + [r[0]], ShiftOut(r);
    forall i | 0 <= i < |d'| ensures d'[i] == Recomposed(q', r', i) {
      NextCoefficient(d, q, r, i);
    }
  }

  lemma NextCoefficient(d: Bits, q: Bits, r: Bits, i: nat)
    requires IsDivision(d, q, r) && i <= |d|
    ensures (d + [false])[i] == Recomposed(q + [r[0]], ShiftOut(r), i)
  {
    var n, shifted := |q|, r[1..] + [false];
    assert forall j: int :: BitAt(q + [r[0]], j) == if j == n then r[0] else BitAt(q, j);
    if i > n {
      var k := i - n - 1;
      assert ShiftOut(r)[k] == (shifted[k] != (r[0] && POLYNOMIAL[k]));
      assert POLYNOMIAL[k] == (k in {3, 10, 15});
      assert shifted[k] == (k < 15 && r[k + 1]);
    }
    if i < |d| {
      assert d[i] == Recomposed(q, r, i);
    }
  }

  lemma {:induction false} BringDownMany(d: Bits, q: Bits, r: Bits, zeros: Bits) returns (q': Bits)
    requires IsDivision(d, q, r) && |r| == 16 && forall k | 0 <= k < |zeros| :: !zeros[k]
    ensures IsDivision(d + zeros, q', Shift(r, |zeros|))
  {
    hide IsDivision, ShiftOut;
    if zeros == [] {
      q' := q;
      assert d + zeros == d;
    } else {
      var n := |zeros| - 1;
      var before := BringDownMany(d, q, r, zeros[..n]);
      BringDown(d + zeros[..n], before, Shift(r, n));
      q' := before + [Shift(r, n)[0]];
      assert zeros == zeros[..n] + [false];
      assert d + zeros == (d + zeros[..n]) + [false];
    }
  }

  /** Adding to the last 16 coefficients adds to the remainder. */
  lemma AddToRemainder(d: Bits, q: Bits, r: Bits, mask: Bits)
    requires IsDivision(d, q, r) && |mask| == 16
    ensures IsDivision(d[..|q|] + Xor(d[|q|..], mask), q, Xor(r, mask))
  {
    var d' := d[..|q|] + Xor(d[|q|..], mask);
    forall i | 0 <= i < |d'| ensures d'[i] == Recomposed(q, Xor(r, mask), i) {
      assert d[i] == Recomposed(q, r, i);
    }
  }

  lemma ByteBits(c: char)
    ensures forall k | 0 <= k < 8 ::
              ToBits(c as int, 8)[k] == (c as int / [128, 64, 32, 16, 8, 4, 2, 1][k] % 2 == 1)
  {
    forall k | 0 <= k < 8
      ensures ToBits(c as int, 8)[k] == (c as int / [128, 64, 32, 16, 8, 4, 2, 1][k] % 2 == 1)
    {
      ToBitsAt(c as int, 8, k);
      ByteWeights();
    }
  }

  lemma ByteWeights()
    ensures forall k | 0 <= k < 8 :: Power2(7 - k) == [128, 64, 32, 16, 8, 4, 2, 1][k]
  {
    assert Power2(3) == 8 && Power2(7) == 128;
  }

  lemma {:induction false} ToBitsAt(n: nat, width: nat, k: nat)
    requires k < width
    ensures ToBits(n, width)[k] == (n / Power2(width - 1 - k) % 2 == 1)
  {
    if k < width - 1 {
      ToBitsAt(n / 2, width - 1, k);
      HalfFirst(n, Power2(width - 2 - k));
    }
  }

  lemma HalfFirst(n: nat, p: nat)
    requires p > 0
    ensures n / 2 / p == n / (2 * p)
  {
    var q, r := n / 2 / p, n / 2 % p;
    assert n == q * (2 * p) + (2 * r + n % 2);
    DivisionIs(n, 2 * p, q, 2 * r + n % 2);
  }

  /** The dividend of a longer text. */
  lemma NextByte(data: string, c: char)
    ensures var d, n := Dividend(data), 8 * |data|;
            Dividend(data + [c]) == d[..n] + Xor(d[n..], ToBits(c as int, 8) + ZEROS8) + ZEROS8
  {
    hide ToBits;
    var d, n := Dividend(data), 8 * |data|;
    var longer := d[..n] + Xor(d[n..], ToBits(c as int, 8) + ZEROS8) + ZEROS8;
    ByteBits(c);
    forall i | 0 <= i < n + 24 ensures Dividend(data + [c])[i] == longer[i] {
      if i < n {
        assert i / 8 < |data| && (data + [c])[i / 8] == data[i / 8];
      } else if i < n + 8 {
        assert i / 8 == |data| && i % 8 == i - n;
      }
    }
  }

  lemma {:induction false} RegisterIsRemainder(data: string) returns (q: Bits)
    ensures IsDivision(Dividend(data), q, Register(INITIAL, data))
  {
    hide IsDivision, Dividend, Shift, ToBits;
    if data == [] {
      q := [];
      NothingDivided();
    } else {
      var n := |data| - 1;
      var before, c := data[..n], data[n];
      q := RegisterIsRemainder(before);
      var d, r := Dividend(before), Register(INITIAL, before);
      DivisionSizes(d, q, r);
      assert |Dividend(before)| == 8 * n + 16 by { DividendSize(before); }
      var mask := ToBits(c as int, 8) + ZEROS8;
      AddToRemainder(d, q, r, mask);
      NextByte(before, c);
      assert data == before + [c];
      q := BringDownMany(d[..|q|] + Xor(d[|q|..], mask), q, Xor(r, mask), ZEROS8);
    }
  }

  lemma DividendSize(data: string)
    ensures |Dividend(data)| == 8 * |data| + 16
  {
  }

  lemma DivisionSizes(d: Bits, q: Bits, r: Bits)
    requires IsDivision(d, q, r)
    ensures |d| == |q| + 16 && |r| == 16
  {
  }

  lemma NothingDivided()
    ensures IsDivision(Dividend([]), [], INITIAL)
  {
  }

  lemma HexDigitPrints(crc: Bits, k: nat)
    requires |crc| == 16 && k < 4
    ensures HexValue(HexDigit(crc, k))
         == Some(8 * Bit(crc[4 * k]) + 4 * Bit(crc[4 * k + 1]) + 2 * Bit(crc[4 * k + 2]) + Bit(crc[4 * k + 3]))
  {
    hide HexValue;
    DigitPrints(8 * Bit(crc[4 * k]) + 4 * Bit(crc[4 * k + 1]) + 2 * Bit(crc[4 * k + 2]) + Bit(crc[4 * k + 3]));
  }

  lemma DigitPrints(v: nat)
    requires v < 16
    ensures HexValue("0123456789ABCDEF"[v]) == Some(v)
  {
  }

  lemma NumberNext(bits: Bits, k: nat)
    requires k < |bits|
    ensures Number(bits[..k + 1]) == 2 * Number(bits[..k]) + Bit(bits[k])
  {
    assert bits[..k + 1][..k] == bits[..k];
  }

  lemma NumberGrows(bits: Bits, n: nat)
    requires 4 * n + 4 <= |bits|
    ensures Number(bits[..4 * n + 4])
         == 16 * Number(bits[..4 * n]) + 8 * Bit(bits[4 * n]) + 4 * Bit(bits[4 * n + 1]) + 2 * Bit(bits[4 * n + 2])
            + Bit(bits[4 * n + 3])
  {
    hide Number, Bit;
    NumberNext(bits, 4 * n);
    NumberNext(bits, 4 * n + 1);
    NumberNext(bits, 4 * n + 2);
    NumberNext(bits, 4 * n + 3);
  }

  lemma Hex4Prints(crc: Bits)
    requires |crc| == 16
    ensures Prints(Hex4(crc), Number(crc))
  {
    hide HexDigit, HexValue, Number;
    HexDigitPrints(crc, 0);
    HexDigitPrints(crc, 1);
    HexDigitPrints(crc, 2);
    HexDigitPrints(crc, 3);
    NumberGrows(crc, 0);
    NumberGrows(crc, 1);
    NumberGrows(crc, 2);
    NumberGrows(crc, 3);
    assert crc[..0] == [] && crc[..16] == crc;
    assert Number([]) == 0 by { NumberOfNothing(); }
  }

  lemma NumberOfNothing()
    ensures Number([]) == 0
  {
  }

  /** The checksum prints the remainder. */
  lemma RegisterDivides(data: string)
    ensures IsChecksumOf(Checksum(data), data)
  {
    hide IsDivision, Register, Prints, Number;
    var q := RegisterIsRemainder(data);
    Hex4Prints(Register(INITIAL, data));
  }

  // ----- every step of the register can be undone

  lemma XorInjective(a: Bits, b: Bits, mask: Bits)
    requires |a| == |b| == |mask|
    requires Xor(a, mask) == Xor(b, mask)
    ensures a == b
  {
    forall i | 0 <= i < |a| ensures a[i] == b[i] {
      assert Xor(a, mask)[i] == Xor(b, mask)[i];
    }
  }

  lemma ShiftOutInjective(a: Bits, b: Bits)
    requires |a| == |b| == 16
    requires ShiftOut(a) == ShiftOut(b)
    ensures a == b
  {
    var x, y := a[1..] + [false], b[1..] + [false];
    assert ShiftOut(a)[15] == a[0] && ShiftOut(b)[15] == b[0];
    if a[0] {
      XorInjective(x, y, POLYNOMIAL);
    }
    assert a == [a[0]] + x[..15] && b == [b[0]] + y[..15];
  }

  lemma {:induction false} ShiftInjective(a: Bits, b: Bits, times: nat)
    requires |a| == |b| == 16
    requires Shift(a, times) == Shift(b, times)
    ensures a == b
  {
    if times > 0 {
      ShiftOutInjective(Shift(a, times - 1), Shift(b, times - 1));
      ShiftInjective(a, b, times - 1);
    }
  }

  /** The step of one byte loses nothing of the register. */
  lemma FeedInjective(a: Bits, b: Bits, c: char)
    requires |a| == |b| == 16
    requires Feed(a, c) == Feed(b, c)
    ensures a == b
  {
    var byte := ToBits(c as int, 8) + ZEROS8;
    ShiftInjective(Xor(a, byte), Xor(b, byte), 8);
    XorInjective(a, b, byte);
  }

  lemma {:induction false} RegisterInjective(a: Bits, b: Bits, data: string)
    requires |a| == |b| == 16
    requires Register(a, data) == Register(b, data)
    ensures a == b
  {
    if data != [] {
      var n := |data| - 1;
      FeedInjective(Register(a, data[..n]), Register(b, data[..n]), data[n]);
      RegisterInjective(a, b, data[..n]);
    }
  }

  lemma {:induction false} RegisterConcat(crc: Bits, a: string, b: string)
    requires |crc| == 16
    ensures Register(crc, a + b) == Register(Register(crc, a), b)
  {
    if b == [] {
      assert a + b == a;
    } else {
      assert (a + b)[..|a + b| - 1] == a + b[..|b| - 1];
      RegisterConcat(crc, a, b[..|b| - 1]);
    }
  }

  // ----- two bytes fill the register: fed together they amount to one 16-bit exclusive or

  lemma ShiftOutXor(a: Bits, b: Bits)
    requires |a| == |b| == 16
    ensures ShiftOut(Xor(a, b)) == Xor(ShiftOut(a), ShiftOut(b))
  {
  }

  lemma {:induction false} ShiftXor(a: Bits, b: Bits, times: nat)
    requires |a| == |b| == 16
    ensures Shift(Xor(a, b), times) == Xor(Shift(a, times), Shift(b, times))
  {
    if times > 0 {
      ShiftXor(a, b, times - 1);
      ShiftOutXor(Shift(a, times - 1), Shift(b, times - 1));
    }
  }

  /** While the top bits are clear a shift only moves the bits. */
  lemma {:induction false} ShiftClear(top: Bits, low: Bits, times: nat)
    requires |top| == |low| == 8 && times <= 8 && forall i | 0 <= i < 8 :: !top[i]
    ensures Shift(top + low, times) == top[times..] + low + top[..times]
  {
    if times > 0 {
      ShiftClear(top, low, times - 1);
      var before := top[times - 1..] + low + top[..times - 1];
      assert !before[0] && before[1..] + [false] == top[times..] + low + top[..times];
    } else {
      assert top + low == top[0..] + low + top[..0];
    }
  }

  lemma FeedTwo(crc: Bits, c: char, d: char)
    requires |crc| == 16
    ensures Feed(Feed(crc, c), d) == Shift(Xor(crc, ToBits(c as int, 8) + ToBits(d as int, 8)), 16)
  {
    var p, q := ToBits(c as int, 8), ToBits(d as int, 8);
    var first := Xor(crc, p + ZEROS8);
    ShiftClear(ZEROS8, q, 8);
    assert ZEROS8[8..] + q + ZEROS8[..8] == q + ZEROS8;
    ShiftXor(first, ZEROS8 + q, 8);
    assert Xor(first, ZEROS8 + q) == Xor(crc, p + q);
    ShiftTwice(Xor(crc, p + q), 8, 8);
  }

  lemma {:induction false} ShiftTwice(crc: Bits, m: nat, n: nat)
    requires |crc| == 16
    ensures Shift(Shift(crc, m), n) == Shift(crc, m + n)
  {
    if n > 0 {
      ShiftTwice(crc, m, n - 1);
    }
  }

  lemma {:induction false} ToBitsInjective(m: nat, n: nat, width: nat)
    requires m < Power2(width) && n < Power2(width)
    requires ToBits(m, width) == ToBits(n, width)
    ensures m == n
  {
    if width > 0 {
      var p, q := ToBits(m / 2, width - 1), ToBits(n / 2, width - 1);
      assert ToBits(m, width)[..width - 1] == p && ToBits(n, width)[..width - 1] == q;
      assert ToBits(m, width)[width - 1] == (m % 2 == 1) && ToBits(n, width)[width - 1] == (n % 2 == 1);
      ToBitsInjective(m / 2, n / 2, width - 1);
    }
  }

  /** From one register two different pairs of characters never lead to the same register. */
  lemma FeedTwoInjective(crc: Bits, c: char, d: char, c': char, d': char)
    requires |crc| == 16 && IsAscii([c, d]) && IsAscii([c', d'])
    requires Feed(Feed(crc, c), d) == Feed(Feed(crc, c'), d')
    ensures c == c' && d == d'
  {
    var x, y := ToBits(c as int, 8) + ToBits(d as int, 8), ToBits(c' as int, 8) + ToBits(d' as int, 8);
    FeedTwo(crc, c, d);
    FeedTwo(crc, c', d');
    ShiftInjective(Xor(crc, x), Xor(crc, y), 16);
    assert Xor(crc, x) == Xor(x, crc) && Xor(crc, y) == Xor(y, crc);
    XorInjective(x, y, crc);
    assert x[..8] == y[..8] && x[8..] == y[8..];
    assert [c, d][0] == c && [c, d][1] == d && [c', d'][0] == c' && [c', d'][1] == d';
    assert Power2(8) == 256;
    ToBitsInjective(c as int, c' as int, 8);
    ToBitsInjective(d as int, d' as int, 8);
  }

  lemma HexDigitInjective(a: Bits, b: Bits, k: nat)
    requires |a| == |b| == 16 && k < 4
    requires HexDigit(a, k) == HexDigit(b, k)
    ensures a[4 * k..4 * k + 4] == b[4 * k..4 * k + 4]
  {
  }

  lemma Hex4Injective(a: Bits, b: Bits)
    requires |a| == |b| == 16
    requires Hex4(a) == Hex4(b)
    ensures a == b
  {
    assert forall k | 0 <= k < 4 :: Hex4(a)[k] == HexDigit(a, k) && Hex4(b)[k] == HexDigit(b, k);
    assert a == a[0..4] + a[4..8] + a[8..12] + a[12..16];
    assert b == b[0..4] + b[4..8] + b[8..12] + b[12..16];
    HexDigitInjective(a, b, 0);
    HexDigitInjective(a, b, 1);
    HexDigitInjective(a, b, 2);
    HexDigitInjective(a, b, 3);
  }

  lemma RegisterPair(crc: Bits, c: char, d: char)
    requires |crc| == 16
    ensures Register(crc, [c, d]) == Feed(Feed(crc, c), d)
  {
    RegisterConcat(crc, [c], [d]);
    assert [c] + [d] == [c, d] && [c][..0] == "" && [d][..0] == "";
  }

  /** A change of two neighbouring characters always changes the checksum, however long the text. */
  lemma ChecksumDetectsPair(before: string, c: char, d: char, c': char, d': char, after: string)
    requires IsAscii([c, d]) && IsAscii([c', d'])
    requires [c, d] != [c', d']
    ensures Checksum(before + [c, d] + after) != Checksum(before + [c', d'] + after)
  {
    var crc := Register(INITIAL, before);
    var x, y := Register(crc, [c, d]), Register(crc, [c', d']);
    RegisterConcat(INITIAL, before, [c, d]);
    RegisterConcat(INITIAL, before, [c', d']);
    RegisterConcat(INITIAL, before + [c, d], after);
    RegisterConcat(INITIAL, before + [c', d'], after);
    RegisterPair(crc, c, d);
    RegisterPair(crc, c', d');
    if Checksum(before + [c, d] + after) == Checksum(before + [c', d'] + after) {
      Hex4Injective(Register(x, after), Register(y, after));
      RegisterInjective(x, y, after);
      FeedTwoInjective(crc, c, d, c', d');
      assert false;
    }
  }

  lemma ChecksumDetectsOne(before: string, c: char, c': char, after: string)
    requires IsAscii([c]) && IsAscii([c']) && c != c'
    ensures Checksum(before + [c] + after) != Checksum(before + [c'] + after)
  {
    if Checksum(before + [c] + after) == Checksum(before + [c'] + after) {
      var crc := Register(INITIAL, before);
      RegisterConcat(INITIAL, before, [c]);
      RegisterConcat(INITIAL, before, [c']);
      RegisterConcat(INITIAL, before + [c], after);
      RegisterConcat(INITIAL, before + [c'], after);
      assert [c][..0] == "" && [c'][..0] == "";
      var x, y := Feed(crc, c), Feed(crc, c');
      Hex4Injective(Register(x, after), Register(y, after));
      RegisterInjective(x, y, after);
      assert [c][0] == c && [c'][0] == c';
      FeedTwoInjective(crc, c, 'a', c', 'a');
      assert false;
    }
  }

  // ----- division by x^16 + x^12 + x^5 + 1

  /** The coefficient of x^power in the polynomial that a register stands for. */
  predicate Coefficient(crc: Bits, power: nat)
    requires |crc| == 16 && power < 16
  {
    crc[15 - power]
  }

  /** A shift multiplies the polynomial by x and reduces it modulo x^16 + x^12 + x^5 + 1. */
  lemma DivisionStep(crc: Bits, power: nat)
    requires |crc| == 16 && power < 16
    ensures Coefficient(ShiftOut(crc), power)
         == ((power > 0 && Coefficient(crc, power - 1)) != (Coefficient(crc, 15) && power in {12, 5, 0}))
  {
    var shifted := crc[1..] + [false];
    assert power > 0 ==> shifted[15 - power] == crc[15 - (power - 1)];
    assert POLYNOMIAL[15 - power] == (power in {12, 5, 0});
  }

  /** Feeding back the register's own two bytes, and no other two, leaves nothing: exactly the text
      followed by its own checksum is divisible. */
  lemma ResidueIsZero(crc: Bits, c: char, d: char)
    requires |crc| == 16
    ensures Feed(Feed(crc, c), d) == ZEROS8 + ZEROS8 <==> ToBits(c as int, 8) + ToBits(d as int, 8) == crc
  {
    hide ToBits, Feed, Shift;
    var bytes, zeros := ToBits(c as int, 8) + ToBits(d as int, 8), ZEROS8 + ZEROS8;
    FeedTwo(crc, c, d);
    ShiftClear(ZEROS8, ZEROS8, 8);
    assert ZEROS8[8..] + ZEROS8 + ZEROS8[..8] == zeros;
    ShiftTwice(zeros, 8, 8);
    if bytes == crc {
      assert Xor(crc, bytes) == zeros;
    } else if Feed(Feed(crc, c), d) == zeros {
      ShiftInjective(Xor(crc, bytes), zeros, 16);
      forall i | 0 <= i < 16 ensures bytes[i] == crc[i] {
        assert Xor(crc, bytes)[i] == zeros[i];
      }
      assert false;
    }
  }
}
