/** Known answers of the checksum, followed shift by shift. */
module CheckValue {
  import opened Numbers
  import opened Division
  import opened Crc16

  lemma NextBit(n: nat, bit: nat, width: nat)
    requires bit < 2
    ensures ToBits(2 * n + bit, width + 1) == ToBits(n, width) + [bit == 1]
  {
    assert (2 * n + bit) / 2 == n;
  }

  function DigitBits(digit: nat): (r: Bits)
    ensures |r| == 4
  {
    [digit / 8 % 2 == 1, digit / 4 % 2 == 1, digit / 2 % 2 == 1, digit % 2 == 1]
  }

  lemma NextDigit(n: nat, digit: nat, width: nat)
    requires digit < 16
    ensures ToBits(16 * n + digit, width + 4) == ToBits(n, width) + DigitBits(digit)
  {
    hide ToBits;
    NextBit(n, digit / 8, width);
    NextBit(2 * n + digit / 8, digit / 4 % 2, width + 1);
    NextBit(4 * n + digit / 4, digit / 2 % 2, width + 2);
    NextBit(8 * n + digit / 2, digit % 2, width + 3);
  }

  /** The low bits of a number do not depend on the rest of it. */
  lemma {:induction false} LowBits(n: nat, m: nat, width: nat)
    ensures ToBits(n + Power2(width) * m, width) == ToBits(n, width)
  {
    if width > 0 {
      var rest := Power2(width - 1) * m;
      assert Power2(width) * m == 2 * rest;
      LowBits(n / 2, m, width - 1);
      assert (n + 2 * rest) / 2 == n / 2 + rest;
    }
  }

  /** Without its top bit a number has the same other bits. */
  lemma {:induction false} DropTopBit(n: nat, width: nat)
    ensures ToBits(n, width + 1)[1..] == ToBits(n, width)
  {
    if width > 0 {
      DropTopBit(n / 2, width - 1);
    }
  }

  /** n with the bit of that weight changed. */
  function Flip(n: nat, weight: nat): nat
    requires weight > 0
  {
    if n / weight % 2 == 0 then n + weight else if n >= weight then n - weight else 0
  }

  lemma {:induction false} FlipOneBit(n: nat, k: nat, width: nat)
    requires k < width
    ensures forall j | 0 <= j < width ::
              ToBits(Flip(n, Power2(k)), width)[j] == (ToBits(n, width)[j] != (j == width - 1 - k))
  {
    hide Flip;
    if k > 0 {
      FlipOneBit(n / 2, k - 1, width - 1);
      FlipLater(n, Power2(k - 1));
    } else {
      FlipFirst(n);
    }
  }

  lemma FlipLater(n: nat, weight: nat)
    requires weight > 0
    ensures Flip(n, 2 * weight) / 2 == Flip(n / 2, weight) && Flip(n, 2 * weight) % 2 == n % 2
  {
    HalfFirst(n, weight);
  }

  lemma FlipFirst(n: nat)
    ensures Flip(n, 1) / 2 == n / 2 && (Flip(n, 1) % 2 == 1 <==> n % 2 != 1)
  {
  }

  /** One shift in numbers. */
  function Shifted(n: nat): nat {
    if n < 0x8000 then 2 * n else Flip(Flip(2 * (n - 0x8000) + 1, 0x20), 0x1000)
  }

  lemma Weights()
    ensures Power2(5) == 0x20 && Power2(12) == 0x1000 && Power2(15) == 0x8000
  {
  }

  lemma ShiftedBits(n: nat)
    requires n < 0x10000
    ensures ToBits(Shifted(n), 16) == ShiftOut(ToBits(n, 16))
  {
    hide ToBits, Power2, Flip;
    Weights();
    ToBitsAt(n, 16, 0);
    DropTopBit(n, 15);
    if n < 0x8000 {
      NextBit(n, 0, 15);
    } else {
      var low := n - 0x8000;
      LowBits(low, 1, 15);
      NextBit(low, 1, 15);
      FlipOneBit(2 * low + 1, 5, 16);
      FlipOneBit(Flip(2 * low + 1, 0x20), 12, 16);
    }
  }

  /** The numbers that the register takes while it is shifted eight times. */
  predicate IsPath(p: seq<nat>) {
    && |p| == 9 && p[0] < 0x10000 && p[1] < 0x10000 && p[2] < 0x10000 && p[3] < 0x10000 && p[4] < 0x10000
    && p[5] < 0x10000 && p[6] < 0x10000 && p[7] < 0x10000
    && p[1] == Shifted(p[0]) && p[2] == Shifted(p[1]) && p[3] == Shifted(p[2]) && p[4] == Shifted(p[3])
    && p[5] == Shifted(p[4]) && p[6] == Shifted(p[5]) && p[7] == Shifted(p[6]) && p[8] == Shifted(p[7])
  }

  lemma PathShifts(p: seq<nat>)
    requires IsPath(p)
    ensures Shift(ToBits(p[0], 16), 8) == ToBits(p[8], 16)
  {
    hide ToBits, ShiftOut, Shifted;
    forall k | 0 <= k < 8 ensures ToBits(p[k + 1], 16) == ShiftOut(ToBits(p[k], 16)) {
      ShiftedBits(p[k]);
    }
    ShiftAlong(p, 8);
  }

  lemma {:induction false} ShiftAlong(p: seq<nat>, n: nat)
    requires n < |p| && forall k | 0 <= k < n :: ToBits(p[k + 1], 16) == ShiftOut(ToBits(p[k], 16))
    ensures Shift(ToBits(p[0], 16), n) == ToBits(p[n], 16)
  {
    hide ToBits, ShiftOut;
    if n > 0 {
      ShiftAlong(p, n - 1);
    }
  }

  /** One digit of an exclusive or. */
  predicate IsXor(a: nat, b: nat, c: nat) {
    && a < 16 && b < 16 && c < 16
    && (c / 8 == 1 <==> a / 8 != b / 8) && (c / 4 % 2 == 1 <==> a / 4 % 2 != b / 4 % 2)
    && (c / 2 % 2 == 1 <==> a / 2 % 2 != b / 2 % 2) && (c % 2 == 1 <==> a % 2 != b % 2)
  }

  /** The 16-bit number of four digits. */
  function Word(a: nat, b: nat, c: nat, d: nat): nat {
    0x1000 * a + 0x100 * b + 0x10 * c + d
  }

  lemma WordBits(a: nat, b: nat, c: nat, d: nat)
    requires a < 16 && b < 16 && c < 16 && d < 16
    ensures ToBits(Word(a, b, c, d), 16) == DigitBits(a) + DigitBits(b) + DigitBits(c) + DigitBits(d)
  {
    hide ToBits, DigitBits;
    NoBits();
    NextDigit(0, a, 0);
    NextDigit(a, b, 4);
    NextDigit(16 * a + b, c, 8);
    NextDigit(0x100 * a + 0x10 * b + c, d, 12);
  }

  /** A character of the digits x and y, fed to the register abcd and followed along the numbers of its path. */
  lemma Fed(a: nat, b: nat, c: nat, d: nat, x: nat, y: nat, a': nat, b': nat, p: seq<nat>)
    requires c < 16 && d < 16 && IsXor(a, x, a') && IsXor(b, y, b')
    requires |p| == 9 && IsPath(p) && p[0] == Word(a', b', c, d)
    ensures Feed(ToBits(Word(a, b, c, d), 16), (16 * x + y) as char) == ToBits(p[8], 16)
  {
    hide ToBits, Shift, IsPath, IsXor, Word;
    IsXorDigits(a, x, a');
    IsXorDigits(b, y, b');
    Loaded(a, b, c, d, x, y, a', b');
    PathShifts(p);
  }

  lemma IsXorDigits(a: nat, b: nat, c: nat)
    requires IsXor(a, b, c)
    ensures a < 16 && b < 16 && c < 16
  {
  }

  lemma Loaded(a: nat, b: nat, c: nat, d: nat, x: nat, y: nat, a': nat, b': nat)
    requires c < 16 && d < 16 && IsXor(a, x, a') && IsXor(b, y, b')
    ensures Xor(ToBits(Word(a, b, c, d), 16), ToBits(16 * x + y, 8) + ZEROS8) == ToBits(Word(a', b', c, d), 16)
  {
    hide ToBits, DigitBits, Xor, IsXor, Word;
    IsXorDigits(a, x, a');
    IsXorDigits(b, y, b');
    WordBits(a, b, c, d);
    WordBits(a', b', c, d);
    NoBits();
    NextDigit(0, x, 0);
    NextDigit(x, y, 4);
    XorDigit(a, x, a');
    XorDigit(b, y, b');
    var low := DigitBits(c) + DigitBits(d);
    XorTop(DigitBits(a), DigitBits(b), low, DigitBits(x), DigitBits(y));
    assert DigitBits(a) + DigitBits(b) + low == DigitBits(a) + DigitBits(b) + DigitBits(c) + DigitBits(d);
    assert DigitBits(a') + DigitBits(b') + low == DigitBits(a') + DigitBits(b') + DigitBits(c) + DigitBits(d);
    assert [] + DigitBits(x) + DigitBits(y) == DigitBits(x) + DigitBits(y);
  }

  lemma XorDigit(a: nat, b: nat, c: nat)
    requires IsXor(a, b, c)
    ensures Xor(DigitBits(a), DigitBits(b)) == DigitBits(c)
  {
  }

  lemma XorTop(a: Bits, b: Bits, low: Bits, x: Bits, y: Bits)
    requires |a| == |b| == |x| == |y| == 4 && |low| == 8
    ensures Xor(a + b + low, x + y + ZEROS8) == Xor(a, x) + Xor(b, y) + low
  {
  }

  lemma NoBits()
    ensures ToBits(0, 0) == []
  {
  }

  lemma FeedOn(data: string, c: char)
    ensures Register(INITIAL, data + [c]) == Feed(Register(INITIAL, data), c)
  {
    assert (data + [c])[..|data|] == data;
  }

  /** The checksum of nothing, and the check value that the catalogues of such checksums give. */
  lemma KnownAnswers()
    ensures Checksum("") == "FFFF" && Checksum("123456789") == "29B1"
  {
    hide Register, ToBits, Feed, DigitBits, Hex4;
    NothingFed();
    KnownRegister();
    FirstRegister();
    WordBits(15, 15, 15, 15);
    WordBits(2, 9, 11, 1);
    Hex4OfDigits(15, 15, 15, 15);
    Hex4OfDigits(2, 9, 11, 1);
  }

  lemma FirstRegister()
    ensures ToBits(0xFFFF, 16) == INITIAL
  {
    hide ToBits;
    var n := Word(15, 15, 15, 15);
    WordBits(15, 15, 15, 15);
    assert n == 0xFFFF && DigitBits(15) == [true, true, true, true];
    assert DigitBits(15) + DigitBits(15) + DigitBits(15) + DigitBits(15) == INITIAL;
    assert ToBits(n, 16) == INITIAL;
  }

  lemma Hex4OfDigits(a: nat, b: nat, c: nat, d: nat)
    requires a < 16 && b < 16 && c < 16 && d < 16
    ensures var digits := "0123456789ABCDEF";
            Hex4(DigitBits(a) + DigitBits(b) + DigitBits(c) + DigitBits(d))
            == [digits[a], digits[b], digits[c], digits[d]]
  {
    hide HexDigit;
    var word := DigitBits(a) + DigitBits(b) + DigitBits(c) + DigitBits(d);
    HexOfDigit(word, 0, a);
    HexOfDigit(word, 1, b);
    HexOfDigit(word, 2, c);
    HexOfDigit(word, 3, d);
  }

  lemma HexOfDigit(word: Bits, k: nat, digit: nat)
    requires |word| == 16 && k < 4 && digit < 16
    requires word[4 * k] == DigitBits(digit)[0] && word[4 * k + 1] == DigitBits(digit)[1]
    requires word[4 * k + 2] == DigitBits(digit)[2] && word[4 * k + 3] == DigitBits(digit)[3]
    ensures HexDigit(word, k) == "0123456789ABCDEF"[digit]
  {
    assert digit == 8 * (digit / 8 % 2) + 4 * (digit / 4 % 2) + 2 * (digit / 2 % 2) + digit % 2;
  }

  lemma NothingFed()
    ensures Register(INITIAL, "") == INITIAL
  {
  }

  lemma KnownRegister()
    ensures Register(INITIAL, "123456789") == ToBits(0x29B1, 16)
  {
    hide Register, ToBits, Feed, IsPath, IsXor;
    FirstThree();
    NextThree();
    LastThree();
    NothingFed();
    FirstRegister();
    FeedOn("", '1');
    FeedOn("1", '2');
    FeedOn("12", '3');
    FeedOn("123", '4');
    FeedOn("1234", '5');
    FeedOn("12345", '6');
    FeedOn("123456", '7');
    FeedOn("1234567", '8');
    FeedOn("12345678", '9');
    assert "" + ['1'] == "1" && "1" + ['2'] == "12" && "12" + ['3'] == "123" && "123" + ['4'] == "1234";
    assert "1234" + ['5'] == "12345" && "12345" + ['6'] == "123456" && "123456" + ['7'] == "1234567";
    assert "1234567" + ['8'] == "12345678" && "12345678" + ['9'] == "123456789";
  }

  lemma FirstThree()
    ensures Feed(ToBits(0xFFFF, 16), '1') == ToBits(0xC782, 16)
    ensures Feed(ToBits(0xC782, 16), '2') == ToBits(0x3DBA, 16)
    ensures Feed(ToBits(0x3DBA, 16), '3') == ToBits(0x5BCE, 16)
  {
    hide Feed, ToBits;
    Fed(15, 15, 15, 15, 3, 1, 12, 14, [0xCEFF, 0x8DDF, 0x0B9F, 0x173E, 0x2E7C, 0x5CF8, 0xB9F0, 0x63C1, 0xC782]);
    Fed(12, 7, 8, 2, 3, 2, 15, 5, [0xF582, 0xFB25, 0xE66B, 0xDCF7, 0xA9CF, 0x43BF, 0x877E, 0x1EDD, 0x3DBA]);
    Fed(3, 13, 11, 10, 3, 3, 0, 14, [0x0EBA, 0x1D74, 0x3AE8, 0x75D0, 0xEBA0, 0xC761, 0x9EE3, 0x2DE7, 0x5BCE]);
  }

  lemma NextThree()
    ensures Feed(ToBits(0x5BCE, 16), '4') == ToBits(0x5349, 16)
    ensures Feed(ToBits(0x5349, 16), '5') == ToBits(0x4560, 16)
    ensures Feed(ToBits(0x4560, 16), '6') == ToBits(0x2EF4, 16)
  {
    hide Feed, ToBits;
    Fed(5, 11, 12, 14, 3, 4, 6, 15, [0x6FCE, 0xDF9C, 0xAF19, 0x4E13, 0x9C26, 0x286D, 0x50DA, 0xA1B4, 0x5349]);
    Fed(5, 3, 4, 9, 3, 5, 6, 6, [0x6649, 0xCC92, 0x8905, 0x022B, 0x0456, 0x08AC, 0x1158, 0x22B0, 0x4560]);
    Fed(4, 5, 6, 0, 3, 6, 7, 3, [0x7360, 0xE6C0, 0xDDA1, 0xAB63, 0x46E7, 0x8DCE, 0x0BBD, 0x177A, 0x2EF4]);
  }

  lemma LastThree()
    ensures Feed(ToBits(0x2EF4, 16), '7') == ToBits(0x7718, 16)
    ensures Feed(ToBits(0x7718, 16), '8') == ToBits(0xA12B, 16)
    ensures Feed(ToBits(0xA12B, 16), '9') == ToBits(0x29B1, 16)
  {
    hide Feed, ToBits;
    Fed(2, 14, 15, 4, 3, 7, 1, 9, [0x19F4, 0x33E8, 0x67D0, 0xCFA0, 0x8F61, 0x0EE3, 0x1DC6, 0x3B8C, 0x7718]);
    Fed(7, 7, 1, 8, 3, 8, 4, 15, [0x4F18, 0x9E30, 0x2C41, 0x5882, 0xB104, 0x7229, 0xE452, 0xD885, 0xA12B]);
    Fed(10, 1, 2, 11, 3, 9, 9, 8, [0x982B, 0x2077, 0x40EE, 0x81DC, 0x1399, 0x2732, 0x4E64, 0x9CC8, 0x29B1]);
  }
}
