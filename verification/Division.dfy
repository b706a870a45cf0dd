/** Cyclic redundancy as arithmetic: polynomials over two elements, highest coefficient first, and their
    division by x^16 + x^12 + x^5 + 1. Nothing here knows of shift registers. */
module Division {
  import opened Entities

  type Bits = seq<bool>

  /** Bit i of a text in bytes, most significant bit of each byte first. */
  predicate MessageBit(data: string, i: nat)
    requires i < 8 * |data|
  {
    data[i / 8] as int / [128, 64, 32, 16, 8, 4, 2, 1][i % 8] % 2 == 1
  }

  /** The text times x^16, with its first 16 coefficients complemented. */
  function Dividend(data: string): Bits {
    seq(8 * |data| + 16, i requires 0 <= i < 8 * |data| + 16 => (i < 16) != (i < 8 * |data| && MessageBit(data, i)))
  }

  predicate BitAt(q: Bits, i: int) {
    0 <= i < |q| && q[i]
  }

  /** Coefficient i, from the highest, of q * (x^16 + x^12 + x^5 + 1) + r. */
  predicate Recomposed(q: Bits, r: Bits, i: nat)
    requires |r| == 16 && i < |q| + 16
  {
    ((BitAt(q, i) != BitAt(q, i - 4)) != (BitAt(q, i - 11) != BitAt(q, i - 16))) != (i >= |q| && r[i - |q|])
  }

  /** q is the quotient and r the remainder. */
  predicate IsDivision(d: Bits, q: Bits, r: Bits) {
    |r| == 16 && |d| == |q| + 16 && forall i | 0 <= i < |d| :: d[i] == Recomposed(q, r, i)
  }

  /** There is only one quotient and one remainder. */
  lemma RemainderIsUnique(d: Bits, q: Bits, r: Bits, q': Bits, r': Bits)
    requires IsDivision(d, q, r) && IsDivision(d, q', r')
    ensures q == q' && r == r'
  {
    SameQuotient(d, q, r, q', r', |q|);
    forall k | 0 <= k < 16 ensures r[k] == r'[k] {
      assert d[|q| + k] == Recomposed(q, r, |q| + k) && d[|q| + k] == Recomposed(q', r', |q| + k);
    }
  }

  lemma {:induction false} SameQuotient(d: Bits, q: Bits, r: Bits, q': Bits, r': Bits, n: nat)
    requires IsDivision(d, q, r) && IsDivision(d, q', r') && n <= |q|
    ensures |q| == |q'| && q[..n] == q'[..n]
  {
    if n > 0 {
      SameQuotient(d, q, r, q', r', n - 1);
      var i := n - 1;
      assert forall j | 0 <= j < i :: q[j] == q[..i][j] && q'[j] == q'[..i][j];
      assert d[i] == Recomposed(q, r, i) && d[i] == Recomposed(q', r', i);
      assert q[..n] == q[..i] + [q[i]] && q'[..n] == q'[..i] + [q'[i]];
    }
  }

  // ----- numbers in print

  function Number(bits: Bits): nat {
    if bits == [] then 0 else 2 * Number(bits[..|bits| - 1]) + if bits[|bits| - 1] then 1 else 0
  }

  /** The value of an upper-case hexadecimal digit. */
  function HexValue(c: char): Option<nat> {
    if '0' <= c <= '9' then Some(c as int - '0' as int)
    else if 'A' <= c <= 'F' then Some(10 + c as int - 'A' as int)
    else None
  }

  /** Four upper-case hexadecimal digits print the number. */
  predicate Prints(text: string, n: nat) {
    && |text| == 4 && (forall k | 0 <= k < 4 :: HexValue(text[k]).Some?)
    && n == 4096 * HexValue(text[0]).value + 256 * HexValue(text[1]).value + 16 * HexValue(text[2]).value
            + HexValue(text[3]).value
  }

  /** The checksum prints the remainder of the text. */
  ghost predicate IsChecksumOf(checksum: string, data: string) {
    exists q, r :: IsDivision(Dividend(data), q, r) && Prints(checksum, Number(r))
  }

  /** A text has no second checksum. */
  lemma ChecksumIsUnique(a: string, b: string, data: string)
    requires IsChecksumOf(a, data) && IsChecksumOf(b, data)
    ensures a == b
  {
    var q, r :| IsDivision(Dividend(data), q, r) && Prints(a, Number(r));
    var q', r' :| IsDivision(Dividend(data), q', r') && Prints(b, Number(r'));
    RemainderIsUnique(Dividend(data), q, r, q', r');
    PrintsOnce(a, b, Number(r));
  }

  lemma SameDigits(a: nat, b: nat, c: nat, d: nat, a': nat, b': nat, c': nat, d': nat)
    requires b < 16 && c < 16 && d < 16 && b' < 16 && c' < 16 && d' < 16
    requires 4096 * a + 256 * b + 16 * c + d == 4096 * a' + 256 * b' + 16 * c' + d'
    ensures a == a' && b == b' && c == c' && d == d'
  {
  }

  lemma HexValueInjective(c: char, d: char)
    requires HexValue(c).Some? && HexValue(c) == HexValue(d)
    ensures c == d && HexValue(c).value < 16
  {
  }

  lemma PrintsOnce(a: string, b: string, n: nat)
    requires Prints(a, n) && Prints(b, n)
    ensures a == b
  {
    assert forall k | 0 <= k < 4 :: HexValue(a[k]).value < 16 && HexValue(b[k]).value < 16;
    SameDigits(HexValue(a[0]).value, HexValue(a[1]).value, HexValue(a[2]).value, HexValue(a[3]).value,
               HexValue(b[0]).value, HexValue(b[1]).value, HexValue(b[2]).value, HexValue(b[3]).value);
    hide HexValue;
    forall k | 0 <= k < 4 ensures a[k] == b[k] {
      HexValueInjective(a[k], b[k]);
    }
  }
}
