/** The 3-to-8 line decoder (an HC237) that powers one sensor or one pump
    at a time. `setDecoder` splits a line number into the three address
    bits wired to digital pins 2, 3 and 4. */
module Decoder {
  import opened Types

  /** The levels written to the decoder's address inputs A0, A1 and A2,
      which are wired to pins 2, 3 and 4 (`d2`, `d3`, `d4`). */
  datatype Levels = Levels(d2: Bit, d3: Bit, d4: Bit)

  /** The output line the decoder selects for the given address levels. */
  function Line(l: Levels): (r: nat)
    ensures r < 8
  {
    l.d4 * 4 + l.d3 * 2 + l.d2
  }

  /** The bit extraction of `setDecoder(val)`: `d4 = (val>>2) & 1`,
      `d3 = (val>>1) & 1`, `d2 = val & 1`. Only the three low bits of `val`
      reach the decoder. On an unsigned value, `x >> k` is `x / 2^k` and
      `x & 1` is `x % 2`. */
  function AddressLevels(val: uint8): (r: Levels)
    ensures Line(r) == val % 8
  {
    LowBitsSplit(val);
    Levels(val % 2, (val / 2) % 2, (val / 4) % 2)
  }

  lemma LowBitsSplit(x: nat)
    ensures x % 8 == (x / 4) % 2 * 4 + (x / 2) % 2 * 2 + x % 2
  {
    var b0, h := x % 2, x / 2;
    var b1, q := h % 2, h / 2;
    var b2, t := q % 2, q / 2;
    DivUnique(x, 4, q, 2 * b1 + b0);
    DivUnique(x, 8, t, 4 * b2 + 2 * b1 + b0);
  }

  /** Division with remainder is unique. */
  lemma DivUnique(x: nat, d: nat, a: nat, b: nat)
    requires 0 < d && x == d * a + b && b < d
    ensures x / d == a && x % d == b
  {
    var a', b' := x / d, x % d;
    if a' < a {
      MulLess(d, a', a);
    } else if a < a' {
      MulLess(d, a, a');
    }
  }

  lemma MulLess(d: nat, a: nat, a': nat)
    requires a < a'
    ensures d * a + d <= d * a'
  {
    var k: nat := a' - a - 1;
    assert d * a' == d * a + d + d * k;
  }

  /** A line number below 8 survives the split unchanged. */
  lemma AddressRoundTrip(val: uint8)
    requires val < 8
    ensures Line(AddressLevels(val)) == val
  {
    DivUnique(val, 8, 0, val);
  }

  /** Distinct line numbers below 8 give distinct address levels, hence
      select distinct decoder outputs. */
  lemma AddressInjective(v1: uint8, v2: uint8)
    requires v1 < 8 && v2 < 8 && v1 != v2
    ensures AddressLevels(v1) != AddressLevels(v2)
  {
    AddressRoundTrip(v1);
    AddressRoundTrip(v2);
  }
}
