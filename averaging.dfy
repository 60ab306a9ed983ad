/** The sample averager: several readings of the sensor and of the
    potentiometer per channel, summed in `uint16_t` accumulators and divided
    by the sample count. */
module Averaging {
  import opened Types

  /** `NUMBER_OF_MEASUREMENT_SAMPLES`. The firmware asks that it stay below
      64, so that 2^16 / 2^10 keeps the sums from overflowing. */
  const NUMBER_OF_MEASUREMENT_SAMPLES := 4

  /** What `analogRead` returns during one channel's sampling window: the
      sensor pin's readings and the reference pin's readings, in order. */
  datatype Window = Window(sensor: seq<Adc>, reference: seq<Adc>)

  predicate WellFormed(w: Window) {
    |w.sensor| == NUMBER_OF_MEASUREMENT_SAMPLES && |w.reference| == NUMBER_OF_MEASUREMENT_SAMPLES
  }

  /** The exact sum of the readings. */
  function Sum(xs: seq<Adc>): int {
    if xs == [] then 0 else Sum(xs[..|xs| - 1]) + xs[|xs| - 1]
  }

  /** The sum as the firmware accumulates it: `m += analogRead(...)` on a
      `uint16_t`, wrapping modulo 2^16. */
  function Sum16(xs: seq<Adc>): (r: uint16)
    ensures r == Sum(xs) % 0x1_0000
  {
    if xs == [] then 0 else Wrap16(Sum16(xs[..|xs| - 1]) + xs[|xs| - 1])
  }

  function Minimum(xs: seq<Adc>): Adc
    requires xs != []
  {
    if |xs| == 1 then xs[0]
    else var m := Minimum(xs[..|xs| - 1]);
      if xs[|xs| - 1] < m then xs[|xs| - 1] else m
  }

  function Maximum(xs: seq<Adc>): Adc
    requires xs != []
  {
    if |xs| == 1 then xs[0]
    else var m := Maximum(xs[..|xs| - 1]);
      if xs[|xs| - 1] > m then xs[|xs| - 1] else m
  }

  /** The sum of n readings lies between n times the smallest and n times
      the largest of them. */
  lemma {:induction false} SumBetween(xs: seq<Adc>)
    requires xs != []
    ensures |xs| * Minimum(xs) <= Sum(xs) <= |xs| * Maximum(xs)
  {
    if |xs| > 1 {
      var init := xs[..|xs| - 1];
      var n, last := |init|, xs[|xs| - 1];
      SumBetween(init);
      var lo, hi := Minimum(xs), Maximum(xs);
      MulMonotone(n, lo, Minimum(init));
      MulMonotone(n, Maximum(init), hi);
      MulSucc(n, lo);
      MulSucc(n, hi);
    }
  }

  lemma MulMonotone(n: nat, a: int, b: int)
    requires a <= b
    ensures n * a <= n * b
  {
  }

  lemma MulSucc(n: nat, a: int)
    ensures (n + 1) * a == n * a + a
  {
  }

  /** Readings of at most 1023 each add to at most 1023 times their number. */
  lemma {:induction false} SumAtMost(xs: seq<Adc>)
    ensures 0 <= Sum(xs) <= 1023 * |xs|
  {
    if xs != [] {
      SumAtMost(xs[..|xs| - 1]);
    }
  }

  /** With fewer than 64 readings the `uint16_t` accumulator never wraps:
      the firmware's sum is the exact sum. */
  lemma {:induction false} NoOverflow(xs: seq<Adc>)
    requires |xs| < 64
    ensures Sum16(xs) == Sum(xs)
  {
    if xs != [] {
      var init := xs[..|xs| - 1];
      NoOverflow(init);
      SumAtMost(xs);
    }
  }

  /** `m /= NUMBER_OF_MEASUREMENT_SAMPLES` applied to the accumulated sum:
      the average lies between the smallest and the largest reading, so it
      is a converter value again. */
  function Average(xs: seq<Adc>): (r: uint16)
    requires |xs| == NUMBER_OF_MEASUREMENT_SAMPLES
    ensures r == Sum(xs) / NUMBER_OF_MEASUREMENT_SAMPLES
    ensures Minimum(xs) <= r <= Maximum(xs)
  {
    NoOverflow(xs);
    SumBetween(xs);
    Sum16(xs) / NUMBER_OF_MEASUREMENT_SAMPLES
  }

  /** The inner loop of `updateState`: sums the sensor and the reference
      readings of one window into two wrapping 16-bit accumulators. */
  method ReadSamples(w: Window) returns (measurement: uint16, measurementRef: uint16)
    requires WellFormed(w)
    ensures measurement == Sum(w.sensor) && measurementRef == Sum(w.reference)
    ensures measurement == Sum16(w.sensor) && measurementRef == Sum16(w.reference)
  {
    measurement, measurementRef := 0, 0;
    var j := 0;
    while j < NUMBER_OF_MEASUREMENT_SAMPLES
      invariant 0 <= j <= NUMBER_OF_MEASUREMENT_SAMPLES
      invariant measurement == Sum16(w.sensor[..j])
      invariant measurementRef == Sum16(w.reference[..j])
    {
      assert w.sensor[..j + 1][..j] == w.sensor[..j];
      assert w.reference[..j + 1][..j] == w.reference[..j];
      measurement := Wrap16(measurement + w.sensor[j]);
      measurementRef := Wrap16(measurementRef + w.reference[j]);
      j := j + 1;
    }
    assert w.sensor[..j] == w.sensor && w.reference[..j] == w.reference;
    NoOverflow(w.sensor);
    NoOverflow(w.reference);
  }
}
