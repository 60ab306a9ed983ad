/** The calibration mapper: a raw sensor reading to a moisture percentage,
    and the potentiometer reading to a reference percentage. */
module Calibration {
  import opened Types

  /** Raw reading of a sensor submerged in water: 100% moisture. */
  const WET_MEASUREMENT := 150
  /** Raw reading of a sensor in dry air: 0% moisture. */
  const DRY_MEASUREMENT := 660

  /** The straight line through (dry, 0%) and (wet, 100%), evaluated the way
      the firmware writes it, `measurement * a + b` with
      `a = 100 / (wet - dry)` and `b = -dry * a`, but in exact arithmetic. */
  ghost function LinearPercent(measurement: int): real {
    var a := 100.0 / (WET_MEASUREMENT - DRY_MEASUREMENT) as real;
    var b := -(DRY_MEASUREMENT as real) * a;
    measurement as real * a + b
  }

  /** `max(0, min(99, x))`. */
  ghost function Clamp(x: real): real {
    var upper := if x < 99.0 then x else 99.0;
    if 0.0 > upper then 0.0 else upper
  }

  /** `convertMeasurementToPercent`: the line, saturated to [0, 99] and then
      truncated by the cast to `uint8_t` (see `ConvertFollowsLine`). */
  function ConvertMeasurementToPercent(measurement: uint16): (r: uint8)
    ensures r <= 99
  {
    if measurement >= DRY_MEASUREMENT then 0
    else
      var q := (DRY_MEASUREMENT - measurement) * 100 / (DRY_MEASUREMENT - WET_MEASUREMENT);
      if q > 99 then 99 else q
  }

  /** The percentage is the integer part of the clamped calibration line,
      which pins it down completely. */
  lemma ConvertFollowsLine(measurement: uint16)
    ensures var r := ConvertMeasurementToPercent(measurement);
            r as real <= Clamp(LinearPercent(measurement)) < r as real + 1.0
  {
    if measurement >= DRY_MEASUREMENT {
      LinearAtMostZero(measurement);
    } else {
      var q := (DRY_MEASUREMENT - measurement) * 100 / (DRY_MEASUREMENT - WET_MEASUREMENT);
      LinearBetween(measurement, q);
    }
  }

  lemma LinearIs(measurement: int)
    ensures LinearPercent(measurement) == (DRY_MEASUREMENT - measurement) as real * 100.0 / 510.0
  {
  }

  lemma LinearAtMostZero(measurement: int)
    requires measurement >= DRY_MEASUREMENT
    ensures LinearPercent(measurement) <= 0.0
  {
    LinearIs(measurement);
  }

  lemma LinearBetween(measurement: int, q: int)
    requires measurement < DRY_MEASUREMENT
    requires q == (DRY_MEASUREMENT - measurement) * 100 / (DRY_MEASUREMENT - WET_MEASUREMENT)
    ensures q as real <= LinearPercent(measurement) < q as real + 1.0
  {
    var n := (DRY_MEASUREMENT - measurement) * 100;
    assert q * 510 <= n < q * 510 + 510;
    assert q as real * 510.0 <= n as real < q as real * 510.0 + 510.0;
    LinearIs(measurement);
  }

  /** The dry calibration point maps to 0%, and so does anything drier. */
  lemma DrySaturates(measurement: uint16)
    requires measurement >= DRY_MEASUREMENT
    ensures ConvertMeasurementToPercent(measurement) == 0
  {
  }

  /** The wet calibration point and anything wetter saturate at 99%: 100% is
      never reported. */
  lemma WetSaturates(measurement: uint16)
    requires measurement <= WET_MEASUREMENT
    ensures ConvertMeasurementToPercent(measurement) == 99
  {
  }

  /** The midpoint of the calibration range maps to 50% (exact arithmetic). */
  lemma MidpointIsHalf()
    ensures ConvertMeasurementToPercent((WET_MEASUREMENT + DRY_MEASUREMENT) / 2) == 50
  {
  }

  /** A higher raw reading means a drier sensor: the percentage never
      increases as the reading increases. */
  lemma {:induction false} ConvertAntitone(m1: uint16, m2: uint16)
    requires m1 <= m2
    ensures ConvertMeasurementToPercent(m2) <= ConvertMeasurementToPercent(m1)
  {
  }

  /** The reference percentage, `measurement_ref / 10`, stored in a
      `uint8_t`. It is not clamped. */
  function ReferencePercent(measurementRef: uint16): (r: uint8)
    ensures measurementRef < 2560 ==> r * 10 <= measurementRef < r * 10 + 10
  {
    Trunc8(measurementRef / 10)
  }

  /** Over the converter's whole range the reference reaches 102, above the
      ceiling of 99 that the moisture percentage obeys. */
  lemma ReferenceRange(measurementRef: Adc)
    ensures ReferencePercent(measurementRef) <= 102
    ensures ReferencePercent(1023) == 102
  {
  }
}
