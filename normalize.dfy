/**
 * The value normaliser of the plant-pot screen: the raw water-level reading
 * turned into a display percentage, and a touch position on the light slider
 * turned into an intensity percentage, optionally snapped to steps of 5.
 *
 * JavaScript's Math.round(q) is floor(q + 1/2) ("round half up", ties towards
 * +infinity). Every rounding in the screen divides an integer by a positive
 * integer constant, so it is modelled exactly by RoundHalfUp below.
 */
module Normalize {

  /** Full scale of the water-level sensor's analogue-to-digital converter. */
  const AdcMax: int := 1023

  /** Width of the slider track in pixels, fixed in the screen's code. */
  const SliderWidth: int := 300

  /** Step that "On" mode snaps the slider to. */
  const SnapStep: int := 5

  // ---------------------------------------------------------------------------
  // Rounding

  /** Math.round(n / d): the integer nearest to n / d, halves rounded up. */
  function RoundHalfUp(n: int, d: int): (r: int)
    requires d > 0
    ensures d * (2 * r - 1) <= 2 * n < d * (2 * r + 1)
  {
    var q := (2 * n + d) / (2 * d);
    var m := (2 * n + d) % (2 * d);
    assert 2 * n + d == 2 * d * q + m && 0 <= m < 2 * d;
    q
  }

  /** d * a < d * b with d > 0 cancels to a < b. */
  lemma MulLessCancel(d: int, a: int, b: int)
    requires d > 0 && d * a < d * b
    ensures a < b
  {
  }

  /** The characterisation in RoundHalfUp's contract pins its result down. */
  lemma RoundHalfUpUnique(n: int, d: int, k: int)
    requires d > 0
    requires d * (2 * k - 1) <= 2 * n < d * (2 * k + 1)
    ensures k == RoundHalfUp(n, d)
  {
    var r := RoundHalfUp(n, d);
    MulLessCancel(d, 2 * k - 1, 2 * r + 1);
    MulLessCancel(d, 2 * r - 1, 2 * k + 1);
  }

  /** Rounding a larger quotient never gives a smaller integer. */
  lemma RoundHalfUpMonotone(n1: int, n2: int, d: int)
    requires d > 0 && n1 <= n2
    ensures RoundHalfUp(n1, d) <= RoundHalfUp(n2, d)
  {
  }

  // ---------------------------------------------------------------------------
  // Water level

  /** normalizeWaterLevel: Math.round(raw / 1023 * 100). Out-of-range raw is not clamped. */
  function NormalizeWaterLevel(raw: int): (percent: int)
    ensures AdcMax * (2 * percent - 1) <= 200 * raw < AdcMax * (2 * percent + 1)
    ensures 0 <= raw <= AdcMax ==> 0 <= percent <= 100
  {
    RoundHalfUp(100 * raw, AdcMax)
  }

  lemma NormalizeWaterLevelExamples()
    ensures NormalizeWaterLevel(0) == 0
    ensures NormalizeWaterLevel(512) == 50
    ensures NormalizeWaterLevel(767) == 75
    ensures NormalizeWaterLevel(AdcMax) == 100
  {
  }

  /** A higher raw reading never shows a lower percentage. */
  lemma NormalizeWaterLevelMonotone(raw1: int, raw2: int)
    requires raw1 <= raw2
    ensures NormalizeWaterLevel(raw1) <= NormalizeWaterLevel(raw2)
  {
  }

  /** Readings outside 0..1023 reach the display unclamped. */
  lemma NormalizeWaterLevelNotClamped()
    ensures NormalizeWaterLevel(2 * AdcMax) == 200
    ensures NormalizeWaterLevel(-AdcMax) == -100
  {
  }

  // ---------------------------------------------------------------------------
  // Slider gesture

  /** Math.max(0, Math.min(100, v)). */
  function ClampPercent(v: int): (r: int)
    ensures 0 <= r <= 100
    ensures 0 <= v <= 100 ==> r == v
    ensures v < 0 ==> r == 0
    ensures v > 100 ==> r == 100
  {
    if v < 0 then 0 else if v > 100 then 100 else v
  }

  /** The unsnapped slider value for a touch at pixel offset x on the 300-px track. */
  function SliderPercent(x: int): (r: int)
    ensures 0 <= r <= 100
    ensures 0 <= x <= SliderWidth ==> 3 * (2 * r - 1) <= 2 * x < 3 * (2 * r + 1)
    ensures x < 0 ==> r == 0
    ensures x > SliderWidth ==> r == 100
  {
    ClampPercent(RoundHalfUp(100 * x, SliderWidth))
  }

  /** Math.round(v / 5) * 5: the multiple of 5 nearest to v. */
  function SnapToFive(v: int): (r: int)
    ensures r % SnapStep == 0
    ensures -2 <= r - v <= 2
    ensures 0 <= v <= 100 ==> 0 <= r <= 100
  {
    RoundHalfUp(v, SnapStep) * SnapStep
  }

  /** The value handlePress computes for a touch at x with the given light mode. */
  function Quantize(x: int, lightMode: string): (r: int)
    ensures 0 <= r <= 100
    ensures lightMode == "On" ==> r % SnapStep == 0 && -2 <= r - SliderPercent(x) <= 2
    ensures lightMode != "On" ==> r == SliderPercent(x)
  {
    var v := SliderPercent(x);
    if lightMode == "On" then SnapToFive(v) else v
  }

  /** SnapToFive is exact on values that are already a multiple of 5. */
  lemma SnapToFiveIdempotent(v: int)
    ensures SnapToFive(SnapToFive(v)) == SnapToFive(v)
  {
    var r := SnapToFive(v);
    RoundHalfUpUnique(r, SnapStep, r / SnapStep);
  }
}
