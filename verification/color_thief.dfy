/** Black/white text colour chosen against a background colour, by a weighted
    brightness estimate of its red, green and blue channels. */
module ColorThief {

  /** The colour names the classifier can answer. */
  const Black: string := "black"
  const White: string := "white"

  /** Per-channel weights, out of 1000, and the brightness threshold. */
  const RedWeight: int := 299
  const GreenWeight: int := 587
  const BlueWeight: int := 114
  const Threshold: int := 128

  /** A colour sample: at least three components, the first three being
      red, green and blue channels in 0..255. */
  predicate IsRgb(color: seq<int>)
  {
    |color| >= 3 && forall i :: 0 <= i < 3 ==> 0 <= color[i] <= 255
  }

  /** The weighted channel sum, before the division by 1000. */
  function WeightedSum(color: seq<int>): (s: int)
    requires IsRgb(color)
    ensures 0 <= s <= 255 * 1000
  {
    color[0] * RedWeight + color[1] * GreenWeight + color[2] * BlueWeight
  }

  /** Brightness of a colour on the 0..255 scale of its channels; the
      division by 1000 is exact here. */
  function Brightness(color: seq<int>): (b: real)
    requires IsRgb(color)
    ensures 0.0 <= b <= 255.0
  {
    WeightedSum(color) as real / 1000.0
  }

  /** The text colour that stays legible over `color`: black over bright
      backgrounds, white over dark ones. */
  function ContrastingColor(color: seq<int>): (r: string)
    requires IsRgb(color)
    ensures r == Black || r == White
  {
    if Brightness(color) > Threshold as real then Black else White
  }

  /** The comparison of the real-valued brightness against 128 is exactly
      the integer comparison of the weighted sum against 128000. */
  lemma BlackIffWeightedSum(color: seq<int>)
    requires IsRgb(color)
    ensures ContrastingColor(color) == Black
        <==> 299 * color[0] + 587 * color[1] + 114 * color[2] > 128000
    ensures ContrastingColor(color) == White
        <==> 299 * color[0] + 587 * color[1] + 114 * color[2] <= 128000
  {
  }

  /** White is black's contrast, and black is white's. */
  lemma Extremes()
    ensures ContrastingColor([255, 255, 255]) == Black
    ensures ContrastingColor([0, 0, 0]) == White
  {
  }

  /** Mid grey has brightness exactly 128, and the comparison is strict. */
  lemma MidGreyIsWhite()
    ensures WeightedSum([128, 128, 128]) == 128000
    ensures Brightness([128, 128, 128]) == 128.0
    ensures ContrastingColor([128, 128, 128]) == White
  {
  }

  /** Raising one channel, the others fixed, never turns a black answer
      into a white one: every weight is positive. */
  lemma Monotone(color: seq<int>, i: int, v: int)
    requires IsRgb(color) && 0 <= i < 3 && color[i] <= v <= 255
    ensures IsRgb(color[i := v])
    ensures ContrastingColor(color) == Black ==> ContrastingColor(color[i := v]) == Black
  {
  }

  /** Only the first three components are read; anything after them is
      ignored. */
  lemma OnlyFirstThree(color: seq<int>, extra: seq<int>)
    requires IsRgb(color)
    ensures IsRgb(color[..3]) && IsRgb(color + extra)
    ensures ContrastingColor(color + extra) == ContrastingColor(color[..3])
  {
  }
}
