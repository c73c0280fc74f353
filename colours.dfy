/**
 * getColorForRatio: a stress ratio (stress / yield strength) becomes an HSL
 * colour whose hue falls linearly from green (142) to yellow (45) over
 * [0, 0.5) and from yellow to red (0) over [0.5, 1], at fixed saturation and
 * lightness. The ratio is not clamped from below: a negative ratio gives a
 * hue above green.
 */
module Colours {

  const GreenHue: real := 142.0
  const YellowHue: real := 45.0
  const RedHue: real := 0.0
  const Saturation: real := 84.0
  const Lightness: real := 55.0

  /** The colour string hsl(hue, 84%, 55%), kept as its three numbers. */
  datatype Colour = Hsl(hue: real, saturation: real, lightness: real)

  /** The branch taken for ratio < 0.5. */
  function GreenToYellow(ratio: real): real
  {
    var subRatio := ratio / 0.5;
    GreenHue - (subRatio * (GreenHue - YellowHue))
  }

  /** The branch taken for ratio >= 0.5. */
  function YellowToRed(ratio: real): real
  {
    var subRatio := (ratio - 0.5) / 0.5;
    YellowHue - (subRatio * YellowHue)
  }

  function Hue(ratio: real): (h: real)
    ensures ratio < 0.5 ==> YellowHue < h
    ensures 0.5 <= ratio ==> h <= YellowHue
    ensures 0.0 <= ratio <= 1.0 ==> RedHue <= h <= GreenHue
    ensures ratio <= 1.0 ==> RedHue <= h
    ensures ratio < 0.0 ==> GreenHue < h
  {
    if ratio < 0.5 then GreenToYellow(ratio) else YellowToRed(ratio)
  }

  function ColourForRatio(ratio: real): (c: Colour)
    ensures c.saturation == Saturation && c.lightness == Lightness
    ensures 0.0 <= ratio <= 1.0 ==> RedHue <= c.hue <= GreenHue
    ensures ratio < 0.5 <==> YellowHue < c.hue
  {
    Hsl(Hue(ratio), Saturation, Lightness)
  }

  /** The three anchors: green at 0, yellow at 0.5, red at 1. */
  lemma HueAnchors()
    ensures Hue(0.0) == GreenHue
    ensures Hue(0.5) == YellowHue
    ensures Hue(1.0) == RedHue
  {
  }

  /** The two branches meet at 0.5, both giving yellow, so the ramp has no jump there. */
  lemma BranchesMeet()
    ensures GreenToYellow(0.5) == YellowHue
    ensures YellowToRed(0.5) == YellowHue
  {
  }

  /** Each branch is an affine function of the ratio. */
  lemma BranchesAffine(a: real, b: real, t: real)
    ensures GreenToYellow(a + t * (b - a)) == GreenToYellow(a) + t * (GreenToYellow(b) - GreenToYellow(a))
    ensures YellowToRed(a + t * (b - a)) == YellowToRed(a) + t * (YellowToRed(b) - YellowToRed(a))
  {
    assert GreenToYellow(b) - GreenToYellow(a) == -194.0 * (b - a);
    assert YellowToRed(b) - YellowToRed(a) == -90.0 * (b - a);
    assert GreenToYellow(a + t * (b - a)) == GreenToYellow(a) - 194.0 * (t * (b - a));
    assert YellowToRed(a + t * (b - a)) == YellowToRed(a) - 90.0 * (t * (b - a));
  }

  /** The hue strictly decreases as the ratio grows, across both branches. */
  lemma HueStrictlyDecreasing(a: real, b: real)
    requires a < b
    ensures Hue(b) < Hue(a)
  {
  }

  function Abs(x: real): real
  {
    if x < 0.0 then -x else x
  }

  /** The hue never changes faster than 194 degrees per unit of ratio, so it is continuous everywhere. */
  lemma HueLipschitz(a: real, b: real)
    ensures Abs(Hue(a) - Hue(b)) <= 194.0 * Abs(a - b)
  {
  }
}
