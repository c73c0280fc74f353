/**
 * The pure geometry of script.js: the cosmetic parabolic sag (getDeflection),
 * the clamped display aspect ratio, and where the beam sits on the canvas in
 * the simulation view (drawSimulation) and the idle view (drawInitialSetup).
 * All coordinates are CSS pixels with y growing downwards.
 */
module Geometry {

  /** Sag in pixels at the centre of a beam loaded to its yield strength. */
  const MaxDeflectionPixels: real := 30.0
  const MinAspect: real := 5.0
  const MaxAspect: real := 40.0
  const SimulationWidthFraction: real := 0.8
  const IdleWidthFraction: real := 0.7
  const IdleBeamHeight: real := 40.0

  datatype Point = Point(x: real, y: real)

  /** A beam rectangle: top-left corner, width and height. */
  datatype Layout = Layout(startX: real, startY: real, beamW: real, beamH: real)

  function Min(a: real, b: real): real { if a <= b then a else b }
  function Max(a: real, b: real): real { if a >= b then a else b }

  // ---------------------------------------------------------------- deflection

  /** Sample index mapped onto [-1, 1]: (index / (total - 1)) * 2 - 1. */
  function Normalised(index: real, total: nat): real
    requires total != 1
  {
    (index / (total - 1) as real) * 2.0 - 1.0
  }

  /** The unit parabola 1 - x^2: 1 at the centre, 0 at both ends. */
  function Parabola(x: real): real
  {
    1.0 - x * x
  }

  /** getDeflection(index, total, stressRatio). */
  function Deflection(index: real, total: nat, stressRatio: real): (d: real)
    requires total != 1
    ensures stressRatio == 0.0 ==> d == 0.0
    ensures total >= 2 && (index == 0.0 || index == (total - 1) as real) ==> d == 0.0
    ensures total >= 2 && index == (total - 1) as real / 2.0 ==> d == MaxDeflectionPixels * stressRatio
  {
    (MaxDeflectionPixels * stressRatio) * Parabola(Normalised(index, total))
  }

  lemma NormalisedRange(index: real, total: nat)
    requires total >= 2 && 0.0 <= index <= (total - 1) as real
    ensures -1.0 <= Normalised(index, total) <= 1.0
  {
    var n := (total - 1) as real;
    assert 0.0 <= index / n <= 1.0;
  }

  lemma DivSub(a: real, b: real, n: real)
    requires n != 0.0
    ensures (a - b) / n == a / n - b / n
  {
  }

  lemma ParabolaRange(x: real)
    requires -1.0 <= x <= 1.0
    ensures 0.0 <= Parabola(x) <= 1.0
  {
    if x >= 0.0 {
      assert x * x <= 1.0 * x;
    } else {
      assert x * x <= (-1.0) * x;
    }
  }

  lemma ScaleRange(m: real, t: real)
    requires m >= 0.0 && 0.0 <= t <= 1.0
    ensures 0.0 <= m * t <= m
  {
    assert m * (1.0 - t) >= 0.0;
  }

  /** The beam is level with its supports at the first and the last sample. */
  lemma DeflectionAtEnds(total: nat, stressRatio: real)
    requires total >= 2
    ensures Deflection(0.0, total, stressRatio) == 0.0
    ensures Deflection((total - 1) as real, total, stressRatio) == 0.0
  {
    var n := (total - 1) as real;
    assert Normalised(0.0, total) == -1.0 by { assert 0.0 / n == 0.0; }
    assert Normalised(n, total) == 1.0 by { assert n / n == 1.0; }
  }

  /** At the middle index (total - 1) / 2 the sag is the full 30 * stressRatio pixels. */
  lemma DeflectionAtCentre(total: nat, stressRatio: real)
    requires total >= 2
    ensures Deflection((total - 1) as real / 2.0, total, stressRatio) == MaxDeflectionPixels * stressRatio
  {
    var n := (total - 1) as real;
    assert Normalised(n / 2.0, total) == 0.0 by { assert (n / 2.0) / n == 0.5; }
  }

  /** Mirror samples sag equally. */
  lemma DeflectionSymmetric(index: real, total: nat, stressRatio: real)
    requires total >= 2
    ensures Deflection(index, total, stressRatio) == Deflection((total - 1) as real - index, total, stressRatio)
  {
    var n := (total - 1) as real;
    assert Normalised(n - index, total) == -Normalised(index, total) by {
      DivSub(n, index, n);
    }
    assert Parabola(-Normalised(index, total)) == Parabola(Normalised(index, total));
  }

  /** Along the beam and for a non-negative ratio the sag lies in [0, 30 * stressRatio]. */
  lemma DeflectionBounds(index: real, total: nat, stressRatio: real)
    requires total >= 2 && 0.0 <= index <= (total - 1) as real && stressRatio >= 0.0
    ensures 0.0 <= Deflection(index, total, stressRatio) <= MaxDeflectionPixels * stressRatio
  {
    NormalisedRange(index, total);
    ParabolaRange(Normalised(index, total));
    ScaleRange(MaxDeflectionPixels * stressRatio, Parabola(Normalised(index, total)));
    assert Deflection(index, total, stressRatio) == (MaxDeflectionPixels * stressRatio) * Parabola(Normalised(index, total));
  }

  /** For a negative ratio (compressive stress) the beam bows upwards, never further than 30 * |ratio|. */
  lemma DeflectionBoundsNegative(index: real, total: nat, stressRatio: real)
    requires total >= 2 && 0.0 <= index <= (total - 1) as real && stressRatio < 0.0
    ensures MaxDeflectionPixels * stressRatio <= Deflection(index, total, stressRatio) <= 0.0
  {
    NormalisedRange(index, total);
    ParabolaRange(Normalised(index, total));
    ScaleRange(MaxDeflectionPixels * -stressRatio, Parabola(Normalised(index, total)));
  }

  // ---------------------------------------------------------------- aspect ratio

  /** displayAspect = max(5, min(baseAspect, 40)). */
  function DisplayAspect(baseAspect: real): (a: real)
    ensures MinAspect <= a <= MaxAspect
    ensures MinAspect <= baseAspect <= MaxAspect ==> a == baseAspect
    ensures baseAspect < MinAspect ==> a == MinAspect
    ensures MaxAspect < baseAspect ==> a == MaxAspect
  {
    Max(MinAspect, Min(baseAspect, MaxAspect))
  }

  lemma DisplayAspectIdempotent(baseAspect: real)
    ensures DisplayAspect(DisplayAspect(baseAspect)) == DisplayAspect(baseAspect)
  {
  }

  // ---------------------------------------------------------------- layouts

  /** The beam's centre coincides with the canvas centre. */
  predicate Centred(lay: Layout, cw: real, ch: real)
  {
    lay.startX * 2.0 + lay.beamW == cw && lay.startY * 2.0 + lay.beamH == ch
  }

  /** drawSimulation's beam: 80% of the canvas width, height set by the clamped aspect ratio, centred. */
  function SimulationLayout(cw: real, ch: real, length: real, height: real): (lay: Layout)
    requires height != 0.0
    ensures lay.beamW == SimulationWidthFraction * cw
    ensures lay.beamH * DisplayAspect(length / height) == lay.beamW
    ensures Centred(lay, cw, ch)
    ensures cw >= 0.0 ==> lay.beamW / MaxAspect <= lay.beamH <= lay.beamW / MinAspect
  {
    var baseAspect := length / height;
    var displayAspect := DisplayAspect(baseAspect);
    var beamW := cw * SimulationWidthFraction;
    var beamH := beamW / displayAspect;
    var startX := (cw - beamW) / 2.0;
    var startY := ch / 2.0 - beamH / 2.0;
    AspectScale(beamW, displayAspect);
    Layout(startX, startY, beamW, beamH)
  }

  lemma AspectScale(w: real, a: real)
    requires MinAspect <= a <= MaxAspect
    ensures (w / a) * a == w
    ensures w >= 0.0 ==> w / MaxAspect <= w / a <= w / MinAspect
  {
    if w >= 0.0 {
      assert w / a * a == w;
    }
  }

  /** drawInitialSetup's beam: 70% of the canvas width, 40 pixels tall, centred. */
  function IdleLayout(cw: real, ch: real): (lay: Layout)
    ensures lay.beamW == IdleWidthFraction * cw
    ensures lay.beamH == IdleBeamHeight
    ensures Centred(lay, cw, ch)
  {
    var beamW := cw * IdleWidthFraction;
    var beamH := IdleBeamHeight;
    var startX := (cw - beamW) / 2.0;
    var startY := ch / 2.0 - beamH / 2.0;
    Layout(startX, startY, beamW, beamH)
  }

  /** On a canvas of non-negative width either beam lies within the canvas horizontally. */
  lemma LayoutsInsideCanvas(cw: real, ch: real, length: real, height: real)
    requires cw >= 0.0 && height != 0.0
    ensures 0.0 <= IdleLayout(cw, ch).startX
    ensures IdleLayout(cw, ch).startX + IdleLayout(cw, ch).beamW <= cw
    ensures 0.0 <= SimulationLayout(cw, ch, length, height).startX
    ensures SimulationLayout(cw, ch, length, height).startX + SimulationLayout(cw, ch, length, height).beamW <= cw
  {
  }

  /** The two bottom corners of a beam, where drawSupport places the supports. */
  function SupportPoints(lay: Layout): (s: seq<Point>)
    ensures |s| == 2
    ensures s[0].y == s[1].y == lay.startY + lay.beamH
    ensures s[0].x == lay.startX && s[1].x - s[0].x == lay.beamW
  {
    [Point(lay.startX, lay.startY + lay.beamH), Point(lay.startX + lay.beamW, lay.startY + lay.beamH)]
  }
}
