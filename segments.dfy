/**
 * The segment loop of drawSimulation: the beam is cut into N - 1 strips, one
 * per pair of neighbouring samples of the stress distribution. Each strip is a
 * quadrilateral whose left and right edges are pushed down by the sag at their
 * sample and filled with a gradient between the colours of the two samples.
 * Instead of canvas calls the model returns the strips as records.
 */
module Segments {
  import opened Colours
  import opened Geometry

  /** One strip: its horizontal span, the sag at each edge and the two gradient stops. */
  datatype Segment = Segment(x0: real, x1: real, def0: real, def1: real, colour0: Colour, colour1: Colour)

  /** Math.min(stress / yieldStrength, 1): clamped from above only. */
  function Ratio(stress: real, yieldStrength: real): (r: real)
    requires yieldStrength != 0.0
    ensures r <= 1.0
    ensures r == stress / yieldStrength || (r == 1.0 && stress / yieldStrength > 1.0)
  {
    Min(stress / yieldStrength, 1.0)
  }

  /** x coordinate of boundary k: startX + k * segLen, with segLen = beamW / (N - 1). */
  function EdgeX(lay: Layout, n: nat, k: nat): real
    requires n >= 2
  {
    lay.startX + k as real * (lay.beamW / (n - 1) as real)
  }

  /** Sag at sample k, from that sample's clamped ratio. */
  function SagAt(dist: seq<real>, yieldStrength: real, k: nat): real
    requires yieldStrength != 0.0 && k < |dist| && |dist| >= 2
  {
    Deflection(k as real, |dist|, Ratio(dist[k], yieldStrength))
  }

  /** Gradient stop at sample k. */
  function ColourAt(dist: seq<real>, yieldStrength: real, k: nat): Colour
    requires yieldStrength != 0.0 && k < |dist|
  {
    ColourForRatio(Ratio(dist[k], yieldStrength))
  }

  /** Strip i (for 0 <= i < N - 1): both of its edges are computed from their own sample. */
  function SegmentAt(lay: Layout, dist: seq<real>, yieldStrength: real, i: nat): (s: Segment)
    requires yieldStrength != 0.0 && i + 1 < |dist|
    ensures RedHue <= s.colour0.hue && RedHue <= s.colour1.hue
    ensures dist[i] == 0.0 ==> s.def0 == 0.0 && s.colour0.hue == GreenHue
    ensures dist[i + 1] == 0.0 ==> s.def1 == 0.0 && s.colour1.hue == GreenHue
  {
    Segment(
      EdgeX(lay, |dist|, i), EdgeX(lay, |dist|, i + 1),
      SagAt(dist, yieldStrength, i), SagAt(dist, yieldStrength, i + 1),
      ColourAt(dist, yieldStrength, i), ColourAt(dist, yieldStrength, i + 1))
  }

  /** All strips; none when the distribution has fewer than two samples. */
  function SegmentsOf(lay: Layout, dist: seq<real>, yieldStrength: real): (segs: seq<Segment>)
    requires yieldStrength != 0.0
    ensures |segs| == if |dist| >= 2 then |dist| - 1 else 0
  {
    if |dist| < 2 then []
    else seq(|dist| - 1, i requires 0 <= i < |dist| - 1 => SegmentAt(lay, dist, yieldStrength, i))
  }

  /** The strips cover [startX, startX + beamW] left to right without gaps or overlaps. */
  ghost predicate Tiles(segs: seq<Segment>, lay: Layout)
  {
    && (|segs| > 0 ==> segs[0].x0 == lay.startX && segs[|segs| - 1].x1 == lay.startX + lay.beamW)
    && (forall i :: 0 <= i < |segs| - 1 ==> segs[i].x1 == segs[i + 1].x0)
  }

  /** Neighbouring strips agree on the sag and the colour of the edge they share. */
  ghost predicate EdgesAgree(segs: seq<Segment>)
  {
    forall i :: 0 <= i < |segs| - 1 ==> segs[i].def1 == segs[i + 1].def0 && segs[i].colour1 == segs[i + 1].colour0
  }

  /** Every strip has the same width, beamW / (N - 1). */
  ghost predicate EqualWidths(segs: seq<Segment>, width: real)
  {
    forall i :: 0 <= i < |segs| ==> segs[i].x1 - segs[i].x0 == width
  }

  lemma EdgeXEnds(lay: Layout, n: nat)
    requires n >= 2
    ensures EdgeX(lay, n, 0) == lay.startX
    ensures EdgeX(lay, n, n - 1) == lay.startX + lay.beamW
  {
    var m := (n - 1) as real;
    assert m * (lay.beamW / m) == lay.beamW;
  }

  lemma EdgeXStep(lay: Layout, n: nat, k: nat)
    requires n >= 2
    ensures EdgeX(lay, n, k + 1) - EdgeX(lay, n, k) == lay.beamW / (n - 1) as real
  {
    var w := lay.beamW / (n - 1) as real;
    assert (k + 1) as real * w == k as real * w + w;
  }

  lemma SegmentsTile(lay: Layout, dist: seq<real>, yieldStrength: real)
    requires yieldStrength != 0.0 && |dist| >= 2
    ensures Tiles(SegmentsOf(lay, dist, yieldStrength), lay)
    ensures EdgesAgree(SegmentsOf(lay, dist, yieldStrength))
    ensures EqualWidths(SegmentsOf(lay, dist, yieldStrength), lay.beamW / (|dist| - 1) as real)
  {
    var segs := SegmentsOf(lay, dist, yieldStrength);
    EdgeXEnds(lay, |dist|);
    forall i | 0 <= i < |segs|
      ensures segs[i].x1 - segs[i].x0 == lay.beamW / (|dist| - 1) as real
    {
      EdgeXStep(lay, |dist|, i);
    }
  }

  /** The beam meets its supports: no sag at the left edge of the first strip or the right edge of the last. */
  lemma SegmentsRestOnSupports(lay: Layout, dist: seq<real>, yieldStrength: real)
    requires yieldStrength != 0.0 && |dist| >= 2
    ensures SegmentsOf(lay, dist, yieldStrength)[0].def0 == 0.0
    ensures SegmentsOf(lay, dist, yieldStrength)[|dist| - 2].def1 == 0.0
  {
    DeflectionAtEnds(|dist|, Ratio(dist[0], yieldStrength));
    DeflectionAtEnds(|dist|, Ratio(dist[|dist| - 1], yieldStrength));
  }

  /** Stresses that are a non-negative fraction of the yield strength. */
  ghost predicate NonNegativeRatios(dist: seq<real>, yieldStrength: real)
    requires yieldStrength != 0.0
  {
    forall k :: 0 <= k < |dist| ==> dist[k] / yieldStrength >= 0.0
  }

  /**
   * Every gradient stop is red or greener (the clamp keeps hues at or above 0);
   * when no stress is negative relative to the yield strength every hue is at most green
   * and every sag lies in [0, 30] pixels.
   */
  lemma SegmentBounds(lay: Layout, dist: seq<real>, yieldStrength: real)
    requires yieldStrength != 0.0
    ensures forall s :: s in SegmentsOf(lay, dist, yieldStrength) ==> RedHue <= s.colour0.hue && RedHue <= s.colour1.hue
    ensures NonNegativeRatios(dist, yieldStrength) ==>
      forall s :: s in SegmentsOf(lay, dist, yieldStrength) ==>
        && s.colour0.hue <= GreenHue && s.colour1.hue <= GreenHue
        && 0.0 <= s.def0 <= MaxDeflectionPixels && 0.0 <= s.def1 <= MaxDeflectionPixels
  {
    var segs := SegmentsOf(lay, dist, yieldStrength);
    if NonNegativeRatios(dist, yieldStrength) {
      forall i | 0 <= i < |segs|
        ensures 0.0 <= segs[i].def0 <= MaxDeflectionPixels && 0.0 <= segs[i].def1 <= MaxDeflectionPixels
      {
        SagBounds(dist, yieldStrength, i);
        SagBounds(dist, yieldStrength, i + 1);
      }
    }
  }

  lemma SagBounds(dist: seq<real>, yieldStrength: real, k: nat)
    requires yieldStrength != 0.0 && k < |dist| && |dist| >= 2
    requires dist[k] / yieldStrength >= 0.0
    ensures 0.0 <= SagAt(dist, yieldStrength, k) <= MaxDeflectionPixels
  {
    var r := Ratio(dist[k], yieldStrength);
    DeflectionBounds(k as real, |dist|, r);
    assert MaxDeflectionPixels * r <= MaxDeflectionPixels;
  }

  /**
   * Stresses of 0, half the yield strength and the yield strength give ratios
   * 0, 0.5 and 1, and so the green, yellow and red anchor colours, in two strips.
   */
  lemma ThreeSampleAnchors(lay: Layout, yieldStrength: real)
    requires yieldStrength != 0.0
    ensures var segs := SegmentsOf(lay, [0.0, yieldStrength / 2.0, yieldStrength], yieldStrength);
      && |segs| == 2
      && segs[0].colour0 == Hsl(GreenHue, Saturation, Lightness)
      && segs[0].colour1 == Hsl(YellowHue, Saturation, Lightness)
      && segs[1].colour0 == Hsl(YellowHue, Saturation, Lightness)
      && segs[1].colour1 == Hsl(RedHue, Saturation, Lightness)
  {
    var dist := [0.0, yieldStrength / 2.0, yieldStrength];
    assert Ratio(dist[0], yieldStrength) == 0.0;
    assert Ratio(dist[1], yieldStrength) == 0.5;
    assert Ratio(dist[2], yieldStrength) == 1.0;
    HueAnchors();
  }

  /** The four corners of strip s in the order moveTo, lineTo, lineTo, lineTo. */
  function Quad(s: Segment, lay: Layout): (q: seq<Point>)
    ensures |q| == 4
    ensures q[0].x == q[3].x == s.x0 && q[1].x == q[2].x == s.x1
    ensures q[3].y - q[0].y == lay.beamH && q[2].y - q[1].y == lay.beamH
  {
    [ Point(s.x0, lay.startY + s.def0),
      Point(s.x1, lay.startY + s.def1),
      Point(s.x1, lay.startY + lay.beamH + s.def1),
      Point(s.x0, lay.startY + lay.beamH + s.def0) ]
  }

  /**
   * Consecutive quadrilaterals share their common edge exactly, and the outer
   * bottom corners are the points where the two supports are drawn.
   */
  lemma QuadsJoin(lay: Layout, dist: seq<real>, yieldStrength: real)
    requires yieldStrength != 0.0 && |dist| >= 2
    ensures forall i :: 0 <= i < |dist| - 2 ==>
      Quad(SegmentsOf(lay, dist, yieldStrength)[i], lay)[1] == Quad(SegmentsOf(lay, dist, yieldStrength)[i + 1], lay)[0] &&
      Quad(SegmentsOf(lay, dist, yieldStrength)[i], lay)[2] == Quad(SegmentsOf(lay, dist, yieldStrength)[i + 1], lay)[3]
    ensures Quad(SegmentsOf(lay, dist, yieldStrength)[0], lay)[3] == SupportPoints(lay)[0]
    ensures Quad(SegmentsOf(lay, dist, yieldStrength)[|dist| - 2], lay)[2] == SupportPoints(lay)[1]
  {
    SegmentsTile(lay, dist, yieldStrength);
    SegmentsRestOnSupports(lay, dist, yieldStrength);
  }

  /** One step of the strip loop computes strip i, with segLen = beamW / (N - 1). */
  lemma LoopStep(lay: Layout, dist: seq<real>, yieldStrength: real, i: nat, segLen: real)
    requires yieldStrength != 0.0 && i + 1 < |dist| && segLen == lay.beamW / (|dist| - 1) as real
    ensures SegmentAt(lay, dist, yieldStrength, i) ==
      Segment(lay.startX + i as real * segLen, lay.startX + (i + 1) as real * segLen,
              Deflection(i as real, |dist|, Ratio(dist[i], yieldStrength)),
              Deflection((i + 1) as real, |dist|, Ratio(dist[i + 1], yieldStrength)),
              ColourForRatio(Ratio(dist[i], yieldStrength)),
              ColourForRatio(Ratio(dist[i + 1], yieldStrength)))
  {
    assert EdgeX(lay, |dist|, i) == lay.startX + i as real * segLen;
    assert EdgeX(lay, |dist|, i + 1) == lay.startX + (i + 1) as real * segLen;
  }

  /** Once the loop has emitted strips 0 .. N - 2, they are the strips of the specification, with all their properties. */
  lemma LoopResult(lay: Layout, dist: seq<real>, yieldStrength: real, segs: seq<Segment>)
    requires yieldStrength != 0.0
    requires |segs| == if |dist| >= 2 then |dist| - 1 else 0
    requires forall j :: 0 <= j < |segs| ==> segs[j] == SegmentAt(lay, dist, yieldStrength, j)
    ensures segs == SegmentsOf(lay, dist, yieldStrength)
    ensures Tiles(segs, lay) && EdgesAgree(segs)
    ensures |dist| >= 2 ==> EqualWidths(segs, lay.beamW / (|dist| - 1) as real)
    ensures |dist| >= 2 ==> segs[0].def0 == 0.0 && segs[|segs| - 1].def1 == 0.0
  {
    if |dist| >= 2 {
      SegmentsTile(lay, dist, yieldStrength);
      SegmentsRestOnSupports(lay, dist, yieldStrength);
    }
  }

  /** The loop of drawSimulation, for i = 0 .. N - 2, emitting one strip per step. */
  method DrawSegments(lay: Layout, dist: seq<real>, yieldStrength: real) returns (segs: seq<Segment>)
    requires yieldStrength != 0.0
    ensures segs == SegmentsOf(lay, dist, yieldStrength)
    ensures |segs| == if |dist| >= 2 then |dist| - 1 else 0
    ensures Tiles(segs, lay) && EdgesAgree(segs)
    ensures |dist| >= 2 ==> EqualWidths(segs, lay.beamW / (|dist| - 1) as real)
    ensures |dist| >= 2 ==> segs[0].def0 == 0.0 && segs[|segs| - 1].def1 == 0.0
  {
    // segLen = beamW / (N - 1) is only used inside the loop, which runs only when N >= 2.
    var segLen := if |dist| >= 2 then lay.beamW / (|dist| - 1) as real else 0.0;
    segs := [];
    var i := 0;
    while i < |dist| - 1
      invariant 0 <= i <= if |dist| >= 1 then |dist| - 1 else 0
      invariant |segs| == i
      invariant forall j :: 0 <= j < i ==> segs[j] == SegmentAt(lay, dist, yieldStrength, j)
    {
      var stress := dist[i];
      var nextStress := dist[i + 1];
      var ratio1 := Ratio(stress, yieldStrength);
      var ratio2 := Ratio(nextStress, yieldStrength);
      var colour1 := ColourForRatio(ratio1);
      var colour2 := ColourForRatio(ratio2);
      var def1 := Deflection(i as real, |dist|, ratio1);
      var def2 := Deflection((i + 1) as real, |dist|, ratio2);
      LoopStep(lay, dist, yieldStrength, i, segLen);
      segs := segs + [Segment(lay.startX + i as real * segLen, lay.startX + (i + 1) as real * segLen,
                              def1, def2, colour1, colour2)];
      i := i + 1;
    }
    LoopResult(lay, dist, yieldStrength, segs);
  }
}
