/**
 * The two pictures script.js draws, as geometry rather than canvas calls:
 * drawInitialSetup (the idle beam before any result exists) and
 * drawSimulation (the stressed, sagging beam for a cached result).
 */
module Scenes {
  import opened Model
  import opened Colours
  import opened Geometry
  import opened Segments
  import opened Grid
  import SimulationService

  /** Offsets of the dimension labels and of the load arrow's tip, in pixels. */
  const LengthLabelDrop: real := 40.0
  const HeightLabelInset: real := 20.0
  const HeightLabelBaseline: real := 4.0
  const ArrowGap: real := 20.0

  /**
   * What one redraw puts on the canvas, as geometry. The order of the fields is
   * not the order in which the source paints them.
   */
  datatype Scene =
    | IdleScene(beam: Layout, supports: seq<Point>, grid: seq<Line>)
    | SimulationScene(
        grid: seq<Line>,
        beam: Layout,
        segments: seq<Segment>,
        supports: seq<Point>,
        lengthLabel: Point,
        heightLabel: Point,
        arrowTip: Option<Point>,
        loadInKg: real)

  /**
   * The inputs for which every coordinate drawSimulation computes is a finite
   * number: a non-zero beam height (the aspect ratio) and a non-zero yield
   * strength (the stress ratios).
   */
  predicate Renderable(p: Payload)
  {
    p.height != 0.0 && p.materialYieldStrength != 0.0
  }

  function IdleSceneOf(cw: real, ch: real): Scene
  {
    var lay := IdleLayout(cw, ch);
    IdleScene(lay, SupportPoints(lay), GridOf(cw, ch))
  }

  /**
   * Where the load arrow's tip goes: centred horizontally on the canvas,
   * ArrowGap pixels above the sag evaluated at index N / 2. With a single
   * sample that index divides by zero and there is no finite point.
   */
  function ArrowTip(lay: Layout, cw: real, data: SimulationResult, yieldStrength: real): (t: Option<Point>)
    requires yieldStrength != 0.0
    ensures t.Some? <==> |data.distribution| != 1
    ensures t.Some? ==> t.value.x == cw / 2.0
    ensures |data.distribution| >= 2 ==>
      var m := (|data.distribution| - 1) as real;
      t.value.y == lay.startY + MaxDeflectionPixels * Ratio(data.maxStress, yieldStrength) * (1.0 - 1.0 / (m * m)) - ArrowGap
  {
    var n := |data.distribution|;
    if n == 1 then None
    else
      var centerDeflection := Deflection(n as real / 2.0, n, Ratio(data.maxStress, yieldStrength));
      if n >= 2 then
        ArrowSagSample(n, Ratio(data.maxStress, yieldStrength));
        Some(Point(cw / 2.0, lay.startY + centerDeflection - ArrowGap))
      else
        Some(Point(cw / 2.0, lay.startY + centerDeflection - ArrowGap))
  }

  function SimulationSceneOf(data: SimulationResult, p: Payload, cw: real, ch: real): Scene
    requires Renderable(p)
  {
    var lay := SimulationLayout(cw, ch, p.length, p.height);
    SimulationScene(
      GridOf(cw, ch),
      lay,
      SegmentsOf(lay, data.distribution, p.materialYieldStrength),
      SupportPoints(lay),
      Point(lay.startX + lay.beamW / 2.0, lay.startY + lay.beamH + LengthLabelDrop),
      Point(lay.startX - HeightLabelInset, lay.startY + lay.beamH / 2.0 + HeightLabelBaseline),
      ArrowTip(lay, cw, data, p.materialYieldStrength),
      p.loadInKg)
  }

  /** The idle beam is 70% of the width, 40 pixels tall, centred, with a support under each bottom corner. */
  lemma IdleSceneShape(cw: real, ch: real)
    ensures IdleSceneOf(cw, ch).beam.beamW == IdleWidthFraction * cw
    ensures IdleSceneOf(cw, ch).beam.beamH == IdleBeamHeight
    ensures Centred(IdleSceneOf(cw, ch).beam, cw, ch)
    ensures IdleSceneOf(cw, ch).supports ==
      [Point((cw - IdleWidthFraction * cw) / 2.0, ch / 2.0 + IdleBeamHeight / 2.0),
       Point((cw + IdleWidthFraction * cw) / 2.0, ch / 2.0 + IdleBeamHeight / 2.0)]
  {
  }

  /**
   * In the simulation scene the beam is centred, the strips tile its width and
   * meet the supports at its bottom corners, and the length label and the load
   * arrow are on the beam's vertical centre line.
   */
  lemma SimulationSceneShape(data: SimulationResult, p: Payload, cw: real, ch: real)
    requires Renderable(p) && |data.distribution| >= 2
    ensures var s := SimulationSceneOf(data, p, cw, ch);
      && Centred(s.beam, cw, ch)
      && |s.segments| == |data.distribution| - 1
      && Tiles(s.segments, s.beam) && EdgesAgree(s.segments)
      && Quad(s.segments[0], s.beam)[3] == s.supports[0]
      && Quad(s.segments[|s.segments| - 1], s.beam)[2] == s.supports[1]
      && s.lengthLabel.x == cw / 2.0
      && s.arrowTip.Some? && s.arrowTip.value.x == s.beam.startX + s.beam.beamW / 2.0
  {
    var lay := SimulationLayout(cw, ch, p.length, p.height);
    SegmentsTile(lay, data.distribution, p.materialYieldStrength);
    QuadsJoin(lay, data.distribution, p.materialYieldStrength);
  }

  /**
   * The arrow samples the sag at index N / 2 rather than at the centre (N - 1) / 2,
   * so its tip sits 30 * ratio / (N - 1)^2 pixels above the deepest point of the
   * parabola: at N = 101 and ratio 1 that is 0.003 pixels.
   */
  lemma ArrowSagSample(n: nat, ratio: real)
    requires n >= 2
    ensures Deflection(n as real / 2.0, n, ratio)
      == MaxDeflectionPixels * ratio * (1.0 - 1.0 / ((n - 1) as real * (n - 1) as real))
  {
    var m := (n - 1) as real;
    var x := Normalised(n as real / 2.0, n);
    assert x == 1.0 / m by {
      assert (n as real / 2.0) / m * 2.0 == n as real / m;
      assert n as real / m == 1.0 + 1.0 / m;
    }
    assert x * x == 1.0 / (m * m);
  }

  /** drawInitialSetup. */
  method DrawInitialSetup(cw: real, ch: real) returns (scene: Scene)
    ensures scene == IdleSceneOf(cw, ch)
    ensures scene.IdleScene? && Centred(scene.beam, cw, ch) && scene.beam.beamW == IdleWidthFraction * cw
  {
    var lay := IdleLayout(cw, ch);
    var grid := DrawGrid(cw, ch);
    scene := IdleScene(lay, SupportPoints(lay), grid);
  }

  /** drawSimulation. */
  method DrawSimulation(data: SimulationResult, p: Payload, cw: real, ch: real) returns (scene: Scene)
    requires Renderable(p)
    ensures scene == SimulationSceneOf(data, p, cw, ch)
    ensures scene.SimulationScene? && Centred(scene.beam, cw, ch)
    ensures |scene.segments| == if |data.distribution| >= 2 then |data.distribution| - 1 else 0
    ensures Tiles(scene.segments, scene.beam) && EdgesAgree(scene.segments)
  {
    var grid := DrawGrid(cw, ch);
    var lay := SimulationLayout(cw, ch, p.length, p.height);
    var segs := DrawSegments(lay, data.distribution, p.materialYieldStrength);
    var lengthLabel := Point(lay.startX + lay.beamW / 2.0, lay.startY + lay.beamH + LengthLabelDrop);
    var heightLabel := Point(lay.startX - HeightLabelInset, lay.startY + lay.beamH / 2.0 + HeightLabelBaseline);
    var tip := ArrowTip(lay, cw, data, p.materialYieldStrength);
    scene := SimulationScene(grid, lay, segs, SupportPoints(lay), lengthLabel, heightLabel, tip, p.loadInKg);
  }

  /**
   * The service's result, drawn for the payload that produced it, always has
   * 100 strips; for a non-negative peak stress and a positive yield strength
   * every gradient stop is between red and green and every sag is in [0, 30].
   */
  lemma ServiceResultRenders(p: Payload, cw: real, ch: real)
    requires SimulationService.Finite(p) && Renderable(p)
    requires SimulationService.MaxStress(p) >= 0.0 && p.materialYieldStrength > 0.0
    ensures var dist := SimulationService.Distribution(SimulationService.MaxStress(p));
      var s := SimulationSceneOf(SimulationResult(SimulationService.MaxStress(p), SimulationService.MaxStress(p) <= p.materialYieldStrength, dist), p, cw, ch);
      && |s.segments| == SimulationService.Segments
      && forall seg :: seg in s.segments ==>
           && RedHue <= seg.colour0.hue <= GreenHue && RedHue <= seg.colour1.hue <= GreenHue
           && 0.0 <= seg.def0 <= MaxDeflectionPixels && 0.0 <= seg.def1 <= MaxDeflectionPixels
  {
    var m := SimulationService.MaxStress(p);
    var dist := SimulationService.Distribution(m);
    var lay := SimulationLayout(cw, ch, p.length, p.height);
    SimulationService.DistributionBounds(m);
    forall k | 0 <= k < |dist|
      ensures dist[k] / p.materialYieldStrength >= 0.0
    {
      assert dist[k] >= 0.0;
    }
    SegmentBounds(lay, dist, p.materialYieldStrength);
  }
}
