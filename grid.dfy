/**
 * drawGrid(w, h): faint reference lines every 40 pixels, vertical ones at
 * x = 0, 40, 80, ... while x <= w, then horizontal ones at y = 0, 40, ...
 * while y <= h. The model returns the line segments that the two loops stroke.
 */
module Grid {
  import opened Geometry

  const GridStep: real := 40.0

  datatype Line = Line(from: Point, to: Point)

  /** How many multiples of the step, starting at 0, do not exceed the limit. */
  function GridCount(limit: real): nat
  {
    if limit < 0.0 then 0 else (limit / GridStep).Floor + 1
  }

  /** The count is exactly right: the last line is within the limit and the next one would not be. */
  lemma GridCountExact(limit: real)
    ensures limit < 0.0 <==> GridCount(limit) == 0
    ensures GridCount(limit) > 0 ==> GridStep * (GridCount(limit) - 1) as real <= limit
    ensures limit < GridStep * GridCount(limit) as real
  {
  }

  /** A multiple of the step that is within the limit is one of the counted lines. */
  lemma GridStepWithin(limit: real, k: nat)
    requires GridStep * k as real <= limit
    ensures k < GridCount(limit)
  {
    assert k as real <= limit / GridStep;
  }

  /** The first multiple of the step past the limit comes right after the counted lines. */
  lemma GridStepPast(limit: real, k: nat)
    requires k <= GridCount(limit) && limit < GridStep * k as real
    ensures k == GridCount(limit)
  {
    GridCountExact(limit);
  }

  function VerticalLine(x: real, h: real): Line
  {
    Line(Point(x, 0.0), Point(x, h))
  }

  function HorizontalLine(y: real, w: real): Line
  {
    Line(Point(0.0, y), Point(w, y))
  }

  function GridOf(w: real, h: real): (lines: seq<Line>)
    ensures |lines| == GridCount(w) + GridCount(h)
    ensures forall i :: 0 <= i < GridCount(w) ==>
      lines[i].from.x == lines[i].to.x && lines[i].from.y == 0.0 && lines[i].to.y == h
    ensures forall i :: GridCount(w) <= i < |lines| ==>
      lines[i].from.y == lines[i].to.y && lines[i].from.x == 0.0 && lines[i].to.x == w
  {
    seq(GridCount(w), k requires 0 <= k => VerticalLine(GridStep * k as real, h))
      + seq(GridCount(h), k requires 0 <= k => HorizontalLine(GridStep * k as real, w))
  }

  /** Every grid line starts and ends inside the w by h canvas. */
  lemma GridInsideCanvas(w: real, h: real)
    requires w >= 0.0 && h >= 0.0
    ensures forall l :: l in GridOf(w, h) ==>
      0.0 <= l.from.x <= w && 0.0 <= l.to.x <= w && 0.0 <= l.from.y <= h && 0.0 <= l.to.y <= h
  {
    GridCountExact(w);
    GridCountExact(h);
    var lines := GridOf(w, h);
    forall i | 0 <= i < |lines|
      ensures 0.0 <= lines[i].from.x <= w && 0.0 <= lines[i].to.x <= w
      ensures 0.0 <= lines[i].from.y <= h && 0.0 <= lines[i].to.y <= h
    {
      if i < GridCount(w) {
        assert GridStep * i as real <= GridStep * (GridCount(w) - 1) as real;
      } else {
        var k := i - GridCount(w);
        assert GridStep * k as real <= GridStep * (GridCount(h) - 1) as real;
      }
    }
  }

  /** The two stepping loops of drawGrid. */
  method DrawGrid(w: real, h: real) returns (lines: seq<Line>)
    ensures lines == GridOf(w, h)
    ensures |lines| == GridCount(w) + GridCount(h)
  {
    lines := [];
    var x := 0.0;
    var k := 0;
    while x <= w
      invariant x == GridStep * k as real
      invariant k <= GridCount(w)
      invariant lines == seq(k, j requires 0 <= j => VerticalLine(GridStep * j as real, h))
      decreases GridCount(w) - k
    {
      GridStepWithin(w, k);
      lines := lines + [VerticalLine(x, h)];
      x := x + GridStep;
      k := k + 1;
    }
    GridStepPast(w, k);
    ghost var verticals := lines;
    var y := 0.0;
    k := 0;
    while y <= h
      invariant y == GridStep * k as real
      invariant k <= GridCount(h)
      invariant lines == verticals + seq(k, j requires 0 <= j => HorizontalLine(GridStep * j as real, w))
      decreases GridCount(h) - k
    {
      GridStepWithin(h, k);
      lines := lines + [HorizontalLine(y, w)];
      y := y + GridStep;
      k := k + 1;
    }
    GridStepPast(h, k);
  }
}
