/**
 * SimulationService.simulate: a simply supported rectangular beam under a
 * centred point load. Closed-form peak stress, a yield check, and a tent-shaped
 * stress profile of 101 samples built by a loop that appends to a list.
 */
module SimulationService {
  import opened Model

  /** Standard gravity, converting the load mass to a force in newtons. */
  const Gravity: real := 9.81
  /** Number of intervals along the beam; the profile has Segments + 1 samples. */
  const Segments: nat := 100

  function LoadForce(loadInKg: real): real
  {
    loadInKg * Gravity
  }

  /** Peak bending moment of a centrally loaded simple span: F * L / 4. */
  function MaxBendingMoment(force: real, length: real): real
  {
    (force * length) / 4.0
  }

  /** Section modulus of a rectangle: w * h^2 / 6, with Math.pow(h, 2) written h * h. */
  function SectionModulus(width: real, height: real): real
  {
    (width * (height * height)) / 6.0
  }

  /** True when the division M / Z is defined: a beam with a non-degenerate cross-section. */
  predicate Finite(p: Payload)
  {
    SectionModulus(p.width, p.height) != 0.0
  }

  function MaxStress(p: Payload): real
    requires Finite(p)
  {
    MaxBendingMoment(LoadForce(p.loadInKg), p.length) / SectionModulus(p.width, p.height)
  }

  /** The bending formula M / Z simplifies to 1.5 * F * L / (w * h^2). */
  lemma MaxStressClosedForm(p: Payload)
    requires Finite(p)
    ensures p.width * (p.height * p.height) != 0.0
    ensures MaxStress(p) == 1.5 * LoadForce(p.loadInKg) * p.length / (p.width * (p.height * p.height))
  {
    DivDiv(LoadForce(p.loadInKg) * p.length, p.width * (p.height * p.height));
  }

  lemma DivDiv(n: real, z: real)
    requires z != 0.0
    ensures (n / 4.0) / (z / 6.0) == 1.5 * n / z
  {
    var q := 1.5 * n / z;
    assert q * z == 1.5 * n;
    assert (q * (z / 6.0)) == n / 4.0;
  }

  /** The stress the service reports at sample i (0 <= i <= 100). */
  function StressAt(maxStress: real, i: nat): real
  {
    var positionRatio := i as real / Segments as real;
    if positionRatio <= 0.5 then
      maxStress * (positionRatio / 0.5)
    else
      maxStress * ((1.0 - positionRatio) / 0.5)
  }

  /** The whole profile, as the service's loop leaves it. */
  function Distribution(maxStress: real): (d: seq<real>)
    ensures |d| == Segments + 1
  {
    seq(Segments + 1, i requires 0 <= i <= Segments => StressAt(maxStress, i))
  }

  /** Distance, in samples, from sample i to the nearer support. */
  function FromSupport(i: nat): nat
  {
    if i <= Segments / 2 then i else if i <= Segments then Segments - i else 0
  }

  /** The profile is a tent: peak stress times the distance to the nearer support, over 50 samples. */
  lemma {:induction false} StressAtTent(m: real, i: nat)
    requires i <= Segments
    ensures StressAt(m, i) == m * (FromSupport(i) as real / 50.0)
  {
    var pr := i as real / 100.0;
    if pr <= 0.5 {
      assert i <= 50;
      assert pr / 0.5 == i as real / 50.0;
    } else {
      assert i > 50;
      assert (1.0 - pr) / 0.5 == (100 - i) as real / 50.0;
    }
  }

  lemma DistributionEndpoints(m: real)
    ensures Distribution(m)[0] == 0.0
    ensures Distribution(m)[Segments] == 0.0
    ensures Distribution(m)[Segments / 2] == m
  {
    StressAtTent(m, 0);
    StressAtTent(m, Segments);
    StressAtTent(m, Segments / 2);
    assert FromSupport(Segments / 2) as real / 50.0 == 1.0;
  }

  lemma DistributionSymmetric(m: real)
    ensures forall i :: 0 <= i <= Segments ==> Distribution(m)[i] == Distribution(m)[Segments - i]
  {
    forall i | 0 <= i <= Segments
      ensures Distribution(m)[i] == Distribution(m)[Segments - i]
    {
      StressAtTent(m, i);
      StressAtTent(m, Segments - i);
    }
  }

  lemma ScaleMonotone(m: real, a: real, b: real)
    requires m >= 0.0 && a <= b
    ensures m * a <= m * b
  {
    assert m * b - m * a == m * (b - a);
  }

  /** Between the left support and mid-span the stress does not decrease ... */
  lemma {:induction false} StressAtRising(m: real, i: nat, j: nat)
    requires m >= 0.0 && i <= j <= Segments / 2
    ensures StressAt(m, i) <= StressAt(m, j)
  {
    StressAtTent(m, i);
    StressAtTent(m, j);
    assert FromSupport(i) == i && FromSupport(j) == j;
    ScaleMonotone(m, i as real / 50.0, j as real / 50.0);
  }

  /** ... and from mid-span to the right support it does not increase. */
  lemma {:induction false} StressAtFalling(m: real, i: nat, j: nat)
    requires m >= 0.0 && Segments / 2 <= i <= j <= Segments
    ensures StressAt(m, j) <= StressAt(m, i)
  {
    StressAtTent(m, i);
    StressAtTent(m, j);
    assert FromSupport(i) == Segments - i && FromSupport(j) == Segments - j;
    ScaleMonotone(m, (Segments - j) as real / 50.0, (Segments - i) as real / 50.0);
  }

  /** For a non-negative peak the left half rises and the right half falls. */
  lemma DistributionMonotoneHalves(m: real)
    requires m >= 0.0
    ensures forall i, j :: 0 <= i <= j <= Segments / 2 ==> Distribution(m)[i] <= Distribution(m)[j]
    ensures forall i, j :: Segments / 2 <= i <= j <= Segments ==> Distribution(m)[i] >= Distribution(m)[j]
  {
    var d := Distribution(m);
    forall i, j | 0 <= i <= j <= Segments / 2
      ensures d[i] <= d[j]
    {
      StressAtRising(m, i, j);
    }
    forall i, j | Segments / 2 <= i <= j <= Segments
      ensures d[i] >= d[j]
    {
      StressAtFalling(m, i, j);
    }
  }

  /** A fraction t in [0, 1] of m lies between 0 and m. */
  lemma ScaleBetween(m: real, t: real)
    requires 0.0 <= t <= 1.0
    ensures m >= 0.0 ==> 0.0 <= m * t <= m
    ensures m <= 0.0 ==> m <= m * t <= 0.0
  {
    if m >= 0.0 {
      ScaleMonotone(m, 0.0, t);
      ScaleMonotone(m, t, 1.0);
      assert m * 0.0 == 0.0 && m * 1.0 == m;
    } else {
      ScaleMonotone(-m, 0.0, t);
      ScaleMonotone(-m, t, 1.0);
      assert (-m) * t == -(m * t) && (-m) * 0.0 == 0.0 && (-m) * 1.0 == -m;
    }
  }

  /** One sample lies between zero and the peak, on whichever side of zero the peak is. */
  lemma {:induction false} StressAtBounds(m: real, i: nat)
    requires i <= Segments
    ensures m >= 0.0 ==> 0.0 <= StressAt(m, i) <= m
    ensures m <= 0.0 ==> m <= StressAt(m, i) <= 0.0
  {
    StressAtTent(m, i);
    var t := FromSupport(i) as real / 50.0;
    ScaleBetween(m, t);
    assert StressAt(m, i) == m * t;
  }

  /** Every sample lies between zero and the peak, on whichever side of zero the peak is. */
  lemma DistributionBounds(m: real)
    ensures m >= 0.0 ==> forall i :: 0 <= i <= Segments ==> 0.0 <= Distribution(m)[i] <= m
    ensures m <= 0.0 ==> forall i :: 0 <= i <= Segments ==> m <= Distribution(m)[i] <= 0.0
  {
    var d := Distribution(m);
    forall i | 0 <= i <= Segments
      ensures m >= 0.0 ==> 0.0 <= d[i] <= m
      ensures m <= 0.0 ==> m <= d[i] <= 0.0
    {
      StressAtBounds(m, i);
    }
  }

  /** For a non-negative peak the reported maxStress is the largest sample of the profile. */
  lemma DistributionMaximum(m: real)
    requires m >= 0.0
    ensures m in Distribution(m)
    ensures forall s :: s in Distribution(m) ==> s <= m
  {
    DistributionEndpoints(m);
    DistributionBounds(m);
  }

  /**
   * simulate: straight-line arithmetic, then a loop over i = 0..100 that appends
   * one sample per step to the list.
   */
  method Simulate(p: Payload) returns (r: SimulationResult)
    requires Finite(p)
    ensures r.maxStress == MaxStress(p)
    ensures r.safe <==> r.maxStress <= p.materialYieldStrength
    ensures r.distribution == Distribution(r.maxStress)
    ensures |r.distribution| == Segments + 1
    ensures r.distribution[0] == 0.0 && r.distribution[Segments] == 0.0
    ensures r.distribution[Segments / 2] == r.maxStress
    ensures forall i :: 0 <= i <= Segments ==> r.distribution[i] == r.distribution[Segments - i]
    ensures r.maxStress >= 0.0 ==> forall i :: 0 <= i <= Segments ==> 0.0 <= r.distribution[i] <= r.maxStress
  {
    var loadForce := p.loadInKg * Gravity;
    var maxBendingMoment := (loadForce * p.length) / 4.0;
    var sectionModulus := (p.width * (p.height * p.height)) / 6.0;
    var maxStress := maxBendingMoment / sectionModulus;
    var isSafe := maxStress <= p.materialYieldStrength;

    var distribution: seq<real> := [];
    var i := 0;
    while i <= Segments
      invariant 0 <= i <= Segments + 1
      invariant |distribution| == i
      invariant forall j :: 0 <= j < i ==> distribution[j] == StressAt(maxStress, j)
    {
      var positionRatio := i as real / Segments as real;
      var stressAtPoint;
      if positionRatio <= 0.5 {
        stressAtPoint := maxStress * (positionRatio / 0.5);
      } else {
        stressAtPoint := maxStress * ((1.0 - positionRatio) / 0.5);
      }
      assert stressAtPoint == StressAt(maxStress, i);
      distribution := distribution + [stressAtPoint];
      i := i + 1;
    }
    r := SimulationResult(maxStress, isSafe, distribution);
    assert distribution == Distribution(maxStress);
    DistributionEndpoints(maxStress);
    DistributionSymmetric(maxStress);
    DistributionBounds(maxStress);
  }
}
