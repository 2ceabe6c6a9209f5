// Model of the dose-comparison statistics computed by the 1D gamma-index
// driver (the experiment of Low et al., Med Phys 1998;25(5):656-661):
// the sample grid, the synthetic test/reference penumbra profiles, the
// pointwise dose difference, the fixed-step resampling of the reference
// profile and the distance-to-agreement (DTA) scan.
//
// C++ doubles are modelled as exact reals. The library routines the driver
// calls (erf and linear interpolation) are passed in as function values, so
// nothing is assumed about them beyond being functions.

module Gamma1D {

  /** One (position, dose) pair of a dose profile. */
  datatype Sample = Sample(pos: real, dose: real)

  /** Shape of the two-term error-function penumbra model. */
  datatype Penumbra = Penumbra(a: real, b1: real, b2: real, t: real)

  /** Resampling step of the reference profile. */
  const Step: real := 0.001
  /** Largest dose difference at which a resampled point "agrees" with a test sample. */
  const DoseTolerance: real := 0.001
  /** Distance recorded for a test sample with no agreeing resampled point. */
  const NoMatchDistance: real := 10.0

  // Inputs of the reference scenario.
  const FieldSize: real := 10.0
  const ProfileWidth: real := 20.0
  const NumSamples: nat := 256
  const Eta: real := 1.025
  const Shift: real := 0.25
  const LowPenumbra: Penumbra := Penumbra(0.173, 0.456, 2.892, 0.01)

  function Abs(x: real): (r: real)
    ensures r >= 0.0 && (r == x || r == -x)
  {
    if x < 0.0 then -x else x
  }

  // ---------------------------------------------------------------------
  // Sample grid
  // ---------------------------------------------------------------------

  /** Position of grid sample k out of n over a profile of the given width. */
  function GridPoint(width: real, n: nat, k: nat): real
    requires k < n
  {
    -width / 2.0 + width * (k as real / n as real)
  }

  lemma GridPointFirst(width: real, n: nat)
    requires n > 0
    ensures GridPoint(width, n, 0) == -width / 2.0
  {
    assert 0 as real / n as real == 0.0;
  }

  lemma GridPointLast(width: real, n: nat)
    requires n > 0
    ensures GridPoint(width, n, n - 1) == width / 2.0 - width / n as real
  {
    var f := (n - 1) as real / n as real;
    assert f == 1.0 - 1.0 / n as real;
    assert width * f == width - width * (1.0 / n as real);
  }

  lemma GridPointIncreasing(width: real, n: nat, i: nat, j: nat)
    requires width > 0.0 && i < j < n
    ensures GridPoint(width, n, i) < GridPoint(width, n, j)
  {
    var fi, fj := i as real / n as real, j as real / n as real;
    assert fi * n as real == i as real && fj * n as real == j as real;
    assert (fj - fi) * n as real == (j - i) as real;
    assert fj - fi > 0.0;
    assert width * fj - width * fi == width * (fj - fi);
    assert width * (fj - fi) > 0.0;
  }

  /** Every grid point lies in [-width/2, width/2 - width/n]. */
  lemma GridPointBounds(width: real, n: nat, k: nat)
    requires width > 0.0 && k < n
    ensures -width / 2.0 <= GridPoint(width, n, k) <= width / 2.0 - width / n as real
  {
    GridPointFirst(width, n);
    GridPointLast(width, n);
    if 0 < k {
      GridPointIncreasing(width, n, 0, k);
    }
    if k < n - 1 {
      GridPointIncreasing(width, n, k, n - 1);
    }
  }

  /**
   * Builds the x axis: n evenly spaced positions starting at -width/2,
   * strictly increasing and all below width/2.
   */
  method MakeXAxis(width: real, n: nat) returns (xs: seq<real>)
    ensures |xs| == n
    ensures forall k :: 0 <= k < n ==> xs[k] == GridPoint(width, n, k)
    ensures n > 0 ==> xs[0] == -width / 2.0 && xs[n - 1] == width / 2.0 - width / n as real
    ensures width > 0.0 ==> forall i, j :: 0 <= i < j < n ==> xs[i] < xs[j]
    ensures width > 0.0 ==> forall k :: 0 <= k < n ==> -width / 2.0 <= xs[k] < width / 2.0
  {
    xs := [];
    var k := 0;
    while k < n
      invariant 0 <= k <= n
      invariant |xs| == k
      invariant forall i :: 0 <= i < k ==> xs[i] == GridPoint(width, n, i)
    {
      xs := xs + [GridPoint(width, n, k)];
      k := k + 1;
    }
    if n > 0 {
      GridPointLast(width, n);
    }
    if width > 0.0 {
      forall i, j | 0 <= i < j < n ensures xs[i] < xs[j] {
        GridPointIncreasing(width, n, i, j);
      }
      forall k | 0 <= k < n ensures -width / 2.0 <= xs[k] < width / 2.0 {
        GridPointBounds(width, n, k);
        assert width / n as real > 0.0;
      }
    }
  }

  // ---------------------------------------------------------------------
  // Profile model
  // ---------------------------------------------------------------------

  /** Phi(b * u) = (erf(b * u) + 1) / 2. */
  function Phi(erf: real -> real, b: real, u: real): real
  {
    (erf(b * u) + 1.0) / 2.0
  }

  /**
   * Dose at signed distance u inside a field edge:
   * t + (1 - t) * [a * Phi(b1 * u) + (1 - a) * Phi(b2 * u)].
   */
  function EdgeDose(p: Penumbra, erf: real -> real, u: real): real
  {
    p.t + (1.0 - p.t) * (p.a * Phi(erf, p.b1, u) + (1.0 - p.a) * Phi(erf, p.b2, u))
  }

  /** Penumbra dose at position x for a field whose edges are at -edge and edge. */
  function PenumbraDose(p: Penumbra, erf: real -> real, edge: real, x: real): real
  {
    EdgeDose(p, erf, edge - Abs(x))
  }

  /** The penumbra dose depends on x only through |x|: the profile is symmetric. */
  lemma PenumbraSymmetric(p: Penumbra, erf: real -> real, edge: real, x: real)
    ensures PenumbraDose(p, erf, edge, x) == PenumbraDose(p, erf, edge, -x)
  {
    assert Abs(-x) == Abs(x);
  }

  /** Scaling by c >= 0 maps [0, 1] into [0, c]. */
  lemma ScaleUnit(c: real, s: real)
    requires c >= 0.0 && 0.0 <= s <= 1.0
    ensures 0.0 <= c * s <= c
  {
  }

  /** A convex combination of two values in [0, 1] stays in [0, 1]. */
  lemma ConvexUnit(a: real, f1: real, f2: real)
    requires 0.0 <= a <= 1.0 && 0.0 <= f1 <= 1.0 && 0.0 <= f2 <= 1.0
    ensures 0.0 <= a * f1 + (1.0 - a) * f2 <= 1.0
  {
    var b := 1.0 - a;
    ScaleUnit(a, f1);
    ScaleUnit(b, f2);
    var g1, g2 := a * f1, b * f2;
    assert 0.0 <= g1 <= a;
    assert 0.0 <= g2 <= b;
  }

  lemma PhiBounds(erf: real -> real, b: real, u: real)
    requires forall v :: -1.0 <= erf(v) <= 1.0
    ensures 0.0 <= Phi(erf, b, u) <= 1.0
  {
    assert -1.0 <= erf(b * u) <= 1.0;
  }

  /**
   * For any erf bounded by 1 in magnitude, and shape parameters 0 <= a, t <= 1,
   * the edge dose lies between the tail level t and 1.
   */
  lemma EdgeDoseBounds(p: Penumbra, erf: real -> real, u: real)
    requires 0.0 <= p.a <= 1.0 && 0.0 <= p.t <= 1.0
    requires forall v :: -1.0 <= erf(v) <= 1.0
    ensures p.t <= EdgeDose(p, erf, u) <= 1.0
  {
    PhiBounds(erf, p.b1, u);
    PhiBounds(erf, p.b2, u);
    ConvexUnit(p.a, Phi(erf, p.b1, u), Phi(erf, p.b2, u));
    ScaleUnit(1.0 - p.t, p.a * Phi(erf, p.b1, u) + (1.0 - p.a) * Phi(erf, p.b2, u));
  }

  /** Every penumbra dose lies between the tail level t and 1. */
  lemma PenumbraDoseBounds(p: Penumbra, erf: real -> real, edge: real, x: real)
    requires 0.0 <= p.a <= 1.0 && 0.0 <= p.t <= 1.0
    requires forall v :: -1.0 <= erf(v) <= 1.0
    ensures p.t <= PenumbraDose(p, erf, edge, x) <= 1.0
  {
    EdgeDoseBounds(p, erf, edge - Abs(x));
  }

  /** Test dose: the penumbra model with its edge moved out by shift, scaled by eta. */
  function TestDose(p: Penumbra, erf: real -> real, x0: real, shift: real, eta: real, x: real): real
  {
    eta * PenumbraDose(p, erf, x0 + shift, x)
  }

  /** Without a shift the test dose is the reference dose scaled by eta. */
  lemma TestDoseUnshifted(p: Penumbra, erf: real -> real, x0: real, eta: real, x: real)
    ensures TestDose(p, erf, x0, 0.0, eta, x) == eta * PenumbraDose(p, erf, x0, x)
    ensures eta == 1.0 ==> TestDose(p, erf, x0, 0.0, eta, x) == PenumbraDose(p, erf, x0, x)
  {
    var edge := x0 + 0.0;
    assert edge == x0;
    assert PenumbraDose(p, erf, edge, x) == PenumbraDose(p, erf, x0, x);
  }

  /**
   * Builds the reference and test profiles on the positions xs. The
   * reference uses the field edge x0; the test uses x0 + shift and is
   * scaled by eta.
   */
  method MakeProfiles(xs: seq<real>, p: Penumbra, erf: real -> real, x0: real, eta: real, shift: real)
    returns (test: seq<Sample>, ref: seq<Sample>)
    ensures |test| == |ref| == |xs|
    ensures forall n :: 0 <= n < |xs| ==> test[n].pos == ref[n].pos == xs[n]
    ensures forall n :: 0 <= n < |xs| ==> ref[n].dose == PenumbraDose(p, erf, x0, xs[n])
    ensures forall n :: 0 <= n < |xs| ==> test[n].dose == TestDose(p, erf, x0, shift, eta, xs[n])
    ensures shift == 0.0 ==> forall n :: 0 <= n < |xs| ==> test[n].dose == eta * ref[n].dose
    ensures shift == 0.0 && eta == 1.0 ==> test == ref
  {
    test, ref := [], [];
    var n := 0;
    while n < |xs|
      invariant 0 <= n <= |xs|
      invariant |test| == |ref| == n
      invariant forall i :: 0 <= i < n ==> test[i].pos == ref[i].pos == xs[i]
      invariant forall i :: 0 <= i < n ==> ref[i].dose == PenumbraDose(p, erf, x0, xs[i])
      invariant forall i :: 0 <= i < n ==> test[i].dose == TestDose(p, erf, x0, shift, eta, xs[i])
    {
      var x := xs[n];
      ref := ref + [Sample(x, PenumbraDose(p, erf, x0, x))];
      test := test + [Sample(x, TestDose(p, erf, x0, shift, eta, x))];
      n := n + 1;
    }
    if shift == 0.0 {
      UnshiftedProfiles(xs, p, erf, x0, eta, test, ref);
    }
  }

  /**
   * Profiles built without a shift: every test dose is eta times the
   * reference dose, and with eta 1 the two profiles are equal.
   */
  lemma UnshiftedProfiles(xs: seq<real>, p: Penumbra, erf: real -> real, x0: real, eta: real,
                          test: seq<Sample>, ref: seq<Sample>)
    requires |test| == |ref| == |xs|
    requires forall n :: 0 <= n < |xs| ==> test[n].pos == ref[n].pos == xs[n]
    requires forall n :: 0 <= n < |xs| ==> ref[n].dose == PenumbraDose(p, erf, x0, xs[n])
    requires forall n :: 0 <= n < |xs| ==> test[n].dose == TestDose(p, erf, x0, 0.0, eta, xs[n])
    ensures forall n :: 0 <= n < |xs| ==> test[n].dose == eta * ref[n].dose
    ensures eta == 1.0 ==> test == ref
  {
    forall i | 0 <= i < |xs| ensures test[i].dose == eta * ref[i].dose {
      TestDoseUnshifted(p, erf, x0, eta, xs[i]);
    }
    if eta == 1.0 {
      forall i | 0 <= i < |xs| ensures test[i] == ref[i] {
        TestDoseUnshifted(p, erf, x0, eta, xs[i]);
      }
    }
  }

  // ---------------------------------------------------------------------
  // Dose difference
  // ---------------------------------------------------------------------

  /** |test dose - reference dose| at every sample. */
  function AbsDoseDiffs(test: seq<Sample>, ref: seq<Sample>): (r: seq<real>)
    requires |test| == |ref|
    ensures |r| == |test|
    ensures forall n :: 0 <= n < |r| ==> r[n] >= 0.0
  {
    seq(|test|, n requires 0 <= n < |test| => Abs(test[n].dose - ref[n].dose))
  }

  /** The dose difference does not depend on which profile is the test one. */
  lemma AbsDoseDiffsSymmetric(test: seq<Sample>, ref: seq<Sample>)
    requires |test| == |ref|
    ensures AbsDoseDiffs(test, ref) == AbsDoseDiffs(ref, test)
  {
    forall n | 0 <= n < |test|
      ensures AbsDoseDiffs(test, ref)[n] == AbsDoseDiffs(ref, test)[n]
    {
      assert Abs(test[n].dose - ref[n].dose) == Abs(ref[n].dose - test[n].dose);
    }
  }

  /** The dose difference at a sample is zero exactly when the two doses are equal. */
  lemma AbsDoseDiffZeroIff(test: seq<Sample>, ref: seq<Sample>, n: nat)
    requires |test| == |ref| && n < |test|
    ensures AbsDoseDiffs(test, ref)[n] == 0.0 <==> test[n].dose == ref[n].dose
  {
  }

  /** Pointwise absolute dose difference of two profiles with the same sample count. */
  method DoseDifference(test: seq<Sample>, ref: seq<Sample>) returns (dd: seq<real>)
    requires |test| == |ref|
    ensures dd == AbsDoseDiffs(test, ref)
    ensures forall n :: 0 <= n < |dd| ==> dd[n] >= 0.0
    ensures forall n :: 0 <= n < |dd| ==> (dd[n] == 0.0 <==> test[n].dose == ref[n].dose)
  {
    dd := [];
    var n := 0;
    while n < |test|
      invariant 0 <= n <= |test|
      invariant dd == AbsDoseDiffs(test, ref)[..n]
    {
      dd := dd + [Abs(test[n].dose - ref[n].dose)];
      n := n + 1;
    }
  }

  // ---------------------------------------------------------------------
  // Resampling of the reference profile
  // ---------------------------------------------------------------------

  /** Position of resampled point k: k fixed steps past the first position. */
  function ResamplePos(first: real, k: nat): real
  {
    first + k as real * Step
  }

  /**
   * Densifies the reference profile at a fixed step of 0.001, starting at
   * its first sample and interpolating every further point. The loop takes
   * at least one step, and stops as soon as the position reaches
   * last - 0.001, so the final original sample is never part of the result.
   */
  method Resample(ref: seq<Sample>, interp: (seq<Sample>, real) -> real) returns (rs: seq<Sample>)
    requires |ref| > 0
    ensures |rs| >= 2
    ensures rs[0] == ref[0]
    ensures forall k :: 0 <= k < |rs| ==> rs[k].pos == ResamplePos(ref[0].pos, k)
    ensures forall k :: 1 <= k < |rs| ==> rs[k].dose == interp(ref, rs[k].pos)
    ensures forall k :: 1 <= k < |rs| - 1 ==> rs[k].pos < ref[|ref| - 1].pos - Step
    ensures rs[|rs| - 1].pos >= ref[|ref| - 1].pos - Step
    ensures ref[|ref| - 1].pos - ref[0].pos > Step ==>
              forall k :: 0 <= k < |rs| ==> rs[k].pos < ref[|ref| - 1].pos
  {
    var first, last := ref[0].pos, ref[|ref| - 1].pos;
    var xp := first;
    rs := [Sample(xp, ref[0].dose)];
    // the do-while body runs once before the condition is tested
    xp := xp + Step;
    rs := rs + [Sample(xp, interp(ref, xp))];
    while xp < last - Step
      invariant |rs| >= 2
      invariant rs[0] == ref[0]
      invariant xp == rs[|rs| - 1].pos
      invariant forall k :: 0 <= k < |rs| ==> rs[k].pos == ResamplePos(first, k)
      invariant forall k :: 1 <= k < |rs| ==> rs[k].dose == interp(ref, rs[k].pos)
      invariant forall k :: 1 <= k < |rs| - 1 ==> rs[k].pos < last - Step
      invariant last - first > Step ==> forall k :: 0 <= k < |rs| ==> rs[k].pos < last
      decreases ((last - xp) * 1000.0).Floor
    {
      xp := xp + Step;
      rs := rs + [Sample(xp, interp(ref, xp))];
    }
  }

  // ---------------------------------------------------------------------
  // Distance to agreement
  // ---------------------------------------------------------------------

  /** A resampled point agrees in dose with a test dose d. */
  predicate Agrees(d: real, r: Sample)
  {
    Abs(d - r.dose) <= DoseTolerance
  }

  /** Some resampled point agrees in dose with d. */
  predicate HasMatch(d: real, rs: seq<Sample>)
  {
    exists k :: 0 <= k < |rs| && Agrees(d, rs[k])
  }

  /**
   * v is the smallest distance from x to a resampled point that agrees in
   * dose with d: it is attained by such a point and bounds all of them.
   */
  predicate IsMinMatchDistance(v: real, x: real, d: real, rs: seq<Sample>)
  {
    (exists k :: 0 <= k < |rs| && Agrees(d, rs[k]) && v == Abs(x - rs[k].pos)) &&
    (forall k :: 0 <= k < |rs| && Agrees(d, rs[k]) ==> v <= Abs(x - rs[k].pos))
  }

  /**
   * The minimum is a property of the SET of resampled points: two scans
   * over sequences holding the same points, in any order or with repeats,
   * find the same distance.
   */
  lemma MinMatchDistanceOrderIndependent(v: real, w: real, x: real, d: real, rs: seq<Sample>, qs: seq<Sample>)
    requires forall s :: s in rs <==> s in qs
    requires IsMinMatchDistance(v, x, d, rs) && IsMinMatchDistance(w, x, d, qs)
    ensures v == w
  {
    var i :| 0 <= i < |rs| && Agrees(d, rs[i]) && v == Abs(x - rs[i].pos);
    var j :| 0 <= j < |qs| && Agrees(d, qs[j]) && w == Abs(x - qs[j].pos);
    assert rs[i] in qs;
    var j' :| 0 <= j' < |qs| && qs[j'] == rs[i];
    assert qs[j] in rs;
    var i' :| 0 <= i' < |rs| && rs[i'] == qs[j];
    assert w <= v;
    assert v <= w;
  }

  /** The agreement distance is a true DTA: a match exists and it is no farther than any match. */
  lemma MinMatchDistanceBounds(v: real, x: real, d: real, rs: seq<Sample>, k: nat)
    requires IsMinMatchDistance(v, x, d, rs)
    requires k < |rs| && Agrees(d, rs[k])
    ensures 0.0 <= v <= Abs(x - rs[k].pos)
    ensures HasMatch(d, rs)
  {
  }

  /**
   * The inner scan of the DTA computation: one pass over the resampled
   * points, raising `found` at the first point that agrees in dose with d
   * and keeping the running minimum of the distance from x to agreeing
   * points.
   */
  method ScanForAgreement(x: real, d: real, rs: seq<Sample>) returns (found: bool, minDist: real)
    ensures found <==> HasMatch(d, rs)
    ensures found ==> IsMinMatchDistance(minDist, x, d, rs)
  {
    found := false;
    minDist := 0.0;
    var j := 0;
    while j < |rs|
      invariant 0 <= j <= |rs|
      invariant found <==> HasMatch(d, rs[..j])
      invariant found ==> IsMinMatchDistance(minDist, x, d, rs[..j])
    {
      assert rs[..j + 1] == rs[..j] + [rs[j]];
      var dd := Abs(d - rs[j].dose);
      if dd <= DoseTolerance {
        if !found {
          found := true;
          minDist := Abs(x - rs[j].pos);
        } else {
          minDist := Min(minDist, Abs(x - rs[j].pos));
        }
      }
      j := j + 1;
    }
    assert rs[..j] == rs;
  }

  /**
   * For each test sample m, the smallest distance from x_axis[m] to a
   * resampled reference point whose dose is within 0.001 of the test dose,
   * or 10.0 when no resampled point is.
   */
  method DistanceToAgreement(xs: seq<real>, test: seq<Sample>, rs: seq<Sample>) returns (dta: seq<real>)
    requires |test| == |xs|
    ensures |dta| == |test|
    ensures forall m :: 0 <= m < |test| && HasMatch(test[m].dose, rs) ==>
              IsMinMatchDistance(dta[m], xs[m], test[m].dose, rs)
    ensures forall m :: 0 <= m < |test| && !HasMatch(test[m].dose, rs) ==> dta[m] == NoMatchDistance
    ensures forall m :: 0 <= m < |test| ==> dta[m] >= 0.0
  {
    dta := [];
    var m := 0;
    while m < |test|
      invariant 0 <= m <= |test|
      invariant |dta| == m
      invariant forall i :: 0 <= i < m && HasMatch(test[i].dose, rs) ==>
                  IsMinMatchDistance(dta[i], xs[i], test[i].dose, rs)
      invariant forall i :: 0 <= i < m && !HasMatch(test[i].dose, rs) ==> dta[i] == NoMatchDistance
      invariant forall i :: 0 <= i < m ==> dta[i] >= 0.0
    {
      var found, minDist := ScanForAgreement(xs[m], test[m].dose, rs);
      if found {
        dta := dta + [minDist];
      } else {
        dta := dta + [NoMatchDistance];
      }
      m := m + 1;
    }
  }

  function Min(x: real, y: real): (r: real)
    ensures r <= x && r <= y && (r == x || r == y)
  {
    if y < x then y else x
  }

  /**
   * The sentinel is not exclusive to "no match": a test sample at -10 whose
   * dose is matched only by a resampled point at 0 has a genuine DTA of
   * exactly 10.0.
   */
  lemma SentinelIsAlsoADistance()
    ensures IsMinMatchDistance(NoMatchDistance, -10.0, 1.0, [Sample(0.0, 1.0)])
    ensures HasMatch(1.0, [Sample(0.0, 1.0)])
  {
    var rs := [Sample(0.0, 1.0)];
    assert Agrees(1.0, rs[0]);
  }

  // ---------------------------------------------------------------------
  // The reference scenario
  // ---------------------------------------------------------------------

  /**
   * Steps 1 to 2B of the driver with its own inputs: a 256-sample grid over
   * 20 cm, a 10 cm field, and a test profile shifted by 0.25 cm and scaled
   * by 1.025.
   */
  method CompareProfiles(erf: real -> real, interp: (seq<Sample>, real) -> real)
    returns (xs: seq<real>, test: seq<Sample>, ref: seq<Sample>, dd: seq<real>, rs: seq<Sample>, dta: seq<real>)
    ensures |xs| == |test| == |ref| == |dd| == |dta| == NumSamples
    ensures xs[0] == -10.0 && xs[NumSamples - 1] == 9.921875
    ensures forall n :: 0 <= n < NumSamples ==> test[n].pos == ref[n].pos == xs[n]
    ensures forall n :: 0 <= n < NumSamples ==> ref[n].dose == PenumbraDose(LowPenumbra, erf, 5.0, xs[n])
    ensures forall n :: 0 <= n < NumSamples ==> test[n].dose == TestDose(LowPenumbra, erf, 5.0, Shift, Eta, xs[n])
    ensures dd == AbsDoseDiffs(test, ref)
    ensures |rs| >= 2 && rs[0] == ref[0]
    ensures forall k :: 0 <= k < |rs| ==> rs[k].pos == ResamplePos(-10.0, k)
    ensures forall k :: 1 <= k < |rs| ==> rs[k].dose == interp(ref, rs[k].pos)
    ensures forall k :: 1 <= k < |rs| - 1 ==> rs[k].pos < 9.921875 - Step
    ensures rs[|rs| - 1].pos >= 9.921875 - Step
    ensures forall k :: 0 <= k < |rs| ==> -10.0 <= rs[k].pos < 9.921875
    ensures forall m :: 0 <= m < NumSamples && !HasMatch(test[m].dose, rs) ==> dta[m] == NoMatchDistance
    ensures forall m :: 0 <= m < NumSamples && HasMatch(test[m].dose, rs) ==>
              IsMinMatchDistance(dta[m], xs[m], test[m].dose, rs)
  {
    var x0 := 0.5 * FieldSize;
    xs := MakeXAxis(ProfileWidth, NumSamples);
    test, ref := MakeProfiles(xs, LowPenumbra, erf, x0, Eta, Shift);
    dd := DoseDifference(test, ref);
    rs := Resample(ref, interp);
    forall k | 0 <= k < |rs| ensures -10.0 <= rs[k].pos {
      assert rs[k].pos == ResamplePos(-10.0, k);
    }
    dta := DistanceToAgreement(xs, test, rs);
  }
}
