// Model of the CT number (Hounsfield unit) computation of the CT HU
// driver: the mean energy of each of four x-ray spectra, the HU of a
// material at that energy, and the HU range of each material over the four
// spectra.
//
// C++ doubles are modelled as exact reals. The spectra (produced by the
// TASMIP library routine) are inputs, and the linear attenuation lookups of
// the NIST tables are passed in as functions of the energy.

module CtHu {

  /** Number of 1 keV energy bins of a spectrum. */
  const NumBins: nat := 151
  /** Number of tube voltages compared (80, 100, 120 and 140 kVp). */
  const NumSpectra: nat := 4
  /** Hounsfield scale: water is 0 and air is -1000. */
  const HuScale: real := 1000.0
  /** The NIST materials whose HU ranges are tabulated, in table order. */
  const MaterialNames: seq<string> :=
    ["Air", "Water", "Adipose", "Bone", "Brain", "Breast", "EyeLens", "Lung", "Muscle"]

  // ---------------------------------------------------------------------
  // Mean energy of a spectrum
  // ---------------------------------------------------------------------

  /** Contribution of bin i: its weight times its energy i. */
  function BinMoment(s: seq<real>, i: nat): real
    requires i < |s|
  {
    s[i] * i as real
  }

  /** Sum over the first n bins of weight times energy; no normalisation. */
  function WeightedSum(s: seq<real>, n: nat): real
    requires n <= |s|
  {
    if n == 0 then 0.0 else WeightedSum(s, n - 1) + BinMoment(s, n - 1)
  }

  /** A spectrum that is all in one bin e has its weighted sum at e. */
  lemma {:induction false} WeightedSumOfLine(s: seq<real>, e: nat, n: nat)
    requires e < n <= |s|
    requires s[e] == 1.0 && forall i :: 0 <= i < |s| && i != e ==> s[i] == 0.0
    ensures WeightedSum(s, n) == e as real
  {
    if n - 1 == e {
      WeightedSumOfZeros(s, e, e);
    } else {
      WeightedSumOfLine(s, e, n - 1);
    }
  }

  /** Bins that are all empty below n contribute nothing. */
  lemma {:induction false} WeightedSumOfZeros(s: seq<real>, e: nat, n: nat)
    requires n <= e < |s|
    requires forall i :: 0 <= i < |s| && i != e ==> s[i] == 0.0
    ensures WeightedSum(s, n) == 0.0
  {
    if n > 0 {
      WeightedSumOfZeros(s, e, n - 1);
    }
  }

  /** A spectrum with no negative weights has a non-negative mean energy. */
  lemma {:induction false} WeightedSumNonNegative(s: seq<real>, n: nat)
    requires n <= |s|
    requires forall i :: 0 <= i < |s| ==> s[i] >= 0.0
    ensures WeightedSum(s, n) >= 0.0
  {
    if n > 0 {
      WeightedSumNonNegative(s, n - 1);
      assert BinMoment(s, n - 1) >= 0.0;
    }
  }

  /** Every bin weight scaled by c. */
  function ScaleSpectrum(s: seq<real>, c: real): (r: seq<real>)
    ensures |r| == |s| && forall i :: 0 <= i < |s| ==> r[i] == c * s[i]
  {
    seq(|s|, i requires 0 <= i < |s| => c * s[i])
  }

  /**
   * The sum is not normalised by the total weight: scaling the spectrum by c
   * scales the "mean energy" by c.
   */
  lemma {:induction false} WeightedSumScales(s: seq<real>, c: real, n: nat)
    requires n <= |s|
    ensures WeightedSum(ScaleSpectrum(s, c), n) == c * WeightedSum(s, n)
  {
    if n > 0 {
      var r := ScaleSpectrum(s, c);
      WeightedSumScales(s, c, n - 1);
      var w, b := WeightedSum(s, n - 1), s[n - 1];
      var e := (n - 1) as real;
      assert BinMoment(r, n - 1) == (c * b) * e;
      assert WeightedSum(r, n) == c * w + (c * b) * e;
      ScaledStep(c, w, b, e);
    }
  }

  /**
   * One step of the sum scaled by c: c*w + (c*b)*e is c times w + b*e.
   * Stated on plain reals so that the nonlinear step in WeightedSumScales
   * is proved the same way on every solver seed.
   */
  lemma ScaledStep(c: real, w: real, b: real, e: real)
    ensures c * w + (c * b) * e == c * (w + b * e)
  {
  }

  /**
   * Accumulates, for each of the four spectra, the sum over its 151 bins of
   * weight times bin energy.
   */
  method MeanEnergies(spectra: seq<seq<real>>) returns (mean: seq<real>)
    requires |spectra| == NumSpectra
    requires forall k :: 0 <= k < NumSpectra ==> |spectra[k]| >= NumBins
    ensures |mean| == NumSpectra
    ensures forall k :: 0 <= k < NumSpectra ==> mean[k] == WeightedSum(spectra[k], NumBins)
  {
    var acc := new real[NumSpectra];
    acc[0], acc[1], acc[2], acc[3] := 0.0, 0.0, 0.0, 0.0;
    var n := 0;
    while n < NumBins
      invariant 0 <= n <= NumBins
      invariant forall k :: 0 <= k < NumSpectra ==> acc[k] == WeightedSum(spectra[k], n)
    {
      acc[0] := acc[0] + BinMoment(spectra[0], n);
      acc[1] := acc[1] + BinMoment(spectra[1], n);
      acc[2] := acc[2] + BinMoment(spectra[2], n);
      acc[3] := acc[3] + BinMoment(spectra[3], n);
      n := n + 1;
    }
    mean := acc[..];
  }

  // ---------------------------------------------------------------------
  // Hounsfield units
  // ---------------------------------------------------------------------

  /** C's round(): to the nearest integer, halfway cases away from zero. */
  function Round(x: real): (r: int)
    ensures x >= 0.0 ==> x - 0.5 < r as real <= x + 0.5
    ensures x < 0.0 ==> x - 0.5 <= r as real < x + 0.5
  {
    if x >= 0.0 then (x + 0.5).Floor else -((-x + 0.5).Floor)
  }

  /** Rounding is monotone. */
  lemma RoundMonotone(x: real, y: real)
    requires x <= y
    ensures Round(x) <= Round(y)
  {
    if x >= 0.0 {
      assert (x + 0.5).Floor <= (y + 0.5).Floor;
    } else if y < 0.0 {
      assert (-y + 0.5).Floor <= (-x + 0.5).Floor;
    }
  }

  /** Rounding leaves integers alone. */
  lemma RoundInteger(k: int)
    ensures Round(k as real) == k
  {
  }

  /**
   * CT number of a material with linear attenuation mu, relative to water
   * and air at the same energy. Undefined when water and air attenuate
   * equally.
   */
  function Hu(mu: real, muWater: real, muAir: real): int
    requires muWater != muAir
  {
    Round(HuScale * ((mu - muWater) / (muWater - muAir)))
  }

  /** Water is 0 HU and air is -1000 HU, whatever the energy. */
  lemma HuOfReferenceMaterials(muWater: real, muAir: real)
    requires muWater != muAir
    ensures Hu(muWater, muWater, muAir) == 0
    ensures Hu(muAir, muWater, muAir) == -1000
  {
    assert (muAir - muWater) / (muWater - muAir) == -1.0;
    RoundInteger(0);
    RoundInteger(-1000);
  }

  /** When water attenuates more than air, more attenuation never means fewer HU. */
  lemma HuMonotone(mu1: real, mu2: real, muWater: real, muAir: real)
    requires muWater > muAir && mu1 <= mu2
    ensures Hu(mu1, muWater, muAir) <= Hu(mu2, muWater, muAir)
  {
    var d := muWater - muAir;
    var q1, q2 := (mu1 - muWater) / d, (mu2 - muWater) / d;
    assert q2 - q1 == (mu2 - mu1) / d;
    assert q1 <= q2;
    RoundMonotone(HuScale * q1, HuScale * q2);
  }

  // ---------------------------------------------------------------------
  // HU range of a material over the spectra
  // ---------------------------------------------------------------------

  /** HU of a material under each of the spectra, in spectrum order. */
  function HuValues(mu: real -> real, water: real -> real, air: real -> real, mean: seq<real>): (hs: seq<int>)
    requires forall n :: 0 <= n < |mean| ==> water(mean[n]) != air(mean[n])
    ensures |hs| == |mean|
  {
    seq(|mean|, n requires 0 <= n < |mean| => Hu(mu(mean[n]), water(mean[n]), air(mean[n])))
  }

  /** Smallest element, as a running minimum from the first element on. */
  function SeqMin(s: seq<int>): int
    requires |s| > 0
  {
    if |s| == 1 then s[0]
    else
      var m := SeqMin(s[..|s| - 1]);
      if s[|s| - 1] < m then s[|s| - 1] else m
  }

  /** Largest element, as a running maximum from the first element on. */
  function SeqMax(s: seq<int>): int
    requires |s| > 0
  {
    if |s| == 1 then s[0]
    else
      var m := SeqMax(s[..|s| - 1]);
      if s[|s| - 1] > m then s[|s| - 1] else m
  }

  /** The running minimum is a lower bound of every element, and is one of them. */
  lemma {:induction false} SeqMinIsMinimum(s: seq<int>)
    requires |s| > 0
    ensures forall i :: 0 <= i < |s| ==> SeqMin(s) <= s[i]
    ensures exists i :: 0 <= i < |s| && SeqMin(s) == s[i]
  {
    if |s| > 1 {
      var init := s[..|s| - 1];
      SeqMinIsMinimum(init);
      assert forall i :: 0 <= i < |s| - 1 ==> init[i] == s[i];
      var k :| 0 <= k < |init| && SeqMin(init) == init[k];
      if s[|s| - 1] < SeqMin(init) {
        assert SeqMin(s) == s[|s| - 1];
      } else {
        assert SeqMin(s) == s[k];
      }
    } else {
      assert SeqMin(s) == s[0];
    }
  }

  /** The running maximum is an upper bound of every element, and is one of them. */
  lemma {:induction false} SeqMaxIsMaximum(s: seq<int>)
    requires |s| > 0
    ensures forall i :: 0 <= i < |s| ==> s[i] <= SeqMax(s)
    ensures exists i :: 0 <= i < |s| && SeqMax(s) == s[i]
  {
    if |s| > 1 {
      var init := s[..|s| - 1];
      SeqMaxIsMaximum(init);
      assert forall i :: 0 <= i < |s| - 1 ==> init[i] == s[i];
      var k :| 0 <= k < |init| && SeqMax(init) == init[k];
      if s[|s| - 1] > SeqMax(init) {
        assert SeqMax(s) == s[|s| - 1];
      } else {
        assert SeqMax(s) == s[k];
      }
    } else {
      assert SeqMax(s) == s[0];
    }
  }

  /** The lower bound of a range never exceeds its upper bound. */
  lemma RangeOrdered(s: seq<int>)
    requires |s| > 0
    ensures SeqMin(s) <= SeqMax(s)
  {
    SeqMinIsMinimum(s);
    SeqMaxIsMaximum(s);
  }

  /** The range of the values under the first spectrum alone is that one value. */
  lemma RangeOfOne(h: int)
    ensures SeqMin([h]) == h == SeqMax([h])
  {
  }

  /** The range is a property of the set of values, not of their order. */
  lemma {:induction false} RangeOrderIndependent(s: seq<int>, t: seq<int>)
    requires |s| > 0
    requires forall x :: x in s <==> x in t
    ensures |t| > 0 && SeqMin(s) == SeqMin(t) && SeqMax(s) == SeqMax(t)
  {
    assert s[0] in s;
    SeqMinIsMinimum(s);
    SeqMaxIsMaximum(s);
    SeqMinIsMinimum(t);
    SeqMaxIsMaximum(t);
    var i :| 0 <= i < |s| && SeqMin(s) == s[i];
    var j :| 0 <= j < |t| && SeqMin(t) == t[j];
    assert s[i] in t && t[j] in s;
    var i' :| 0 <= i' < |s| && SeqMax(s) == s[i'];
    var j' :| 0 <= j' < |t| && SeqMax(t) == t[j'];
    assert s[i'] in t && t[j'] in s;
  }

  /** Whatever the spectra, water's HU range is exactly [0, 0] and air's is [-1000, -1000]. */
  lemma ReferenceMaterialRanges(water: real -> real, air: real -> real, mean: seq<real>)
    requires |mean| > 0
    requires forall n :: 0 <= n < |mean| ==> water(mean[n]) != air(mean[n])
    ensures SeqMin(HuValues(water, water, air, mean)) == 0 == SeqMax(HuValues(water, water, air, mean))
    ensures SeqMin(HuValues(air, water, air, mean)) == -1000 == SeqMax(HuValues(air, water, air, mean))
  {
    var hw, ha := HuValues(water, water, air, mean), HuValues(air, water, air, mean);
    forall n | 0 <= n < |mean| ensures hw[n] == 0 && ha[n] == -1000 {
      HuOfReferenceMaterials(water(mean[n]), air(mean[n]));
    }
    SeqMinIsMinimum(hw);
    SeqMaxIsMaximum(hw);
    SeqMinIsMinimum(ha);
    SeqMaxIsMaximum(ha);
  }

  /** Two materials that attenuate alike at every energy have the same HU values. */
  lemma SameAttenuationSameValues(mu: real -> real, nu: real -> real, water: real -> real, air: real -> real,
                                  mean: seq<real>)
    requires forall n :: 0 <= n < |mean| ==> water(mean[n]) != air(mean[n])
    requires forall e :: mu(e) == nu(e)
    ensures HuValues(mu, water, air, mean) == HuValues(nu, water, air, mean)
  {
    var hm, hn := HuValues(mu, water, air, mean), HuValues(nu, water, air, mean);
    forall n | 0 <= n < |mean| ensures hm[n] == hn[n] {
      var e := mean[n];
      assert mu(e) == nu(e);
      assert hm[n] == Hu(mu(e), water(e), air(e));
    }
  }

  /**
   * HU range of one material over the four spectra: both bounds start at
   * the HU under the first spectrum and are then lowered or raised as a
   * running minimum and maximum.
   */
  method HuRange(mu: real -> real, water: real -> real, air: real -> real, mean: seq<real>)
    returns (lo: int, hi: int)
    requires |mean| == NumSpectra
    requires forall n :: 0 <= n < NumSpectra ==> water(mean[n]) != air(mean[n])
    ensures lo == SeqMin(HuValues(mu, water, air, mean))
    ensures hi == SeqMax(HuValues(mu, water, air, mean))
    ensures lo <= hi
  {
    ghost var hs := HuValues(mu, water, air, mean);
    lo, hi := 0, 0;
    var n := 0;
    while n < NumSpectra
      invariant 0 <= n <= NumSpectra
      invariant n > 0 ==> lo == SeqMin(hs[..n]) && hi == SeqMax(hs[..n])
    {
      var e := mean[n];
      var hu := Hu(mu(e), water(e), air(e));
      assert hu == hs[n];
      assert hs[..n + 1][..n] == hs[..n];
      if n == 0 {
        lo, hi := hu, hu;
      } else {
        if hu < lo {
          lo := hu;
        }
        if hu > hi {
          hi := hu;
        }
      }
      n := n + 1;
    }
    assert hs[..NumSpectra] == hs;
    RangeOrdered(hs);
  }

  /**
   * The table of HU ranges: row m holds the smallest and the largest HU of
   * material m over the four spectra, rows in material order.
   */
  method HuRanges(mats: seq<real -> real>, water: real -> real, air: real -> real, mean: seq<real>)
    returns (ranges: seq<(int, int)>)
    requires |mean| == NumSpectra
    requires forall n :: 0 <= n < NumSpectra ==> water(mean[n]) != air(mean[n])
    ensures |ranges| == |mats|
    ensures forall m :: 0 <= m < |mats| ==>
              ranges[m].0 == SeqMin(HuValues(mats[m], water, air, mean)) &&
              ranges[m].1 == SeqMax(HuValues(mats[m], water, air, mean))
    ensures forall m :: 0 <= m < |mats| ==> ranges[m].0 <= ranges[m].1
  {
    ranges := [];
    var m := 0;
    while m < |mats|
      invariant 0 <= m <= |mats|
      invariant |ranges| == m
      invariant forall i :: 0 <= i < m ==>
                  ranges[i].0 == SeqMin(HuValues(mats[i], water, air, mean)) &&
                  ranges[i].1 == SeqMax(HuValues(mats[i], water, air, mean))
      invariant forall i :: 0 <= i < m ==> ranges[i].0 <= ranges[i].1
    {
      var lo, hi := HuRange(mats[m], water, air, mean);
      ranges := ranges + [(lo, hi)];
      m := m + 1;
    }
  }

  /**
   * The whole computation: mean energies of the four spectra, then the HU
   * range of each of the nine materials.
   */
  method CtNumberRanges(spectra: seq<seq<real>>, mats: seq<real -> real>, water: real -> real, air: real -> real)
    returns (mean: seq<real>, ranges: seq<(int, int)>)
    requires |spectra| == NumSpectra
    requires forall k :: 0 <= k < NumSpectra ==> |spectra[k]| >= NumBins
    requires forall k :: 0 <= k < NumSpectra ==>
               water(WeightedSum(spectra[k], NumBins)) != air(WeightedSum(spectra[k], NumBins))
    requires |mats| == |MaterialNames|
    requires forall e :: mats[0](e) == air(e) && mats[1](e) == water(e)
    ensures |mean| == NumSpectra
    ensures forall k :: 0 <= k < NumSpectra ==> mean[k] == WeightedSum(spectra[k], NumBins)
    ensures |ranges| == |MaterialNames|
    ensures forall m :: 0 <= m < |mats| ==>
              ranges[m].0 == SeqMin(HuValues(mats[m], water, air, mean)) &&
              ranges[m].1 == SeqMax(HuValues(mats[m], water, air, mean))
    ensures forall m :: 0 <= m < |mats| ==> ranges[m].0 <= ranges[m].1
    ensures ranges[0] == (-1000, -1000) && ranges[1] == (0, 0)
  {
    mean := MeanEnergies(spectra);
    ranges := HuRanges(mats, water, air, mean);
    SameAttenuationSameValues(mats[0], air, water, air, mean);
    SameAttenuationSameValues(mats[1], water, water, air, mean);
    ReferenceMaterialRanges(water, air, mean);
  }
}
