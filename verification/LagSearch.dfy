/** Cross-correlation lag search (pipeline/qc/audio.py), over exact reals. */
module LagSearch {
  import opened Basics

  /** Sample i of a series that is zero outside its own range. */
  function At(s: seq<real>, i: int): real {
    if 0 <= i < |s| then s[i] else 0.0
  }

  /** Sum over i < m of a[i] * b[i - lag], samples outside b counting as zero. */
  ghost function Correlation(a: seq<real>, b: seq<real>, lag: int, m: nat): real {
    if m == 0 then 0.0 else Correlation(a, b, lag, m - 1) + Times(At(a, m - 1), At(b, m - 1 - lag))
  }

  /** Sum of the squares of samples lo..hi-1. */
  ghost function Energy(s: seq<real>, lo: int, hi: int): real
    decreases hi - lo
  {
    if hi <= lo then 0.0 else Energy(s, lo, hi - 1) + Square(At(s, hi - 1))
  }

  /** Sum over i < m of (a[i] - b[i - lag]) squared. */
  ghost function Gap(a: seq<real>, b: seq<real>, lag: int, m: nat): real {
    if m == 0 then 0.0
    else Gap(a, b, lag, m - 1) + Square(At(a, m - 1) - At(b, m - 1 - lag))
  }

  function Times(x: real, y: real): real { x * y }

  function Square(x: real): real { Times(x, x) }

  lemma SquareSign(x: real)
    ensures Square(x) >= 0.0
    ensures x != 0.0 ==> Square(x) > 0.0
  {
    if x > 0.0 {
      TimesSign(x, x);
    } else if x < 0.0 {
      TimesSign(-x, -x);
      assert Times(-x, -x) == Times(x, x);
    }
  }

  lemma TimesSign(x: real, y: real)
    requires x > 0.0 && y > 0.0
    ensures Times(x, y) > 0.0
  {
  }

  /** The series `a` is `b` delayed by k, and no nonzero sample of b falls off either end. */
  ghost predicate Delayed(a: seq<real>, b: seq<real>, k: int) {
    && |a| == |b|
    && (forall i :: 0 <= i < |a| ==> a[i] == At(b, i - k))
    && (forall j :: 0 <= j < |b| && b[j] != 0.0 ==> 0 <= j + k < |b|)
    && (exists j :: 0 <= j < |b| && b[j] != 0.0)
  }

  // Cauchy-Schwarz by the identity 2xy = x^2 + y^2 - (x - y)^2, summed over the overlap.

  lemma {:induction false} TwiceCorrelation(a: seq<real>, b: seq<real>, lag: int, m: nat)
    ensures 2.0 * Correlation(a, b, lag, m) == Energy(a, 0, m) + Energy(b, -lag, m - lag) - Gap(a, b, lag, m)
  {
    if m > 0 {
      TwiceCorrelation(a, b, lag, m - 1);
      var x, y := At(a, m - 1), At(b, m - 1 - lag);
      assert Square(x - y) == x * x - 2.0 * (x * y) + y * y;
    }
  }

  lemma {:induction false} GapSign(a: seq<real>, b: seq<real>, lag: int, m: nat)
    ensures Gap(a, b, lag, m) >= 0.0
    ensures (exists i :: 0 <= i < m && At(a, i) != At(b, i - lag)) ==> Gap(a, b, lag, m) > 0.0
  {
    if m > 0 {
      GapSign(a, b, lag, m - 1);
      SquareSign(At(a, m - 1) - At(b, m - 1 - lag));
    }
  }

  lemma {:induction false} EnergySplit(s: seq<real>, lo: int, mid: int, hi: int)
    requires lo <= mid <= hi
    ensures Energy(s, lo, hi) == Energy(s, lo, mid) + Energy(s, mid, hi)
    decreases hi - mid
  {
    if mid < hi {
      EnergySplit(s, lo, mid, hi - 1);
    }
  }

  lemma {:induction false} EnergySign(s: seq<real>, lo: int, hi: int)
    ensures Energy(s, lo, hi) >= 0.0
    ensures (exists i :: lo <= i < hi && At(s, i) != 0.0) <==> Energy(s, lo, hi) > 0.0
    decreases hi - lo
  {
    if lo < hi {
      EnergySign(s, lo, hi - 1);
      SquareSign(At(s, hi - 1));
    }
  }

  /** A window holds at most the whole energy, and all of it exactly when no nonzero sample is outside. */
  lemma EnergyOfWindow(s: seq<real>, lo: int, hi: int)
    requires lo <= hi
    ensures Energy(s, lo, hi) <= Energy(s, 0, |s|)
    ensures Energy(s, lo, hi) == Energy(s, 0, |s|) <==> (forall i :: 0 <= i < |s| && !(lo <= i < hi) ==> s[i] == 0.0)
  {
    var first, last := Min(lo, 0), Max(hi, |s|);
    EnergySplit(s, first, lo, last);
    EnergySplit(s, lo, hi, last);
    EnergySplit(s, first, 0, last);
    EnergySplit(s, 0, |s|, last);
    EnergySign(s, first, 0);
    EnergySign(s, |s|, last);
    EnergySign(s, first, lo);
    EnergySign(s, hi, last);
    if i :| 0 <= i < |s| && !(lo <= i < hi) && s[i] != 0.0 {
      assert At(s, i) != 0.0 && (first <= i < lo || hi <= i < last);
    }
  }

  lemma ExtremeNonzero(b: seq<real>) returns (first: nat, last: nat)
    requires exists j :: 0 <= j < |b| && b[j] != 0.0
    ensures first <= last < |b| && b[first] != 0.0 && b[last] != 0.0
    ensures forall j :: 0 <= j < |b| && b[j] != 0.0 ==> first <= j <= last
  {
    first := 0;
    while b[first] == 0.0
      invariant first < |b| && forall j :: 0 <= j < first ==> b[j] == 0.0
      decreases |b| - first
    {
      first := first + 1;
    }
    last := |b| - 1;
    while b[last] == 0.0
      invariant first <= last < |b| && forall j :: last < j < |b| ==> b[j] == 0.0
      decreases last
    {
      last := last - 1;
    }
  }

  /** At its true delay the correlation is the whole energy; at every other lag it is less. */
  lemma DelayCorrelatesBest(a: seq<real>, b: seq<real>, k: int, lag: int)
    requires Delayed(a, b, k)
    ensures Correlation(a, b, k, |a|) == Energy(b, 0, |b|) > 0.0
    ensures lag != k ==> Correlation(a, b, lag, |a|) < Correlation(a, b, k, |a|)
  {
    var n := |a|;
    var first, last := ExtremeNonzero(b);
    EnergyOfWindow(b, -k, n - k);
    EnergySign(b, 0, n);
    assert At(b, first) != 0.0;
    SameEnergy(a, b, k, n);
    TwiceCorrelation(a, b, k, n);
    NoGap(a, b, k, n);
    if lag != k {
      TwiceCorrelation(a, b, lag, n);
      GapSign(a, b, lag, n);
      EnergyOfWindow(b, -lag, n - lag);
      // The last (or first) nonzero sample either leaves the window or meets a zero.
      var j := if lag > k then last else first;
      if 0 <= j + lag < n {
        assert At(a, j + lag) == At(b, j + lag - k) == 0.0 != At(b, j + lag - lag);
      } else {
        assert !(-lag <= j < n - lag);
      }
    }
  }

  lemma {:induction false} SameEnergy(a: seq<real>, b: seq<real>, k: int, m: nat)
    requires m <= |a| && forall i :: 0 <= i < |a| ==> a[i] == At(b, i - k)
    ensures Energy(a, 0, m) == Energy(b, -k, m - k)
  {
    if m > 0 {
      SameEnergy(a, b, k, m - 1);
    }
  }

  lemma {:induction false} NoGap(a: seq<real>, b: seq<real>, k: int, m: nat)
    requires m <= |a| && forall i :: 0 <= i < |a| ==> a[i] == At(b, i - k)
    ensures Gap(a, b, k, m) == 0.0
  {
    if m > 0 {
      NoGap(a, b, k, m - 1);
    }
  }

  // ───────── normalisation ─────────

  ghost function Total(s: seq<real>, m: nat): real
    requires m <= |s|
  {
    if m == 0 then 0.0 else Total(s, m - 1) + s[m - 1]
  }

  ghost function Centered(s: seq<real>): (c: seq<real>)
    requires s != []
    ensures |c| == |s| && forall i :: 0 <= i < |s| ==> c[i] == s[i] - Total(s, |s|) / |s| as real
  {
    seq(|s|, i requires 0 <= i < |s| => s[i] - Total(s, |s|) / |s| as real)
  }

  /** A series less its mean, over its norm; too short or too flat a series gives none. `norm` is the
      square root of the centered series' energy. */
  ghost function Normalize(s: seq<real>, norm: real): (out: seq<real>)
    ensures |s| < 4 || norm <= 0.000000001 ==> out == []
    ensures |s| >= 4 && norm > 0.000000001 ==> |out| == |s|
  {
    if |s| < 4 || norm <= 0.000000001 then []
    else seq(|s|, i requires 0 <= i < |s| => Centered(s)[i] / norm)
  }

  lemma {:induction false} TotalCentered(s: seq<real>, mean: real, c: seq<real>, m: nat)
    requires m <= |s| == |c| && forall i :: 0 <= i < |s| ==> c[i] == s[i] - mean
    ensures Total(c, m) == Total(s, m) - m as real * mean
  {
    if m > 0 {
      TotalCentered(s, mean, c, m - 1);
    }
  }

  lemma {:induction false} TotalScales(c: seq<real>, out: seq<real>, norm: real, m: nat)
    requires m <= |c| == |out| && forall i :: 0 <= i < |c| ==> Times(out[i], norm) == c[i]
    ensures Times(Total(out, m), norm) == Total(c, m)
  {
    if m > 0 {
      TotalScales(c, out, norm, m - 1);
      TimesAdds(Total(out, m - 1), out[m - 1], norm);
    } else {
      assert Times(0.0, norm) == 0.0;
    }
  }

  /** A normalised series sums to zero and keeps the differences of its samples, scaled by the norm:
      nothing but its mean and its scale is gone. */
  lemma NormalizedIsCentered(s: seq<real>, norm: real)
    requires s != [] && Normalize(s, norm) != []
    ensures var out := Normalize(s, norm);
            && |out| == |s| && Total(out, |s|) == 0.0
            && forall i, j :: 0 <= i < |s| && 0 <= j < |s| ==> Times(out[i] - out[j], norm) == s[i] - s[j]
  {
    var out, c, n := Normalize(s, norm), Centered(s), |s|;
    forall i | 0 <= i < n ensures Times(out[i], norm) == c[i] {}
    TotalCentered(s, Total(s, n) / n as real, c, n);
    TotalScales(c, out, norm, n);
    OnlyZeroVanishes(Total(out, n), norm);
    forall i, j | 0 <= i < n && 0 <= j < n ensures Times(out[i] - out[j], norm) == s[i] - s[j] {
      TimesAdds(out[i], -out[j], norm);
      assert Times(-out[j], norm) == -Times(out[j], norm);
    }
  }

  lemma OnlyZeroVanishes(x: real, norm: real)
    requires norm > 0.0 && Times(x, norm) == 0.0
    ensures x == 0.0
  {
  }

  lemma SquareScales(x: real, norm: real)
    ensures Times(Square(x), Square(norm)) == Square(Times(x, norm))
  {
    assert x * x * (norm * norm) == (x * norm) * (x * norm);
  }

  lemma {:induction false} EnergyScales(c: seq<real>, out: seq<real>, norm: real, m: nat)
    requires m <= |out| == |c| && forall i :: 0 <= i < |c| ==> Times(out[i], norm) == c[i]
    ensures Times(Energy(out, 0, m), Square(norm)) == Energy(c, 0, m)
  {
    if m > 0 {
      EnergyScales(c, out, norm, m - 1);
      SquareScales(out[m - 1], norm);
      TimesAdds(Energy(out, 0, m - 1), Square(out[m - 1]), Square(norm));
    } else {
      assert Times(0.0, Square(norm)) == 0.0;
    }
  }

  lemma TimesAdds(x: real, y: real, z: real)
    ensures Times(x + y, z) == Times(x, z) + Times(y, z)
  {
  }

  lemma TimesCancels(x: real, z: real)
    requires z > 0.0 && Times(x, z) == z
    ensures x == 1.0
  {
    assert (x - 1.0) * z == 0.0;
  }

  /** A normalised series has unit energy, and no more when cut to the shorter of a pair. */
  lemma NormalizedHasUnitEnergy(s: seq<real>, norm: real, n: nat)
    requires norm >= 0.0 && s != [] && Square(norm) == Energy(Centered(s), 0, |s|)
    requires Normalize(s, norm) != [] && n <= |s|
    ensures Energy(Normalize(s, norm), 0, |s|) == 1.0
    ensures Energy(Normalize(s, norm)[..n], 0, n) <= 1.0
  {
    var out := Normalize(s, norm);
    forall i | 0 <= i < |s| ensures Times(out[i], norm) == Centered(s)[i] {}
    EnergyScales(Centered(s), out, norm, |s|);
    TimesSign(norm, norm);
    TimesCancels(Energy(out, 0, |s|), Square(norm));
    EnergySplit(out, 0, n, |s|);
    EnergySign(out, n, |s|);
    CutEnergy(out, n, n);
  }

  lemma {:induction false} CutEnergy(s: seq<real>, n: nat, m: nat)
    requires m <= n <= |s|
    ensures Energy(s[..n], 0, m) == Energy(s, 0, m)
  {
    if m > 0 {
      CutEnergy(s, n, m - 1);
    }
  }

  /** So no lag of a normalised pair correlates outside [-1, 1]. */
  lemma UnitEnergyBoundsCorrelation(a: seq<real>, b: seq<real>, lag: int)
    requires |a| == |b| && Energy(a, 0, |a|) <= 1.0 && Energy(b, 0, |b|) <= 1.0
    ensures -1.0 <= Correlation(a, b, lag, |a|) <= 1.0
  {
    var n := |a|;
    TwiceCorrelation(a, b, lag, n);
    GapSign(a, b, lag, n);
    EnergyOfWindow(b, -lag, n - lag);
    var neg := seq(n, i requires 0 <= i < n => -a[i]);
    NegatedCorrelation(a, neg, b, lag, n);
    TwiceCorrelation(neg, b, lag, n);
    GapSign(neg, b, lag, n);
  }

  lemma {:induction false} NegatedCorrelation(a: seq<real>, neg: seq<real>, b: seq<real>, lag: int, m: nat)
    requires m <= |a| == |neg| && forall i :: 0 <= i < |a| ==> neg[i] == -a[i]
    ensures Correlation(neg, b, lag, m) == -Correlation(a, b, lag, m)
    ensures Energy(neg, 0, m) == Energy(a, 0, m)
  {
    if m > 0 {
      NegatedCorrelation(a, neg, b, lag, m - 1);
      var x, y := a[m - 1], At(b, m - 1 - lag);
      assert (-x) * y == -(x * y) && (-x) * (-x) == x * x;
    }
  }

  /** The first lag of the range whose correlation is greatest, if any exceeds the start value -2. */
  ghost predicate IsFirstBest(a: seq<real>, b: seq<real>, maxLag: int, lag: int, corr: real) {
    if forall l :: -maxLag <= l <= maxLag ==> Correlation(a, b, l, |a|) <= -2.0 then
      lag == 0 && corr == -2.0
    else
      && -maxLag <= lag <= maxLag && corr == Correlation(a, b, lag, |a|)
      && (forall l :: -maxLag <= l <= maxLag ==> Correlation(a, b, l, |a|) <= corr)
      && (forall l :: -maxLag <= l < lag ==> Correlation(a, b, l, |a|) < corr)
  }

  lemma CorrelationStep(a: seq<real>, b: seq<real>, lag: int, i: nat)
    requires i < |a|
    ensures Correlation(a, b, lag, i + 1) ==
            Correlation(a, b, lag, i) + if 0 <= i - lag < |b| then a[i] * b[i - lag] else 0.0
  {
    if !(0 <= i - lag < |b|) {
      assert At(a, i) * 0.0 == 0.0;
    }
  }

  method BestLag(series: seq<real>, other: seq<real>, maxLag: int) returns (bestLag: int, bestCorr: real)
    ensures var n := Min(|series|, |other|);
            var a, b := series[..n], other[..n];
            && IsFirstBest(a, b, maxLag, bestLag, bestCorr)
            && (forall k :: Delayed(a, b, k) && -maxLag <= k <= maxLag ==>
                  bestLag == k && bestCorr == Energy(b, 0, n))
            && (Energy(a, 0, n) <= 1.0 && Energy(b, 0, n) <= 1.0 && maxLag >= 0 ==>
                  -maxLag <= bestLag <= maxLag && -1.0 <= bestCorr <= 1.0)
  {
    var n := Min(|series|, |other|);
    var a, b := series[..n], other[..n];
    bestLag, bestCorr := 0, -2.0;
    var lag := -maxLag;
    while lag <= maxLag
      invariant -maxLag <= lag && lag <= Max(maxLag + 1, -maxLag)
      invariant bestCorr >= -2.0
      invariant bestCorr == -2.0 ==> bestLag == 0
      invariant bestCorr > -2.0 ==> -maxLag <= bestLag < lag && bestCorr == Correlation(a, b, bestLag, n)
      invariant forall l :: -maxLag <= l < lag ==> Correlation(a, b, l, n) <= bestCorr
      invariant bestCorr > -2.0 ==> forall l :: -maxLag <= l < bestLag ==> Correlation(a, b, l, n) < bestCorr
    {
      var s := 0.0;
      for i := 0 to n
        invariant s == Correlation(a, b, lag, i)
      {
        var j := i - lag;
        CorrelationStep(a, b, lag, i);
        if 0 <= j < n {
          s := s + a[i] * b[j];
        }
      }
      if s > bestCorr {
        bestCorr, bestLag := s, lag;
      }
      lag := lag + 1;
    }
    if bestCorr > -2.0 {
      assert -maxLag <= bestLag <= maxLag && Correlation(a, b, bestLag, |a|) > -2.0;
    }
    assert IsFirstBest(a, b, maxLag, bestLag, bestCorr);
    forall k | Delayed(a, b, k) && -maxLag <= k <= maxLag
      ensures bestLag == k && bestCorr == Energy(b, 0, n)
    {
      DelayCorrelatesBest(a, b, k, bestLag);
    }
    if Energy(a, 0, n) <= 1.0 && Energy(b, 0, n) <= 1.0 && maxLag >= 0 {
      UnitEnergyBoundsCorrelation(a, b, 0);
      UnitEnergyBoundsCorrelation(a, b, bestLag);
    }
  }
}
