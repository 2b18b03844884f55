/**
 * The per-frame decision of the page's `updatePitch`: a silence gate on the
 * frame's energy, an unnormalised autocorrelation, a cursor that walks down the
 * slope after lag 0, a first-maximum peak search and the voice-band check.
 * The functions say what each step computes; the methods are the loops of the
 * program, each proved to compute its function.
 */
module PitchEstimator {
  import opened Options

  /** Σ x[i]², summed from the front as the program's loop does. */
  function SumSq(x: seq<real>): real
  {
    if x == [] then 0.0 else SumSq(x[..|x| - 1]) + x[|x| - 1] * x[|x| - 1]
  }

  /**
   * The gate `Math.sqrt(Σx² / N) < 0.01`, without the square root. For an empty
   * frame the program compares NaN and the frame is not silent; so it is here.
   */
  predicate Silent(x: seq<real>)
  {
    SumSq(x) < 0.0001 * (|x| as real)
  }

  /** Σ_{j<m} x[j]·x[j+lag], accumulated in the order of the inner loop. */
  function LagSum(x: seq<real>, lag: nat, m: nat): real
    requires lag + m <= |x|
  {
    if m == 0 then 0.0 else LagSum(x, lag, m - 1) + x[m - 1] * x[m - 1 + lag]
  }

  /** r[i] = Σ_{j<N-i} x[j]·x[j+i] for every lag i < N. */
  function Autocorrelation(x: seq<real>): (r: seq<real>)
    ensures |r| == |x|
    ensures forall i :: 0 <= i < |x| ==> r[i] == LagSum(x, i, |x| - i)
  {
    seq(|x|, i requires 0 <= i < |x| => LagSum(x, i, |x| - i))
  }

  /**
   * Where `while (r[d] > r[d + 1]) d++` stops when started at `d`. At the last
   * index the program reads `r[N]`, which is undefined, and the comparison fails.
   */
  function DescentEnd(r: seq<real>, d: nat): (e: nat)
    ensures e >= d
    decreases |r| - d
  {
    if d + 1 < |r| && r[d] > r[d + 1] then DescentEnd(r, d + 1) else d
  }

  /** The scan `if (r[i] > maxval) { maxval = r[i]; maxpos = i; }` over the lags from `i` on. */
  function PeakFrom(r: seq<real>, i: nat, maxval: real, maxpos: int): (real, int)
    decreases |r| - i
  {
    if i >= |r| then (maxval, maxpos)
    else if r[i] > maxval then PeakFrom(r, i + 1, r[i], i)
    else PeakFrom(r, i + 1, maxval, maxpos)
  }

  /** The peak search from `d`, seeded with maxval = -1 and maxpos = -1. */
  function Peak(r: seq<real>, d: nat): (real, int)
  {
    PeakFrom(r, d, -1.0, -1)
  }

  /**
   * The frequency `sampleRate / t0` when it lies strictly between 80 and 1000 Hz.
   * A zero lag gives an infinite or NaN frequency in the program, which fails both comparisons.
   */
  function BandFrequency(sampleRate: real, t0: int): (f: Option<real>)
    ensures f.Some? ==> t0 != 0 && 80.0 < f.value < 1000.0 && f.value * (t0 as real) == sampleRate
    ensures t0 != 0 && 80.0 < sampleRate / (t0 as real) < 1000.0 ==> f == Some(sampleRate / (t0 as real))
  {
    if t0 == 0 then None
    else
      var freq := sampleRate / (t0 as real);
      if 80.0 < freq < 1000.0 then Some(freq) else None
  }

  /** The whole per-frame estimate: None for a silent or out-of-band frame, else the frequency. */
  function Estimate(x: seq<real>, sampleRate: real): (f: Option<real>)
    ensures Silent(x) ==> f == None
    ensures f.Some? ==> 80.0 < f.value < 1000.0
  {
    if Silent(x) then None
    else
      var r := Autocorrelation(x);
      var (_, t0) := Peak(r, DescentEnd(r, 0));
      BandFrequency(sampleRate, t0)
  }

  // ----- What the steps promise -----

  /** The lags the descent walks over form a strictly decreasing run. */
  ghost predicate StrictlyDecreasingUpTo(r: seq<real>, d: nat)
    requires d < |r| || d == 0
  {
    forall k :: 0 <= k < d ==> r[k] > r[k + 1]
  }

  /**
   * The descent cursor is the least index at which the walk must stop: r falls
   * strictly on [0, d], and either d is the last lag or r[d] <= r[d + 1].
   */
  ghost predicate IsDescentEnd(r: seq<real>, d: nat)
  {
    && (if |r| == 0 then d == 0 else d < |r|)
    && StrictlyDecreasingUpTo(r, d)
    && (d + 1 < |r| ==> r[d] <= r[d + 1])
  }

  lemma {:induction false} DescentEndFrom(r: seq<real>, d: nat)
    requires d == 0 || d < |r|
    requires StrictlyDecreasingUpTo(r, d)
    ensures IsDescentEnd(r, DescentEnd(r, d))
    decreases |r| - d
  {
    if d + 1 < |r| && r[d] > r[d + 1] {
      DescentEndFrom(r, d + 1);
    }
  }

  /** DescentEnd(r, 0) is exactly the least stopping index described above. */
  lemma DescentEndIsLeastStop(r: seq<real>)
    ensures IsDescentEnd(r, DescentEnd(r, 0))
  {
    DescentEndFrom(r, 0);
  }

  /** No other index satisfies the description: the stopping index is unique. */
  lemma {:induction false} DescentEndUnique(r: seq<real>, d: nat)
    requires IsDescentEnd(r, d)
    ensures d == DescentEnd(r, 0)
  {
    DescentEndIsLeastStop(r);
  }

  /**
   * The peak search result over r[d..): maxpos is -1 exactly when no lag from d on
   * exceeds -1; otherwise it is the first lag holding the maximum of r[d..).
   */
  ghost predicate IsFirstPeak(r: seq<real>, d: nat, maxval: real, maxpos: int)
  {
    IsFirstPeakBefore(r, d, |r|, maxval, maxpos)
  }

  /** IsFirstPeak restricted to the lags below `hi`. */
  ghost predicate IsFirstPeakBefore(r: seq<real>, d: nat, hi: nat, maxval: real, maxpos: int)
    requires hi <= |r|
  {
    && (maxpos == -1 <==> forall k :: d <= k < hi ==> r[k] <= -1.0)
    && (maxpos == -1 ==> maxval == -1.0)
    && (maxpos != -1 ==>
          && d <= maxpos < hi
          && maxval == r[maxpos]
          && (forall k :: d <= k < hi ==> r[k] <= r[maxpos])
          && (forall k :: d <= k < maxpos ==> r[k] < r[maxpos]))
  }

  lemma {:induction false} PeakFromIsFirstPeak(r: seq<real>, d: nat, i: nat, maxval: real, maxpos: int)
    requires d <= i <= |r|
    requires IsFirstPeakBefore(r, d, i, maxval, maxpos)
    ensures IsFirstPeak(r, d, PeakFrom(r, i, maxval, maxpos).0, PeakFrom(r, i, maxval, maxpos).1)
    decreases |r| - i
  {
    if i < |r| {
      if r[i] > maxval {
        assert IsFirstPeakBefore(r, d, i + 1, r[i], i);
        PeakFromIsFirstPeak(r, d, i + 1, r[i], i);
      } else {
        assert IsFirstPeakBefore(r, d, i + 1, maxval, maxpos);
        PeakFromIsFirstPeak(r, d, i + 1, maxval, maxpos);
      }
    }
  }

  /** The search with strict `>` keeps the earliest of equal maxima, and reports -1 when nothing beats the seed. */
  lemma PeakIsFirstMaximum(r: seq<real>, d: nat)
    ensures IsFirstPeak(r, d, Peak(r, d).0, Peak(r, d).1)
  {
    if d <= |r| {
      PeakFromIsFirstPeak(r, d, d, -1.0, -1);
    }
  }

  /** The lag-0 correlation is the frame's energy, the quantity the gate measures. */
  lemma {:induction false} LagZeroIsEnergy(x: seq<real>, m: nat)
    requires m <= |x|
    ensures LagSum(x, 0, m) == SumSq(x[..m])
  {
    if m > 0 {
      LagZeroIsEnergy(x, m - 1);
      assert x[..m][..m - 1] == x[..m - 1];
    }
  }

  /** r[0] is Σx², and it is at least 0.0001·N on every frame the gate lets through. */
  lemma AutocorrelationAtZero(x: seq<real>)
    requires |x| > 0
    ensures Autocorrelation(x)[0] == SumSq(x)
    ensures !Silent(x) ==> Autocorrelation(x)[0] >= 0.0001 * (|x| as real) > 0.0
  {
    LagZeroIsEnergy(x, |x|);
    assert x[..|x|] == x;
  }

  /** Multiplying by a positive number keeps a strict order, both ways. */
  lemma ScaleStrict(a: real, b: real, t: real)
    requires t > 0.0
    ensures a < b <==> a * t < b * t
  {
    if a < b {
      assert (b - a) * t > 0.0;
    } else {
      assert (a - b) * t >= 0.0;
    }
  }

  /** A positive number divided by a negative one is negative. */
  lemma QuotientByNegative(a: real, t: real)
    requires a > 0.0 && t < 0.0
    ensures a / t < 0.0
  {
    var q := a / (-t);
    assert q * (-t) == a;
    ScaleStrict(0.0, q, -t);
    assert a / t == -q;
  }

  /**
   * With a positive sample rate the band test is a test on the lag alone:
   * sampleRate / t0 is in (80, 1000) exactly when t0 > 0 and sampleRate/1000 < t0 < sampleRate/80.
   * In particular the -1 of a failed peak search, and lag 0, are never voiced.
   */
  lemma BandOnLag(sampleRate: real, t0: int)
    requires sampleRate > 0.0
    ensures BandFrequency(sampleRate, t0).Some? <==>
      t0 > 0 && sampleRate / 1000.0 < t0 as real < sampleRate / 80.0
    ensures t0 <= 0 ==> BandFrequency(sampleRate, t0) == None
  {
    var t := t0 as real;
    if t0 > 0 {
      var f := sampleRate / t;
      assert f * t == sampleRate;
      ScaleStrict(80.0, f, t);
      ScaleStrict(f, 1000.0, t);
      assert sampleRate / 1000.0 < t <==> sampleRate < 1000.0 * t by {
        ScaleStrict(sampleRate / 1000.0, t, 1000.0);
      }
      assert t < sampleRate / 80.0 <==> 80.0 * t < sampleRate by {
        ScaleStrict(t, sampleRate / 80.0, 80.0);
      }
    } else if t0 < 0 {
      QuotientByNegative(sampleRate, t);
    }
  }

  /**
   * The tick is voiced exactly when the frame passes the gate and the lag of the peak
   * lies strictly between sampleRate/1000 and sampleRate/80.
   */
  lemma VoicedExactlyInBand(x: seq<real>, sampleRate: real)
    requires sampleRate > 0.0
    ensures var r := Autocorrelation(x);
      var t0 := Peak(r, DescentEnd(r, 0)).1;
      Estimate(x, sampleRate).Some? <==>
        !Silent(x) && t0 > 0 && sampleRate / 1000.0 < t0 as real < sampleRate / 80.0
  {
    var r := Autocorrelation(x);
    BandOnLag(sampleRate, Peak(r, DescentEnd(r, 0)).1);
  }

  /**
   * A voiced estimate is sampleRate / T0 for the lag T0 of the first maximum of the
   * autocorrelation past its initial descent, and that lag is a real, positive lag.
   */
  lemma EstimateIsPeakFrequency(x: seq<real>, sampleRate: real)
    requires sampleRate > 0.0
    requires Estimate(x, sampleRate).Some?
    ensures var r := Autocorrelation(x);
      var d := DescentEnd(r, 0);
      var (maxval, t0) := Peak(r, d);
      && !Silent(x)
      && IsDescentEnd(r, d)
      && IsFirstPeak(r, d, maxval, t0)
      && 0 < t0 < |x|
      && Estimate(x, sampleRate).value == sampleRate / (t0 as real)
  {
    var r := Autocorrelation(x);
    var d := DescentEnd(r, 0);
    var (maxval, t0) := Peak(r, d);
    DescentEndIsLeastStop(r);
    PeakIsFirstMaximum(r, d);
    BandOnLag(sampleRate, t0);
  }

  // ----- The loops of updatePitch -----

  /** `for (i ...) rms += val * val`. */
  method SumOfSquares(x: seq<real>) returns (s: real)
    ensures s == SumSq(x)
  {
    s := 0.0;
    for i := 0 to |x|
      invariant s == SumSq(x[..i])
    {
      assert x[..i + 1][..i] == x[..i];
      s := s + x[i] * x[i];
    }
    assert x[..|x|] == x;
  }

  /** The nested loops filling the zero-initialised `Float32Array r` in place. */
  method Autocorrelate(x: seq<real>) returns (r: seq<real>)
    ensures r == Autocorrelation(x)
  {
    var n := |x|;
    var a := new real[n](_ => 0.0);
    for i := 0 to n
      invariant forall k :: 0 <= k < i ==> a[k] == LagSum(x, k, n - k)
      invariant forall k :: i <= k < n ==> a[k] == 0.0
    {
      for j := 0 to n - i
        invariant a[i] == LagSum(x, i, j)
        invariant forall k :: 0 <= k < i ==> a[k] == LagSum(x, k, n - k)
        invariant forall k :: i < k < n ==> a[k] == 0.0
      {
        a[i] := a[i] + x[j] * x[j + i];
      }
    }
    r := a[..];
  }

  /** `let d = 0; while (r[d] > r[d + 1]) d++;`, with the out-of-range read made explicit. */
  method Descend(r: seq<real>) returns (d: nat)
    ensures d == DescentEnd(r, 0)
    ensures IsDescentEnd(r, d)
  {
    d := 0;
    while d + 1 < |r| && r[d] > r[d + 1]
      invariant d == 0 || d < |r|
      invariant DescentEnd(r, d) == DescentEnd(r, 0)
      decreases |r| - d
    {
      d := d + 1;
    }
    DescentEndIsLeastStop(r);
  }

  /** `let maxval = -1, maxpos = -1; for (let i = d; i < N; i++) if (r[i] > maxval) ...`. */
  method PeakSearch(r: seq<real>, d: nat) returns (maxval: real, maxpos: int)
    ensures (maxval, maxpos) == Peak(r, d)
    ensures IsFirstPeak(r, d, maxval, maxpos)
  {
    maxval, maxpos := -1.0, -1;
    var i := d;
    while i < |r|
      invariant d <= i
      invariant PeakFrom(r, i, maxval, maxpos) == Peak(r, d)
      decreases |r| - i
    {
      if r[i] > maxval {
        maxval, maxpos := r[i], i;
      }
      i := i + 1;
    }
    PeakIsFirstMaximum(r, d);
  }

  /** The decision part of updatePitch: the gate, then the three loops and the band check. */
  method EstimateFrame(x: seq<real>, sampleRate: real) returns (f: Option<real>)
    ensures f == Estimate(x, sampleRate)
  {
    var energy := SumOfSquares(x);
    if energy < 0.0001 * (|x| as real) {
      return None;
    }
    var r := Autocorrelate(x);
    var d := Descend(r);
    var maxval, maxpos := PeakSearch(r, d);
    f := BandFrequency(sampleRate, maxpos);
  }
}
