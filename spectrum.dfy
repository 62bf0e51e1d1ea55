// STEP_CALC_FREQUENCIES and STEP_UPDATE_FILTERS arithmetic: the energy-weighted
// mean bin, the centre-frequency estimate and its clamps, and the notch cutoff.
module Spectrum {
  import opened AnalyseConfig
  import opened Filter

  /** MAX(a, b) of common/utils.h. */
  function Max(a: real, b: real): (r: real)
    ensures r >= a && r >= b && (r == a || r == b)
  {
    if a > b then a else b
  }

  /**
   * constrain(amt, low, high) of common/maths.h, which takes and returns int:
   * the value clamped into [low, high].
   */
  function Constrain(amt: int, low: int, high: int): (r: int)
    ensures low <= high ==> low <= r <= high
    ensures low <= amt <= high ==> r == amt
    ensures amt < low ==> r == low
    ensures low <= high && high < amt ==> r == high
  {
    if amt < low then low else if amt > high then high else amt
  }

  /** C conversion of a float to int: truncation toward zero. */
  function TruncateToInt(x: real): (r: int)
    ensures 0.0 <= x ==> 0 <= r && r as real <= x < r as real + 1.0
    ensures x < 0.0 ==> r <= 0 && r as real - 1.0 < x <= r as real
  {
    if x >= 0.0 then x.Floor else -((-x).Floor)
  }

  /** Sum of the squared magnitudes of the first n bins (fftSum). */
  function SumSquares(bins: seq<real>, n: nat): real
    requires n <= |bins|
  {
    if n == 0 then 0.0 else SumSquares(bins, n - 1) + bins[n - 1] * bins[n - 1]
  }

  /** Sum of the squared magnitudes weighted by bin index + 1 (fftWeightedSum). */
  function WeightedSquares(bins: seq<real>, n: nat): real
    requires n <= |bins|
  {
    if n == 0 then 0.0 else WeightedSquares(bins, n - 1) + bins[n - 1] * bins[n - 1] * (n as real)
  }

  /** Largest squared magnitude among the first n bins, starting from 0 (maxVal). */
  function MaxSquare(bins: seq<real>, n: nat): real
    requires n <= |bins|
  {
    if n == 0 then 0.0 else Max(MaxSquare(bins, n - 1), bins[n - 1] * bins[n - 1])
  }

  lemma Square(x: real)
    ensures x * x >= 0.0
  {
    if x < 0.0 {
      var y := -x;
      assert x * x == y * y;
    }
  }

  /** Each weight lies in [1, n], so the weighted sum lies between the sum and n times the sum. */
  lemma {:induction false} WeightBounds(bins: seq<real>, n: nat)
    requires n <= |bins|
    ensures 0.0 <= SumSquares(bins, n)
    ensures SumSquares(bins, n) <= WeightedSquares(bins, n) <= (n as real) * SumSquares(bins, n)
  {
    if n > 0 {
      WeightBounds(bins, n - 1);
      var sq := bins[n - 1] * bins[n - 1];
      var s := SumSquares(bins, n - 1);
      var w := WeightedSquares(bins, n - 1);
      Square(bins[n - 1]);
      assert sq <= sq * (n as real);
      assert ((n - 1) as real) * s <= (n as real) * s;
      assert w + sq * (n as real) <= (n as real) * s + (n as real) * sq;
      assert (n as real) * s + (n as real) * sq == (n as real) * (s + sq);
    }
  }

  /** A silent spectrum has no peak: the fold behind maxVal stays at its starting 0. */
  lemma {:induction false} SilentSpectrumHasNoPeak(bins: seq<real>, n: nat)
    requires n <= |bins|
    requires SumSquares(bins, n) == 0.0
    ensures MaxSquare(bins, n) == 0.0
    ensures forall i :: 0 <= i < n ==> bins[i] * bins[i] == 0.0
  {
    if n > 0 {
      var last := bins[n - 1];
      WeightBounds(bins, n - 1);
      Square(last);
      assert SumSquares(bins, n - 1) == 0.0 && last * last == 0.0;
      SilentSpectrumHasNoPeak(bins, n - 1);
    }
  }

  /** w / s lies in [1, n] when s <= w <= n * s and s > 0. */
  lemma QuotientBounds(w: real, s: real, n: real)
    requires 0.0 < s && s <= w <= n * s
    ensures 1.0 <= w / s <= n
  {
    var q := w / s;
    assert q * s == w;
  }

  /**
   * fftMeanIndex: the energy-weighted mean bin index (weights start at 1,
   * hence the -1). It lies within the 16 bins whenever the spectrum is not silent.
   */
  function MeanIndex(bins: seq<real>): (m: real)
    requires FftBinCount <= |bins|
    requires SumSquares(bins, FftBinCount) > 0.0
    ensures 0.0 <= m <= (FftBinCount - 1) as real
  {
    WeightBounds(bins, FftBinCount);
    QuotientBounds(WeightedSquares(bins, FftBinCount), SumSquares(bins, FftBinCount), FftBinCount as real);
    WeightedSquares(bins, FftBinCount) / SumSquares(bins, FftBinCount) - 1.0
  }

  /**
   * The centre frequency before smoothing: the mean index in Hz, clamped to
   * [DYN_NOTCH_MIN_CUTOFF + 10, FFT_MAX_FREQUENCY]. Because the mean index is at
   * most 15 bins (468.75 Hz), the upper clamp never applies here.
   */
  function RawCenter(bins: seq<real>): (c: int)
    requires FftBinCount <= |bins|
    requires SumSquares(bins, FftBinCount) > 0.0
    ensures DynNotchMinCutoff + 10 <= c <= 468
    ensures c == if MeanIndex(bins) * FftResolution < 130.0 then 130
                 else (MeanIndex(bins) * FftResolution).Floor
  {
    var hz := MeanIndex(bins) * FftResolution;
    assert hz <= 468.75;
    Constrain(TruncateToInt(hz), DynNotchMinCutoff + 10, FftMaxFrequency)
  }

  /**
   * The stored centre frequency: the raw centre passed through the smoothing
   * biquad, clamped again to [130, 500]; also the smoothing filter's next state.
   */
  function SmoothedCenter(ops: FilterOps, freqFilter: Biquad, bins: seq<real>): (r: (Biquad, int))
    requires FftBinCount <= |bins|
    requires SumSquares(bins, FftBinCount) > 0.0
    ensures DynNotchMinCutoff + 10 <= r.1 <= FftMaxFrequency
    ensures r.0 == ops.apply(freqFilter, RawCenter(bins) as real).0
    ensures var smoothed := ops.apply(freqFilter, RawCenter(bins) as real).1;
            130.0 <= smoothed < 501.0 ==> r.1 == TruncateToInt(smoothed)
  ensures var smoothed := ops.apply(freqFilter, RawCenter(bins) as real).1;
          smoothed < 130.0 ==> r.1 == DynNotchMinCutoff + 10
  ensures var smoothed := ops.apply(freqFilter, RawCenter(bins) as real).1;
          smoothed >= 501.0 ==> r.1 == FftMaxFrequency
  {
    var out := ops.apply(freqFilter, RawCenter(bins) as real);
    (out.0, Constrain(TruncateToInt(out.1), DynNotchMinCutoff + 10, FftMaxFrequency))
  }

  /**
   * cutoffFreq: centre minus DYN_NOTCH_WIDTH clamped to [120, 200]. It lies at
   * least 10 Hz below the centre exactly when the centre is at least 130 Hz,
   * which is what filterGetNotchQ needs.
   */
  function NotchCutoff(center: int): (cutoff: int)
    ensures DynNotchMinCutoff <= cutoff <= DynNotchMaxCutoff
    ensures cutoff + 10 <= center <==> DynNotchMinCutoff + 10 <= center
  {
    Constrain(center - DynNotchWidth, DynNotchMinCutoff, DynNotchMaxCutoff)
  }
}
