// sensors/gyroanalyse.c: the gyro data analysis behind the dynamic notch
// filter. Its static state is the class GyroAnalyser; the FFT stages and the
// biquad filters it calls are function values (see Filter and ArmMath).
module GyroAnalyse {
  import opened AnalyseConfig
  import opened Filter
  import opened ArmMath
  import opened Spectrum
  import opened Schedule
  import opened Pipeline

  /** gyroDev->gyroADC: one raw reading per axis. */
  type AxisReading = s: seq<real> | |s| == XyzAxisCount witness [0.0, 0.0, 0.0]

  /** Sum of one axis over a run of readings. */
  function AxisSum(readings: seq<AxisReading>, axis: nat): real
    requires axis < XyzAxisCount
  {
    if readings == [] then 0.0
    else AxisSum(readings[..|readings| - 1], axis) + readings[|readings| - 1][axis]
  }

  /** Mean of one axis over a non-empty run of readings. */
  function Mean(readings: seq<AxisReading>, axis: nat): real
    requires axis < XyzAxisCount && |readings| > 0
  {
    AxisSum(readings, axis) / |readings| as real
  }

  function Min(a: nat, b: nat): nat
  {
    if a < b then a else b
  }

  /**
   * The STEP_CALC_FREQUENCIES loop over the 16 bins: the total energy, the
   * energy weighted by bin index + 1, and the largest squared magnitude.
   */
  method SumBins(fftData: array<real>) returns (fftSum: real, fftWeightedSum: real, maxVal: real)
    requires FftBinCount <= fftData.Length
    ensures fftSum == SumSquares(fftData[..], FftBinCount)
    ensures fftWeightedSum == WeightedSquares(fftData[..], FftBinCount)
    ensures maxVal == MaxSquare(fftData[..], FftBinCount)
  {
    fftSum, fftWeightedSum, maxVal := 0.0, 0.0, 0.0;
    for i := 0 to FftBinCount
      invariant fftSum == SumSquares(fftData[..], i)
      invariant fftWeightedSum == WeightedSquares(fftData[..], i)
      invariant maxVal == MaxSquare(fftData[..], i)
    {
      var squaredData := fftData[i] * fftData[i];
      maxVal := Max(maxVal, squaredData);
      fftSum := fftSum + squaredData;
      fftWeightedSum := fftWeightedSum + squaredData * (i + 1) as real;
    }
  }

  /**
   * The ring after the sampling loop has written out[b] at slot idx of the
   * first n axes.
   */
  function WriteSlots(gyroData: seq<real>, idx: nat, out: seq<real>, n: nat): (r: seq<real>)
    requires |gyroData| == XyzAxisCount * FftWindowSize && idx < FftWindowSize
    requires n <= |out| == XyzAxisCount
    ensures |r| == |gyroData|
  {
    if n == 0 then gyroData
    else WriteSlots(gyroData, idx, out, n - 1)[(n - 1) * FftWindowSize + idx := out[n - 1]]
  }

  /** A write into the ring changes the row it falls in, at one slot, and no other row. */
  lemma RowAfterWrite(gyroData: seq<real>, b: nat, idx: nat, v: real, a: nat)
    requires |gyroData| == XyzAxisCount * FftWindowSize && idx < FftWindowSize
    requires b < XyzAxisCount && a < XyzAxisCount
    ensures RingRow(gyroData[b * FftWindowSize + idx := v], a) ==
      if a == b then RingRow(gyroData, a)[idx := v] else RingRow(gyroData, a)
  {
    var lhs := RingRow(gyroData[b * FftWindowSize + idx := v], a);
    var rhs := if a == b then RingRow(gyroData, a)[idx := v] else RingRow(gyroData, a);
    forall i | 0 <= i < FftWindowSize
      ensures lhs[i] == rhs[i]
    {
      if a < b {
        assert a * FftWindowSize + i < b * FftWindowSize;
      } else if a > b {
        assert a * FftWindowSize + i > b * FftWindowSize + idx;
      }
    }
  }

  /** After the loop over the first n axes, exactly slot idx of each of those rows has changed. */
  lemma {:induction false} WrittenRows(gyroData: seq<real>, idx: nat, out: seq<real>, n: nat, a: nat)
    requires |gyroData| == XyzAxisCount * FftWindowSize && idx < FftWindowSize
    requires n <= |out| == XyzAxisCount && a < XyzAxisCount
    ensures RingRow(WriteSlots(gyroData, idx, out, n), a) ==
      if a < n then RingRow(gyroData, a)[idx := out[a]] else RingRow(gyroData, a)
  {
    if n > 0 {
      WrittenRows(gyroData, idx, out, n - 1, a);
      RowAfterWrite(WriteSlots(gyroData, idx, out, n - 1), n - 1, idx, out[n - 1], a);
    }
  }

  /**
   * After the sampling loop, each ring has changed at slot idx only, and read
   * oldest-first from the next index it has slid by one sample.
   */
  lemma SampledRows(gyroData: seq<real>, idx: nat, samples: seq<real>)
    requires |gyroData| == XyzAxisCount * FftWindowSize && idx < FftWindowSize && |samples| == XyzAxisCount
    ensures forall a :: 0 <= a < XyzAxisCount ==>
      RingRow(WriteSlots(gyroData, idx, samples, XyzAxisCount), a) == RingRow(gyroData, a)[idx := samples[a]] &&
      Unrolled(RingRow(WriteSlots(gyroData, idx, samples, XyzAxisCount), a), (idx + 1) % FftWindowSize) ==
        Unrolled(RingRow(gyroData, a), idx)[1..] + [samples[a]]
  {
    forall a | 0 <= a < XyzAxisCount
      ensures RingRow(WriteSlots(gyroData, idx, samples, XyzAxisCount), a) == RingRow(gyroData, a)[idx := samples[a]]
      ensures Unrolled(RingRow(WriteSlots(gyroData, idx, samples, XyzAxisCount), a), (idx + 1) % FftWindowSize) ==
        Unrolled(RingRow(gyroData, a), idx)[1..] + [samples[a]]
    {
      WrittenRows(gyroData, idx, samples, XyzAxisCount, a);
      SlidingWindow(RingRow(gyroData, a), idx, samples[a]);
    }
  }

  /** The mean of a run, one reading longer. */
  lemma AxisSumAppend(readings: seq<AxisReading>, r: AxisReading, axis: nat)
    requires axis < XyzAxisCount
    ensures AxisSum(readings + [r], axis) == AxisSum(readings, axis) + r[axis]
  {
    assert (readings + [r])[..|readings|] == readings;
  }

  /** What the band-pass gives for each axis's accumulated mean. */
  function Outputs(apply: (Biquad, real) -> (Biquad, real), filters: seq<Biquad>, acc: seq<real>, scale: nat)
    : (out: seq<(Biquad, real)>)
    requires |filters| == |acc| == XyzAxisCount && scale > 0
    ensures |out| == XyzAxisCount
  {
    seq(XyzAxisCount, b requires 0 <= b < XyzAxisCount => apply(filters[b], acc[b] / scale as real))
  }

  /** The filters' next states among the band-pass outputs. */
  function Filters(out: seq<(Biquad, real)>): (filters: seq<Biquad>)
    ensures |filters| == |out|
  {
    seq(|out|, b requires 0 <= b < |out| => out[b].0)
  }

  /** The filtered samples among the band-pass outputs. */
  function Samples(out: seq<(Biquad, real)>): (samples: seq<real>)
    ensures |samples| == |out|
  {
    seq(|out|, b requires 0 <= b < |out| => out[b].1)
  }

  /**
   * The sampling loop, read per axis: the accumulated sums over a run of
   * readings become their mean before the band-pass, and each ring slides.
   */
  lemma SampledMeans(apply: (Biquad, real) -> (Biquad, real), gyroData: seq<real>, filters: seq<Biquad>,
                     acc: seq<real>, readings: seq<AxisReading>, idx: nat)
    requires |gyroData| == XyzAxisCount * FftWindowSize && idx < FftWindowSize
    requires |filters| == |acc| == XyzAxisCount && |readings| > 0
    requires forall a :: 0 <= a < XyzAxisCount ==> acc[a] == AxisSum(readings, a)
    ensures var out := Outputs(apply, filters, acc, |readings|);
      forall a :: 0 <= a < XyzAxisCount ==>
        out[a] == apply(filters[a], Mean(readings, a)) &&
        RingRow(WriteSlots(gyroData, idx, Samples(out), XyzAxisCount), a) == RingRow(gyroData, a)[idx := out[a].1] &&
        Unrolled(RingRow(WriteSlots(gyroData, idx, Samples(out), XyzAxisCount), a), (idx + 1) % FftWindowSize) ==
          Unrolled(RingRow(gyroData, a), idx)[1..] + [out[a].1]
  {
    var out := Outputs(apply, filters, acc, |readings|);
    SampledRows(gyroData, idx, Samples(out));
  }

  class GyroAnalyser {
    /** The biquad operations of filter.h and the CMSIS-DSP FFT stages. */
    const filterOps: FilterOps
    const fftOps: FftOps

    /** fftSamplingScale */
    const samplingScale: nat
    /** gyroData[3][32], row-major: sample i of axis a is at a * 32 + i. */
    const gyroData: array<real>
    const fftData: array<real>
    const rfftData: array<real>
    const fftResult: array<FftResult>
    /** The band-pass on the decimated samples and the smoothing low-pass on the centre estimate. */
    const fftGyroFilter: array<Biquad>
    const fftFreqFilter: array<Biquad>
    const hanningWindow: array<real>
    /** Ring write index, shared by the three axes. */
    var fftIdx: RingIndex

    // The statics of gyroDataAnalyse.
    const fftAcc: array<real>
    var fftAccCount: nat
    var updateTicks: nat

    // The statics of gyroDataAnalyseUpdate.
    var axis: AxisIndex
    var step: StepIndex

    /** The readings summed into fftAcc since the last analysis sample. */
    ghost var pending: seq<AxisReading>
    /** Update calls made since the last analysis sample. */
    ghost var callsSinceSample: nat
    /** Whether an analysis sample has been taken yet. */
    ghost var sampledOnce: bool
    /** Update calls made since init. */
    ghost var updateCalls: nat

    /** The step machine's state is well formed and every centre frequency is in [130, 500]. */
    ghost predicate PipelineValid()
      reads fftResult
    {
      NotchQDefined(filterOps) &&
      gyroData.Length == XyzAxisCount * FftWindowSize &&
      fftData.Length == FftWindowSize && rfftData.Length == FftWindowSize &&
      hanningWindow.Length == FftWindowSize &&
      fftResult.Length == XyzAxisCount && fftGyroFilter.Length == XyzAxisCount &&
      fftFreqFilter.Length == XyzAxisCount && fftAcc.Length == XyzAxisCount &&
      fftData != rfftData && fftData != hanningWindow && rfftData != hanningWindow &&
      gyroData != fftData && gyroData != rfftData && gyroData != hanningWindow &&
      fftGyroFilter != fftFreqFilter &&
      forall a :: 0 <= a < XyzAxisCount ==>
        DynNotchMinCutoff + 10 <= fftResult[a].centerFreq <= FftMaxFrequency
    }

    /**
     * The sampler: fftAccCount counts the readings in fftAcc, which hold their
     * sums, and stays below fftSamplingScale.
     */
    ghost predicate Accumulated()
      reads this`fftAccCount, this`pending, fftAcc
    {
      fftAcc.Length == XyzAxisCount &&
      fftAcc != gyroData && fftAcc != fftData && fftAcc != rfftData && fftAcc != hanningWindow &&
      (samplingScale == 0 || fftAccCount < samplingScale) &&
      |pending| == fftAccCount &&
      forall a :: 0 <= a < XyzAxisCount ==> fftAcc[a] == AxisSum(pending, a)
    }

    /**
     * The update budget: after the first sample, the update calls made since
     * the last sample are min(fftAccCount + made, 12), where `made` is 1 between
     * calls and 0 in the middle of one, and the budget holds the rest of 12.
     */
    ghost predicate Budget(made: nat)
      reads this`fftAccCount, this`updateTicks, this`callsSinceSample, this`sampledOnce
    {
      callsSinceSample == (if sampledOnce then Min(fftAccCount + made, DynNotchCalcTicks) else 0) &&
      updateTicks == (if sampledOnce then DynNotchCalcTicks - callsSinceSample else 0)
    }

    ghost predicate SamplerValid()
      reads this`fftAccCount, this`pending, this`updateTicks, this`callsSinceSample, this`sampledOnce, fftAcc
    {
      Accumulated() && Budget(1)
    }

    /**
     * The step machine's position follows from the number of update calls
     * alone, whatever samples land between them: the next call is entered at
     * EntryAfter(0, n) (EntryCycle), and the axis is the number of filter
     * updates so far, n / 4 (FilterUpdatesInCalls), mod 3.
     */
    ghost predicate Scheduled()
      reads this`step, this`axis, this`updateCalls
    {
      step == [0, 1, 3, 5][updateCalls % 4] && axis == (updateCalls / 4) % XyzAxisCount
    }

    ghost predicate Valid()
      reads fftResult,
        this`fftAccCount, this`pending, this`updateTicks, this`callsSinceSample, this`sampledOnce, fftAcc
    {
      PipelineValid() && SamplerValid()
    }

    /** What the step machine changes, with the caller's notch filters. */
    ghost function State(notch: array<Biquad>): Pipe
      reads this`axis, fftData, rfftData, fftResult, fftFreqFilter, notch
    {
      Pipe(fftData[..], rfftData[..], fftResult[..], fftFreqFilter[..], notch[..], axis)
    }

    /** What the step machine reads and does not change. */
    ghost function Inputs(targetLooptime: nat): Env
      reads this`fftIdx, gyroData, hanningWindow
    {
      Env(gyroData[..], fftIdx, hanningWindow[..], targetLooptime)
    }

    /**
     * gyroDataAnalyseInit, on top of the zeroed statics. The Hanning
     * coefficients are given, since cos_approx is not modelled.
     */
    constructor Init(targetLooptimeUs: nat, window: seq<real>, filterOps: FilterOps, fftOps: FftOps)
      requires 0 < targetLooptimeUs < Uint32Modulus
      requires |window| == FftWindowSize
      requires NotchQDefined(filterOps)
      ensures Valid() && Scheduled()
      ensures samplingScale == SamplingScale(targetLooptimeUs)
      ensures forall i :: 0 <= i < gyroData.Length ==> gyroData[i] == 0.0
      ensures hanningWindow[..] == window
      ensures forall a :: 0 <= a < XyzAxisCount ==>
        fftResult[a].centerFreq == InitialCenterFreq &&
        fftFreqFilter[a] == filterOps.initLpf(DynNotchChangeRate as real, SmoothingRefreshRate(targetLooptimeUs)) &&
        fftGyroFilter[a] == filterOps.init(FftBpfHz as real, 1000000 / FftSamplingRate, ButterworthQ, Bpf)
      ensures fftIdx == 0 && fftAccCount == 0 && updateTicks == 0 && axis == 0 && step == 0 && updateCalls == 0
      // The statics gyroDataAnalyseInit does not set keep their zero start values.
      ensures fftData[..] == seq(FftWindowSize, _ => 0.0) && rfftData[..] == seq(FftWindowSize, _ => 0.0)
      ensures forall a :: 0 <= a < XyzAxisCount ==> fftResult[a].maxVal == 0.0
      ensures forall a :: 0 <= a < XyzAxisCount ==> fftAcc[a] == 0.0
      ensures fresh(gyroData) && fresh(fftData) && fresh(rfftData) && fresh(fftResult) && fresh(fftAcc)
      ensures fresh(fftGyroFilter) && fresh(fftFreqFilter) && fresh(hanningWindow)
    {
      this.filterOps := filterOps;
      this.fftOps := fftOps;
      samplingScale := SamplingScale(targetLooptimeUs);
      gyroData := new real[XyzAxisCount * FftWindowSize];
      fftData := new real[FftWindowSize](_ => 0.0);
      rfftData := new real[FftWindowSize](_ => 0.0);
      fftResult := new FftResult[XyzAxisCount](_ => FftResult(0.0, 0));
      fftGyroFilter := new Biquad[XyzAxisCount](_ => Biquad(0.0, 0.0, 0.0, 0.0, 0.0, 0.0, 0.0, 0.0, 0.0));
      fftFreqFilter := new Biquad[XyzAxisCount](_ => Biquad(0.0, 0.0, 0.0, 0.0, 0.0, 0.0, 0.0, 0.0, 0.0));
      hanningWindow := new real[FftWindowSize];
      fftAcc := new real[XyzAxisCount](_ => 0.0);
      fftIdx, fftAccCount, updateTicks, axis, step := 0, 0, 0, 0, 0;
      pending, callsSinceSample, sampledOnce, updateCalls := [], 0, false, 0;
      new;
      assert Scheduled();
      assert fftData[..] == seq(FftWindowSize, _ => 0.0) && rfftData[..] == seq(FftWindowSize, _ => 0.0);
      InitStatics(targetLooptimeUs, window);
    }

    /**
     * The body of gyroDataAnalyseInit. It does not touch the sampler, the ring
     * index or the step machine's position, so it may also run on a live analyser.
     */
    method InitStatics(targetLooptimeUs: nat, window: seq<real>)
      requires 0 < targetLooptimeUs < Uint32Modulus && |window| == FftWindowSize
      requires NotchQDefined(filterOps)
      requires gyroData.Length == XyzAxisCount * FftWindowSize
      requires fftData.Length == FftWindowSize && rfftData.Length == FftWindowSize && hanningWindow.Length == FftWindowSize
      requires fftResult.Length == XyzAxisCount && fftGyroFilter.Length == XyzAxisCount
      requires fftFreqFilter.Length == XyzAxisCount && fftAcc.Length == XyzAxisCount
      requires fftData != rfftData && fftData != hanningWindow && rfftData != hanningWindow
      requires gyroData != fftData && gyroData != rfftData && gyroData != hanningWindow && fftGyroFilter != fftFreqFilter
      requires fftAcc != gyroData && fftAcc != fftData && fftAcc != rfftData && fftAcc != hanningWindow
      requires SamplerValid()
      modifies gyroData, hanningWindow, fftResult, fftFreqFilter, fftGyroFilter
      ensures Valid()
      ensures forall i :: 0 <= i < gyroData.Length ==> gyroData[i] == 0.0
      ensures hanningWindow[..] == window
      ensures forall a :: 0 <= a < XyzAxisCount ==>
        fftResult[a] == old(fftResult[a]).(centerFreq := InitialCenterFreq) &&
        fftFreqFilter[a] == filterOps.initLpf(DynNotchChangeRate as real, SmoothingRefreshRate(targetLooptimeUs)) &&
        fftGyroFilter[a] == filterOps.init(FftBpfHz as real, 1000000 / FftSamplingRate, ButterworthQ, Bpf)
    {
      InitGyroData();
      InitHanning(window);
      InitAxes(SmoothingRefreshRate(targetLooptimeUs));
    }

    /**
     * The per-axis part of gyroDataAnalyseInit: the initial centre frequency,
     * the smoothing low-pass at DYN_NOTCH_CHANGERATE and the band-pass at FFT_BPF_HZ.
     */
    method InitAxes(looptime: nat)
      requires fftResult.Length == XyzAxisCount && fftFreqFilter.Length == XyzAxisCount
      requires fftGyroFilter.Length == XyzAxisCount && fftGyroFilter != fftFreqFilter
      modifies fftResult, fftFreqFilter, fftGyroFilter
      ensures forall a :: 0 <= a < XyzAxisCount ==>
        fftResult[a] == old(fftResult[a]).(centerFreq := InitialCenterFreq) &&
        fftFreqFilter[a] == filterOps.initLpf(DynNotchChangeRate as real, looptime) &&
        fftGyroFilter[a] == filterOps.init(FftBpfHz as real, 1000000 / FftSamplingRate, ButterworthQ, Bpf)
    {
      for a := 0 to XyzAxisCount
        invariant forall b :: 0 <= b < XyzAxisCount ==>
          fftResult[b] == if b < a then old(fftResult[b]).(centerFreq := InitialCenterFreq) else old(fftResult[b])
        invariant forall b :: 0 <= b < a ==>
          fftFreqFilter[b] == filterOps.initLpf(DynNotchChangeRate as real, looptime) &&
          fftGyroFilter[b] == filterOps.init(FftBpfHz as real, 1000000 / FftSamplingRate, ButterworthQ, Bpf)
      {
        fftResult[a] := fftResult[a].(centerFreq := InitialCenterFreq);
        fftFreqFilter[a] := filterOps.initLpf(DynNotchChangeRate as real, looptime);
        fftGyroFilter[a] := filterOps.init(FftBpfHz as real, 1000000 / FftSamplingRate, ButterworthQ, Bpf);
      }
    }

    /** initGyroData: every ring entry of every axis is zeroed. */
    method InitGyroData()
      requires gyroData.Length == XyzAxisCount * FftWindowSize
      modifies gyroData
      ensures forall k :: 0 <= k < gyroData.Length ==> gyroData[k] == 0.0
    {
      for a := 0 to XyzAxisCount
        invariant forall k :: 0 <= k < a * FftWindowSize ==> gyroData[k] == 0.0
      {
        for i := 0 to FftWindowSize
          invariant forall k :: 0 <= k < a * FftWindowSize + i ==> gyroData[k] == 0.0
        {
          gyroData[a * FftWindowSize + i] := 0.0;
        }
      }
    }

    /** initHanning, with the coefficients given rather than computed by cos_approx. */
    method InitHanning(window: seq<real>)
      requires hanningWindow.Length == FftWindowSize && |window| == FftWindowSize
      modifies hanningWindow
      ensures hanningWindow[..] == window
    {
      for i := 0 to FftWindowSize
        invariant hanningWindow[..i] == window[..i]
      {
        hanningWindow[i] := window[i];
      }
      assert hanningWindow[..] == hanningWindow[..FftWindowSize];
    }

    /** gyroFftData(axis): the analysis result of one axis. */
    method FftData(a: nat) returns (r: FftResult)
      requires PipelineValid() && a < XyzAxisCount
      ensures r == fftResult[a]
      ensures DynNotchMinCutoff + 10 <= r.centerFreq <= FftMaxFrequency
    {
      r := fftResult[a];
    }

    /** STEP_ARM_CFFT_F32 with FFT_BIN_COUNT == 16: arm_cfft_radix8by2_f32 on fftData. */
    method StepArmCfft(ghost notch: array<Biquad>, ghost targetLooptime: nat)
      requires PipelineValid() && notch.Length == XyzAxisCount
      modifies fftData
      ensures PipelineValid()
      ensures State(notch) == RunStage(filterOps, fftOps, Inputs(targetLooptime), old(State(notch)), ArmCfft)
    {
      var out := fftOps.cfftRadix8by2(fftData[..]);
      forall i | 0 <= i < FftWindowSize {
        fftData[i] := out[i];
      }
    }

    /** STEP_BITREVERSAL: arm_bitreversal_32 on fftData. */
    method StepBitReversal(ghost notch: array<Biquad>, ghost targetLooptime: nat)
      requires PipelineValid() && notch.Length == XyzAxisCount
      modifies fftData
      ensures PipelineValid()
      ensures State(notch) == RunStage(filterOps, fftOps, Inputs(targetLooptime), old(State(notch)), BitReversal)
    {
      var out := fftOps.bitReversal(fftData[..]);
      forall i | 0 <= i < FftWindowSize {
        fftData[i] := out[i];
      }
    }

    /** STEP_STAGE_RFFT_F32: stage_rfft_f32 from fftData into rfftData. */
    method StepStageRfft(ghost notch: array<Biquad>, ghost targetLooptime: nat)
      requires PipelineValid() && notch.Length == XyzAxisCount
      modifies rfftData
      ensures PipelineValid()
      ensures State(notch) == RunStage(filterOps, fftOps, Inputs(targetLooptime), old(State(notch)), StageRfft)
    {
      var out := fftOps.stageRfft(fftData[..]);
      forall i | 0 <= i < FftWindowSize {
        rfftData[i] := out[i];
      }
    }

    /** STEP_ARM_CMPLX_MAG_F32: the 16 bin magnitudes into the front of fftData. */
    method StepCmplxMag(ghost notch: array<Biquad>, ghost targetLooptime: nat)
      requires PipelineValid() && notch.Length == XyzAxisCount
      modifies fftData
      ensures PipelineValid()
      ensures State(notch) == RunStage(filterOps, fftOps, Inputs(targetLooptime), old(State(notch)), CmplxMag)
    {
      var out := fftOps.cmplxMag(rfftData[..]);
      forall i | 0 <= i < FftBinCount {
        fftData[i] := out[i];
      }
    }

    /**
     * STEP_CALC_FREQUENCIES: the energy-weighted mean bin of the current axis,
     * turned into a centre frequency, smoothed and clamped to [130, 500].
     */
    method StepCalcFrequencies(notch: array<Biquad>, ghost targetLooptime: nat)
      requires PipelineValid() && notch.Length == XyzAxisCount && notch != fftFreqFilter
      modifies fftResult, fftFreqFilter
      ensures PipelineValid()
      ensures State(notch) == RunStage(filterOps, fftOps, Inputs(targetLooptime), old(State(notch)), CalcFrequencies)
    {
      ghost var results := fftResult[..];
      ghost var filters := fftFreqFilter[..];
      var fftSum, fftWeightedSum, maxVal := SumBins(fftData);
      fftResult[axis] := fftResult[axis].(maxVal := maxVal);
      if fftSum > 0.0 {
        EstimateCenter(fftSum, fftWeightedSum);
        ghost var est := SmoothedCenter(filterOps, filters[axis], fftData[..]);
        assert fftResult[..] == results[axis := FftResult(maxVal, est.1)];
      } else {
        assert fftResult[..] == results[axis := results[axis].(maxVal := maxVal)];
      }
    }

    /**
     * The fftSum > 0 branch of STEP_CALC_FREQUENCIES: the mean bin index in Hz,
     * clamped, through the smoothing filter of the axis, clamped again.
     */
    method EstimateCenter(fftSum: real, fftWeightedSum: real)
      requires PipelineValid()
      requires fftSum == SumSquares(fftData[..], FftBinCount) && fftSum > 0.0
      requires fftWeightedSum == WeightedSquares(fftData[..], FftBinCount)
      modifies fftResult, fftFreqFilter
      ensures PipelineValid()
      ensures var est := SmoothedCenter(filterOps, old(fftFreqFilter[axis]), fftData[..]);
        fftResult[..] == old(fftResult[..])[axis := old(fftResult[axis]).(centerFreq := est.1)] &&
        fftFreqFilter[..] == old(fftFreqFilter[..])[axis := est.0]
    {
      ghost var bins := fftData[..];
      var fftMeanIndex := fftWeightedSum / fftSum - 1.0;
      assert fftMeanIndex == MeanIndex(bins);
      var centerFreq := Constrain(TruncateToInt(fftMeanIndex * FftResolution), DynNotchMinCutoff + 10, FftMaxFrequency);
      assert centerFreq == RawCenter(bins);
      var out := filterOps.apply(fftFreqFilter[axis], centerFreq as real);
      fftFreqFilter[axis] := out.0;
      centerFreq := Constrain(TruncateToInt(out.1), DynNotchMinCutoff + 10, FftMaxFrequency);
      fftResult[axis] := fftResult[axis].(centerFreq := centerFreq);
    }

    /**
     * STEP_UPDATE_FILTERS: retune the notch of the current axis to its centre
     * frequency, with the cutoff below it, then move on to the next axis.
     */
    method StepUpdateFilters(notch: array<Biquad>, targetLooptime: nat)
      requires PipelineValid() && notch.Length == XyzAxisCount && notch != fftFreqFilter
      modifies this`axis, notch
      ensures PipelineValid()
      ensures State(notch) == RunStage(filterOps, fftOps, Inputs(targetLooptime), old(State(notch)), UpdateFilters)
      ensures axis == (old(axis) + 1) % XyzAxisCount
    {
      ghost var filters := notch[..];
      var centerFreq := fftResult[axis].centerFreq;
      var cutoffFreq := NotchCutoff(centerFreq);
      var notchQ := filterOps.notchQ(centerFreq as real, cutoffFreq as real);
      notch[axis] := filterOps.update(notch[axis], centerFreq as real, targetLooptime, notchQ, Notch);
      assert notch[..] == filters[axis := filterOps.update(filters[axis], centerFreq as real, targetLooptime, notchQ, Notch)];
      axis := (axis + 1) % XyzAxisCount;
    }

    /**
     * STEP_HANNING: the ring of the current axis, oldest sample first, times
     * the Hanning window, into fftData.
     */
    method StepHanning(ghost notch: array<Biquad>, ghost targetLooptime: nat)
      requires PipelineValid() && notch.Length == XyzAxisCount
      modifies fftData
      ensures PipelineValid()
      ensures State(notch) == RunStage(filterOps, fftOps, Inputs(targetLooptime), old(State(notch)), Hanning)
    {
      WindowRing();
      ghost var row := RingRow(gyroData[..], axis);
      ghost var frame := Windowed(gyroData[..], axis, fftIdx, hanningWindow[..]);
      assert forall j :: 0 <= j < FftWindowSize - fftIdx ==> Unrolled(row, fftIdx)[j] == row[fftIdx + j];
      assert forall j :: FftWindowSize - fftIdx <= j < FftWindowSize ==>
        Unrolled(row, fftIdx)[j] == row[j - (FftWindowSize - fftIdx)];
      assert forall j :: 0 <= j < FftWindowSize ==> fftData[j] == frame[j];
      assert fftData[..] == frame;
    }

    /**
     * The two arm_mult_f32 calls of STEP_HANNING: the first weights the ring
     * of the current axis from fftIdx to its end by the start of the window,
     * the second (skipped when fftIdx is 0) the ring from its start up to
     * fftIdx by the rest of the window.
     */
    method WindowRing()
      requires gyroData.Length == XyzAxisCount * FftWindowSize
      requires fftData.Length == FftWindowSize && hanningWindow.Length == FftWindowSize
      requires fftData != gyroData && fftData != hanningWindow
      modifies fftData
      ensures forall j :: 0 <= j < FftWindowSize - fftIdx ==>
        fftData[j] == gyroData[axis * FftWindowSize + fftIdx + j] * hanningWindow[j]
      ensures forall j :: FftWindowSize - fftIdx <= j < FftWindowSize ==>
        fftData[j] == gyroData[axis * FftWindowSize + j - (FftWindowSize - fftIdx)] * hanningWindow[j]
    {
      var ringBufIdx := FftWindowSize - fftIdx;
      MultF32(gyroData, axis * FftWindowSize + fftIdx, hanningWindow, 0, fftData, 0, ringBufIdx);
      if fftIdx > 0 {
        MultF32(gyroData, axis * FftWindowSize, hanningWindow, ringBufIdx, fftData, ringBufIdx, fftIdx);
      }
    }

    /** The cases that end in `step++; FALLTHROUGH;`, together with the case they fall into. */
    method StepBitReversalThenRfft(notch: array<Biquad>, ghost targetLooptime: nat)
      requires PipelineValid() && notch.Length == XyzAxisCount && step == 1
      modifies this`step, fftData, rfftData
      ensures PipelineValid() && step == 2
      ensures State(notch) ==
        RunStages(filterOps, fftOps, Inputs(targetLooptime), old(State(notch)), [BitReversal, StageRfft])
    {
      ghost var env := Inputs(targetLooptime);
      ghost var p0 := State(notch);
      StepBitReversal(notch, targetLooptime);
      step := step + 1;
      StepStageRfft(notch, targetLooptime);
      RunOneOrTwo(filterOps, fftOps, env, p0, BitReversal, StageRfft);
    }

    method StepCmplxMagThenCalc(notch: array<Biquad>, ghost targetLooptime: nat)
      requires PipelineValid() && notch.Length == XyzAxisCount && notch != fftFreqFilter && step == 3
      modifies this`step, fftData, fftResult, fftFreqFilter
      ensures PipelineValid() && step == 4
      ensures State(notch) ==
        RunStages(filterOps, fftOps, Inputs(targetLooptime), old(State(notch)), [CmplxMag, CalcFrequencies])
    {
      ghost var env := Inputs(targetLooptime);
      ghost var p0 := State(notch);
      StepCmplxMag(notch, targetLooptime);
      step := step + 1;
      StepCalcFrequencies(notch, targetLooptime);
      RunOneOrTwo(filterOps, fftOps, env, p0, CmplxMag, CalcFrequencies);
    }

    method StepUpdateFiltersThenHanning(notch: array<Biquad>, targetLooptime: nat)
      requires PipelineValid() && notch.Length == XyzAxisCount && notch != fftFreqFilter && step == 5
      modifies this`axis, this`step, fftData, notch
      ensures PipelineValid() && step == 6
      ensures State(notch) ==
        RunStages(filterOps, fftOps, Inputs(targetLooptime), old(State(notch)), [UpdateFilters, Hanning])
      ensures axis == (old(axis) + 1) % XyzAxisCount
    {
      ghost var env := Inputs(targetLooptime);
      ghost var p0 := State(notch);
      StepUpdateFilters(notch, targetLooptime);
      step := step + 1;
      StepHanning(notch, targetLooptime);
      RunOneOrTwo(filterOps, fftOps, env, p0, UpdateFilters, Hanning);
    }

    /** A call entered at a case that ends in `break`: that case alone. */
    method StepBreaking(notch: array<Biquad>, targetLooptime: nat)
      requires PipelineValid() && notch.Length == XyzAxisCount && notch != fftFreqFilter
      requires !FallsThrough(StageAt(step))
      modifies fftData, rfftData, fftResult, fftFreqFilter
      ensures PipelineValid()
      ensures State(notch) ==
        RunStages(filterOps, fftOps, Inputs(targetLooptime), old(State(notch)), EntryStages(step))
    {
      ghost var p0 := State(notch);
      match StageAt(step) {
      case ArmCfft => StepArmCfft(notch, targetLooptime);
      case StageRfft => StepStageRfft(notch, targetLooptime);
      case CalcFrequencies => StepCalcFrequencies(notch, targetLooptime);
      case Hanning => StepHanning(notch, targetLooptime);
      }
      assert EntryStages(step) == [StageAt(step)];
      RunOneOrTwo(filterOps, fftOps, Inputs(targetLooptime), p0, StageAt(step), StageAt(step));
    }

    /** A call entered at a case that ends in `step++; FALLTHROUGH;`: that case and the next. */
    method StepFallingThrough(notch: array<Biquad>, targetLooptime: nat)
      requires PipelineValid() && notch.Length == XyzAxisCount && notch != fftFreqFilter
      requires FallsThrough(StageAt(step))
      modifies this`axis, this`step, fftData, rfftData, fftResult, fftFreqFilter, notch
      ensures PipelineValid() && step == old(step) + 1
      ensures State(notch) ==
        RunStages(filterOps, fftOps, Inputs(targetLooptime), old(State(notch)), EntryStages(old(step)))
      ensures axis == if StageAt(old(step)) == UpdateFilters then (old(axis) + 1) % XyzAxisCount else old(axis)
    {
      match StageAt(step) {
      case BitReversal =>
        assert EntryStages(step) == [BitReversal, StageRfft];
        StepBitReversalThenRfft(notch, targetLooptime);
      case CmplxMag =>
        assert EntryStages(step) == [CmplxMag, CalcFrequencies];
        StepCmplxMagThenCalc(notch, targetLooptime);
      case UpdateFilters =>
        assert EntryStages(step) == [UpdateFilters, Hanning];
        StepUpdateFiltersThenHanning(notch, targetLooptime);
      }
    }

    /**
     * gyroDataAnalyseUpdate: one call runs the case `step` selects and the
     * cases it falls through to, then advances `step`.
     */
    method AnalyseUpdate(notch: array<Biquad>, targetLooptime: nat)
      requires PipelineValid()
      requires notch.Length == XyzAxisCount && notch != fftFreqFilter
      modifies this`axis, this`step, fftData, rfftData, fftResult, fftFreqFilter, notch
      ensures PipelineValid()
      ensures step == NextEntry(old(step))
      ensures State(notch) ==
        RunStages(filterOps, fftOps, Inputs(targetLooptime), old(State(notch)), EntryStages(old(step)))
      // Only a call entered at STEP_UPDATE_FILTERS moves the axis, whatever the rings hold.
      ensures axis == if StageAt(old(step)) == UpdateFilters then (old(axis) + 1) % XyzAxisCount else old(axis)
    {
      ghost var entry := step;
      if FallsThrough(StageAt(step)) {
        StepFallingThrough(notch, targetLooptime);
      } else {
        StepBreaking(notch, targetLooptime);
      }
      assert step + 1 == entry + |EntryStages(entry)|;
      step := (step + 1) % StepCount;
    }

    /**
     * gyroDataAnalyse: collect the reading, then spend one update call of the
     * budget, if any is left, on gyroDataAnalyseUpdate.
     */
    method Analyse(gyroADC: AxisReading, notch: array<Biquad>, targetLooptime: nat)
      requires Valid() && Scheduled()
      requires notch.Length == XyzAxisCount && notch != fftFreqFilter && notch != fftGyroFilter
      modifies this`fftAccCount, this`fftIdx, this`updateTicks, this`axis, this`step,
        this`pending, this`callsSinceSample, this`sampledOnce, this`updateCalls,
        fftAcc, gyroData, fftGyroFilter, fftData, rfftData, fftResult, fftFreqFilter, notch
      ensures Valid() && Scheduled()
      // After n update calls since init, whenever the samples landed, the next
      // call is entered at step 0, 1, 3 or 5 for n mod 4 = 0, 1, 2, 3, and the
      // axis has advanced once per four calls.
      ensures updateCalls == old(updateCalls) +
        if old(fftAccCount) + 1 == samplingScale || old(updateTicks) > 0 then 1 else 0
      ensures step == [0, 1, 3, 5][updateCalls % 4] && axis == (updateCalls / 4) % XyzAxisCount
      ensures fftAccCount == if old(fftAccCount) + 1 == samplingScale then 0 else old(fftAccCount) + 1
      ensures fftIdx == if old(fftAccCount) + 1 == samplingScale then (old(fftIdx) + 1) % FftWindowSize else old(fftIdx)
      ensures var ticks := if old(fftAccCount) + 1 == samplingScale then DynNotchCalcTicks else old(updateTicks);
        if ticks > 0 then
          updateTicks == ticks - 1 && step == NextEntry(old(step)) &&
          State(notch) == RunStages(filterOps, fftOps, Inputs(targetLooptime), old(State(notch)), EntryStages(old(step)))
        else
          updateTicks == 0 && step == old(step) && State(notch) == old(State(notch))
      // A sampling period runs min(fftSamplingScale, DYN_NOTCH_CALC_TICKS) update calls.
      ensures old(fftAccCount) + 1 == samplingScale && old(sampledOnce) ==>
        old(callsSinceSample) == Min(samplingScale, DynNotchCalcTicks)
      // The sampling call feeds each band-pass the mean of exactly fftSamplingScale
      // readings and changes each ring at the old fftIdx only.
      ensures old(fftAccCount) + 1 == samplingScale ==>
        pending == [] && |old(pending)| + 1 == samplingScale &&
        forall a :: 0 <= a < XyzAxisCount ==>
          var out := filterOps.apply(old(fftGyroFilter[a]), Mean(old(pending) + [gyroADC], a));
          fftAcc[a] == 0.0 && fftGyroFilter[a] == out.0 &&
          RingRow(gyroData[..], a) == RingRow(old(gyroData[..]), a)[old(fftIdx) := out.1]
      // Any other call only accumulates the reading.
      ensures old(fftAccCount) + 1 != samplingScale ==>
        pending == old(pending) + [gyroADC] &&
        gyroData[..] == old(gyroData[..]) && fftGyroFilter[..] == old(fftGyroFilter[..]) &&
        forall a :: 0 <= a < XyzAxisCount ==> fftAcc[a] == old(fftAcc[a]) + gyroADC[a]
    {
      Collect(gyroADC);
      assert State(notch) == old(State(notch));
      SpendTick(notch, targetLooptime);
    }

    /** The second half of gyroDataAnalyse: one update call, if the budget has one left. */
    method SpendTick(notch: array<Biquad>, targetLooptime: nat)
      requires PipelineValid() && Accumulated() && Budget(0) && Scheduled()
      requires notch.Length == XyzAxisCount && notch != fftFreqFilter
      modifies this`updateTicks, this`callsSinceSample, this`axis, this`step, this`updateCalls,
        fftData, rfftData, fftResult, fftFreqFilter, notch
      ensures Valid() && Scheduled()
      ensures updateCalls == old(updateCalls) + if old(updateTicks) > 0 then 1 else 0
      ensures if old(updateTicks) > 0 then
          updateTicks == old(updateTicks) - 1 && step == NextEntry(old(step)) &&
          State(notch) == RunStages(filterOps, fftOps, Inputs(targetLooptime), old(State(notch)), EntryStages(old(step)))
        else
          updateTicks == 0 && step == old(step) && State(notch) == old(State(notch))
    {
      if updateTicks > 0 {
        SpendOneTick(notch, targetLooptime);
      }
    }

    /** The update call of gyroDataAnalyse when the budget has one left. */
    method SpendOneTick(notch: array<Biquad>, targetLooptime: nat)
      requires PipelineValid() && Accumulated() && Budget(0) && Scheduled() && updateTicks > 0
      requires notch.Length == XyzAxisCount && notch != fftFreqFilter
      modifies this`updateTicks, this`callsSinceSample, this`axis, this`step, this`updateCalls,
        fftData, rfftData, fftResult, fftFreqFilter, notch
      ensures Valid() && Scheduled()
      ensures updateCalls == old(updateCalls) + 1 && updateTicks == old(updateTicks) - 1
      ensures step == NextEntry(old(step))
      ensures State(notch) == RunStages(filterOps, fftOps, Inputs(targetLooptime), old(State(notch)), EntryStages(old(step)))
    {
      ghost var axis0, step0 := axis, step;
      AnalyseUpdate(notch, targetLooptime);
      updateTicks := updateTicks - 1;
      callsSinceSample := callsSinceSample + 1;
      CountUpdateCall(axis0, step0);
    }

    /** Counts one update call that was entered at step0 with axis0. */
    ghost method CountUpdateCall(axis0: nat, step0: StepIndex)
      requires step0 == [0, 1, 3, 5][updateCalls % 4] && axis0 == (updateCalls / 4) % XyzAxisCount
      requires step == NextEntry(step0)
      requires axis == if StageAt(step0) == UpdateFilters then (axis0 + 1) % XyzAxisCount else axis0
      modifies this`updateCalls
      ensures updateCalls == old(updateCalls) + 1 && Scheduled()
    {
      NextCallSchedule(updateCalls, axis0);
      updateCalls := updateCalls + 1;
    }

    /**
     * The first half of gyroDataAnalyse: add the reading to the accumulators;
     * on every fftSamplingScale-th call write the band-passed mean of the
     * accumulated readings into slot fftIdx of each ring, advance fftIdx and
     * grant DYN_NOTCH_CALC_TICKS update calls.
     */
    method Collect(gyroADC: AxisReading)
      requires Valid()
      modifies this`fftAccCount, this`fftIdx, this`updateTicks, this`pending, this`callsSinceSample,
        this`sampledOnce, fftAcc, gyroData, fftGyroFilter
      ensures PipelineValid() && Accumulated() && Budget(0)
      ensures old(fftAccCount) + 1 == samplingScale ==>
        fftAccCount == 0 && pending == [] &&
        |old(pending)| + 1 == samplingScale &&
        fftIdx == (old(fftIdx) + 1) % FftWindowSize &&
        updateTicks == DynNotchCalcTicks &&
        (old(sampledOnce) ==> old(callsSinceSample) == Min(samplingScale, DynNotchCalcTicks)) &&
        forall a :: 0 <= a < XyzAxisCount ==>
          var out := filterOps.apply(old(fftGyroFilter[a]), Mean(old(pending) + [gyroADC], a));
          fftAcc[a] == 0.0 && fftGyroFilter[a] == out.0 &&
          RingRow(gyroData[..], a) == RingRow(old(gyroData[..]), a)[old(fftIdx) := out.1]
      ensures old(fftAccCount) + 1 != samplingScale ==>
        fftAccCount == old(fftAccCount) + 1 && pending == old(pending) + [gyroADC] &&
        fftIdx == old(fftIdx) && updateTicks == old(updateTicks) &&
        gyroData[..] == old(gyroData[..]) && fftGyroFilter[..] == old(fftGyroFilter[..]) &&
        forall a :: 0 <= a < XyzAxisCount ==> fftAcc[a] == old(fftAcc[a]) + gyroADC[a]
    {
      Accumulate(gyroADC);
      forall a | 0 <= a < XyzAxisCount
        ensures fftAcc[a] == AxisSum(pending + [gyroADC], a)
      {
        AxisSumAppend(pending, gyroADC, a);
      }
      fftAccCount := fftAccCount + 1;
      pending := pending + [gyroADC];

      if fftAccCount == samplingScale {
        Sample();
      }
    }

    /**
     * The `fftAccCount == fftSamplingScale` branch of gyroDataAnalyse: one
     * analysis sample per axis from the accumulated readings, then the ring
     * index advances and the budget is refilled.
     */
    method Sample()
      requires PipelineValid() && fftAcc.Length == XyzAxisCount && fftAcc != gyroData
      requires 0 < fftAccCount == samplingScale && |pending| == fftAccCount
      requires forall a :: 0 <= a < XyzAxisCount ==> fftAcc[a] == AxisSum(pending, a)
      modifies this`fftAccCount, this`fftIdx, this`updateTicks, this`pending, this`callsSinceSample,
        this`sampledOnce, fftAcc, gyroData, fftGyroFilter
      ensures PipelineValid()
      ensures fftAccCount == 0 && pending == [] && fftIdx == (old(fftIdx) + 1) % FftWindowSize
      ensures updateTicks == DynNotchCalcTicks && callsSinceSample == 0 && sampledOnce
      ensures forall a :: 0 <= a < XyzAxisCount ==>
        var out := filterOps.apply(old(fftGyroFilter[a]), Mean(old(pending), a));
        fftAcc[a] == 0.0 && fftGyroFilter[a] == out.0 &&
        RingRow(gyroData[..], a) == RingRow(old(gyroData[..]), a)[old(fftIdx) := out.1] &&
        Unrolled(RingRow(gyroData[..], a), fftIdx) ==
          Unrolled(RingRow(old(gyroData[..]), a), old(fftIdx))[1..] + [out.1]
    {
      fftAccCount := 0;
      TakeSample(pending);
      fftIdx := (fftIdx + 1) % FftWindowSize;
      updateTicks := DynNotchCalcTicks;
      pending, callsSinceSample, sampledOnce := [], 0, true;
    }

    /** The accumulation loop of gyroDataAnalyse: fftAcc[axis] += gyroADC[axis]. */
    method Accumulate(gyroADC: AxisReading)
      requires fftAcc.Length == XyzAxisCount
      modifies fftAcc
      ensures forall a :: 0 <= a < XyzAxisCount ==> fftAcc[a] == old(fftAcc[a]) + gyroADC[a]
    {
      for a := 0 to XyzAxisCount
        invariant forall b :: 0 <= b < XyzAxisCount ==>
          fftAcc[b] == if b < a then old(fftAcc[b]) + gyroADC[b] else old(fftAcc[b])
      {
        fftAcc[a] := fftAcc[a] + gyroADC[a];
      }
    }

    /**
     * The sampling loop of gyroDataAnalyse: for each axis, the mean of the
     * accumulated readings goes through the band-pass into slot fftIdx of the
     * ring, and the accumulator is cleared. Each ring changes at that slot
     * only, so read oldest-first from the next index it has slid by one.
     */
    method TakeSample(ghost readings: seq<AxisReading>)
      requires gyroData.Length == XyzAxisCount * FftWindowSize
      requires fftGyroFilter.Length == XyzAxisCount && fftAcc.Length == XyzAxisCount && fftAcc != gyroData
      requires |readings| == samplingScale > 0
      requires forall a :: 0 <= a < XyzAxisCount ==> fftAcc[a] == AxisSum(readings, a)
      modifies fftGyroFilter, gyroData, fftAcc
      ensures forall a :: 0 <= a < XyzAxisCount ==> fftAcc[a] == 0.0
      ensures forall a :: 0 <= a < XyzAxisCount ==>
        fftGyroFilter[a] == filterOps.apply(old(fftGyroFilter[a]), Mean(readings, a)).0
      ensures forall a :: 0 <= a < XyzAxisCount ==>
        RingRow(gyroData[..], a) ==
          RingRow(old(gyroData[..]), a)[fftIdx := filterOps.apply(old(fftGyroFilter[a]), Mean(readings, a)).1]
      ensures forall a :: 0 <= a < XyzAxisCount ==>
        Unrolled(RingRow(gyroData[..], a), (fftIdx + 1) % FftWindowSize) ==
          Unrolled(RingRow(old(gyroData[..]), a), fftIdx)[1..] + [filterOps.apply(old(fftGyroFilter[a]), Mean(readings, a)).1]
    {
      ghost var g0, f0, acc := gyroData[..], fftGyroFilter[..], fftAcc[..];
      SampleAxes();
      SampledMeans(filterOps.apply, g0, f0, acc, readings, fftIdx);
    }

    /** The sampling loop itself, over the contents of the three arrays. */
    method SampleAxes()
      requires gyroData.Length == XyzAxisCount * FftWindowSize
      requires fftGyroFilter.Length == XyzAxisCount && fftAcc.Length == XyzAxisCount && fftAcc != gyroData
      requires samplingScale > 0
      modifies fftGyroFilter, gyroData, fftAcc
      ensures var out := Outputs(filterOps.apply, old(fftGyroFilter[..]), old(fftAcc[..]), samplingScale);
        gyroData[..] == WriteSlots(old(gyroData[..]), fftIdx, Samples(out), XyzAxisCount) &&
        fftGyroFilter[..] == Filters(out) &&
        fftAcc[..] == seq(XyzAxisCount, b => 0.0)
    {
      ghost var g0, f0, acc := gyroData[..], fftGyroFilter[..], fftAcc[..];
      ghost var out := Outputs(filterOps.apply, f0, acc, samplingScale);
      for a := 0 to XyzAxisCount
        invariant gyroData[..] == WriteSlots(g0, fftIdx, Samples(out), a)
        invariant fftGyroFilter[..] == seq(XyzAxisCount, b requires 0 <= b < XyzAxisCount => if b < a then out[b].0 else f0[b])
        invariant fftAcc[..] == seq(XyzAxisCount, b requires 0 <= b < XyzAxisCount => if b < a then 0.0 else acc[b])
      {
        SampleAxis(a);
      }
    }

    /** One pass of the sampling loop: the band-passed mean of one axis into its ring. */
    method SampleAxis(a: nat)
      requires gyroData.Length == XyzAxisCount * FftWindowSize && a < XyzAxisCount
      requires fftGyroFilter.Length == XyzAxisCount && fftAcc.Length == XyzAxisCount && fftAcc != gyroData
      requires samplingScale > 0
      modifies fftGyroFilter, gyroData, fftAcc
      ensures var out := filterOps.apply(old(fftGyroFilter[a]), old(fftAcc[a]) / samplingScale as real);
        fftGyroFilter[..] == old(fftGyroFilter[..])[a := out.0] &&
        gyroData[..] == old(gyroData[..])[a * FftWindowSize + fftIdx := out.1] &&
        fftAcc[..] == old(fftAcc[..])[a := 0.0]
    {
      var sample := fftAcc[a] / samplingScale as real;
      var filtered := filterOps.apply(fftGyroFilter[a], sample);
      fftGyroFilter[a] := filtered.0;
      gyroData[a * FftWindowSize + fftIdx] := filtered.1;
      fftAcc[a] := 0.0;
    }
  }
}
