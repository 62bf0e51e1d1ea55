// What each case of the gyroDataAnalyseUpdate step machine does, as functions
// on the state it works on, and what a sequence of cases adds up to.
module Pipeline {
  import opened AnalyseConfig
  import opened Filter
  import opened ArmMath
  import opened Spectrum
  import opened Schedule

  /** gyroFftData_t: the peak energy and the estimated centre frequency of one axis. */
  datatype FftResult = FftResult(maxVal: real, centerFreq: int)

  /**
   * The state the step machine changes: the scratch frames fftData and
   * rfftData, fftResult and fftFreqFilter per axis, the caller's dynamic notch
   * filters per axis, and the axis being analysed.
   */
  datatype Pipe = Pipe(fftData: seq<real>, rfftData: seq<real>, results: seq<FftResult>,
                       freqFilter: seq<Biquad>, notch: seq<Biquad>, axis: nat)
  {
    /** Shapes, and every stored centre frequency within [130, 500]. */
    ghost predicate Valid()
    {
      |fftData| == FftWindowSize && |rfftData| == FftWindowSize &&
      |results| == XyzAxisCount && |freqFilter| == XyzAxisCount && |notch| == XyzAxisCount &&
      axis < XyzAxisCount &&
      forall a :: 0 <= a < XyzAxisCount ==>
        DynNotchMinCutoff + 10 <= results[a].centerFreq <= FftMaxFrequency
    }
  }

  /**
   * What the step machine reads but does not change: the sample rings gyroData
   * (three rows of 32, row-major), the ring index fftIdx, the Hanning window and
   * gyro.targetLooptime.
   */
  datatype Env = Env(gyroData: seq<real>, fftIdx: nat, window: seq<real>, targetLooptime: nat)
  {
    ghost predicate Valid()
    {
      |gyroData| == XyzAxisCount * FftWindowSize && fftIdx < FftWindowSize && |window| == FftWindowSize
    }
  }

  /** gyroData[axis] as a sequence of 32 samples. */
  function RingRow(gyroData: seq<real>, axis: nat): (row: seq<real>)
    requires |gyroData| == XyzAxisCount * FftWindowSize && axis < XyzAxisCount
    ensures |row| == FftWindowSize
    ensures forall i :: 0 <= i < FftWindowSize ==> row[i] == gyroData[axis * FftWindowSize + i]
  {
    gyroData[axis * FftWindowSize .. axis * FftWindowSize + FftWindowSize]
  }

  /** A ring read oldest-first: the entry at the write index is the oldest one. */
  function Unrolled(row: seq<real>, idx: nat): seq<real>
    requires idx <= |row|
  {
    row[idx..] + row[..idx]
  }

  /**
   * Reading the unrolled ring is reading the ring from the write index on,
   * with wrap-around: the sample at the write index, the oldest, comes first.
   */
  lemma UnrolledReadsRing(row: seq<real>, idx: nat)
    requires |row| == FftWindowSize && idx < FftWindowSize
    ensures |Unrolled(row, idx)| == FftWindowSize
    ensures forall j :: 0 <= j < FftWindowSize ==> Unrolled(row, idx)[j] == row[(idx + j) % FftWindowSize]
  {
    forall j | 0 <= j < FftWindowSize
      ensures Unrolled(row, idx)[j] == row[(idx + j) % FftWindowSize]
    {
      if j < FftWindowSize - idx {
        assert (idx + j) % FftWindowSize == idx + j;
      } else {
        assert (idx + j) % FftWindowSize == j - (FftWindowSize - idx);
      }
    }
  }

  /**
   * The frame STEP_HANNING leaves in fftData: the ring of `axis`, unrolled
   * oldest-first, times the window.
   */
  function Windowed(gyroData: seq<real>, axis: nat, fftIdx: nat, window: seq<real>): (frame: seq<real>)
    requires |gyroData| == XyzAxisCount * FftWindowSize && axis < XyzAxisCount
    requires fftIdx < FftWindowSize && |window| == FftWindowSize
    ensures |frame| == FftWindowSize
  {
    var row := Unrolled(RingRow(gyroData, axis), fftIdx);
    seq(FftWindowSize, j requires 0 <= j < FftWindowSize => row[j] * window[j])
  }

  /**
   * The windowed frame in ring terms: entry j is the sample (fftIdx + j) mod 32
   * of the axis's ring times window coefficient j.
   */
  lemma WindowedReadsRing(gyroData: seq<real>, axis: nat, fftIdx: nat, window: seq<real>)
    requires |gyroData| == XyzAxisCount * FftWindowSize && axis < XyzAxisCount
    requires fftIdx < FftWindowSize && |window| == FftWindowSize
    ensures forall j :: 0 <= j < FftWindowSize ==>
      Windowed(gyroData, axis, fftIdx, window)[j] ==
        gyroData[axis * FftWindowSize + (fftIdx + j) % FftWindowSize] * window[j]
  {
    UnrolledReadsRing(RingRow(gyroData, axis), fftIdx);
  }

  /**
   * Writing a sample at the ring index and advancing the index slides the
   * oldest-first window by one: the oldest sample leaves at the front and the
   * new sample is the last one.
   */
  lemma SlidingWindow(row: seq<real>, idx: nat, sample: real)
    requires |row| == FftWindowSize && idx < FftWindowSize
    ensures Unrolled(row[idx := sample], (idx + 1) % FftWindowSize) == Unrolled(row, idx)[1..] + [sample]
  {
    var next := row[idx := sample];
    var lhs := Unrolled(next, (idx + 1) % FftWindowSize);
    var rhs := Unrolled(row, idx)[1..] + [sample];
    assert |lhs| == |rhs| == FftWindowSize;
    forall j | 0 <= j < FftWindowSize
      ensures lhs[j] == rhs[j]
    {
      if idx + 1 + j < FftWindowSize {
        assert lhs[j] == next[idx + 1 + j];
      } else {
        assert lhs[j] == next[idx + 1 + j - FftWindowSize];
      }
    }
  }

  /** One case of the step machine. */
  function RunStage(f: FilterOps, t: FftOps, env: Env, p: Pipe, stage: Stage): (r: Pipe)
    requires NotchQDefined(f) && env.Valid() && p.Valid()
    ensures r.Valid()
    ensures r.axis == if stage == UpdateFilters then (p.axis + 1) % XyzAxisCount else p.axis
  {
    match stage
    case ArmCfft => p.(fftData := t.cfftRadix8by2(p.fftData))
    case BitReversal => p.(fftData := t.bitReversal(p.fftData))
    case StageRfft => p.(rfftData := t.stageRfft(p.fftData))
    case CmplxMag => p.(fftData := t.cmplxMag(p.rfftData) + p.fftData[FftBinCount..])
    case CalcFrequencies =>
      var maxVal := MaxSquare(p.fftData, FftBinCount);
      if SumSquares(p.fftData, FftBinCount) > 0.0 then
        var est := SmoothedCenter(f, p.freqFilter[p.axis], p.fftData);
        p.(results := p.results[p.axis := FftResult(maxVal, est.1)],
           freqFilter := p.freqFilter[p.axis := est.0])
      else
        p.(results := p.results[p.axis := p.results[p.axis].(maxVal := maxVal)])
    case UpdateFilters =>
      var center := p.results[p.axis].centerFreq;
      var cutoff := NotchCutoff(center);
      var q := f.notchQ(center as real, cutoff as real);
      p.(notch := p.notch[p.axis := f.update(p.notch[p.axis], center as real, env.targetLooptime, q, Notch)],
         axis := (p.axis + 1) % XyzAxisCount)
    case Hanning => p.(fftData := Windowed(env.gyroData, p.axis, env.fftIdx, env.window))
  }

  /** Cases run one after another. */
  function RunStages(f: FilterOps, t: FftOps, env: Env, p: Pipe, stages: seq<Stage>): (r: Pipe)
    requires NotchQDefined(f) && env.Valid() && p.Valid()
    ensures r.Valid()
    decreases |stages|
  {
    if stages == [] then p else RunStages(f, t, env, RunStage(f, t, env, p, stages[0]), stages[1..])
  }

  /** A run of one case, and of two cases. */
  lemma RunOneOrTwo(f: FilterOps, t: FftOps, env: Env, p: Pipe, s1: Stage, s2: Stage)
    requires NotchQDefined(f) && env.Valid() && p.Valid()
    ensures RunStages(f, t, env, p, [s1]) == RunStage(f, t, env, p, s1)
    ensures RunStages(f, t, env, p, [s1, s2]) == RunStage(f, t, env, RunStage(f, t, env, p, s1), s2)
  {
    var q := RunStage(f, t, env, p, s1);
    var r := RunStage(f, t, env, q, s2);
    assert [s1][1..] == [] && [s1, s2][1..] == [s2] && [s2][1..] == [];
    assert RunStages(f, t, env, p, [s1]) == RunStages(f, t, env, q, []);
    assert RunStages(f, t, env, p, [s1, s2]) == RunStages(f, t, env, q, [s2]);
    assert RunStages(f, t, env, q, [s2]) == RunStages(f, t, env, r, []);
  }

  /** The axis advances by one, modulo 3, for every STEP_UPDATE_FILTERS run and at no other case. */
  lemma {:induction false} AxisFollowsFilterUpdates(f: FilterOps, t: FftOps, env: Env, p: Pipe, stages: seq<Stage>)
    requires NotchQDefined(f) && env.Valid() && p.Valid()
    ensures RunStages(f, t, env, p, stages).axis == (p.axis + FilterUpdates(stages)) % XyzAxisCount
    decreases |stages|
  {
    if stages != [] {
      var q := RunStage(f, t, env, p, stages[0]);
      AxisFollowsFilterUpdates(f, t, env, q, stages[1..]);
      assert RunStages(f, t, env, p, stages) == RunStages(f, t, env, q, stages[1..]);
      var n := FilterUpdates(stages[1..]);
      if stages[0] == UpdateFilters {
        ModAddOne(p.axis, n);
      }
    }
  }

  lemma ModAddOne(x: nat, n: nat)
    ensures ((x + 1) % XyzAxisCount + n) % XyzAxisCount == (x + (1 + n)) % XyzAxisCount
  {
  }

  /**
   * Axis round robin over one run with fixed inputs: every four calls from
   * step 0 move to the next axis, so DYN_NOTCH_CALC_TICKS = 12 calls visit all
   * three axes and come back. GyroAnalyser.Analyse states the same count for
   * calls with samples landing between them.
   */
  lemma AxisRoundRobin(f: FilterOps, t: FftOps, env: Env, p: Pipe, k: nat)
    requires NotchQDefined(f) && env.Valid() && p.Valid()
    ensures RunStages(f, t, env, p, Calls(0, 4 * k)).axis == (p.axis + k) % XyzAxisCount
    ensures k * 4 == DynNotchCalcTicks ==> RunStages(f, t, env, p, Calls(0, 4 * k)).axis == p.axis
  {
    PassesFromZero(k);
    FilterUpdatesPerPass(k);
    AxisFollowsFilterUpdates(f, t, env, p, Calls(0, 4 * k));
  }

  /**
   * The call entered at STEP_UPDATE_FILTERS falls through to STEP_HANNING after
   * advancing the axis, so the frame it leaves is the window of the next axis.
   */
  lemma NextAxisIsWindowed(f: FilterOps, t: FftOps, env: Env, p: Pipe)
    requires NotchQDefined(f) && env.Valid() && p.Valid()
    ensures RunStages(f, t, env, p, EntryStages(5)).axis == (p.axis + 1) % XyzAxisCount
    ensures RunStages(f, t, env, p, EntryStages(5)).fftData ==
      Windowed(env.gyroData, (p.axis + 1) % XyzAxisCount, env.fftIdx, env.window)
  {
    assert EntryStages(5) == [UpdateFilters, Hanning];
    var q := RunStage(f, t, env, p, UpdateFilters);
    assert RunStages(f, t, env, p, EntryStages(5)) == RunStages(f, t, env, q, [Hanning]);
    assert [Hanning][1..] == [];
  }

  /**
   * A silent spectrum (fftSum == 0) leaves the centre frequency and the
   * smoothing filter of the axis as they were and sets its maxVal to 0.
   */
  lemma SilentSpectrumKeepsCenter(f: FilterOps, t: FftOps, env: Env, p: Pipe)
    requires NotchQDefined(f) && env.Valid() && p.Valid()
    requires SumSquares(p.fftData, FftBinCount) == 0.0
    ensures var r := RunStage(f, t, env, p, CalcFrequencies);
      r.results == p.results[p.axis := FftResult(0.0, p.results[p.axis].centerFreq)] &&
      r.freqFilter == p.freqFilter
  {
    SilentSpectrumHasNoPeak(p.fftData, FftBinCount);
  }
}
