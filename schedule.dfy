// The integer side of gyroanalyse.c: the sampling scale and refresh interval
// derived at init, and the schedule of the UpdateStep_e step machine.
module Schedule {
  import opened AnalyseConfig

  /**
   * fftSamplingScale: gyro samples per 1 kHz analysis sample. The gyro rate
   * 1000000 / targetLooptimeUs is stored in a uint16_t before the division.
   */
  function SamplingScale(targetLooptimeUs: nat): (scale: nat)
    requires 0 < targetLooptimeUs
    ensures scale * FftSamplingRate < Uint16Modulus
  {
    ((1000000 / targetLooptimeUs) % Uint16Modulus) / FftSamplingRate
  }

  /**
   * For every loop time of at least 16 us the uint16_t does not wrap, the scale
   * is the number of whole loop times in one millisecond, and it is at least 1
   * exactly when the gyro runs at 1 kHz or faster.
   */
  lemma SamplingScaleIsLoopsPerMillisecond(targetLooptimeUs: nat)
    requires 16 <= targetLooptimeUs
    ensures SamplingScale(targetLooptimeUs) == 1000 / targetLooptimeUs
    ensures SamplingScale(targetLooptimeUs) >= 1 <==> targetLooptimeUs <= 1000
  {
    var t := targetLooptimeUs;
    var q := 1000000 / t;
    assert q <= 62500 by {
      DivBounds(1000000, t);
      MulLe(16, t, q);
    }
    assert q % Uint16Modulus == q;
    var r := q / 1000;
    assert SamplingScale(t) == r;
    assert r * t <= 1000 < (r + 1) * t by {
      DivBounds(1000000, t);
      DivBounds(q, 1000);
      MulLe(1000 * r, q, t);
      MulLe(q + 1, 1000 * (r + 1), t);
      MulAssoc(1000, r, t);
      MulAssoc(1000, r + 1, t);
    }
    DivUnique(1000, t, r);
    if t > 1000 {
      DivUnique(1000, t, 0);
    } else {
      DivUnique(1000, t, 1000 / t);
      assert 1000 / t >= 1;
    }
  }

  lemma DivBounds(n: nat, d: nat)
    requires 0 < d
    ensures (n / d) * d <= n < (n / d + 1) * d
  {
  }

  lemma MulLe(a: nat, b: nat, c: nat)
    requires a <= b
    ensures a * c <= b * c
  {
  }

  lemma MulAssoc(a: nat, b: nat, c: nat)
    ensures (a * b) * c == a * (b * c)
  {
  }

  lemma DivUnique(n: nat, d: nat, r: nat)
    requires 0 < d && r * d <= n < (r + 1) * d
    ensures n / d == r
  {
    DivBounds(n, d);
    var q := n / d;
    if q < r { MulLe(q + 1, r, d); }
    if q > r { MulLe(r + 1, q, d); }
  }

  /**
   * The refresh interval given to the centre-frequency smoothing filter:
   * MAX(1000000u / FFT_SAMPLING_RATE, targetLooptimeUs * DYN_NOTCH_CALC_TICKS)
   * in uint32_t arithmetic. Each axis is re-estimated every 12 loops, but the
   * interval is never below the 1 ms analysis period.
   */
  function SmoothingRefreshRate(targetLooptimeUs: nat): (refresh: nat)
    requires targetLooptimeUs < Uint32Modulus
    ensures refresh >= 1000000 / FftSamplingRate
    ensures targetLooptimeUs * DynNotchCalcTicks < Uint32Modulus ==>
      refresh == if targetLooptimeUs * DynNotchCalcTicks < 1000 then 1000
                 else targetLooptimeUs * DynNotchCalcTicks
  {
    var ticksTime := (targetLooptimeUs * DynNotchCalcTicks) % Uint32Modulus;
    if 1000000 / FftSamplingRate > ticksTime then 1000000 / FftSamplingRate else ticksTime
  }

  /** UpdateStep_e, in declaration order. */
  datatype Stage = ArmCfft | BitReversal | StageRfft | CmplxMag | CalcFrequencies | UpdateFilters | Hanning

  const AllStages: seq<Stage> := [ArmCfft, BitReversal, StageRfft, CmplxMag, CalcFrequencies, UpdateFilters, Hanning]
  /** STEP_COUNT */
  const StepCount: nat := |AllStages|

  /** A value the `step` static can hold between calls. */
  type StepIndex = s: nat | s < StepCount

  /** The case label that a value of `step` selects. */
  function StageAt(step: StepIndex): Stage
  {
    AllStages[step]
  }

  /** The cases that end in `step++; FALLTHROUGH;` rather than `break`. */
  predicate FallsThrough(s: Stage)
  {
    s == BitReversal || s == CmplxMag || s == UpdateFilters
  }

  /** The cases one call runs when it is entered with this `step`. */
  function EntryStages(step: StepIndex): (stages: seq<Stage>)
    ensures 1 <= |stages| <= 2 && stages[0] == StageAt(step)
    ensures step + |stages| <= StepCount
    ensures |stages| == 2 <==> FallsThrough(StageAt(step))
    ensures |stages| == 2 ==> stages[1] == StageAt(step + 1)
  {
    if FallsThrough(StageAt(step)) then [StageAt(step), StageAt(step + 1)] else [StageAt(step)]
  }

  /** The `step` the next call is entered with: the first case this call did not run. */
  function NextEntry(step: StepIndex): StepIndex
  {
    (step + |EntryStages(step)|) % StepCount
  }

  /** n applications of `next`, starting from x. */
  function Iterate<T>(next: T -> T, x: T, n: nat): T
    decreases n
  {
    if n == 0 then x else Iterate(next, next(x), n - 1)
  }

  /** What n applications of `next`, starting from x, put out, in order. */
  function Trace<T, U>(out: T -> seq<U>, next: T -> T, x: T, n: nat): seq<U>
    decreases n
  {
    if n == 0 then [] else out(x) + Trace(out, next, next(x), n - 1)
  }

  lemma {:induction false} IterateSplit<T>(next: T -> T, x: T, m: nat, n: nat)
    ensures Iterate(next, x, m + n) == Iterate(next, Iterate(next, x, m), n)
    decreases m
  {
    if m > 0 {
      IterateSplit(next, next(x), m - 1, n);
      assert m + n - 1 == (m - 1) + n;
    }
  }

  lemma {:induction false} TraceSplit<T, U>(out: T -> seq<U>, next: T -> T, x: T, m: nat, n: nat)
    ensures Trace(out, next, x, m + n) == Trace(out, next, x, m) + Trace(out, next, Iterate(next, x, m), n)
    decreases m
  {
    if m == 0 {
      assert Trace(out, next, x, m) == [];
    } else {
      TraceSplit(out, next, next(x), m - 1, n);
      assert m + n - 1 == (m - 1) + n;
    }
  }

  /** The cases run by n consecutive calls entered first with `step`. */
  function Calls(step: StepIndex, n: nat): seq<Stage>
  {
    Trace(EntryStages, NextEntry, step, n)
  }

  /** The `step` on entry to the call after n consecutive calls. */
  function EntryAfter(step: StepIndex, n: nat): StepIndex
  {
    Iterate(NextEntry, step, n)
  }

  /** k passes through all seven cases. */
  function Passes(k: nat): seq<Stage>
  {
    if k == 0 then [] else Passes(k - 1) + AllStages
  }

  /** m calls followed by n calls are m + n calls. */
  lemma CallsSplit(step: StepIndex, m: nat, n: nat)
    ensures EntryAfter(step, m + n) == EntryAfter(EntryAfter(step, m), n)
    ensures Calls(step, m + n) == Calls(step, m) + Calls(EntryAfter(step, m), n)
  {
    IterateSplit(NextEntry, step, m, n);
    TraceSplit(EntryStages, NextEntry, step, m, n);
  }

  /** Starting from step = 0, the step on entry cycles 0, 1, 3, 5, 0, ... */
  lemma {:induction false} EntryCycle(n: nat)
    ensures EntryAfter(0, n) == [0, 1, 3, 5][n % 4]
  {
    if n > 0 {
      EntryCycle(n - 1);
      OneMoreCall(0, n - 1);
      EntryTransitions();
      var k := (n - 1) % 4;
      assert n % 4 == if k == 3 then 0 else k + 1;
    }
  }

  /** The call after n calls is entered where the n-th call left `step`. */
  lemma OneMoreCall(step: StepIndex, n: nat)
    ensures EntryAfter(step, n + 1) == NextEntry(EntryAfter(step, n))
  {
    CallsSplit(step, n, 1);
  }

  /** The entry steps reachable from 0 and where each call leaves `step`. */
  lemma EntryTransitions()
    ensures NextEntry(0) == 1 && NextEntry(1) == 3 && NextEntry(3) == 5 && NextEntry(5) == 0
  {
    assert EntryStages(0) == [ArmCfft];
    assert EntryStages(1) == [BitReversal, StageRfft];
    assert EntryStages(3) == [CmplxMag, CalcFrequencies];
    assert EntryStages(5) == [UpdateFilters, Hanning];
  }

  /**
   * One pass through all seven cases, in declaration order, takes exactly four
   * calls, and three calls are not enough.
   */
  lemma OnePassIsFourCalls()
    ensures Calls(0, 4) == AllStages && EntryAfter(0, 4) == 0
    ensures |Calls(0, 3)| < StepCount
  {
    assert EntryStages(0) == [ArmCfft] && NextEntry(0) == 1;
    assert EntryStages(1) == [BitReversal, StageRfft] && NextEntry(1) == 3;
    assert EntryStages(3) == [CmplxMag, CalcFrequencies] && NextEntry(3) == 5;
    assert EntryStages(5) == [UpdateFilters, Hanning] && NextEntry(5) == 0;
    assert Calls(0, 4) == [ArmCfft] + Calls(1, 3);
    assert Calls(1, 3) == [BitReversal, StageRfft] + Calls(3, 2);
    assert Calls(3, 2) == [CmplxMag, CalcFrequencies] + Calls(5, 1);
    assert Calls(5, 1) == [UpdateFilters, Hanning] + Calls(0, 0);
    assert EntryAfter(0, 4) == EntryAfter(1, 3) == EntryAfter(3, 2) == EntryAfter(5, 1) == EntryAfter(0, 0);
  }

  /** Every 4k calls from step = 0 run exactly k passes and return to step = 0. */
  lemma {:induction false} PassesFromZero(k: nat)
    ensures EntryAfter(0, 4 * k) == 0
    ensures Calls(0, 4 * k) == Passes(k)
  {
    if k > 0 {
      PassesFromZero(k - 1);
      var m := 4 * (k - 1);
      AppendPass(m);
      assert m + 4 == 4 * k;
    }
  }

  /** m calls that return to step 0, followed by one pass. */
  lemma AppendPass(m: nat)
    requires EntryAfter(0, m) == 0
    ensures EntryAfter(0, m + 4) == 0
    ensures Calls(0, m + 4) == Calls(0, m) + AllStages
  {
    CallsSplit(0, m, 4);
    OnePassIsFourCalls();
  }

  /** Number of STEP_UPDATE_FILTERS cases in a run. */
  function FilterUpdates(stages: seq<Stage>): nat
  {
    if stages == [] then 0 else (if stages[0] == UpdateFilters then 1 else 0) + FilterUpdates(stages[1..])
  }

  lemma {:induction false} FilterUpdatesAppend(a: seq<Stage>, b: seq<Stage>)
    ensures FilterUpdates(a + b) == FilterUpdates(a) + FilterUpdates(b)
  {
    if a == [] {
      assert a + b == b;
    } else {
      FilterUpdatesAppend(a[1..], b);
      assert (a + b)[1..] == a[1..] + b;
    }
  }

  /** k passes contain k filter updates. */
  lemma {:induction false} FilterUpdatesPerPass(k: nat)
    ensures FilterUpdates(Passes(k)) == k
  {
    if k > 0 {
      FilterUpdatesPerPass(k - 1);
      FilterUpdatesAppend(Passes(k - 1), AllStages);
    }
  }

  /** The cases one more call adds, counted as filter updates. */
  lemma FilterUpdatesOneMoreCall(step: StepIndex, n: nat)
    ensures FilterUpdates(Calls(step, n + 1)) ==
      FilterUpdates(Calls(step, n)) + FilterUpdates(EntryStages(EntryAfter(step, n)))
  {
    CallsSplit(step, n, 1);
    assert Calls(EntryAfter(step, n), 1) == EntryStages(EntryAfter(step, n));
    FilterUpdatesAppend(Calls(step, n), EntryStages(EntryAfter(step, n)));
  }

  /**
   * A call runs one filter update exactly when it is entered at
   * STEP_UPDATE_FILTERS: no case falls through into it.
   */
  lemma FilterUpdatesOfEntry(step: StepIndex)
    ensures FilterUpdates(EntryStages(step)) == if StageAt(step) == UpdateFilters then 1 else 0
  {
    var first := StageAt(step);
    if FallsThrough(first) {
      var second := StageAt(step + 1);
      assert second != UpdateFilters by {
        assert step == 1 || step == 3 || step == 5;
      }
      assert [first, second][1..] == [second] && [second][1..] == [];
      assert FilterUpdates([second]) == 0;
      assert EntryStages(step) == [first, second];
    } else {
      assert [first][1..] == [];
      assert EntryStages(step) == [first];
    }
  }

  /**
   * Only the fourth call of each pass, the one entered at STEP_UPDATE_FILTERS,
   * moves to the next axis: n calls from step 0 run n / 4 filter updates.
   */
  lemma {:induction false} FilterUpdatesInCalls(n: nat)
    ensures FilterUpdates(Calls(0, n)) == n / 4
  {
    if n > 0 {
      FilterUpdatesInCalls(n - 1);
      FilterUpdatesOneMoreCall(0, n - 1);
      EntryCycle(n - 1);
      FilterUpdatesOfEntry(EntryAfter(0, n - 1));
      DivStep(n - 1);
    }
  }

  lemma DivStep(m: nat)
    ensures (m + 1) / 4 == if m % 4 == 3 then m / 4 + 1 else m / 4
  {
  }

  /**
   * The closed form of EntryCycle and FilterUpdatesInCalls, one call further:
   * after n calls from step 0 the next call is entered at [0, 1, 3, 5][n % 4],
   * and an axis that has advanced once per four calls does so after it too.
   */
  lemma NextCallSchedule(n: nat, axis: nat)
    requires axis == (n / 4) % XyzAxisCount
    ensures NextEntry([0, 1, 3, 5][n % 4]) == [0, 1, 3, 5][(n + 1) % 4]
    ensures (if StageAt([0, 1, 3, 5][n % 4]) == UpdateFilters then (axis + 1) % XyzAxisCount else axis) ==
      ((n + 1) / 4) % XyzAxisCount
  {
    EntryTransitions();
    DivStep(n);
    assert (n + 1) % 4 == if n % 4 == 3 then 0 else n % 4 + 1;
  }
}
