# Gyro data analysis for the dynamic notch filter

This project models `src/main/sensors/gyroanalyse.c`, the part of the flight
controller that finds the dominant vibration frequency on each gyro axis and
retunes a notch filter to it. The file works through static state:

- `gyroDataAnalyse` runs once per gyro loop. It sums the raw readings of the
  three axes. Every `fftSamplingScale` loops it takes their mean, passes it
  through a band-pass biquad and writes one slot of a 32-entry ring per axis.
  Then it advances the ring index `fftIdx` and grants `DYN_NOTCH_CALC_TICKS`
  (12) calls of the update function.
- `gyroDataAnalyseUpdate` spreads one FFT over four calls. A `switch` on the
  static `step` runs one case per call, or two where a case ends in
  `step++; FALLTHROUGH;`. The cases are: FFT stages; the energy-weighted
  mean bin turned into a centre frequency; a notch retuned with a cutoff below
  that centre; the ring of the next axis unrolled oldest-first and multiplied
  by a Hanning window.
- `gyroDataAnalyseInit` derives the sampling scale and the smoothing filter's
  refresh interval from the loop time and initialises the filters.

The Dafny modules follow that structure:

- `AnalyseConfig` (config.dfy): the `#define` constants and the index types of
  `axis`, `fftIdx` and `step`.
- `Filter` (filter.dfy) and `ArmMath` (arm_math.dfy): the biquad operations of
  `common/filter.h` and the CMSIS-DSP FFT stages as function values, so every
  result holds for any implementation of them. `arm_mult_f32` is modelled as
  the element-wise product it is.
- `Schedule` (schedule.dfy): the integer derivations of the init function, and
  the `UpdateStep_e` schedule: which cases one call runs, where it leaves
  `step`, and what n consecutive calls run.
- `Spectrum` (spectrum.dfy): the arithmetic of `STEP_CALC_FREQUENCIES` and
  `STEP_UPDATE_FILTERS`: energy sums, the mean index, the clamped and smoothed
  centre frequency, the notch cutoff.
- `Pipeline` (pipeline.dfy): each case of the step machine as a function on
  the state it changes (`Pipe`) given what it reads (`Env`), and what runs of
  cases add up to: the axis round robin and the windowed frame.
- `GyroAnalyse` (gyroanalyse.dfy): the class `GyroAnalyser`, whose fields are
  the file's statics, with array fields and methods for the three functions.
  Each case method is proved to change the state exactly as its `Pipeline`
  function says. `Analyse` is proved against the sampler's invariant and the
  schedule.

Floats are modelled as reals. Ghost fields record the readings accumulated
since the last sample (`pending`) and the update calls made since then
(`callsSinceSample`). They let the contracts state that a sample is the mean
of exactly `fftSamplingScale` readings, and that a sampling period runs
min(`fftSamplingScale`, 12) update calls.

`constrain` comes from `common/maths.h`, which is not part of this model. It is
taken to be the integer clamp `constrain(int amt, int low, int high)`. The
float arguments at lines 266 and 268 are therefore truncated toward zero,
and the stored centre frequency is an integer.

## Model

| member | source | states |
|---|---|---|
| Schedule.SamplingScale | src/main/sensors/gyroanalyse.c:98-99 | fftSamplingScale goes through the uint16_t sampling frequency, so scale * 1000 stays below 65536 |
| Schedule.SamplingScaleIsLoopsPerMillisecond | src/main/sensors/gyroanalyse.c:98-99 | for loop times of at least 16 us the uint16_t does not wrap, the scale is 1000 / looptime, and it is at least 1 exactly when the loop time is at most 1000 us |
| Schedule.SmoothingRefreshRate | src/main/sensors/gyroanalyse.c:108 | the smoothing filter's refresh interval is never below 1000 us, and without uint32_t wrap it is MAX(1000, 12 * looptime) |
| Schedule.EntryStages | src/main/sensors/gyroanalyse.c:197-306 | one call runs the case `step` selects, plus the case after it exactly when the first ends in step++ and FALLTHROUGH, and never runs past STEP_HANNING |
| Schedule.EntryTransitions | src/main/sensors/gyroanalyse.c:197-306 | a call entered at step 0, 1, 3 or 5 leaves step at 1, 3, 5 and 0 |
| Schedule.OneMoreCall | src/main/sensors/gyroanalyse.c:306 | the call after n calls is entered with the step the n-th call left |
| Schedule.CallsSplit | src/main/sensors/gyroanalyse.c:197-306 | m calls followed by n calls run the same cases and leave the same step as m + n calls |
| Schedule.EntryCycle | src/main/sensors/gyroanalyse.c:197-306 | from step 0, the step on entry to the n-th call is 0, 1, 3, 5 for n mod 4 = 0, 1, 2, 3 |
| Schedule.OnePassIsFourCalls | src/main/sensors/gyroanalyse.c:172-181 | four calls from step 0 run all seven cases once in declaration order and return to step 0, and three calls run fewer than seven cases |
| Schedule.FilterUpdatesOneMoreCall | src/main/sensors/gyroanalyse.c:279-306 | n + 1 calls run the STEP_UPDATE_FILTERS cases of n calls plus those of the call entered where the n-th left step |
| Schedule.FilterUpdatesOfEntry | src/main/sensors/gyroanalyse.c:197-306 | one call runs STEP_UPDATE_FILTERS once when entered at that case and never otherwise, since no case falls through into it |
| Schedule.FilterUpdatesInCalls | src/main/sensors/gyroanalyse.c:279-306 | n calls from step 0 run exactly n / 4 STEP_UPDATE_FILTERS cases |
| Schedule.NextCallSchedule | src/main/sensors/gyroanalyse.c:279-306 | if the step on entry is [0, 1, 3, 5][n mod 4] and the axis (n / 4) mod 3 after n calls, one more call leaves both in that form for n + 1 |
| Schedule.PassesFromZero | src/main/sensors/gyroanalyse.c:197-306 | 4k calls from step 0 run exactly k full passes and return to step 0 |
| Spectrum.Max | src/main/sensors/gyroanalyse.c:252 | MAX returns one of its arguments, and that argument is not below the other |
| Spectrum.Constrain | src/main/sensors/gyroanalyse.c:266 | the clamp lies in [low, high], leaves values already inside unchanged, and maps values below or above to the nearer bound |
| Spectrum.TruncateToInt | src/main/sensors/gyroanalyse.c:266 | the float to int conversion rounds toward zero |
| Spectrum.WeightBounds | src/main/sensors/gyroanalyse.c:250-255 | fftSum is non-negative and fftWeightedSum lies between fftSum and 16 * fftSum, since the weights run from 1 to 16 |
| Spectrum.SilentSpectrumHasNoPeak | src/main/sensors/gyroanalyse.c:247-255 | when fftSum is 0 every squared bin is 0 and maxVal stays at the 0 it was reset to |
| Spectrum.MeanIndex | src/main/sensors/gyroanalyse.c:258-260 | when fftSum > 0 the mean index lies in [0, 15] |
| Spectrum.RawCenter | src/main/sensors/gyroanalyse.c:266 | the clamped centre before smoothing lies in [130, 468]: it is 130 below 130 Hz, else the truncated mean index in Hz, and the upper clamp never applies |
| Spectrum.SmoothedCenter | src/main/sensors/gyroanalyse.c:267-268 | the stored centre lies in [130, 500] whatever the smoothing filter returns: it is 130 when the filter output is below 130, 500 when it is 501 or more, and the truncated output in between; the filter's next state is that of applying it to the raw centre |
| Spectrum.NotchCutoff | src/main/sensors/gyroanalyse.c:283 | the cutoff lies in [120, 200], and lies at least 10 Hz below the centre exactly when the centre is at least 130 Hz |
| Pipeline.RingRow | src/main/sensors/gyroanalyse.c:60 | row a of gyroData[3][32] is entries a * 32 to a * 32 + 31 of the row-major layout |
| Pipeline.UnrolledReadsRing | src/main/sensors/gyroanalyse.c:297-300 | the ring read from the write index on has entry j equal to ring entry (fftIdx + j) mod 32 |
| Pipeline.WindowedReadsRing | src/main/sensors/gyroanalyse.c:297-300 | the windowed frame has entry j equal to gyroData[axis][(fftIdx + j) % 32] * hanningWindow[j] |
| Pipeline.SlidingWindow | src/main/sensors/gyroanalyse.c:147-153 | writing a sample at fftIdx and advancing fftIdx drops the oldest sample of the oldest-first window and appends the new one |
| Pipeline.RunStage | src/main/sensors/gyroanalyse.c:197-304 | every case keeps all centre frequencies in [130, 500], and only STEP_UPDATE_FILTERS changes the axis, to the next one mod 3 |
| Pipeline.RunStages | src/main/sensors/gyroanalyse.c:197-306 | any run of cases keeps the state well formed and the centre frequencies in [130, 500] |
| Pipeline.AxisFollowsFilterUpdates | src/main/sensors/gyroanalyse.c:288 | after any run of cases the axis has advanced, mod 3, by the number of STEP_UPDATE_FILTERS cases in it |
| Schedule.FilterUpdatesPerPass | src/main/sensors/gyroanalyse.c:279-291 | k passes through the seven cases hold exactly k STEP_UPDATE_FILTERS cases |
| Pipeline.AxisRoundRobin | src/main/sensors/gyroanalyse.c:279-291 | with the rings and fftIdx fixed over the run, every 4 calls from step 0 move to the next axis, so DYN_NOTCH_CALC_TICKS = 12 calls visit the three axes and return to the first |
| Pipeline.NextAxisIsWindowed | src/main/sensors/gyroanalyse.c:279-300 | the call entered at STEP_UPDATE_FILTERS advances the axis and leaves in fftData the windowed ring of the new axis |
| Pipeline.SilentSpectrumKeepsCenter | src/main/sensors/gyroanalyse.c:247-273 | when fftSum is 0, STEP_CALC_FREQUENCIES sets maxVal to 0 and keeps the centre frequency and the smoothing filter of the axis |
| GyroAnalyse.SumBins | src/main/sensors/gyroanalyse.c:244-255 | the loop over the 16 bins computes the sum of squares, the sum weighted by index + 1, and the largest square, starting from 0 |
| GyroAnalyse.RowAfterWrite | src/main/sensors/gyroanalyse.c:147 | writing gyroData[b][idx] changes row b at slot idx only and no other row |
| GyroAnalyse.WrittenRows | src/main/sensors/gyroanalyse.c:144-151 | after the sampling loop has visited n axes, each of them has changed at slot fftIdx only and the rest are unchanged |
| GyroAnalyse.SampledRows | src/main/sensors/gyroanalyse.c:144-153 | after the sampling loop each row has changed at slot fftIdx only, and its oldest-first window from the next index has slid by one sample |
| GyroAnalyse.AxisSumAppend | src/main/sensors/gyroanalyse.c:134-136 | adding a reading to fftAcc adds it to the sum of the readings accumulated so far |
| GyroAnalyse.SampledMeans | src/main/sensors/gyroanalyse.c:143-153 | fftAcc[axis] / fftSamplingScale, for sums over fftSamplingScale readings, is their mean, so the band-pass is fed the mean of each axis |
| GyroAnalyse.GyroAnalyser.Init | src/main/sensors/gyroanalyse.c:95-114 | init on the zero-initialised statics establishes the invariant and the schedule after 0 update calls, with the derived sampling scale, zeroed rings, the given window, centre 200 and initialised filters on each axis, every counter and index 0, and the statics init does not set (fftData, rfftData, fftAcc, each maxVal) still 0 |
| GyroAnalyse.GyroAnalyser.InitStatics | src/main/sensors/gyroanalyse.c:97-113 | the body of gyroDataAnalyseInit, on any state whose sampler is consistent, including a running analyser: it establishes the invariant, zeroes the rings, stores the window, sets each centre to 200 keeping its maxVal, and initialises the per-axis filters; the sampler, fftIdx, axis and step are left as they were |
| GyroAnalyse.GyroAnalyser.InitAxes | src/main/sensors/gyroanalyse.c:109-113 | each axis gets centre frequency 200, the low-pass at 60 Hz with the derived refresh interval and the band-pass at 200 Hz, Q = BIQUAD_Q; maxVal is untouched |
| GyroAnalyse.GyroAnalyser.InitGyroData | src/main/sensors/gyroanalyse.c:86-93 | every entry of every ring is 0 |
| GyroAnalyse.GyroAnalyser.InitHanning | src/main/sensors/gyroanalyse.c:79-84 | the window holds the given coefficients |
| GyroAnalyse.GyroAnalyser.FftData | src/main/sensors/gyroanalyse.c:117-120 | gyroFftData returns the result of the axis, whose centre frequency lies in [130, 500] |
| GyroAnalyse.GyroAnalyser.StepArmCfft | src/main/sensors/gyroanalyse.c:198-216 | STEP_ARM_CFFT_F32 transforms fftData in place, as RunStage says |
| GyroAnalyse.GyroAnalyser.StepBitReversal | src/main/sensors/gyroanalyse.c:217-221 | STEP_BITREVERSAL permutes fftData in place, as RunStage says |
| GyroAnalyse.GyroAnalyser.StepStageRfft | src/main/sensors/gyroanalyse.c:225-232 | STEP_STAGE_RFFT_F32 writes rfftData from fftData, as RunStage says |
| GyroAnalyse.GyroAnalyser.StepCmplxMag | src/main/sensors/gyroanalyse.c:233-237 | STEP_ARM_CMPLX_MAG_F32 writes the 16 magnitudes to the front of fftData, as RunStage says |
| GyroAnalyse.GyroAnalyser.StepCalcFrequencies | src/main/sensors/gyroanalyse.c:241-278 | STEP_CALC_FREQUENCIES updates maxVal, and when fftSum > 0 the centre frequency and smoothing filter of the axis, as RunStage says, keeping every centre in [130, 500] |
| GyroAnalyse.GyroAnalyser.EstimateCenter | src/main/sensors/gyroanalyse.c:258-269 | the fftSum > 0 branch stores the smoothed, clamped centre and the smoothing filter's next state for the axis and changes no other axis |
| GyroAnalyse.GyroAnalyser.StepUpdateFilters | src/main/sensors/gyroanalyse.c:279-288 | STEP_UPDATE_FILTERS retunes the caller's notch of the axis with the cutoff below its centre, as RunStage says, then advances the axis to the next mod 3 |
| GyroAnalyse.GyroAnalyser.StepHanning | src/main/sensors/gyroanalyse.c:292-303 | STEP_HANNING leaves in fftData the ring of the axis, oldest-first, times the window, as RunStage says |
| GyroAnalyse.GyroAnalyser.WindowRing | src/main/sensors/gyroanalyse.c:297-300 | the first arm_mult_f32 fills fftData[0 .. 32 - fftIdx) from the ring at fftIdx on, and the second, skipped at fftIdx 0, fills the rest from the start of the ring |
| GyroAnalyse.GyroAnalyser.StepBitReversalThenRfft | src/main/sensors/gyroanalyse.c:217-232 | entered at step 1, the call runs STEP_BITREVERSAL then STEP_STAGE_RFFT_F32 and leaves step at 2 before the final increment |
| GyroAnalyse.GyroAnalyser.StepCmplxMagThenCalc | src/main/sensors/gyroanalyse.c:233-278 | entered at step 3, the call runs STEP_ARM_CMPLX_MAG_F32 then STEP_CALC_FREQUENCIES and leaves step at 4 before the final increment |
| GyroAnalyse.GyroAnalyser.StepUpdateFiltersThenHanning | src/main/sensors/gyroanalyse.c:279-303 | entered at step 5, the call runs STEP_UPDATE_FILTERS then STEP_HANNING on the new axis, advances the axis by one mod 3 and leaves step at 6 before the final increment |
| GyroAnalyse.GyroAnalyser.StepBreaking | src/main/sensors/gyroanalyse.c:197-232 | entered at a case that ends in break, the call runs that case alone |
| GyroAnalyse.GyroAnalyser.StepFallingThrough | src/main/sensors/gyroanalyse.c:217-303 | entered at a case that ends in step++ and FALLTHROUGH, the call runs that case and the next, increments step once, and advances the axis exactly when the first case is STEP_UPDATE_FILTERS |
| GyroAnalyse.GyroAnalyser.AnalyseUpdate | src/main/sensors/gyroanalyse.c:186-307 | one call runs exactly the cases EntryStages gives for the entry step, keeps every centre in [130, 500], leaves step where NextEntry says, and advances the axis by one mod 3 exactly when entered at STEP_UPDATE_FILTERS, whatever the rings hold |
| GyroAnalyse.GyroAnalyser.Analyse | src/main/sensors/gyroanalyse.c:125-164 | one gyro loop keeps the invariant (fftAccCount below the scale, fftAcc the sums of the readings since the last sample, centres in [130, 500]), resets fftAccCount and advances fftIdx exactly on the scale-th call, runs one update call exactly when the budget is positive and decrements it, and each sampling period has run min(fftSamplingScale, 12) update calls; after n update calls since init, wherever the samples landed between them, the next call is entered at step 0, 1, 3 or 5 for n mod 4 = 0, 1, 2, 3 and the axis is (n / 4) mod 3, so every 12 update calls visit the three axes; the sampling call feeds each band-pass the mean of exactly fftSamplingScale readings, zeroes fftAcc and changes each ring at the old fftIdx only, and any other call adds the reading to fftAcc and leaves rings and band-pass filters unchanged |
| GyroAnalyse.GyroAnalyser.SpendTick | src/main/sensors/gyroanalyse.c:159-163 | with budget left, one update call runs, the budget drops by one and the update-call count grows by one; with none, nothing changes and the budget stays 0 |
| GyroAnalyse.GyroAnalyser.SpendOneTick | src/main/sensors/gyroanalyse.c:159-163 | with budget left, the update call runs the cases EntryStages gives, leaves step where NextEntry says, decrements the budget and keeps the schedule invariant with one more update call |
| GyroAnalyse.GyroAnalyser.CountUpdateCall | src/main/sensors/gyroanalyse.c:186-307 | an update call entered at the scheduled step and axis leaves them scheduled for one more call |
| GyroAnalyse.GyroAnalyser.Collect | src/main/sensors/gyroanalyse.c:133-157 | the reading is accumulated; on the scale-th reading the rings take the band-passed mean of exactly fftSamplingScale readings at the old fftIdx, fftAcc is zeroed, fftIdx advances and the budget is 12; otherwise the rings, filters, fftIdx and budget are unchanged |
| GyroAnalyse.GyroAnalyser.Sample | src/main/sensors/gyroanalyse.c:140-157 | the sampling branch resets the count, writes the band-passed means, slides each axis's window by one, advances fftIdx and sets the budget to 12 |
| GyroAnalyse.GyroAnalyser.Accumulate | src/main/sensors/gyroanalyse.c:134-136 | fftAcc[axis] grows by gyroADC[axis] on each axis |
| GyroAnalyse.GyroAnalyser.TakeSample | src/main/sensors/gyroanalyse.c:143-151 | for each axis the band-pass is applied to the mean of the readings, its output lands at slot fftIdx of that axis's ring only, and fftAcc is zeroed |
| GyroAnalyse.GyroAnalyser.SampleAxes | src/main/sensors/gyroanalyse.c:144-151 | the sampling loop writes each axis's band-pass output at slot fftIdx, stores each filter's next state and zeroes fftAcc |
| GyroAnalyse.GyroAnalyser.SampleAxis | src/main/sensors/gyroanalyse.c:145-150 | one iteration changes that axis's filter, its ring at slot fftIdx and its accumulator, and nothing else |
| ArmMath.MultF32 | src/main/sensors/gyroanalyse.c:298-300 | arm_mult_f32 writes the n element-wise products at the destination offset and leaves the rest of the destination unchanged |

## Left out

- The FFT stages (`arm_cfft_radix8by2_f32`, `arm_bitreversal_32`, `stage_rfft_f32`, `arm_cmplx_mag_f32`) are foreign CMSIS-DSP numerics. They are function values of the right frame sizes. `arm_rfft_fast_init_f32` is not modelled.
- The `FFT_BIN_COUNT` 32 and 64 branches of `STEP_ARM_CFFT_F32` are not modelled. With a 32-sample window the bin count is 16, so only the radix-8-by-2 branch is reachable.
- The biquad operations and `filterGetNotchQ` (declared in `src/main/common/filter.h`) are uninterpreted function values. Their implementation is not part of this model. `filterGetNotchQ` is only required to be defined when the centre lies above the cutoff.
- `BIQUAD_Q` (1 / sqrtf(2)) is the real 0.70710678, since there is no square root over reals.
- `initHanning`'s `cos_approx` coefficients are not computed. The window is a parameter of `Init`.
- Float rounding in the sums, the mean and the filters is not modelled: floats are reals. `constrain` and the float-to-int conversions are modelled exactly.
- `DEBUG_SET`, `micros()` timing and `lrintf` are instrumentation only and are left out.
- `gyro.targetLooptime` and the `gyroDev->gyroADC` readings are parameters of `Analyse`. The caller's `notchFilterDyn` array is a parameter, required to be distinct from the file's own filter arrays, which are static and private.
- `src/main/drivers/usb_msc_f4xx.c` is hardware set-up and reset code, with no logic to state, and is not part of this model.
- The field types of `gyroFftData_t` are not part of this model. `maxVal` is a real and `centerFreq` an integer.
- Schedule.SamplingScale: a zero loop time is excluded by a requires. `gyroDataAnalyseInit` would divide by zero at line 98 instead.
- GyroAnalyse.GyroAnalyser.InitStatics: re-initialising with a different loop time is not modelled. `fftSamplingScale` is fixed when the analyser is constructed, so `InitStatics` leaves it as it is, while the C code would recompute it.
- GyroAnalyse.GyroAnalyser.Analyse: when `fftSamplingScale` is 0 (loop times above 1000 us) the model never samples. The C counter is a `uint32_t`, so after 2^32 calls it would wrap to 0, match the scale and divide by zero at line 145. That wrap is not modelled.
