// The parts of common/filter.h that the gyro analysis uses: the biquad section
// record and the biquad operations. Their implementations are not part of this
// model, so the operations are carried as function values: every property
// proved about the analysis holds for any implementation of them.
module Filter {

  /** biquadFilter_t: coefficients and the two-sample input/output history. */
  datatype Biquad = Biquad(b0: real, b1: real, b2: real, a1: real, a2: real,
                           x1: real, x2: real, y1: real, y2: real)

  /** biquadFilterType_e */
  datatype BiquadFilterType = Lpf | Notch | Bpf | Lpf1

  /**
   * The biquad operations declared in filter.h.
   *  - initLpf(filterFreq, refreshRate)                  biquadFilterInitLPF
   *  - init(filterFreq, refreshRate, q, type)             biquadFilterInit
   *  - update(filter, filterFreq, refreshRate, q, type)   biquadFilterUpdate
   *  - apply(filter, input) = (new filter state, output)  biquadFilterApply
   *  - notchQ(centerFreq, cutoffFreq)                     filterGetNotchQ, only
   *    defined when the centre lies above the cutoff (see NotchQDefined)
   */
  datatype FilterOps = FilterOps(
    initLpf: (real, nat) -> Biquad,
    init: (real, nat, real, BiquadFilterType) -> Biquad,
    update: (Biquad, real, nat, real, BiquadFilterType) -> Biquad,
    apply: (Biquad, real) -> (Biquad, real),
    notchQ: (real, real) --> real)

  /** filterGetNotchQ may be called whenever centerFreq > cutoffFreq. */
  ghost predicate NotchQDefined(ops: FilterOps)
  {
    forall center: real, cutoff: real :: center > cutoff ==> ops.notchQ.requires(center, cutoff)
  }
}
