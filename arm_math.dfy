// The CMSIS-DSP calls the gyro analysis makes on its 32-point frame. The FFT
// stages are foreign numerics and are carried as function values; arm_mult_f32
// is an element-wise product and is modelled as such.
module ArmMath {

  /** A real frame of the size the rfft instance is initialised with (32). */
  type Frame = s: seq<real> | |s| == 32 witness seq(32, _ => 0.0)

  /** The magnitudes of the 16 complex bins of a 32-point real FFT. */
  type Magnitudes = s: seq<real> | |s| == 16 witness seq(16, _ => 0.0)

  /**
   * The FFT stages, each an in-place or frame-to-frame transform:
   *  - cfftRadix8by2    arm_cfft_radix8by2_f32 on fftData (in place)
   *  - bitReversal      arm_bitreversal_32 on fftData (in place)
   *  - stageRfft        stage_rfft_f32, fftData -> rfftData
   *  - cmplxMag         arm_cmplx_mag_f32, rfftData -> first 16 entries of fftData
   */
  datatype FftOps = FftOps(
    cfftRadix8by2: Frame -> Frame,
    bitReversal: Frame -> Frame,
    stageRfft: Frame -> Frame,
    cmplxMag: Frame -> Magnitudes)

  /**
   * arm_mult_f32(&a[aOff], &b[bOff], &dst[dstOff], n): dst[dstOff + k] = a[aOff + k] * b[bOff + k]
   * for k < n; nothing else in dst changes.
   */
  method MultF32(a: array<real>, aOff: nat, b: array<real>, bOff: nat,
                 dst: array<real>, dstOff: nat, n: nat)
    requires aOff + n <= a.Length && bOff + n <= b.Length && dstOff + n <= dst.Length
    requires dst != a && dst != b
    modifies dst
    ensures forall k :: 0 <= k < dst.Length ==>
      dst[k] == if dstOff <= k < dstOff + n then a[aOff + (k - dstOff)] * b[bOff + (k - dstOff)]
                else old(dst[k])
  {
    var i := 0;
    while i < n
      invariant 0 <= i <= n
      invariant forall k :: 0 <= k < dst.Length ==>
        dst[k] == if dstOff <= k < dstOff + i then a[aOff + (k - dstOff)] * b[bOff + (k - dstOff)]
                  else old(dst[k])
    {
      dst[dstOff + i] := a[aOff + i] * b[bOff + i];
      i := i + 1;
    }
  }
}
