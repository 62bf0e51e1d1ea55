// The compile-time constants of the gyro analysis (sensors/gyroanalyse.c).
module AnalyseConfig {
  const XyzAxisCount: nat := 3
  const FftWindowSize: nat := 32
  const FftBinCount: nat := FftWindowSize / 2
  const FftMinFreq: nat := 100
  const FftSamplingRate: nat := 1000
  const FftMaxFrequency: nat := FftSamplingRate / 2
  const FftBpfHz: nat := 200
  /** Hz per bin: 1000 / 32 = 31.25. */
  const FftResolution: real := FftSamplingRate as real / FftWindowSize as real
  const DynNotchWidth: nat := 100
  const DynNotchChangeRate: nat := 60
  const DynNotchMinCutoff: nat := 120
  const DynNotchMaxCutoff: nat := 200
  /** Four update calls per axis. */
  const DynNotchCalcTicks: nat := XyzAxisCount * 4
  /** BIQUAD_Q = 1 / sqrt(2), the Butterworth quality factor, to eight places. */
  const ButterworthQ: real := 0.70710678
  /** Initial centre frequency of every axis. */
  const InitialCenterFreq: int := 200

  /** Width of the uint16_t and uint32_t variables the derivations are stored in. */
  const Uint16Modulus: nat := 0x1_0000
  const Uint32Modulus: nat := 0x1_0000_0000

  /** An axis, as the gyro's X, Y, Z index. */
  type AxisIndex = a: nat | a < XyzAxisCount
  /** A slot of the sample ring, as fftIdx. */
  type RingIndex = i: nat | i < FftWindowSize
}
