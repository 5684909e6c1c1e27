/**
  Sample formats of the audio source: the 32-bit float linear PCM that CoreAudio
  delivers and the 16-bit signed stereo frame the visualizer consumes.

  A float sample is modelled by its (finite) value as a `real`. The conversion
  `static_cast<int16_t>(32768.0 * x)` is exact up to the cast (a float times a
  power of two fits a double), and the cast truncates toward zero; it is only
  defined when the truncated value fits in 16 bits, which `InPcmRange` states.
 */
module Pcm {

  newtype int16 = x: int | -0x8000 <= x < 0x8000
  newtype uint32 = x: int | 0 <= x < 0x1_0000_0000

  /** One output frame (`pcm_stereo_sample`): left and right channel. */
  datatype StereoSample = StereoSample(l: int16, r: int16)

  /** Full scale of the float-to-PCM16 conversion. */
  const FullScale: real := 32768.0

  /** Conversion of a double to an integer type: truncation toward zero. */
  function Truncate(x: real): (n: int)
    ensures 0.0 <= x ==> 0 <= n && n as real <= x < n as real + 1.0
    ensures x < 0.0 ==> n <= 0 && n as real - 1.0 < x <= n as real
  {
    if 0.0 <= x then x.Floor else -((-x).Floor)
  }

  /** The cast to int16 of `32768.0 * x` has a defined result. */
  predicate InPcmRange(x: real)
  {
    -0x8000 <= Truncate(FullScale * x) < 0x8000
  }

  /** Linear PCM float to 16-bit PCM, as the reader converts each sample. */
  function ToPcm16(x: real): (s: int16)
    requires InPcmRange(x)
    ensures -1.0 < s as real - FullScale * x < 1.0
    ensures 0.0 <= x ==> 0 <= s && s as real <= FullScale * x
    ensures x < 0.0 ==> s <= 0 && FullScale * x <= s as real
  {
    Truncate(FullScale * x) as int16
  }

  /** Exactly the floats in (-32769/32768, 1) can be converted. */
  lemma InPcmRangeIff(x: real)
    ensures InPcmRange(x) <==> -32769.0 < FullScale * x < 32768.0
  {
  }

  /** Reference values of the conversion. */
  lemma ToPcm16Examples()
    ensures InPcmRange(0.5) && ToPcm16(0.5) == 16384
    ensures InPcmRange(-1.0) && ToPcm16(-1.0) == -32768
    ensures InPcmRange(0.0) && ToPcm16(0.0) == 0
  {
  }

  /** A full-scale positive sample (1.0) has no defined conversion: 32768 does not fit. */
  lemma FullScaleOutOfRange()
    ensures !InPcmRange(1.0)
  {
  }
}
