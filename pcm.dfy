/**
 * The outbound capture conversion shared by the voice page and the live
 * document chat: one window of microphone samples becomes one 16-bit PCM
 * frame, tagged with its mime type.
 *
 * The source stores `sample * 32768` into an `Int16Array`; the store applies
 * ToInt16 (section 7.1.8 of ECMA-262, 2023 edition): truncate toward zero,
 * reduce modulo 2^16, and read the 16 bits as a two's-complement value.
 * Scaling by 2^15 is exact in binary floating point, so samples are modelled
 * as exact reals.
 */
module Pcm {

  const Int16Min: int := -32768
  const Int16Span: int := 65536

  /** The input scale factor 2^15 applied to every sample. */
  const Scale: real := 32768.0

  /** Mime type tag of every outbound frame: 16-bit PCM at 16 kHz. */
  const MimeType: string := "audio/pcm;rate=16000"

  /** The integer part of `x`, rounding toward zero. */
  function Trunc(x: real): (n: int)
    ensures 0.0 <= x ==> n as real <= x < n as real + 1.0
    ensures x < 0.0 ==> n as real - 1.0 < x <= n as real
  {
    if 0.0 <= x then x.Floor else -((-x).Floor)
  }

  /**
   * ToInt16 for a finite number: the unique 16-bit two's-complement value
   * congruent to the truncated input modulo 2^16.
   */
  function ToInt16(x: real): (r: int)
    ensures Int16Min <= r < Int16Min + Int16Span
    ensures (r - Trunc(x)) % Int16Span == 0
  {
    var t := Trunc(x);
    var bits := t % Int16Span;
    assert t == Int16Span * (t / Int16Span) + bits;
    if bits >= -Int16Min then bits - Int16Span else bits
  }

  /** The value the capture loop stores for one float sample. */
  function Sample(x: real): (v: int)
    ensures Int16Min <= v < Int16Min + Int16Span
    ensures (v - Trunc(x * Scale)) % Int16Span == 0
  {
    ToInt16(x * Scale)
  }

  /** One outbound frame: the PCM samples and their mime type tag. */
  datatype PcmBlob = PcmBlob(samples: seq<int>, mimeType: string)

  /**
   * Fills a fresh 16-bit buffer the length of the window, element by element,
   * and tags it; the frame keeps the window's length and order.
   */
  method Capture(window: seq<real>) returns (blob: PcmBlob)
    ensures blob.mimeType == MimeType
    ensures |blob.samples| == |window|
    ensures forall i :: 0 <= i < |window| ==> blob.samples[i] == Sample(window[i])
    ensures forall i :: 0 <= i < |window| ==> Int16Min <= blob.samples[i] < Int16Min + Int16Span
  {
    var l := |window|;
    var int16 := new int[l];
    for i := 0 to l
      invariant forall k :: 0 <= k < i ==> int16[k] == Sample(window[k])
    {
      int16[i] := Sample(window[i]);
    }
    blob := PcmBlob(int16[..], MimeType);
  }

  /** ToInt16 leaves a number that already fits in 16 bits unchanged. */
  lemma ToInt16Fits(x: real)
    requires Int16Min <= Trunc(x) < Int16Min + Int16Span
    ensures ToInt16(x) == Trunc(x)
  {
    var t := Trunc(x);
    if t < 0 {
      assert t % Int16Span == t + Int16Span;
    } else {
      assert t % Int16Span == t;
    }
  }

  /** A sample in [-1, 1) becomes its scaled value truncated toward zero. */
  lemma SampleInRange(x: real)
    requires -1.0 <= x < 1.0
    ensures Sample(x) == Trunc(x * Scale)
  {
    ToInt16Fits(x * Scale);
  }

  /** A full-scale positive sample of exactly 1.0 wraps to the most negative value. */
  lemma FullScaleWraps()
    ensures Sample(1.0) == Int16Min
  {
    var t := Trunc(1.0 * Scale);
    assert t == 32768;
    assert t % Int16Span == 32768;
  }

  /** A clipping sample in [1, 2) wraps around to a negative value. */
  lemma OverdriveWraps(x: real)
    requires 1.0 <= x < 2.0
    ensures Sample(x) == Trunc(x * Scale) - Int16Span
    ensures Sample(x) < 0
  {
    var t := Trunc(x * Scale);
    assert 32768 <= t < 65536;
    assert t % Int16Span == t;
  }

  /**
   * A clipping sample below -1 wraps around to a positive value once its
   * scaled value truncates below -2^15 (samples in (-32769/32768, -1) still
   * truncate to -2^15 and are kept).
   */
  lemma UnderdriveWraps(x: real)
    requires -2.0 < x <= -32769.0 / 32768.0
    ensures Sample(x) == Trunc(x * Scale) + Int16Span
    ensures Sample(x) > 0
  {
    var t := Trunc(x * Scale);
    assert -65536 < t <= -32769;
    assert t % Int16Span == t + Int16Span;
  }
}
