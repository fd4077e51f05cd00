/**
 * Halving the sample rate of a signal: low-pass filtering with a fixed
 * 32-tap kernel through the same-mode convolution, then keeping every
 * other sample. Both entry points reject an empty signal.
 */
module Downsample {
  import opened Convolution

  /** The one error the decimator and the downsampler report. */
  datatype Error = EmptySignal

  datatype Result<T> = Success(value: T) | Failure(error: Error)

  /** The fixed windowed-sinc low-pass kernel. */
  const KaiserFilter: seq<real> := [
    -0.01452123, -0.0155227, 0.01667252, 0.01800633, -0.01957209,
    -0.0214361, 0.02369253, 0.02647989, -0.03001054, -0.03462755,
    0.04092347, 0.05001757, -0.06430831, -0.09003163, 0.15005272,
    0.45015816, 0.45015816, 0.15005272, -0.09003163, -0.06430831,
    0.05001757, 0.04092347, -0.03462755, -0.03001054, 0.02647989,
    0.02369253, -0.0214361, -0.01957209, 0.01800633, 0.01667252,
    -0.0155227, -0.01452123]

  /** The kernel has 32 taps and reads the same backwards. */
  lemma KaiserFilterIsSymmetric()
    ensures |KaiserFilter| == 32
    ensures forall i :: 0 <= i < 32 ==> KaiserFilter[i] == KaiserFilter[31 - i]
  {
  }

  /** The samples at positions 0, 2, 4, ... of s: half of them, rounded up. */
  function EvenPositions(s: seq<real>): (r: seq<real>)
    ensures |r| == (|s| + 1) / 2
    decreases |s|
  {
    if |s| <= 1 then s else [s[0]] + EvenPositions(s[2..])
  }

  /** Entry i of EvenPositions(s) is s[2 * i]: the kept samples stay in order. */
  lemma {:induction false} EvenPositionsAt(s: seq<real>, i: nat)
    requires i < |EvenPositions(s)|
    ensures EvenPositions(s)[i] == s[2 * i]
    decreases |s|
  {
    if i > 0 {
      EvenPositionsAt(s[2..], i - 1);
    }
  }

  /** Drops every other sample; an empty signal is an error. */
  function DecimateBy2(signal: seq<real>): (r: Result<seq<real>>)
    ensures r.Failure? <==> |signal| == 0
    ensures r.Success? ==> |r.value| == (|signal| + 1) / 2
    ensures r.Success? ==> forall i :: 0 <= i < |r.value| ==> r.value[i] == signal[2 * i]
  {
    if |signal| == 0 then Failure(EmptySignal)
    else
      var kept := EvenPositions(signal);
      assert forall i :: 0 <= i < |kept| ==> kept[i] == signal[2 * i] by {
        forall i | 0 <= i < |kept| {
          EvenPositionsAt(signal, i);
        }
      }
      Success(kept)
  }

  /**
   * Filters the signal with KaiserFilter and decimates the result; an empty
   * signal is rejected before any filtering. Sample i of the result is entry
   * 2 * i + centering of the full convolution of the signal with the kernel.
   */
  function DownsampleBy2(signal: seq<real>): (r: Result<seq<real>>)
    ensures r.Failure? <==> |signal| == 0
    ensures r.Success? ==> |r.value| == (Max(|signal|, 32) + 1) / 2
    ensures r.Success? ==> forall i :: 0 <= i < |r.value| ==>
      r.value[i] == FullConvolution(signal, KaiserFilter)[2 * i + Centering(|signal|, 32)]
  {
    if |signal| == 0 then Failure(EmptySignal)
    else
      var filtered := SameConvolution(signal, KaiserFilter);
      DecimateBy2(filtered)
  }
}
