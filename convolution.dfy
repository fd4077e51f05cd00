/**
 * "Same"-mode discrete linear convolution of two finite signals.
 *
 * The specification side defines the full linear convolution entry by entry
 * (ConvAt) with implicit zero padding outside the signal (At), and the
 * same-mode result as the middle Max(|a|, |b|) entries of it. ConvolveArrays
 * is the nested-loop routine, with its skip-past-the-end and
 * stop-at-the-first-negative-index control flow, proved equal to that window.
 */
module Convolution {

  function Max(x: int, y: int): int { if x >= y then x else y }

  function Min(x: int, y: int): int { if x <= y then x else y }

  /** Sample i of s, with zero padding on both sides of the signal. */
  function At(s: seq<real>, i: int): real
  {
    if 0 <= i < |s| then s[i] else 0.0
  }

  /**
   * Entry j of the full linear convolution of a with b:
   * the sum over every tap k of b of b[k] * a[j - k], where indices outside
   * a contribute nothing. The sum is accumulated in increasing k, as the
   * inner loop of ConvolveArrays does.
   */
  function ConvAt(a: seq<real>, b: seq<real>, j: int): real
    decreases |b|
  {
    if |b| == 0 then 0.0
    else ConvAt(a, b[..|b| - 1], j) + b[|b| - 1] * At(a, j - (|b| - 1))
  }

  /**
   * The same sum written tap by tap from the first one, as the textbook
   * formula reads: b[0] * a[j] + b[1] * a[j - 1] + ... .
   */
  function TapSum(a: seq<real>, b: seq<real>, j: int): real
    decreases |b|
  {
    if |b| == 0 then 0.0 else b[0] * At(a, j) + TapSum(a, b[1..], j - 1)
  }

  /**
   * Offset of the same-mode window into the full convolution. Dafny's `/`
   * by a positive divisor floors, exactly like Python's `//`, so an empty
   * input gives -1 here as it does in the source.
   */
  function Centering(lenA: nat, lenB: nat): (c: int)
    ensures 2 * c <= Min(lenA, lenB) - 1 < 2 * c + 2
    ensures Min(lenA, lenB) > 0 ==> 0 <= c < Min(lenA, lenB)
  {
    (Min(lenA, lenB) - 1) / 2
  }

  /** The full linear convolution: every entry that can be non-zero. */
  function FullConvolution(a: seq<real>, b: seq<real>): (r: seq<real>)
    requires |a| > 0 && |b| > 0
  {
    seq(|a| + |b| - 1, j => ConvAt(a, b, j))
  }

  /** The same-mode convolution, entry n being ConvAt at n plus the centering offset. */
  function SameConvolution(a: seq<real>, b: seq<real>): (r: seq<real>)
    ensures |r| == Max(|a|, |b|)
  {
    seq(Max(|a|, |b|), n => ConvAt(a, b, n + Centering(|a|, |b|)))
  }


  /**
   * Stopping the inner loop at the first tap k whose signal index j - k is
   * negative loses nothing: the signal index only decreases as k grows, so
   * every remaining term is zero.
   */
  lemma {:induction false} BreakIsSound(a: seq<real>, b: seq<real>, j: int, k: int)
    requires 0 <= k <= |b| && j - k < 0
    ensures ConvAt(a, b, j) == ConvAt(a, b[..k], j)
    decreases |b|
  {
    if k < |b| {
      var front := b[..|b| - 1];
      BreakIsSound(a, front, j, k);
      assert front[..k] == b[..k];
    } else {
      assert b[..k] == b;
    }
  }

  /** Entries of the full convolution outside 0 .. |a| + |b| - 2 are zero. */
  lemma {:induction false} ConvAtVanishesOutside(a: seq<real>, b: seq<real>, j: int)
    requires j < 0 || j > |a| + |b| - 2
    ensures ConvAt(a, b, j) == 0.0
    decreases |b|
  {
    if |b| > 0 {
      ConvAtVanishesOutside(a, b[..|b| - 1], j);
    }
  }

  /** Appending tap x to the right operand adds x times the matching signal sample. */
  lemma ConvAtSnocRight(a: seq<real>, b: seq<real>, x: real, j: int)
    ensures ConvAt(a, b + [x], j) == ConvAt(a, b, j) + x * At(a, j - |b|)
  {
  }

  /** One iteration of the inner loop: tap k joins the running sum. */
  lemma ConvAtStep(a: seq<real>, b: seq<real>, j: int, k: int)
    requires 0 <= k < |b|
    ensures ConvAt(a, b[..k + 1], j) == ConvAt(a, b[..k], j) + b[k] * At(a, j - k)
  {
    assert b[..k + 1] == b[..k] + [b[k]];
    ConvAtSnocRight(a, b[..k], b[k], j);
  }

  lemma {:induction false} ConvAtEmptyLeft(b: seq<real>, j: int)
    ensures ConvAt([], b, j) == 0.0
    decreases |b|
  {
    if |b| > 0 {
      ConvAtEmptyLeft(b[..|b| - 1], j);
    }
  }

  /** Appending x to the left operand adds x times the matching tap of the right one. */
  lemma {:induction false} ConvAtSnocLeft(a: seq<real>, b: seq<real>, x: real, j: int)
    ensures ConvAt(b + [x], a, j) == ConvAt(b, a, j) + x * At(a, j - |b|)
    decreases |a|
  {
    if |a| == 0 {
      ConvAtEmptyLeft(b + [x], j);
      ConvAtEmptyLeft(b, j);
    } else {
      var front, y := a[..|a| - 1], a[|a| - 1];
      assert a == front + [y];
      ConvAtSnocLeft(front, b, x, j);
      ConvAtSnocRight(b + [x], front, y, j);
      ConvAtSnocRight(b, front, y, j);
      assert At(b + [x], j - |front|) == At(b, j - |front|) + (if j - |front| == |b| then x else 0.0);
      assert At(a, j - |b|) == At(front, j - |b|) + (if j - |b| == |front| then y else 0.0);
    }
  }

  /** Splitting off the first tap: the rest of the kernel sees the signal one sample later. */
  lemma {:induction false} ConvAtFirstTap(a: seq<real>, x: real, rest: seq<real>, j: int)
    ensures ConvAt(a, [x] + rest, j) == x * At(a, j) + ConvAt(a, rest, j - 1)
    decreases |rest|
  {
    if |rest| > 0 {
      var front, y := rest[..|rest| - 1], rest[|rest| - 1];
      assert rest == front + [y];
      assert [x] + rest == ([x] + front) + [y];
      ConvAtFirstTap(a, x, front, j);
      ConvAtSnocRight(a, [x] + front, y, j);
      ConvAtSnocRight(a, front, y, j - 1);
    } else {
      ConvAtSnocRight(a, [], x, j);
    }
  }

  /** Accumulating the taps last-to-first or first-to-last gives the same entry. */
  lemma {:induction false} ConvAtIsTapSum(a: seq<real>, b: seq<real>, j: int)
    ensures ConvAt(a, b, j) == TapSum(a, b, j)
    decreases |b|
  {
    if |b| > 0 {
      assert b == [b[0]] + b[1..];
      ConvAtFirstTap(a, b[0], b[1..], j);
      ConvAtIsTapSum(a, b[1..], j - 1);
    }
  }

  /** Each entry of the full convolution is symmetric in its two operands. */
  lemma {:induction false} ConvAtCommutes(a: seq<real>, b: seq<real>, j: int)
    ensures ConvAt(a, b, j) == ConvAt(b, a, j)
    decreases |b|
  {
    if |b| == 0 {
      ConvAtEmptyLeft(a, j);
    } else {
      var front, x := b[..|b| - 1], b[|b| - 1];
      assert b == front + [x];
      ConvAtCommutes(a, front, j);
      ConvAtSnocRight(a, front, x, j);
      ConvAtSnocLeft(a, front, x, j);
    }
  }

  /** Same-mode convolution does not depend on which operand is the filter. */
  lemma SameConvolutionCommutes(a: seq<real>, b: seq<real>)
    ensures SameConvolution(a, b) == SameConvolution(b, a)
  {
    var c := Centering(|a|, |b|);
    assert c == Centering(|b|, |a|);
    forall n | 0 <= n < Max(|a|, |b|)
      ensures SameConvolution(a, b)[n] == SameConvolution(b, a)[n]
    {
      ConvAtCommutes(a, b, n + c);
    }
  }

  /**
   * For non-empty operands the same-mode result is the slice of the full
   * convolution that starts at the centering offset; the window drops as many
   * entries on the left as on the right, or one fewer on the left.
   */
  lemma SameIsCentredWindow(a: seq<real>, b: seq<real>)
    requires |a| > 0 && |b| > 0
    ensures var c, n := Centering(|a|, |b|), Max(|a|, |b|);
      && 0 <= c && c + n <= |a| + |b| - 1
      && SameConvolution(a, b) == FullConvolution(a, b)[c .. c + n]
      && 0 <= (|a| + |b| - 1 - (c + n)) - c <= 1
  {
  }

  /**
   * The convolution routine: preallocates the output, and for every output
   * index accumulates filter[k] * signal[n - k + centering], skipping signal
   * indices past the end and stopping at the first negative one.
   */
  method ConvolveArrays(signal: seq<real>, filter: seq<real>) returns (output: seq<real>)
    ensures |output| == Max(|signal|, |filter|)
    ensures output == SameConvolution(signal, filter)
  {
    var outputLength := Max(|signal|, |filter|);
    var centering := (Min(|signal|, |filter|) - 1) / 2;
    var buffer := new real[outputLength](_ => 0.0);
    for n := 0 to outputLength
      invariant forall i :: 0 <= i < n ==> buffer[i] == ConvAt(signal, filter, i + centering)
    {
      var runningSum := 0.0;
      for k := 0 to |filter|
        invariant runningSum == ConvAt(signal, filter[..k], n + centering)
        invariant forall i :: 0 <= i < n ==> buffer[i] == ConvAt(signal, filter, i + centering)
      {
        var signalIdx := n - k + centering;
        if signalIdx < 0 {
          assert runningSum == ConvAt(signal, filter, n + centering) by {
            BreakIsSound(signal, filter, n + centering, k);
          }
          break;
        } else if signalIdx > |signal| - 1 {
          assert runningSum == ConvAt(signal, filter[..k + 1], n + centering) by {
            ConvAtStep(signal, filter, n + centering, k);
          }
          continue;
        }
        assert runningSum + filter[k] * signal[signalIdx] == ConvAt(signal, filter[..k + 1], n + centering) by {
          ConvAtStep(signal, filter, n + centering, k);
        }
        runningSum := runningSum + filter[k] * signal[signalIdx];
      }
      assert runningSum == ConvAt(signal, filter, n + centering) by {
        assert filter[..|filter|] == filter;
      }
      buffer[n] := runningSum;
    }
    output := buffer[..];
    assert output == SameConvolution(signal, filter) by {
      assert centering == Centering(|signal|, |filter|);
      assert forall i :: 0 <= i < outputLength ==> output[i] == SameConvolution(signal, filter)[i];
    }
  }
}
