/**
 * The concrete cases the convolution routine is compared against: equal
 * lengths, and every parity combination of the longer and the shorter
 * operand. Each case lemma proves that SameConvolution, and so
 * ConvolveArrays, returns the same-mode result the corresponding unit test
 * expects. Its companion lemma ending in Taps evaluates the entries one by
 * one through TapSum on the literal operands.
 */
module OracleCases {
  import opened Convolution

  const Signal11: seq<real> := [2.0, 1.0, -1.0, 3.0, 3.0, 6.0, 7.0, -3.0, 1.0, 12.0, 9.0]
  const Signal12: seq<real> := [2.0, 1.0, -1.0, 3.0, 3.0, 6.0, 7.0, -3.0, 1.0, 12.0, 9.0, 41.0]

  /**
   * A same-mode convolution equals `expected` when every entry of it, written
   * through TapSum with the offset given as a plain number, does.
   */
  lemma SameConvolutionByTaps(a: seq<real>, b: seq<real>, c: int, expected: seq<real>)
    requires |expected| == Max(|a|, |b|) && c == Centering(|a|, |b|)
    requires forall n :: 0 <= n < |expected| ==> TapSum(a, b, n + c) == expected[n]
    ensures SameConvolution(a, b) == expected
  {
    forall n | 0 <= n < |expected|
      ensures SameConvolution(a, b)[n] == expected[n]
    {
      ConvAtIsTapSum(a, b, n + c);
    }
  }

  /** The entries of the EqualLengths case, one TapSum each. */
  lemma EqualLengthsTaps()
    ensures forall n :: 0 <= n < 4 ==>
      TapSum([2.0, 1.0, -1.0, 3.0], [4.0, 3.0, 2.0, 1.0], n + 1)
      == [10.0, 3.0, 13.0, 8.0][n]
  {
  }

  /** Equal lengths: 4 samples, 4 taps. */
  lemma EqualLengths()
    ensures SameConvolution([2.0, 1.0, -1.0, 3.0], [4.0, 3.0, 2.0, 1.0])
         == [10.0, 3.0, 13.0, 8.0]
  {
    EqualLengthsTaps();
    SameConvolutionByTaps([2.0, 1.0, -1.0, 3.0], [4.0, 3.0, 2.0, 1.0], 1, [10.0, 3.0, 13.0, 8.0]);
  }

  /** The entries of the LongerOddShorterOdd case, one TapSum each. */
  lemma LongerOddShorterOddTaps()
    ensures forall n :: 0 <= n < 11 ==>
      TapSum(Signal11, [4.0, 3.0, 2.0, 1.0, 6.0], n + 2)
      == [3.0, 13.0, 32.0, 44.0, 49.0, 42.0, 33.0, 88.0, 113.0, 34.0, 36.0][n]
  {
  }

  /** Both operands odd: 11 samples, 5 taps. */
  lemma LongerOddShorterOdd()
    ensures SameConvolution(Signal11, [4.0, 3.0, 2.0, 1.0, 6.0])
         == [3.0, 13.0, 32.0, 44.0, 49.0, 42.0, 33.0, 88.0, 113.0, 34.0, 36.0]
  {
    LongerOddShorterOddTaps();
    SameConvolutionByTaps(Signal11, [4.0, 3.0, 2.0, 1.0, 6.0], 2, [3.0, 13.0, 32.0, 44.0, 49.0, 42.0, 33.0, 88.0, 113.0, 34.0, 36.0]);
  }

  /** The entries of the LongerOddShorterEven case, one TapSum each. */
  lemma LongerOddShorterEvenTaps()
    ensures forall n :: 0 <= n < 11 ==>
      TapSum(Signal11, [4.0, 3.0, 2.0, 1.0], n + 1)
      == [10.0, 3.0, 13.0, 20.0, 38.0, 55.0, 24.0, 15.0, 52.0, 71.0, 52.0][n]
  {
  }

  /** 11 samples, 4 taps. */
  lemma LongerOddShorterEven()
    ensures SameConvolution(Signal11, [4.0, 3.0, 2.0, 1.0])
         == [10.0, 3.0, 13.0, 20.0, 38.0, 55.0, 24.0, 15.0, 52.0, 71.0, 52.0]
  {
    LongerOddShorterEvenTaps();
    SameConvolutionByTaps(Signal11, [4.0, 3.0, 2.0, 1.0], 1, [10.0, 3.0, 13.0, 20.0, 38.0, 55.0, 24.0, 15.0, 52.0, 71.0, 52.0]);
  }

  /** The entries of the LongerEvenShorterOdd case, one TapSum each. */
  lemma LongerEvenShorterOddTaps()
    ensures forall n :: 0 <= n < 12 ==>
      TapSum(Signal12, [4.0, 3.0, 2.0, 1.0, 6.0], n + 2)
      == [3.0, 13.0, 32.0, 44.0, 49.0, 42.0, 33.0, 88.0, 113.0, 198.0, 159.0, 163.0][n]
  {
  }

  /** 12 samples, 5 taps. */
  lemma LongerEvenShorterOdd()
    ensures SameConvolution(Signal12, [4.0, 3.0, 2.0, 1.0, 6.0])
         == [3.0, 13.0, 32.0, 44.0, 49.0, 42.0, 33.0, 88.0, 113.0, 198.0, 159.0, 163.0]
  {
    LongerEvenShorterOddTaps();
    SameConvolutionByTaps(Signal12, [4.0, 3.0, 2.0, 1.0, 6.0], 2, [3.0, 13.0, 32.0, 44.0, 49.0, 42.0, 33.0, 88.0, 113.0, 198.0, 159.0, 163.0]);
  }

  /** The entries of the LongerEvenShorterEven case, one TapSum each. */
  lemma LongerEvenShorterEvenTaps()
    ensures forall n :: 0 <= n < 12 ==>
      TapSum(Signal12, [4.0, 3.0, 2.0, 1.0, 6.0, 10.0], n + 2)
      == [3.0, 13.0, 32.0, 64.0, 59.0, 32.0, 63.0, 118.0, 173.0, 268.0, 129.0, 173.0][n]
  {
  }

  /** Both operands even: 12 samples, 6 taps. */
  lemma LongerEvenShorterEven()
    ensures SameConvolution(Signal12, [4.0, 3.0, 2.0, 1.0, 6.0, 10.0])
         == [3.0, 13.0, 32.0, 64.0, 59.0, 32.0, 63.0, 118.0, 173.0, 268.0, 129.0, 173.0]
  {
    LongerEvenShorterEvenTaps();
    SameConvolutionByTaps(Signal12, [4.0, 3.0, 2.0, 1.0, 6.0, 10.0], 2, [3.0, 13.0, 32.0, 64.0, 59.0, 32.0, 63.0, 118.0, 173.0, 268.0, 129.0, 173.0]);
  }

  /** The entries of the ShorterFirst case, one TapSum each. */
  lemma ShorterFirstTaps()
    ensures forall n :: 0 <= n < 5 ==>
      TapSum([2.0, 1.0, -1.0, 3.0, 10.0], [4.0, 3.0, 2.0], n + 1)
      == [10.0, 3.0, 11.0, 47.0, 36.0][n]
  {
  }

  /** The shorter operand may be passed first: the result is the same. */
  lemma ShorterFirst()
    ensures SameConvolution([4.0, 3.0, 2.0], [2.0, 1.0, -1.0, 3.0, 10.0])
         == SameConvolution([2.0, 1.0, -1.0, 3.0, 10.0], [4.0, 3.0, 2.0])
         == [10.0, 3.0, 11.0, 47.0, 36.0]
  {
    SameConvolutionCommutes([4.0, 3.0, 2.0], [2.0, 1.0, -1.0, 3.0, 10.0]);
    ShorterFirstTaps();
    SameConvolutionByTaps([2.0, 1.0, -1.0, 3.0, 10.0], [4.0, 3.0, 2.0], 1, [10.0, 3.0, 11.0, 47.0, 36.0]);
  }
}
