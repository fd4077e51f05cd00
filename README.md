# Downsampling by two: same-mode convolution, decimation, low-pass filter

This project models the signal-processing core of a small Python module that
halves the sample rate of a one-dimensional signal. The signal is low-pass
filtered with a fixed 32-tap kernel through a "same"-mode discrete linear
convolution, and then every other sample is dropped.

- `convolution.dfy`, module `Convolution`: the convolution routine
  `convolve_arrays`, modelled as the method `ConvolveArrays`. It keeps the
  source's shape: a preallocated output buffer (an `array`), nested loops, a
  running sum, a `continue` for signal indices past the end and a `break` at
  the first negative index. It is proved equal to the specification function
  `SameConvolution`. That function is defined from `ConvAt`, entry `j` of the
  full linear convolution, which sums `b[k] * a[j - k]` over the taps with
  zero padding outside the signal. `TapSum` is the same sum written from the
  first tap, as the textbook formula reads.
- `downsample.dfy`, module `Downsample`: the constant kernel
  (`KaiserFilter`), `decimate_by_2` (`DecimateBy2`) and `downsample_by_2`
  (`DownsampleBy2`). The empty-signal `ValueError` becomes
  `Failure(EmptySignal)` of a `Result` datatype.
- `oracle_cases.dfy`, module `OracleCases`: the unit-test cases (equal
  lengths, the four odd/even combinations, the commutativity case) as lemmas
  with the expected same-mode results.

Samples are `real`. The unit tests use integer samples, for which exact
arithmetic is faithful.

Empty inputs to `convolve_arrays` are not rejected by the code, and the model
keeps that. The centering offset is then `(0 - 1) // 2 == -1`. Dafny's `/`
by 2 floors exactly like Python's `//`, so the model computes the same offset.
Every output entry then comes out as zero, and the method's contract covers
this case. The lemmas that relate the result to the full convolution's window
require both inputs to be non-empty.

Commutativity is proved for all inputs, empty ones included.
`DownsampleBy2` is a pure function, so it uses `SameConvolution` where the
source calls `convolve_arrays`. `ConvolveArrays` is proved to return exactly
that value. Each function is deterministic, so calling one twice on the same
inputs gives the same result.

## Model

| member | source | states |
|---|---|---|
| `Convolution.ConvolveArrays` | solution.py:57-101 | The output has length `max(len(signal), len(filter))`, and every slot is written. It equals the same-mode convolution: entry `n` is full-convolution entry `n + centering`, even though the inner loop skips indices past the end and stops at the first negative one. |
| `Convolution.Centering` | solution.py:81 | The offset is the floor of `(min(len) - 1) / 2`, characterised by `2c <= min - 1 < 2c + 2`. It is -1 for an empty input and lies in `0 .. min - 1` otherwise. |
| `Convolution.BreakIsSound` | solution.py:89-95 | Once `j - k` is negative, the taps from `k` on add nothing. Stopping the loop there gives the full sum. |
| `Convolution.ConvAtIsTapSum` | solution.py:87-99 | Accumulating `filter[k] * signal[n - k + c]` in loop order equals the sum of the same terms written tap by tap from the first one. |
| `Convolution.ConvAtVanishesOutside` | solution.py:78 | Full-convolution entries outside `0 .. len(a) + len(b) - 2` are zero, so the full convolution has `len(a) + len(b) - 1` entries. |
| `Convolution.ConvAtCommutes` | solution.py:77-81 | Each full-convolution entry is the same with the operands swapped. |
| `Convolution.SameConvolutionCommutes` | test_convolution.py:32-36 | `convolve_arrays(a, b) == convolve_arrays(b, a)` for all inputs. |
| `Convolution.SameIsCentredWindow` | solution.py:77-81 | For non-empty inputs the result is the slice of the full convolution starting at the centering offset, of length `max(len)`. It drops as many entries on the left as on the right, or one fewer on the left. |
| `OracleCases.EqualLengths` | test_convolution.py:23-30 | `[2,1,-1,3]` convolved with `[4,3,2,1]` gives `[10,3,13,8]`. |
| `OracleCases.ShorterFirst` | test_convolution.py:32-36 | `[4,3,2]` with `[2,1,-1,3,10]` equals the swapped call, and both give `[10,3,11,47,36]`. |
| `OracleCases.LongerOddShorterOdd` | test_convolution.py:38-45 | 11 samples with 5 taps give the listed 11 values. |
| `OracleCases.LongerOddShorterEven` | test_convolution.py:47-54 | 11 samples with 4 taps give the listed 11 values. |
| `OracleCases.LongerEvenShorterOdd` | test_convolution.py:56-63 | 12 samples with 5 taps give the listed 12 values. |
| `OracleCases.LongerEvenShorterEven` | test_convolution.py:65-72 | 12 samples with 6 taps give the listed 12 values. |
| `Downsample.KaiserFilterIsSymmetric` | solution.py:10-16 | The constant `KaiserFilter` holds the source's 32 coefficients, and the lemma proves it has 32 taps and `K[i] == K[31 - i]`. |
| `Downsample.EvenPositions` | solution.py:34 | `signal[::2]` has `(len + 1) / 2` elements. |
| `Downsample.EvenPositionsAt` | solution.py:34 | Element `i` of `signal[::2]` is `signal[2 * i]`, so order is kept. |
| `Downsample.DecimateBy2` | solution.py:18-34 | The call fails exactly when the signal is empty. Otherwise it returns `(len + 1) / 2` samples, the `i`-th being `signal[2 * i]`. |
| `Downsample.DownsampleBy2` | solution.py:36-55 | The call fails exactly when the signal is empty. Otherwise it returns `(max(len, 32) + 1) / 2` samples, sample `i` being full-convolution entry `2i + centering` of the signal with the kernel. |

## Left out

- Floating-point rounding: samples are exact reals. Python's float sums can differ in their last bits between argument orders, and that is not modelled.
- The error's type and message (`ValueError('Audio signal not provided.')`): the model has a single `EmptySignal` error value.
- numpy's `np.convolve`, which the tests use as an oracle: it is a foreign library. The oracle cases state the same-mode results as literal values instead.
- `plot_original_and_downsampled` in the tests: plotting, `np.linspace`, `np.sin` and random noise are visualisation and randomness, not logic.
- In-place list allocation is modelled by a fresh Dafny array local to `ConvolveArrays`; the method returns its contents as a sequence, so aliasing of the returned list is not modelled.
