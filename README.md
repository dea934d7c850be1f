# AudioModel band-max reduction, modelled in Dafny

`AudioModel` is the object at the centre of the AudioLab pipeline. It owns three
published arrays:

- `timeData`: the latest `BUFFER_SIZE` audio samples.
- `fftData`: their `BUFFER_SIZE / 2` dB magnitudes.
- `mxData`: 20 band maxima.

On every timer tick, `runEveryInterval` refreshes the arrays in three steps. It
copies the newest samples out of the circular buffer. It runs the forward FFT.
Then a `stride` loop reduces the spectrum into bands of `BATCH_SIZE` bins, each
reduced to its maximum.

The project has two modules:

- `Bands` (`bands.dfy`) holds the pure definitions:
  - the band width `BatchSize`;
  - Swift's `max(by: <)` as `MaxBy`;
  - one band's value, `BandValue`, with its `Float.leastNormalMagnitude` fallback;
  - `BandMax`, the effect of the whole stride loop on `mxData`;
  - the lemmas about them.
- `Audio` (`audio_model.dfy`) holds the class `AudioModel`. Its fields are the
  sizes and three `array<real>` buffers. Its constructor sizes and zero-fills
  the buffers. `ReduceBands` is the stride loop, proved against `BandMax`.
  `RunEveryInterval` is the whole tick, proved against the value-level `Tick`.

The circular buffer and the FFT helper are foreign objects, so they become
parameters of the tick:

- `input: Option<seq<real>>` is `None` when `inputBuffer` is nil. Otherwise it
  holds the samples that `fetchFreshData` copies into `timeData`.
- `transform: seq<real> -> seq<real>` stands for `performForwardFFT`'s dB
  magnitude spectrum.

Samples are `real`, compared with `<`.

Boundary behaviour of the code, which the model reproduces:

- `BATCH_SIZE` is `(BUFFER_SIZE/2)/20 + 1`, floor plus one. It equals the true
  ceiling of `count / 20` except when `count` is a multiple of 20, where it is
  one more (`BatchSizeVsCeiling`). Whether trailing bands stay unwritten
  depends on the exact condition in `LastBandVisitedIff`: band 19 is written
  only when `count/20 + count%20 > 20`. That can fail with the true ceiling as
  well. For example, at `count = 21` the width is 2 and bands 10 to 19 are
  never written (`Buffer42LeavesTenBands`). With `BUFFER_SIZE = 800` the overshoot leaves band 19
  unwritten (`Buffer800LeavesLastBand`).
- The loop stops before `count - 1`. The last bin is left out only when it would
  start a band (`LastBinCoveredIff`, `LastBinIgnored`). Otherwise the clamp
  `min(s + BATCH_SIZE - 1, count - 1)` puts it into the last band. So
  `[0,5,3,8,1,9,2,7]` reduced with width 2 ends in the band `[2,7]`, whose
  value is 7, not 2 (`EightBinExample`).
- The reduction is not stateless. Only the visited bands are written, and
  every other entry of `mxData` keeps its earlier value (`BandMaxAt`,
  `SingleBinUntouched`). So a spectrum of one bin leaves all 20 entries as
  they were, where a reducer without memory would give 19 sentinels and one
  value.
- The fallback `Float.leastNormalMagnitude` is 2^-126, the smallest positive
  normal float, not a most-negative sentinel. It is never reached
  (`FallbackNeverTaken`).

## Model

| member | source | states |
|---|---|---|
| `Bands.BatchSize` | AudioLabSwift/AudioModel.swift:27-29 | BATCH_SIZE is at least 1, and 20 bands of it cover more than BUFFER_SIZE/2 bins |
| `Bands.BatchSizeVsCeiling` | AudioLabSwift/AudioModel.swift:28-29 | BATCH_SIZE equals ceil(count/20) unless count is a multiple of 20. In that case it is one more |
| `Bands.SmallSpectrumWidth` | AudioLabSwift/AudioModel.swift:29 | a spectrum of fewer than 20 bins gets a band width of 1 |
| `Bands.WriteIndexInRange` | AudioLabSwift/AudioModel.swift:139-140 | every slice start s below count-1 gives a write index s/BATCH_SIZE below 20 |
| `Bands.VisitedBandInRange` | AudioLabSwift/AudioModel.swift:139-140 | every band the stride visits has an index below MX_ARR_SIZE |
| `Bands.BandEnd` | AudioLabSwift/AudioModel.swift:140 | the upper end of a band is `min(s+B-1, count-1)`: at most both bounds and equal to one of them |
| `Bands.BandValue` | AudioLabSwift/AudioModel.swift:140 | the value written for a band, `fftData[s...min(s+B-1, count-1)].max(by: <) ?? leastNormalMagnitude`, is one of that band's bins |
| `Bands.MaxBy` | AudioLabSwift/AudioModel.swift:140 | `max(by: <)` is nil exactly on an empty slice. Otherwise it is an element of the slice and at least every element |
| `Bands.FallbackNeverTaken` | AudioLabSwift/AudioModel.swift:139-140 | for every visited start, the closed range is non-empty and inside fftData, so the `?? leastNormalMagnitude` fallback is not used |
| `Bands.BandValueIsMaximum` | AudioLabSwift/AudioModel.swift:140 | a band's value is at least every bin of the band and equals one of them |
| `Bands.BandMax` | AudioLabSwift/AudioModel.swift:139-141 | the reduction keeps mxData's length |
| `Bands.BandMaxAt` | AudioLabSwift/AudioModel.swift:139-140 | entry k is the maximum of bins k*B..min(k*B+B-1, count-1) when k*B < count-1. Otherwise it keeps its previous value |
| `Bands.BandsContiguous` | AudioLabSwift/AudioModel.swift:139-140 | a visited band k+1 begins exactly one past the end of band k |
| `Bands.BandsDisjoint` | AudioLabSwift/AudioModel.swift:139-140 | a band j < k ends before a visited band k starts |
| `Bands.BinCovered` | AudioLabSwift/AudioModel.swift:139-140 | every bin below count-1 lies in the visited band i/B |
| `Bands.BandOfBinUnique` | AudioLabSwift/AudioModel.swift:139-140 | a bin below count-1 lies in no band other than i/B |
| `Bands.LastBinCoveredIff` | AudioLabSwift/AudioModel.swift:139-140 | the final bin count-1 is inside a visited band if and only if it is not a multiple of B |
| `Bands.LastBinIgnored` | AudioLabSwift/AudioModel.swift:139-140 | when count-1 is a multiple of B, the reduction does not depend on the final bin |
| `Bands.LastBandVisitedIff` | AudioLabSwift/AudioModel.swift:139 | band 19 is written if and only if count/20 + count%20 > 20 |
| `Bands.Buffer42LeavesTenBands` | AudioLabSwift/AudioModel.swift:139-140 | with BUFFER_SIZE 42 (21 bins), B = 2, which is also ceil(21/20), and bands 10 to 19 keep their previous values |
| `Bands.Buffer800LeavesLastBand` | AudioLabSwift/AudioModel.swift:139-140 | with BUFFER_SIZE 800: B = 21, band 18 ends at bin 398, and band 19 keeps its previous value |
| `Bands.SmallSpectrumBands` | AudioLabSwift/AudioModel.swift:139-140 | with fewer than 20 bins, entry k is fftData[k] for k < count-1. Every other entry keeps its previous value |
| `Bands.SingleBinUntouched` | AudioLabSwift/AudioModel.swift:139 | a one-bin spectrum leaves every entry of mxData unchanged |
| `Bands.BandMaxIdempotent` | AudioLabSwift/AudioModel.swift:139-140 | reducing the same spectrum a second time changes nothing |
| `Bands.EightBinExample` | AudioLabSwift/AudioModel.swift:140 | [0,5,3,8,1,9,2,7] with width 2 reduces to [5,8,9,7] |
| `Audio.Initial` | AudioLabSwift/AudioModel.swift:31-33 | the initial arrays have lengths BUFFER_SIZE, BUFFER_SIZE/2 and 20, and every entry is 0 |
| `Audio.TickKeepsShape` | AudioLabSwift/AudioModel.swift:123-144 | a tick keeps the lengths of all three arrays |
| `Audio.Tick` | AudioLabSwift/AudioModel.swift:123-144 | without a buffer, the arrays stay as they were. With one, timeData becomes the samples and fftData their transform, mxData keeps 20 entries, and every band no slice start reaches keeps its old value |
| `Audio.TickWithoutBuffer` | AudioLabSwift/AudioModel.swift:124 | without a circular buffer, a tick leaves every array as it was |
| `Audio.TickIdempotent` | AudioLabSwift/AudioModel.swift:123-144 | two ticks over the same buffered samples publish what one tick published |
| `Audio.AudioModel.constructor` | AudioLabSwift/AudioModel.swift:25-34 | fixes MX_ARR_SIZE = 20 and BATCH_SIZE = (n/2)/20 + 1, and allocates three fresh zero-filled arrays of lengths n, n/2 and 20 |
| `Audio.AudioModel.FetchFreshData` | AudioLabSwift/AudioModel.swift:126-127 | timeData becomes the circular buffer's samples, and nothing else changes |
| `Audio.AudioModel.PerformForwardFFT` | AudioLabSwift/AudioModel.swift:130-131 | fftData becomes the transform of timeData, and nothing else changes |
| `Audio.AudioModel.ReduceBands` | AudioLabSwift/AudioModel.swift:139-141 | the stride loop leaves mxData equal to BandMax of fftData and the old mxData. It changes only mxData, and every write index is in bounds |
| `Audio.AudioModel.RunEveryInterval` | AudioLabSwift/AudioModel.swift:123-144 | the new arrays are Tick of the old ones. The tick does nothing when the buffer is absent, and the lengths are kept |
| `Audio.RefreshAfterInit` | AudioLabSwift/AudioModel.swift:123-144 | a model built for 800 samples and refreshed once still holds 0 in band 19 |

## Left out

- Device and timer glue (`startMicrophoneProcessing`, `playAudioFile`, `play`, `pause`, `Timer.scheduledTimer`, lines 37-75): this is control of the external audio manager and scheduling.
- `CircularBuffer` (`addNewFloatData`, `fetchFreshData`) is a foreign class whose code is not part of this model. The model represents it only as the `input` parameter of a tick: `None` when the buffer is absent, and otherwise exactly `BUFFER_SIZE` samples.
- `FFTHelper.performForwardFFT` is a foreign routine. The model represents it as the total function `transform`, whose output has `BUFFER_SIZE / 2` entries. Two details are not modelled: it receives `timeData` through `&`, which could let it change `timeData`, and it has its own size constraint.
- File decoding (`AudioFileReader`, lines 100-118, 161-168) and the volume scaling by `vDSP_vsmul` (line 172) are file I/O and floating-point library calls.
- Concurrency: the hardware callbacks `handleMicrophone` and `handleSpeakerQueryWithAudioFile` run alongside the timer-driven refresh, and readers may see torn arrays. The model is sequential.
- IEEE floating point: samples are `real`. `<` is a total order on them, so NaN is not modelled. `Float.leastNormalMagnitude` is its exact value 2^-126.
- Lazy initialisation and force unwraps (lines 79-91): evaluating `inputBuffer` builds the buffer, and `audioManager!` can trap. The model keeps only whether the buffer is present.
- 64-bit `Int` overflow: no size in this code comes near 2^63, so the integers are unbounded.
- `Audio.AudioModel.constructor`: `buffer_size` is a `nat`, because a negative count traps in `Array.init(repeating:count:)`.
