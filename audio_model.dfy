/** AudioModel: the object that owns the three published arrays (timeData,
    fftData, mxData), sizes them at construction and refreshes them on every
    timer tick. The circular buffer and the FFT helper are foreign objects;
    the refresh takes what they produce as parameters. */
module Audio {
  import opened Bands

  /** The three published arrays, as values. */
  datatype Snapshot = Snapshot(time: seq<real>, fft: seq<real>, mx: seq<real>)

  /** The lengths a model built for bufferSize keeps for its published arrays. */
  predicate Shaped(bufferSize: nat, st: Snapshot)
  {
    |st.time| == bufferSize && |st.fft| == bufferSize / 2 && |st.mx| == BandCount
  }

  function Zeros(n: nat): (z: seq<real>)
    ensures |z| == n && forall i :: 0 <= i < n ==> z[i] == 0.0
  {
    seq(n, _ => 0.0)
  }

  /** The arrays right after `init(buffer_size:)`. */
  function Initial(bufferSize: nat): (st: Snapshot)
    ensures Shaped(bufferSize, st)
    ensures forall i :: 0 <= i < |st.time| ==> st.time[i] == 0.0
    ensures forall i :: 0 <= i < |st.fft| ==> st.fft[i] == 0.0
    ensures forall i :: 0 <= i < |st.mx| ==> st.mx[i] == 0.0
  {
    Snapshot(Zeros(bufferSize), Zeros(bufferSize / 2), Zeros(BandCount))
  }

  /** One tick of `runEveryInterval` on values. `input` is None when the
      circular buffer is absent, and otherwise the BUFFER_SIZE samples that
      `fetchFreshData` copies out; `transform` stands for the FFT helper's
      forward transform with dB magnitudes. */
  function Tick(bufferSize: nat, st: Snapshot, input: Option<seq<real>>,
                transform: seq<real> -> seq<real>): (r: Snapshot)
    requires |st.mx| == BandCount
    requires input.Some? ==> |transform(input.value)| == bufferSize / 2
    ensures input.None? ==> r == st
    ensures input.Some? ==> r.time == input.value && r.fft == transform(input.value)
    ensures |r.mx| == BandCount
    ensures forall k :: 0 <= k < BandCount && !Visited(k, BatchSize(bufferSize), |r.fft|) ==> r.mx[k] == st.mx[k]
  {
    match input
    case None => st
    case Some(samples) =>
      var spectrum := transform(samples);
      Snapshot(samples, spectrum, BandMax(spectrum, BatchSize(bufferSize), st.mx))
  }

  /** A tick keeps the lengths of all three arrays. */
  lemma TickKeepsShape(bufferSize: nat, st: Snapshot, input: Option<seq<real>>,
                       transform: seq<real> -> seq<real>)
    requires Shaped(bufferSize, st)
    requires input.Some? ==> |input.value| == bufferSize && |transform(input.value)| == bufferSize / 2
    ensures Shaped(bufferSize, Tick(bufferSize, st, input, transform))
  {
  }

  /** Without a circular buffer a tick changes nothing. */
  lemma TickWithoutBuffer(bufferSize: nat, st: Snapshot, transform: seq<real> -> seq<real>)
    requires |st.mx| == BandCount
    ensures Tick(bufferSize, st, None, transform) == st
  {
  }

  /** Two ticks over the same buffered samples publish what one tick published. */
  lemma TickIdempotent(bufferSize: nat, st: Snapshot, input: Option<seq<real>>,
                       transform: seq<real> -> seq<real>)
    requires |st.mx| == BandCount
    requires input.Some? ==> |transform(input.value)| == bufferSize / 2
    ensures var once := Tick(bufferSize, st, input, transform);
      Tick(bufferSize, once, input, transform) == once
  {
  }

  class AudioModel {
    var bufferSize: nat   // BUFFER_SIZE
    var mxArrSize: nat    // MX_ARR_SIZE
    var batchSize: nat    // BATCH_SIZE
    var timeData: array<real>
    var fftData: array<real>
    var mxData: array<real>

    /** The sizes derived at construction, and three distinct arrays (Swift
        arrays are values, so they never share storage). */
    ghost predicate Valid()
      reads this
    {
      mxArrSize == BandCount &&
      batchSize == BatchSize(bufferSize) &&
      timeData.Length == bufferSize &&
      fftData.Length == bufferSize / 2 &&
      mxData.Length == mxArrSize &&
      timeData != fftData && timeData != mxData && fftData != mxData
    }

    ghost function Current(): Snapshot
      reads this, timeData, fftData, mxData
    {
      Snapshot(timeData[..], fftData[..], mxData[..])
    }

    /** `init(buffer_size:)`. A negative size traps in Array.init, hence nat. */
    constructor (buffer_size: nat)
      ensures Valid()
      ensures fresh(timeData) && fresh(fftData) && fresh(mxData)
      ensures bufferSize == buffer_size && mxArrSize == 20
      ensures batchSize == (buffer_size / 2) / 20 + 1
      ensures Current() == Initial(buffer_size)
    {
      var bands := 20;
      bufferSize := buffer_size;
      mxArrSize := bands;
      batchSize := ((buffer_size / 2) / bands) + 1;
      timeData := new real[buffer_size](_ => 0.0);
      fftData := new real[buffer_size / 2](_ => 0.0);
      mxData := new real[bands](_ => 0.0);
    }

    /** `inputBuffer!.fetchFreshData(&timeData, withNumSamples: BUFFER_SIZE)`:
        the circular buffer overwrites timeData with its latest samples. */
    method FetchFreshData(samples: seq<real>)
      requires Valid() && |samples| == timeData.Length
      modifies timeData
      ensures Valid()
      ensures timeData[..] == samples
    {
      forall i | 0 <= i < timeData.Length {
        timeData[i] := samples[i];
      }
    }

    /** `fftHelper!.performForwardFFT(withData: &timeData,
        andCopydBMagnitudeToBuffer: &fftData)`: fftData receives the dB
        magnitudes of timeData. */
    method PerformForwardFFT(transform: seq<real> -> seq<real>)
      requires Valid() && |transform(timeData[..])| == fftData.Length
      modifies fftData
      ensures Valid()
      ensures fftData[..] == transform(timeData[..])
    {
      ghost var samples := timeData[..];
      var magnitudes := transform(timeData[..]);
      forall i | 0 <= i < fftData.Length {
        fftData[i] := magnitudes[i];
      }
      assert timeData[..] == samples;
    }

    /** The stride loop of `runEveryInterval`: for every slice start s below
        fftData.count - 1, in steps of BATCH_SIZE, mxData[s / BATCH_SIZE] gets
        the maximum of the band starting at s. Only mxData changes. */
    method ReduceBands()
      requires Valid()
      modifies mxData
      ensures Valid()
      ensures mxData[..] == BandMax(fftData[..], batchSize, old(mxData[..]))
    {
      var count := fftData.Length;
      var slice := 0;
      ghost var band: nat := 0;
      ghost var fft, b, prev := fftData[..], batchSize, mxData[..];
      while slice < count - 1
        invariant slice == band * b
        invariant band == 0 || Visited(band - 1, b, count)
        invariant mxData[..] == BandsUpTo(fft, b, prev, band)
        decreases count - slice
      {
        VisitedBandInRange(bufferSize, band);
        DivOfMultiple(band, b);
        BandsUpToStep(fft, b, prev, band);
        mxData[slice / batchSize] := BandValue(fftData[..], slice, batchSize);
        slice := slice + batchSize;
        band := band + 1;
      }
      BandsUpToDone(fft, b, prev, band);
    }

    /** `runEveryInterval()`: when the circular buffer exists, fetch the
        latest samples, transform them, and reduce the spectrum into mxData;
        otherwise do nothing. */
    method RunEveryInterval(input: Option<seq<real>>, transform: seq<real> -> seq<real>)
      requires Valid()
      requires input.Some? ==> |input.value| == timeData.Length
      requires input.Some? ==> |transform(input.value)| == fftData.Length
      modifies timeData, fftData, mxData
      ensures Valid()
      ensures Current() == Tick(bufferSize, old(Current()), input, transform)
      ensures input.None? ==> Current() == old(Current())
      ensures Shaped(bufferSize, Current())
    {
      match input
      case None =>
      case Some(samples) =>
        FetchFreshData(samples);
        PerformForwardFFT(transform);
        ReduceBands();
    }
  }

  /** A model built for BUFFER_SIZE = 800 and refreshed once never writes
      band 19: it keeps the 0 it was initialised with. */
  method RefreshAfterInit(samples: seq<real>, transform: seq<real> -> seq<real>)
    returns (m: AudioModel)
    requires |samples| == 800 && |transform(samples)| == 400
    ensures fresh(m) && m.Valid()
    ensures m.mxData[19] == 0.0
    ensures m.timeData[..] == samples && m.fftData[..] == transform(samples)
  {
    m := new AudioModel(800);
    m.RunEveryInterval(Some(samples), transform);
    Buffer800LeavesLastBand(transform(samples), Initial(800).mx);
  }
}
