/** The audio manager that turns each 1024-sample block into a reading
    (brightness, r, g, b) and hands one averaged reading to its callback
    every `samples_to_average` blocks. */
module AudioInputStream {
  import opened Common
  import opened AudioRules

  /** The block size the stream is opened with. */
  const BlockSize: nat := 1024

  /** One `[br, r, g, b]` entry of the averaging buffer. */
  datatype Reading = Reading(brightness: int, r: int, g: int, b: int)

  predicate ValidReading(x: Reading)
  {
    0 <= x.brightness <= 255 && 0 <= x.r && 0 <= x.g && 0 <= x.b
  }

  /** The reading of one block: one channel per band, brightness the clamped
      brightest channel. */
  function ReadingOf(magnitude: seq<seq<real>>, bands: Bands): (x: Reading)
    requires BandsFit(bands, |magnitude|) && NonNegative(magnitude) && Rectangular(magnitude)
    ensures ValidReading(x)
    ensures x.r == BandChannel(magnitude, bands.low) && x.g == BandChannel(magnitude, bands.mid) &&
            x.b == BandChannel(magnitude, bands.high)
    ensures x.r <= 255 && x.g <= 255 && x.b <= 255 ==> x.brightness == Max3(x.r, x.g, x.b)
  {
    var r := BandChannel(magnitude, bands.low);
    var g := BandChannel(magnitude, bands.mid);
    var b := BandChannel(magnitude, bands.high);
    Reading(ClampedBrightness(r, g, b), r, g, b)
  }

  /** Component-wise sum of a buffer. */
  function Total(buf: seq<Reading>): Reading
  {
    if buf == [] then Reading(0, 0, 0, 0)
    else
      var t, x := Total(buf[..|buf| - 1]), buf[|buf| - 1];
      Reading(t.brightness + x.brightness, t.r + x.r, t.g + x.g, t.b + x.b)
  }

  lemma {:induction false} TotalBounds(buf: seq<Reading>)
    requires forall i :: 0 <= i < |buf| ==> ValidReading(buf[i])
    ensures 0 <= Total(buf).brightness <= 255 * |buf|
    ensures 0 <= Total(buf).r && 0 <= Total(buf).g && 0 <= Total(buf).b
  {
    if buf != [] {
      TotalBounds(buf[..|buf| - 1]);
    }
  }

  /** `np.array(np.average(data, axis=0), dtype=np.uint8)`: the mean of each
      component, truncated and cast to a byte. */
  function Average(buf: seq<Reading>): (avg: Reading)
    requires |buf| > 0
    ensures IsByte(avg.brightness) && IsByte(avg.r) && IsByte(avg.g) && IsByte(avg.b)
  {
    var t, n := Total(buf), |buf|;
    Reading(ToUint8(t.brightness / n), ToUint8(t.r / n), ToUint8(t.g / n), ToUint8(t.b / n))
  }

  /** For readings of this model the averaged brightness is the exact mean
      brightness of the buffer, truncated: no wrap-around occurs. */
  lemma AverageBrightnessIsMean(buf: seq<Reading>)
    requires |buf| > 0 && forall i :: 0 <= i < |buf| ==> ValidReading(buf[i])
    ensures Average(buf).brightness * |buf| <= Total(buf).brightness < (Average(buf).brightness + 1) * |buf|
  {
    TotalBounds(buf);
    var t, n := Total(buf).brightness, |buf|;
    QuotientBounds(t, n, 255);
    assert Average(buf).brightness == t / n;
  }

  /** A reading whose colour channels are bytes. */
  predicate ByteChannels(x: Reading)
  {
    IsByte(x.r) && IsByte(x.g) && IsByte(x.b)
  }

  lemma {:induction false} TotalChannelBounds(buf: seq<Reading>)
    requires forall i :: 0 <= i < |buf| ==> ByteChannels(buf[i])
    ensures 0 <= Total(buf).r <= 255 * |buf|
    ensures 0 <= Total(buf).g <= 255 * |buf|
    ensures 0 <= Total(buf).b <= 255 * |buf|
  {
    if buf != [] {
      TotalChannelBounds(buf[..|buf| - 1]);
    }
  }

  /** `np.average(data, axis=0)` averages every component: when the buffered
      channels are bytes, each averaged channel is the truncated mean of that
      channel over the buffer, with no wrap-around. */
  lemma AverageChannelsAreMeans(buf: seq<Reading>)
    requires |buf| > 0 && forall i :: 0 <= i < |buf| ==> ByteChannels(buf[i])
    ensures Average(buf).r * |buf| <= Total(buf).r < (Average(buf).r + 1) * |buf|
    ensures Average(buf).g * |buf| <= Total(buf).g < (Average(buf).g + 1) * |buf|
    ensures Average(buf).b * |buf| <= Total(buf).b < (Average(buf).b + 1) * |buf|
  {
    TotalChannelBounds(buf);
    var t, n := Total(buf), |buf|;
    QuotientBounds(t.r, n, 255);
    QuotientBounds(t.g, n, 255);
    QuotientBounds(t.b, n, 255);
    assert Average(buf).r == t.r / n;
    assert Average(buf).g == t.g / n;
    assert Average(buf).b == t.b / n;
  }

  /** The quotient of a total of n values in [0, m] is in [0, m] and is the
      truncated mean. */
  lemma QuotientBounds(t: int, n: int, m: int)
    requires n > 0 && 0 <= t <= m * n
    ensures 0 <= t / n <= m
    ensures (t / n) * n <= t < (t / n + 1) * n
  {
    var q := t / n;
    assert t == q * n + t % n;
    assert (q + 1) * n == q * n + n;
  }

  /** What one `listen` call does with the buffer. */
  datatype ListenResult =
    | Stored                   // the reading was appended
    | Emitted(average: Reading) // the buffer was averaged and cleared
    | Raised                   // averaging an empty buffer fails (N <= 1)

  /** One `listen` call with `samples_to_average` = n on buffer `data`: append
      while fewer than n - 1 entries are held; otherwise average the held
      entries, dropping the current one, and clear the buffer. */
  function Step(n: int, data: seq<Reading>, x: Reading): (r: (seq<Reading>, ListenResult))
    ensures |data| <= n - 1 ==> |r.0| <= n - 1
    ensures r.1.Stored? <==> |data| < n - 1
    ensures r.1.Stored? ==> r.0 == data + [x]
    ensures r.1.Emitted? ==> r.0 == [] && |data| > 0 && r.1.average == Average(data)
    ensures r.1.Raised? <==> data == [] && n <= 1
    ensures r.1.Raised? ==> r.0 == data
  {
    if |data| < n - 1 then (data + [x], Stored)
    else if data == [] then (data, Raised)
    else ([], Emitted(Average(data)))
  }

  /** The buffer and the averages emitted after a run of calls on a freshly
      built stream. */
  function Feed(n: int, xs: seq<Reading>): (seq<Reading>, seq<Reading>)
  {
    if xs == [] then ([], [])
    else
      var prev := Feed(n, xs[..|xs| - 1]);
      var (data, res) := Step(n, prev.0, xs[|xs| - 1]);
      (data, prev.1 + if res.Emitted? then [res.average] else [])
  }

  /** The averages `fired` are those of the first q blocks of n calls, each
      block's last call excluded. */
  ghost predicate BlockAverages(n: int, xs: seq<Reading>, fired: seq<Reading>, q: nat)
  {
    n >= 2 && |fired| == q &&
    forall j :: 0 <= j < q ==> 0 <= j * n && j * n + n - 1 <= |xs| && fired[j] == Average(xs[j * n .. j * n + n - 1])
  }

  /** With N >= 2, after q * N + rem calls (rem < N) exactly q averages have
      been emitted; the j-th is the average of calls j*N .. j*N + N - 2, so
      every N-th call emits and its own reading is dropped; the buffer holds
      the last rem readings. */
  lemma {:induction false} FeedEveryNth(n: int, xs: seq<Reading>, q: nat, rem: nat)
    requires n >= 2 && rem < n && |xs| == q * n + rem
    ensures Feed(n, xs).0 == xs[q * n..]
    ensures BlockAverages(n, xs, Feed(n, xs).1, q)
  {
    if xs == [] {
      assert q == 0;
    } else {
      var init, x := xs[..|xs| - 1], xs[|xs| - 1];
      assert xs == init + [x];
      if rem > 0 {
        FeedEveryNth(n, init, q, rem - 1);
        StoringCall(n, init, x, q, rem);
      } else {
        assert q >= 1;
        assert (q - 1) * n == q * n - n;
        FeedEveryNth(n, init, q - 1, n - 1);
        EmittingCall(n, init, x, q);
      }
    }
  }

  /** A call that finds fewer than N - 1 readings stores its own. */
  lemma StoringCall(n: int, init: seq<Reading>, x: Reading, q: nat, rem: nat)
    requires n >= 2 && 0 < rem < n && |init| == q * n + rem - 1
    requires Feed(n, init).0 == init[q * n..]
    requires BlockAverages(n, init, Feed(n, init).1, q)
    ensures Feed(n, init + [x]).0 == (init + [x])[q * n..]
    ensures BlockAverages(n, init + [x], Feed(n, init + [x]).1, q)
  {
    var xs := init + [x];
    assert xs[..|xs| - 1] == init;
    var prev := Feed(n, init);
    assert |prev.0| == rem - 1;
    assert prev.1 + [] == prev.1;
    assert Feed(n, xs) == (prev.0 + [x], prev.1);
    var fired := prev.1;
    forall j | 0 <= j < q
      ensures fired[j] == Average(xs[j * n .. j * n + n - 1])
    {
      BlockInside(j, q, n);
      assert init[j * n .. j * n + n - 1] == xs[j * n .. j * n + n - 1];
    }
  }

  /** The call that finds N - 1 readings emits their average and clears the
      buffer. */
  lemma EmittingCall(n: int, init: seq<Reading>, x: Reading, q: nat)
    requires n >= 2 && q >= 1 && |init| == q * n - 1
    requires Feed(n, init).0 == init[(q - 1) * n..]
    requires BlockAverages(n, init, Feed(n, init).1, q - 1)
    ensures Feed(n, init + [x]).0 == (init + [x])[q * n..]
    ensures BlockAverages(n, init + [x], Feed(n, init + [x]).1, q)
  {
    var xs := init + [x];
    assert xs[..|xs| - 1] == init;
    var prev := Feed(n, init);
    var start := (q - 1) * n;
    BlockInside(q - 1, q, n);
    assert start + n - 1 == |init|;
    assert Feed(n, xs) == ([], prev.1 + [Average(prev.0)]);
    assert prev.0 == xs[start .. start + n - 1];
    forall j | 0 <= j < q
      ensures Feed(n, xs).1[j] == Average(xs[j * n .. j * n + n - 1])
    {
      BlockInside(j, q, n);
      if j < q - 1 {
        BlockInside(j, q - 1, n);
        assert init[j * n .. j * n + n - 1] == xs[j * n .. j * n + n - 1];
      }
    }
  }

  /** Block j of n entries ends within the first q blocks. */
  lemma BlockInside(j: int, q: int, n: int)
    requires 0 <= j < q && 0 <= n
    ensures 0 <= j * n && j * n + n <= q * n
  {
    assert (q - j - 1) * n >= 0;
    assert (q - j - 1) * n == q * n - j * n - n;
  }

  /** The buffer never exceeds N - 1 readings, and the number of averages is
      the number of calls divided by N. */
  lemma FeedCounts(n: int, xs: seq<Reading>)
    requires n >= 2
    ensures |Feed(n, xs).1| == |xs| / n
    ensures |Feed(n, xs).0| == |xs| % n <= n - 1
  {
    FeedEveryNth(n, xs, |xs| / n, |xs| % n);
  }

  /** With N <= 1 no call stores or emits: every call averages an empty
      buffer and raises. */
  lemma SmallWindowRaises(n: int, x: Reading)
    requires n <= 1
    ensures Step(n, [], x) == ([], Raised)
  {
  }

  class AudioInputStreamManager {
    var inputDevice: Option<int>
    var samplerate: Option<int>
    var channels: Option<int>
    /** Whether `self.stream` has been assigned. */
    var streamBuilt: bool
    var bands: Option<Bands>
    var hasCallback: bool
    var hasFinishedCallback: bool
    var data: seq<Reading>
    var samplesToAverage: int
    /** The averaged readings handed to the callback, in order. */
    var delivered: seq<Reading>
    var finishedCalls: nat
    var streamClosed: bool

    /** Bands in use are non-empty slices of the bins and the buffer holds
        fewer than N entries. */
    ghost predicate Valid()
      reads this
    {
      (bands.Some? ==> BandsFit(bands.value, NumBins(BlockSize))) &&
      (data == [] || |data| <= samplesToAverage - 1)
    }

    /** A manager before setup: none of its attributes exist yet. */
    constructor()
      ensures Valid()
      ensures inputDevice.None? && samplerate.None? && channels.None? && bands.None?
      ensures !streamBuilt && data == [] && delivered == [] && finishedCalls == 0 && !streamClosed
    {
      inputDevice, samplerate, channels, bands := None, None, None, None;
      streamBuilt, hasCallback, hasFinishedCallback := false, false, false;
      data, samplesToAverage, delivered := [], 0, [];
      finishedCalls, streamClosed := 0, false;
    }

    /** `initialize_input_device`: the device prompt's reply (None where it is
        not an integer), the device's default sample rate and input channel
        count, and the channel prompt's reply. */
    method InitializeInputDevice(deviceChoice: Option<int>, defaultSamplerate: int,
                                 maxInputChannels: int, channelChoice: Option<int>)
        returns (result: SetupResult)
      modifies this`inputDevice, this`samplerate, this`channels
      ensures deviceChoice.None? ==>
                result == InvalidDevice && inputDevice == old(inputDevice) && samplerate == old(samplerate)
      ensures deviceChoice.Some? ==>
                result == CheckChannels(maxInputChannels, channelChoice) &&
                inputDevice == deviceChoice && samplerate == Some(defaultSamplerate)
      ensures channels == if result.Configured? then Some(result.channels) else old(channels)
    {
      if deviceChoice.None? {
        return InvalidDevice;
      }
      inputDevice := deviceChoice;
      samplerate := Some(defaultSamplerate);
      result := CheckChannels(maxInputChannels, channelChoice);
      if result.Configured? {
        channels := Some(result.channels);
      }
    }

    /** `build_stream`: the stream's arguments read `self.samplerate`,
        `self.input_device` and `self.channels`; when one of them was never
        assigned the call raises before the stream exists and nothing
        changes. Otherwise the stream is opened, then the three bands are
        resolved; when a band is not found the call raises and nothing after
        the search is set. */
    method BuildStream(ms: int, withCallback: bool, withFinishedCallback: bool) returns (ok: bool)
      requires Valid()
      modifies this`streamBuilt, this`bands, this`hasCallback, this`hasFinishedCallback,
               this`data, this`samplesToAverage
      ensures Valid()
      ensures var configured := samplerate.Some? && inputDevice.Some? && channels.Some?;
              streamBuilt == (old(streamBuilt) || configured) &&
              (ok <==> configured && FindBands(samplerate.value, BlockSize).Some?)
      ensures ok ==> bands == FindBands(samplerate.value, BlockSize) && data == [] &&
                     hasCallback == withCallback && hasFinishedCallback == withFinishedCallback &&
                     samplesToAverage == SamplesToAverage(ms, samplerate.value, BlockSize)
      ensures !ok ==> bands == old(bands) && data == old(data) && samplesToAverage == old(samplesToAverage) &&
                      hasCallback == old(hasCallback) && hasFinishedCallback == old(hasFinishedCallback)
    {
      if samplerate.None? || inputDevice.None? || channels.None? {
        return false;
      }
      streamBuilt := true;
      var found := FindBands(samplerate.value, BlockSize);
      if found.None? {
        return false;
      }
      FoundBandsFit(samplerate.value, BlockSize);
      bands := found;
      hasCallback, hasFinishedCallback := withCallback, withFinishedCallback;
      data := [];
      samplesToAverage := SamplesToAverage(ms, samplerate.value, BlockSize);
      ok := true;
    }

    /** `listen`: one block's magnitudes (bins x input channels) become a
        reading, which then goes to the averaging buffer. */
    method Listen(magnitude: seq<seq<real>>) returns (result: ListenResult)
      requires Valid() && bands.Some?
      requires |magnitude| == NumBins(BlockSize) && NonNegative(magnitude) && Rectangular(magnitude)
      modifies this`data, this`delivered
      ensures Valid()
      ensures (data, result) == Step(samplesToAverage, old(data), ReadingOf(magnitude, bands.value))
      ensures result.Emitted? && hasCallback ==> delivered == old(delivered) + [result.average]
      ensures !(result.Emitted? && hasCallback) ==> delivered == old(delivered)
    {
      assert BandsFit(bands.value, |magnitude|);
      var x := ReadingOf(magnitude, bands.value);
      result := Accumulate(x);
    }

    /** The buffer half of `listen`: append while fewer than N - 1 readings
        are held; otherwise average them, hand the average to the callback
        if there is one, and clear the buffer. */
    method Accumulate(x: Reading) returns (result: ListenResult)
      requires Valid()
      modifies this`data, this`delivered
      ensures Valid()
      ensures (data, result) == Step(samplesToAverage, old(data), x)
      ensures result.Emitted? && hasCallback ==> delivered == old(delivered) + [result.average]
      ensures !(result.Emitted? && hasCallback) ==> delivered == old(delivered)
    {
      if |data| < samplesToAverage - 1 {
        data := data + [x];
        result := Stored;
      } else if data == [] {
        result := Raised;
      } else {
        var avg := Average(data);
        if hasCallback {
          delivered := delivered + [avg];
        }
        data := [];
        result := Emitted(avg);
      }
    }

    /** `finish`: the finished callback, if set, then the stream is closed. */
    method Finish()
      requires streamBuilt
      modifies this`finishedCalls, this`streamClosed
      ensures finishedCalls == old(finishedCalls) + if hasFinishedCallback then 1 else 0
      ensures streamClosed
    {
      if hasFinishedCallback {
        finishedCalls := finishedCalls + 1;
      }
      streamClosed := true;
    }
  }
}
