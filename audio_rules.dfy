/** The pure rules both audio managers apply: locating a frequency band on
    the rfft bin grid, choosing a band's level (peak or average), turning
    levels into channel values and brightness, validating the channel count
    and the block-size arithmetic. Magnitudes are given per bin and per
    input channel; the FFT that produces them is not part of this model. */
module AudioRules {
  import opened Common

  // ---------------------------------------------------------------------
  // The band-edge search.
  // ---------------------------------------------------------------------

  /** Number of entries of `np.fft.rfftfreq(blocksize, 1 / samplerate)`. */
  function NumBins(blocksize: nat): nat
  {
    blocksize / 2 + 1
  }

  /** Whether bin `k`, whose frequency is `k * samplerate / blocksize`, lies
      above `limit` Hz; compared by cross-multiplication (blocksize > 0). */
  predicate Above(k: int, limit: int, samplerate: int, blocksize: int)
  {
    k * samplerate > limit * blocksize
  }

  /** Whether bin `k` lies below `limit` Hz. */
  predicate Below(k: int, limit: int, samplerate: int, blocksize: int)
  {
    k * samplerate < limit * blocksize
  }

  /** `list(map(lambda x: x > limit, freqs))`. */
  function AboveFlags(limit: int, samplerate: int, blocksize: nat): seq<bool>
  {
    seq(NumBins(blocksize), k requires 0 <= k => Above(k, limit, samplerate, blocksize))
  }

  /** `list(map(lambda x: x < limit, freqs))`. */
  function BelowFlags(limit: int, samplerate: int, blocksize: nat): seq<bool>
  {
    seq(NumBins(blocksize), k requires 0 <= k => Below(k, limit, samplerate, blocksize))
  }

  /** `flags.index(v)`: the first position holding `v`, None where Python
      raises `ValueError`. */
  function IndexOf(flags: seq<bool>, v: bool): (r: Option<nat>)
    ensures r.Some? ==> r.value < |flags| && flags[r.value] == v
    ensures r.Some? ==> forall j :: 0 <= j < r.value ==> flags[j] != v
    ensures r.None? ==> forall j :: 0 <= j < |flags| ==> flags[j] != v
  {
    if flags == [] then None
    else if flags[0] == v then Some(0)
    else
      match IndexOf(flags[1..], v)
      case None => None
      case Some(i) => Some(i + 1)
  }

  /** A band as the pair of slice indices `[lower:upper]` into the bins. */
  datatype Band = Band(lower: int, upper: int)

  /** The band search for `[ll, hl]` Hz: `lower` is the first bin above `ll`
      minus one, `upper` the first bin not below `hl` plus one; None where
      either bin does not exist and the search raises. */
  function FindBand(ll: int, hl: int, samplerate: int, blocksize: nat): (r: Option<Band>)
    ensures r.Some? <==>
              (exists k :: 0 <= k < NumBins(blocksize) && Above(k, ll, samplerate, blocksize)) &&
              (exists k :: 0 <= k < NumBins(blocksize) && !Below(k, hl, samplerate, blocksize))
    ensures r.Some? ==>
              var a := r.value.lower + 1;
              0 <= a < NumBins(blocksize) && Above(a, ll, samplerate, blocksize) &&
              forall j :: 0 <= j < a ==> !Above(j, ll, samplerate, blocksize)
    ensures r.Some? ==>
              var b := r.value.upper - 1;
              0 <= b < NumBins(blocksize) && !Below(b, hl, samplerate, blocksize) &&
              forall j :: 0 <= j < b ==> Below(j, hl, samplerate, blocksize)
  {
    var above := AboveFlags(ll, samplerate, blocksize);
    var below := BelowFlags(hl, samplerate, blocksize);
    assert forall k :: 0 <= k < NumBins(blocksize) ==>
             above[k] == Above(k, ll, samplerate, blocksize) && below[k] == Below(k, hl, samplerate, blocksize);
    match (IndexOf(above, true), IndexOf(below, false))
    case (Some(a), Some(b)) => Some(Band(a - 1, b + 1))
    case _ => None
  }

  /** A band usable as a slice of `n` bins: in range and non-empty. */
  predicate Fits(band: Band, n: int)
  {
    0 <= band.lower < band.upper <= n
  }

  /** For bounds 0 <= ll < hl a successful search yields a slice in range
      that spans at least two bins, since bin 0 (0 Hz) is never above `ll`
      and the first bin at or above `hl` is also above `ll`. */
  lemma BandNonEmpty(ll: int, hl: int, samplerate: int, blocksize: nat)
    requires blocksize > 0 && 0 <= ll < hl
    requires FindBand(ll, hl, samplerate, blocksize).Some?
    ensures var band := FindBand(ll, hl, samplerate, blocksize).value;
            0 <= band.lower && band.lower + 2 <= band.upper <= NumBins(blocksize)
  {
    var band := FindBand(ll, hl, samplerate, blocksize).value;
    var a, b := band.lower + 1, band.upper - 1;
    ScaledLimits(ll, hl, blocksize);
    assert !Above(0, ll, samplerate, blocksize);
    assert a >= 1;
    assert Above(b, ll, samplerate, blocksize);
    assert !(b < a);
  }

  lemma ScaledLimits(ll: int, hl: int, blocksize: nat)
    requires blocksize > 0 && 0 <= ll < hl
    ensures 0 <= ll * blocksize < hl * blocksize
  {
    NonNegativeProduct(ll, blocksize);
    PositiveProduct(hl - ll, blocksize);
    assert hl * blocksize == ll * blocksize + (hl - ll) * blocksize;
  }

  lemma {:induction false} NonNegativeProduct(a: int, b: nat)
    requires a >= 0
    ensures a * b >= 0
  {
    if b > 0 {
      NonNegativeProduct(a, b - 1);
      assert a * b == a * (b - 1) + a;
    }
  }

  lemma PositiveProduct(a: int, b: nat)
    requires a > 0 && b > 0
    ensures a * b > 0
  {
    NonNegativeProduct(a, b - 1);
    assert a * b == a * (b - 1) + a;
  }

  /** The three bands the managers resolve at stream setup. */
  datatype Bands = Bands(low: Band, mid: Band, high: Band)

  function FindBands(samplerate: int, blocksize: nat): Option<Bands>
  {
    var low := FindBand(20, 250, samplerate, blocksize);
    var mid := FindBand(250, 4000, samplerate, blocksize);
    var high := FindBand(4000, 12000, samplerate, blocksize);
    if low.Some? && mid.Some? && high.Some? then Some(Bands(low.value, mid.value, high.value)) else None
  }

  predicate BandsFit(bands: Bands, n: int)
  {
    Fits(bands.low, n) && Fits(bands.mid, n) && Fits(bands.high, n)
  }

  /** Whenever all three bands are found, every one of them is a non-empty
      slice of the bins: the per-band average and maximum are defined. */
  lemma FoundBandsFit(samplerate: int, blocksize: nat)
    requires blocksize > 0 && FindBands(samplerate, blocksize).Some?
    ensures BandsFit(FindBands(samplerate, blocksize).value, NumBins(blocksize))
  {
    BandNonEmpty(20, 250, samplerate, blocksize);
    BandNonEmpty(250, 4000, samplerate, blocksize);
    BandNonEmpty(4000, 12000, samplerate, blocksize);
  }

  /** At 44100 Hz with blocks of 1024 samples the low band (20-250 Hz) is the
      slice [0:7]: bin 1 (43 Hz) is the first above 20 Hz and bin 6 (258 Hz)
      the first at or above 250 Hz, so the 0 Hz bin is part of the band. */
  lemma LowBandAt44100()
    ensures FindBand(20, 250, 44100, 1024) == Some(Band(0, 7))
  {
    FirstBins(20, 250, 44100, 1024, 1, 6);
  }

  /** The band is determined by the first bin above `ll` and the first bin
      not below `hl`. */
  lemma FirstBins(ll: int, hl: int, samplerate: int, blocksize: nat, a: nat, b: nat)
    requires a < NumBins(blocksize) && b < NumBins(blocksize)
    requires Above(a, ll, samplerate, blocksize) && forall j :: 0 <= j < a ==> !Above(j, ll, samplerate, blocksize)
    requires !Below(b, hl, samplerate, blocksize) && forall j :: 0 <= j < b ==> Below(j, hl, samplerate, blocksize)
    ensures FindBand(ll, hl, samplerate, blocksize) == Some(Band(a - 1, b + 1))
  {
    var r := FindBand(ll, hl, samplerate, blocksize);
    assert r.Some?;
    var a', b' := r.value.lower + 1, r.value.upper - 1;
    assert !(a' < a) && !(a < a');
    assert !(b' < b) && !(b < b');
  }

  // ---------------------------------------------------------------------
  // Band levels.
  // ---------------------------------------------------------------------

  /** The magnitudes of a band slice (bins x channels), flattened as numpy
      reduces a 2-D slice with `np.average` and `np.max`. */
  function Flatten(rows: seq<seq<real>>): (r: seq<real>)
    ensures (forall i, j :: 0 <= i < |rows| && 0 <= j < |rows[i]| ==> rows[i][j] >= 0.0) ==>
              forall k :: 0 <= k < |r| ==> r[k] >= 0.0
    ensures |rows| > 0 && |rows[0]| > 0 ==> |r| > 0
  {
    if rows == [] then [] else rows[0] + Flatten(rows[1..])
  }

  /** Every magnitude of the slice is among the flattened values. */
  lemma {:induction false} FlattenHas(rows: seq<seq<real>>, i: int, j: int)
    requires 0 <= i < |rows| && 0 <= j < |rows[i]|
    ensures rows[i][j] in Flatten(rows)
  {
    if i == 0 {
      assert Flatten(rows)[j] == rows[0][j];
    } else {
      FlattenHas(rows[1..], i - 1, j);
      assert rows[1..][i - 1] == rows[i];
    }
  }

  /** Every flattened value is a magnitude of the slice. */
  lemma {:induction false} FlattenFrom(rows: seq<seq<real>>, k: int)
    requires 0 <= k < |Flatten(rows)|
    ensures exists i, j :: 0 <= i < |rows| && 0 <= j < |rows[i]| && Flatten(rows)[k] == rows[i][j]
  {
    assert rows != [];
    if k < |rows[0]| {
      assert Flatten(rows)[k] == rows[0][k];
    } else {
      FlattenFrom(rows[1..], k - |rows[0]|);
      assert Flatten(rows)[k] == Flatten(rows[1..])[k - |rows[0]|];
      var i, j :| 0 <= i < |rows[1..]| && 0 <= j < |rows[1..][i]| && Flatten(rows[1..])[k - |rows[0]|] == rows[1..][i][j];
      assert rows[1..][i] == rows[i + 1];
    }
  }

  function Sum(xs: seq<real>): real
  {
    if xs == [] then 0.0 else Sum(xs[..|xs| - 1]) + xs[|xs| - 1]
  }

  /** `np.average`. */
  function Mean(xs: seq<real>): real
    requires |xs| > 0
  {
    Sum(xs) / |xs| as real
  }

  /** `np.max`. */
  function Max(xs: seq<real>): (m: real)
    requires |xs| > 0
    ensures forall i :: 0 <= i < |xs| ==> xs[i] <= m
    ensures exists i :: 0 <= i < |xs| && xs[i] == m
  {
    if |xs| == 1 then xs[0]
    else
      var m := Max(xs[1..]);
      assert forall i :: 1 <= i < |xs| ==> xs[i] == xs[1..][i - 1];
      if xs[0] > m then xs[0] else m
  }

  lemma {:induction false} SumAtMost(xs: seq<real>, m: real)
    requires forall i :: 0 <= i < |xs| ==> xs[i] <= m
    ensures Sum(xs) <= |xs| as real * m
  {
    if xs != [] {
      var init := xs[..|xs| - 1];
      SumAtMost(init, m);
      assert Sum(xs) == Sum(init) + xs[|xs| - 1];
      assert |xs| as real * m == |init| as real * m + m;
    }
  }

  lemma DivAtMost(s: real, n: real, m: real)
    requires n > 0.0 && s <= n * m
    ensures s / n <= m
  {
    var q := s / n;
    assert q * n == s;
    if q > m {
      assert (q - m) * n > 0.0;
    }
  }

  lemma MeanAtMostMax(xs: seq<real>)
    requires |xs| > 0
    ensures Mean(xs) <= Max(xs)
  {
    var n, m, total := |xs| as real, Max(xs), Sum(xs);
    SumAtMost(xs, m);
    assert total <= n * m;
    DivAtMost(total, n, m);
    assert Mean(xs) == total / n;
  }

  /** The level of one band: its maximum when half the maximum exceeds the
      average (a peak), its average otherwise. Either way it lies between the
      average and the maximum. */
  function BandLevel(xs: seq<real>): (v: real)
    requires |xs| > 0
    ensures Max(xs) / 2.0 > Mean(xs) ==> v == Max(xs)
    ensures Max(xs) / 2.0 <= Mean(xs) ==> v == Mean(xs)
    ensures Mean(xs) <= v <= Max(xs)
  {
    MeanAtMostMax(xs);
    var peak, avg := Max(xs), Mean(xs);
    if peak / 2.0 > avg then peak else avg
  }

  /** `int(v * 255)` for a non-negative level: truncation is the floor. */
  function Channel(v: real): (c: int)
    requires v >= 0.0
    ensures 0 <= c
    ensures c as real <= v * 255.0 < c as real + 1.0
  {
    (v * 255.0).Floor
  }

  ghost predicate NonNegative(magnitude: seq<seq<real>>)
  {
    forall i, j :: 0 <= i < |magnitude| && 0 <= j < |magnitude[i]| ==> magnitude[i][j] >= 0.0
  }

  /** Every bin carries one magnitude per input channel, at least one. */
  ghost predicate Rectangular(magnitude: seq<seq<real>>)
  {
    forall i :: 0 <= i < |magnitude| ==> |magnitude[i]| > 0
  }

  /** The magnitudes of a band, `magnitude[lower:upper]`, flattened. */
  function BandMagnitudes(magnitude: seq<seq<real>>, band: Band): (xs: seq<real>)
    requires Fits(band, |magnitude|) && Rectangular(magnitude)
    ensures |xs| > 0
  {
    var rows := magnitude[band.lower..band.upper];
    assert rows[0] == magnitude[band.lower];
    Flatten(rows)
  }

  /** The values of a band are exactly the magnitudes of its bins, over
      every input channel. */
  lemma BandMagnitudesAre(magnitude: seq<seq<real>>, band: Band)
    requires Fits(band, |magnitude|) && Rectangular(magnitude)
    ensures var xs := BandMagnitudes(magnitude, band);
            (forall i, j :: band.lower <= i < band.upper && 0 <= j < |magnitude[i]| ==> magnitude[i][j] in xs) &&
            (forall k :: 0 <= k < |xs| ==>
               exists i, j :: band.lower <= i < band.upper && 0 <= j < |magnitude[i]| && xs[k] == magnitude[i][j])
  {
    var rows := magnitude[band.lower..band.upper];
    var xs := BandMagnitudes(magnitude, band);
    forall i, j | band.lower <= i < band.upper && 0 <= j < |magnitude[i]|
      ensures magnitude[i][j] in xs
    {
      assert rows[i - band.lower] == magnitude[i];
      FlattenHas(rows, i - band.lower, j);
    }
    forall k | 0 <= k < |xs|
      ensures exists i, j :: band.lower <= i < band.upper && 0 <= j < |magnitude[i]| && xs[k] == magnitude[i][j]
    {
      FlattenFrom(rows, k);
      var i, j :| 0 <= i < |rows| && 0 <= j < |rows[i]| && xs[k] == rows[i][j];
      assert rows[i] == magnitude[band.lower + i];
    }
  }

  /** The channel value of one band of a block's magnitudes: `int(255 * v)`,
      where `v` is the band's maximum when half of it exceeds the band's
      average, and the average otherwise. */
  function BandChannel(magnitude: seq<seq<real>>, band: Band): (c: int)
    requires Fits(band, |magnitude|) && NonNegative(magnitude) && Rectangular(magnitude)
    ensures 0 <= c
    ensures var xs := BandMagnitudes(magnitude, band);
            var v := if Max(xs) / 2.0 > Mean(xs) then Max(xs) else Mean(xs);
            c as real <= v * 255.0 < c as real + 1.0
  {
    var rows := magnitude[band.lower..band.upper];
    var xs := BandMagnitudes(magnitude, band);
    assert forall i, j :: 0 <= i < |rows| && 0 <= j < |rows[i]| ==> rows[i][j] == magnitude[band.lower + i][j];
    Channel(BandLevel(xs))
  }

  // ---------------------------------------------------------------------
  // Brightness.
  // ---------------------------------------------------------------------

  function Max3(a: int, b: int, c: int): (m: int)
    ensures a <= m && b <= m && c <= m
    ensures m == a || m == b || m == c
  {
    if a >= b && a >= c then a else if b >= c then b else c
  }

  /** `clamp(lo, x, hi)`: the value of [lo, hi] nearest to `x`. */
  function Clamp(lo: int, x: int, hi: int): (r: int)
    requires lo <= hi
    ensures lo <= r <= hi
    ensures lo <= x <= hi ==> r == x
    ensures x < lo ==> r == lo
    ensures hi < x ==> r == hi
  {
    if x < lo then lo else if hi < x then hi else x
  }

  /** `clamp(0, max(r, g, b), 255)`. */
  function ClampedBrightness(r: int, g: int, b: int): (br: int)
    ensures 0 <= br <= 255
    ensures 0 <= Max3(r, g, b) <= 255 ==> br == Max3(r, g, b)
    ensures Max3(r, g, b) > 255 ==> br == 255
  {
    Clamp(0, Max3(r, g, b), 255)
  }

  predicate IsByte(x: int)
  {
    0 <= x < 256
  }

  /** `int(max(r, g, b) / 255 * 100)` for byte channels, in exact arithmetic:
      the floor of the brightest channel as a percentage. */
  function PercentBrightness(r: int, g: int, b: int): (p: int)
    requires IsByte(r) && IsByte(g) && IsByte(b)
    ensures 0 <= p <= 100
    ensures p * 255 <= Max3(r, g, b) * 100 < (p + 1) * 255
    ensures p == 100 <==> Max3(r, g, b) == 255
    ensures p == 0 <==> Max3(r, g, b) <= 2
  {
    Max3(r, g, b) * 100 / 255
  }

  // ---------------------------------------------------------------------
  // Device setup.
  // ---------------------------------------------------------------------

  /** What a device-setup call reports (and, for `Configured`, stores). */
  datatype SetupResult =
    | InvalidDevice
    | NoInputChannels
    | InvalidChannelCount
    | ZeroChannels
    | TooManyChannels
    | Configured(channels: int)

  /** The channel-count check: a device without input channels aborts; a
      reply that is not an integer (None), zero, or more than the device's
      maximum is rejected; any other integer, negatives included, is kept. */
  function CheckChannels(maxChannelsIn: int, choice: Option<int>): (r: SetupResult)
    ensures r.Configured? <==> maxChannelsIn != 0 && choice.Some? && choice.value != 0 && choice.value <= maxChannelsIn
    ensures r.Configured? ==> r.channels == choice.value
    ensures maxChannelsIn == 0 <==> r == NoInputChannels
    ensures r != InvalidDevice
  {
    if maxChannelsIn == 0 then NoInputChannels
    else if choice.None? then InvalidChannelCount
    else if choice.value == 0 then ZeroChannels
    else if choice.value > maxChannelsIn then TooManyChannels
    else Configured(choice.value)
  }

  // ---------------------------------------------------------------------
  // Block arithmetic.
  // ---------------------------------------------------------------------

  /** `int((ms * samplerate) / (blocksize * 1000))`: how many blocks make up
      a window of `ms` milliseconds, truncated, with no lower bound. */
  function SamplesToAverage(ms: int, samplerate: int, blocksize: int): (n: int)
    requires blocksize > 0
    ensures 0 <= ms * samplerate ==> 0 <= n && n * (blocksize * 1000) <= ms * samplerate < (n + 1) * (blocksize * 1000)
  {
    TruncDiv(ms * samplerate, blocksize * 1000)
  }

  /** 4.6875 blocks of 1024 samples fit in 100 ms at 48000 Hz: the count is
      truncated to 4, not rounded to 5. */
  lemma SamplesToAverageTruncates()
    ensures SamplesToAverage(100, 48000, 1024) == 4
  {
  }

  /** `int(samplerate * ms / 1000)`: the block size for a block of `ms`
      milliseconds, truncated. */
  function BlockSizeFor(samplerate: int, ms: int): (n: int)
    ensures 0 <= samplerate * ms ==> 0 <= n && n * 1000 <= samplerate * ms < n * 1000 + 1000
  {
    TruncDiv(samplerate * ms, 1000)
  }
}
