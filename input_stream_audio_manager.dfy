/** The simpler audio manager: its block size follows the requested window
    length, and every block's callback reports byte channels (r, g, b) and a
    brightness percentage, counting the blocks it has seen. */
module InputStreamAudio {
  import opened Common
  import opened AudioRules
  import AudioInputStream

  /** What one callback reports: three byte channels and a brightness in
      percent. */
  datatype ColorReport = ColorReport(r: int, g: int, b: int, brightness: int)

  /** The report of one block: each band's channel cast to `np.uint8`, and
      the brightest channel as a percentage of 255. */
  function ReportOf(magnitude: seq<seq<real>>, bands: Bands): (rep: ColorReport)
    requires BandsFit(bands, |magnitude|) && NonNegative(magnitude) && Rectangular(magnitude)
    ensures IsByte(rep.r) && IsByte(rep.g) && IsByte(rep.b)
    ensures rep.r == ToUint8(BandChannel(magnitude, bands.low)) &&
            rep.g == ToUint8(BandChannel(magnitude, bands.mid)) &&
            rep.b == ToUint8(BandChannel(magnitude, bands.high))
    ensures 0 <= rep.brightness <= 100
    ensures rep.brightness * 255 <= Max3(rep.r, rep.g, rep.b) * 100 < (rep.brightness + 1) * 255
    ensures rep.brightness == 100 <==> Max3(rep.r, rep.g, rep.b) == 255
  {
    var r := ToUint8(BandChannel(magnitude, bands.low));
    var g := ToUint8(BandChannel(magnitude, bands.mid));
    var b := ToUint8(BandChannel(magnitude, bands.high));
    ColorReport(r, g, b, PercentBrightness(r, g, b))
  }

  /** Where no band level exceeds one (no channel above 255), both managers
      see the same channels, and this manager's brightness is the other's
      buffered brightness expressed in percent. */
  lemma ReportAgreesWithReading(magnitude: seq<seq<real>>, bands: Bands)
    requires BandsFit(bands, |magnitude|) && NonNegative(magnitude) && Rectangular(magnitude)
    requires var x := AudioInputStream.ReadingOf(magnitude, bands);
             x.r <= 255 && x.g <= 255 && x.b <= 255
    ensures var rep, x := ReportOf(magnitude, bands), AudioInputStream.ReadingOf(magnitude, bands);
            rep.r == x.r && rep.g == x.g && rep.b == x.b &&
            rep.brightness * 255 <= x.brightness * 100 < (rep.brightness + 1) * 255
  {
    var x := AudioInputStream.ReadingOf(magnitude, bands);
    assert x.r == BandChannel(magnitude, bands.low);
    assert x.g == BandChannel(magnitude, bands.mid);
    assert x.b == BandChannel(magnitude, bands.high);
  }

  class InputStreamAudioManager {
    /** Blocks handled by the callback since construction. */
    var count: int
    var inputDevice: Option<int>
    var samplerate: Option<int>
    var channels: Option<int>
    /** Whether `self.stream` has been assigned. */
    var streamBuilt: bool
    /** The block size the stream was opened with. */
    var blocksize: Option<int>
    var bands: Option<Bands>

    /** Bands in use are non-empty slices of the bins of the stream's blocks. */
    ghost predicate Valid()
      reads this
    {
      bands.Some? ==> blocksize.Some? && blocksize.value > 0 && BandsFit(bands.value, NumBins(blocksize.value))
    }

    /** A manager that has seen no block yet. */
    constructor()
      ensures Valid()
      ensures count == 0
      ensures inputDevice.None? && samplerate.None? && channels.None?
      ensures !streamBuilt && blocksize.None? && bands.None?
    {
      count := 0;
      inputDevice, samplerate, channels := None, None, None;
      streamBuilt, blocksize, bands := false, None, None;
    }

    /** `initialize_device`: the device prompt's reply (None where it is not
        an integer), the device's default sample rate and input channel
        count, and the channel prompt's reply. */
    method InitializeDevice(deviceChoice: Option<int>, defaultSamplerate: int,
                            maxInputChannels: int, channelChoice: Option<int>)
        returns (result: SetupResult)
      modifies this`inputDevice, this`samplerate, this`channels
      ensures deviceChoice.None? ==>
                result == InvalidDevice && inputDevice == old(inputDevice) && samplerate == old(samplerate)
      ensures deviceChoice.Some? ==>
                result == CheckChannels(maxInputChannels, channelChoice) &&
                inputDevice == deviceChoice && samplerate == Some(defaultSamplerate)
      ensures channels == if result.Configured? then Some(result.channels) else old(channels)
    {
      if deviceChoice.None? {
        return InvalidDevice;
      }
      inputDevice := deviceChoice;
      samplerate := Some(defaultSamplerate);
      result := CheckChannels(maxInputChannels, channelChoice);
      if result.Configured? {
        channels := Some(result.channels);
      }
    }

    /** `build_stream`: the block size is `ms` milliseconds of samples,
        truncated; the stream's arguments read `self.samplerate`,
        `self.input_device` and `self.channels`, and when one of them was
        never assigned the call raises before the stream exists and nothing
        changes. Otherwise the stream is opened, then the bin grid is built
        and the three bands resolved. A block size of zero or less makes the
        bin grid raise, as does a band that is not found; either way nothing
        after the stream is set. */
    method BuildStream(ms: int) returns (ok: bool)
      requires Valid()
      modifies this`streamBuilt, this`blocksize, this`bands
      ensures Valid()
      ensures var configured := samplerate.Some? && inputDevice.Some? && channels.Some?;
              streamBuilt == (old(streamBuilt) || configured) &&
              (ok <==> configured && BlockSizeFor(samplerate.value, ms) > 0 &&
                       FindBands(samplerate.value, BlockSizeFor(samplerate.value, ms)).Some?)
      ensures ok ==> blocksize == Some(BlockSizeFor(samplerate.value, ms)) &&
                     bands == FindBands(samplerate.value, blocksize.value)
      ensures !ok ==> blocksize == old(blocksize) && bands == old(bands)
    {
      if samplerate.None? || inputDevice.None? || channels.None? {
        return false;
      }
      streamBuilt := true;
      var bs := BlockSizeFor(samplerate.value, ms);
      if bs <= 0 {
        return false;
      }
      var found := FindBands(samplerate.value, bs);
      if found.None? {
        return false;
      }
      FoundBandsFit(samplerate.value, bs);
      blocksize, bands := Some(bs), found;
      ok := true;
    }

    /** `callback`: one block's magnitudes (bins x input channels) become a
        report, and the block count goes up by one. */
    method Callback(magnitude: seq<seq<real>>) returns (rep: ColorReport)
      requires Valid() && bands.Some?
      requires |magnitude| == NumBins(blocksize.value) && NonNegative(magnitude) && Rectangular(magnitude)
      modifies this`count
      ensures rep == ReportOf(magnitude, bands.value)
      ensures count == old(count) + 1
    {
      rep := ReportOf(magnitude, bands.value);
      count := count + 1;
    }

    /** `finished_callback`: reports the number of blocks handled. */
    method FinishedCallback() returns (blocks: int)
      ensures blocks == count
    {
      blocks := count;
    }
  }
}
