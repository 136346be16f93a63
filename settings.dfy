/*
 * Settings storage of the Stages firmware: the per-channel calibration
 * record and the per-channel configuration bytes, their defaults, the load
 * from non-volatile storage and the repair pass that runs on a loaded record.
 *
 * Calibration coefficients are single-precision floats in the firmware and
 * reals here; the storage engine is represented by what it finds in flash.
 */
module Settings {

  /** kNumChannels: the per-unit table below covers channels 0..5. */
  const NumChannels: nat := 6

  /** Both repair checks use the same threshold: absolute for adc_offset,
      relative to the nominal for the other three coefficients. */
  const Tolerance: real := 0.1

  // Nominal coefficients, used as the first defaults and as the values that
  // replace an outlier.
  const NominalDacOffset: real := 32768.0
  const NominalDacScale: real := -32263.0
  const NominalAdcOffset: real := 0.0
  const NominalAdcScale: real := -1.0

  /** Calibration of one analog channel. */
  datatype ChannelCalibrationData = ChannelCalibrationData(
    dacOffset: real,
    dacScale: real,
    adcOffset: real,
    adcScale: real)

  const NominalCalibration: ChannelCalibrationData :=
    ChannelCalibrationData(NominalDacOffset, NominalDacScale, NominalAdcOffset, NominalAdcScale)

  /** The one active per-unit calibration table, channel by channel. */
  const UnitTable: seq<ChannelCalibrationData> := [
    ChannelCalibrationData(33032.3679503735, -32350.3912971294, 0.0521991498, -0.9810333551),
    ChannelCalibrationData(32993.5606642668, -32260.5553362721, 0.054225237, -0.9807126512),
    ChannelCalibrationData(33192.3053705531, -32553.1893475529, 0.0456634399, -0.9778038525),
    ChannelCalibrationData(33077.2746298551, -32329.4707065742, 0.0436679083, -0.9801999608),
    ChannelCalibrationData(33179.9318375387, -32279.5811360557, 0.0009751341, -0.9751340809),
    ChannelCalibrationData(33055.9276455064, -32224.6182195101, 0.0515972361, -1.0014019627)
  ]

  datatype Option<T> = None | Some(value: T)

  /** What the storage engine finds in flash: the persistent region (one
      calibration record per channel) and the state region. */
  datatype StoredRecord = StoredRecord(
    channelCalibrationData: seq<ChannelCalibrationData>,
    segmentConfiguration: seq<bv8>,
    colorBlind: bv8)
  {
    /** Both regions are raw copies of fixed-size structures. */
    predicate Fits() {
      |channelCalibrationData| == NumChannels && |segmentConfiguration| == NumChannels
    }
  }

  // ---------------------------------------------------------------------
  // Repair of one calibration coefficient

  function Abs(x: real): (r: real)
    ensures r >= 0.0 && (r == x || r == -x)
  {
    if x < 0.0 then -x else x
  }

  /** `v` lies within the absolute tolerance of `expected`. */
  predicate WithinAbsolute(v: real, expected: real) {
    Abs(v - expected) <= Tolerance
  }

  /** `v` lies within the relative tolerance of a nonzero `expected`. */
  predicate WithinRelative(v: real, expected: real)
    requires expected != 0.0
  {
    Abs(v / expected - 1.0) <= Tolerance
  }

  /** FIX_OUTLIER_ABSOLUTE: a value further than the tolerance from the
      expected one is replaced by it. */
  function FixOutlierAbsolute(v: real, expected: real): (r: real)
    ensures WithinAbsolute(r, expected)
    ensures r == v <==> WithinAbsolute(v, expected)
    ensures r == v || r == expected
  {
    if Abs(v - expected) > Tolerance then expected else v
  }

  /** FIX_OUTLIER: a value whose ratio to the expected one is off by more
      than the tolerance is replaced by it. */
  function FixOutlier(v: real, expected: real): (r: real)
    requires expected != 0.0
    ensures WithinRelative(r, expected)
    ensures r == v <==> WithinRelative(v, expected)
    ensures r == v || r == expected
  {
    assert expected / expected == 1.0;
    if Abs(v / expected - 1.0) > Tolerance then expected else v
  }

  /** Every coefficient of `c` lies inside its tolerance band. */
  predicate ChannelInBand(c: ChannelCalibrationData) {
    && WithinAbsolute(c.adcOffset, NominalAdcOffset)
    && WithinRelative(c.dacOffset, NominalDacOffset)
    && WithinRelative(c.dacScale, NominalDacScale)
    && WithinRelative(c.adcScale, NominalAdcScale)
  }

  /** The four repairs the load pass applies to one channel, in order. */
  function SanitizeChannel(c: ChannelCalibrationData): (r: ChannelCalibrationData)
    ensures ChannelInBand(r)
    ensures r == c <==> ChannelInBand(c)
    ensures r.adcOffset == c.adcOffset || r.adcOffset == NominalAdcOffset
    ensures r.dacOffset == c.dacOffset || r.dacOffset == NominalDacOffset
    ensures r.dacScale == c.dacScale || r.dacScale == NominalDacScale
    ensures r.adcScale == c.adcScale || r.adcScale == NominalAdcScale
  {
    c.(adcOffset := FixOutlierAbsolute(c.adcOffset, NominalAdcOffset))
     .(dacOffset := FixOutlier(c.dacOffset, NominalDacOffset))
     .(dacScale := FixOutlier(c.dacScale, NominalDacScale))
     .(adcScale := FixOutlier(c.adcScale, NominalAdcScale))
  }

  lemma SanitizeChannelIdempotent(c: ChannelCalibrationData)
    ensures SanitizeChannel(SanitizeChannel(c)) == SanitizeChannel(c)
  {
  }

  /** Test cases of the repair pass: an adc_offset of 5 is reset to 0, a
      dac_offset 20% above nominal is reset, one 5% above is kept. */
  lemma SanitizeChannelExamples()
    ensures SanitizeChannel(NominalCalibration.(adcOffset := 5.0)) == NominalCalibration
    ensures SanitizeChannel(NominalCalibration.(dacOffset := 32768.0 * 1.2)) == NominalCalibration
    ensures SanitizeChannel(NominalCalibration.(dacOffset := 32768.0 * 1.05)).dacOffset == 32768.0 * 1.05
  {
  }

  // ---------------------------------------------------------------------
  // Repair of one configuration byte

  /** CONSTRAIN: clamps `x` into [lo, hi]. */
  function Constrain(x: bv8, lo: bv8, hi: bv8): (r: bv8)
    ensures lo <= hi ==> lo <= r <= hi
    ensures lo <= x <= hi ==> r == x
  {
    if x < lo then lo else if x > hi then hi else x
  }

  /** The clamp of the 2-bit type selector to [0, 3] never changes it. */
  lemma TypeBitsConstrainNoOp(b: bv8)
    ensures Constrain(b & 0x3, 0, 3) == b & 0x3
  {
  }

  /** Keeps the type selector (bits 0-1) and the loop bit (bit 2) and
      clears every other bit. */
  function RepairConfiguration(b: bv8): (r: bv8)
    ensures r == b & 0x7
    ensures r < 8
    ensures r & 0x3 == b & 0x3 && r & 0x4 == b & 0x4
    ensures r == b <==> b < 8
  {
    var typeBits := b & 0x3;
    var loopBit := b & 0x4;
    Constrain(typeBits, 0, 3) | loopBit
  }

  lemma RepairConfigurationIdempotent(b: bv8)
    ensures RepairConfiguration(RepairConfiguration(b)) == RepairConfiguration(b)
  {
  }

  // ---------------------------------------------------------------------
  // The repair pass over all channels

  /** Calibration after the repair pass: every channel repaired on its own. */
  function SanitizeCalibration(s: seq<ChannelCalibrationData>): (r: seq<ChannelCalibrationData>)
    ensures |r| == |s|
    ensures forall k :: 0 <= k < |s| ==> r[k] == SanitizeChannel(s[k])
  {
    if s == [] then [] else [SanitizeChannel(s[0])] + SanitizeCalibration(s[1..])
  }

  /** Configuration bytes after the repair pass. */
  function RepairConfigurations(s: seq<bv8>): (r: seq<bv8>)
    ensures |r| == |s|
    ensures forall k :: 0 <= k < |s| ==> r[k] == RepairConfiguration(s[k])
  {
    if s == [] then [] else [RepairConfiguration(s[0])] + RepairConfigurations(s[1..])
  }

  /** A repaired calibration table is left alone by a second pass. */
  lemma SanitizeCalibrationIdempotent(s: seq<ChannelCalibrationData>)
    ensures SanitizeCalibration(SanitizeCalibration(s)) == SanitizeCalibration(s)
  {
  }

  /** The repair pass leaves a table unchanged exactly when every channel is
      already inside its tolerance bands. */
  lemma SanitizeCalibrationFixed(s: seq<ChannelCalibrationData>)
    ensures SanitizeCalibration(s) == s <==> forall k :: 0 <= k < |s| ==> ChannelInBand(s[k])
  {
  }

  lemma RepairConfigurationsIdempotent(s: seq<bv8>)
    ensures RepairConfigurations(RepairConfigurations(s)) == RepairConfigurations(s)
  {
  }

  /** The active per-unit table lies inside every tolerance band, so the
      repair pass would not change it. */
  lemma UnitTableInBand()
    ensures |UnitTable| == NumChannels
    ensures forall k :: 0 <= k < |UnitTable| ==> ChannelInBand(UnitTable[k])
    ensures SanitizeCalibration(UnitTable) == UnitTable
  {
  }

  // ---------------------------------------------------------------------
  // The settings object

  class Settings {
    /** persistent_data_.channel_calibration_data */
    const channelCalibrationData: array<ChannelCalibrationData>
    /** state_.segment_configuration */
    const segmentConfiguration: array<bv8>
    /** state_.color_blind */
    var colorBlind: bv8

    /** The two regions are distinct buffers of one entry per channel. */
    ghost predicate Valid()
      reads this
    {
      && channelCalibrationData.Length == NumChannels
      && segmentConfiguration.Length == NumChannels
      && channelCalibrationData as object != segmentConfiguration as object
    }

    constructor ()
      ensures Valid()
      ensures fresh(channelCalibrationData) && fresh(segmentConfiguration)
    {
      channelCalibrationData := new ChannelCalibrationData[NumChannels](_ => NominalCalibration);
      segmentConfiguration := new bv8[NumChannels](_ => 0);
      colorBlind := 0;
    }

    /** chunk_storage_.Init: on finding a valid record in flash, overlays
        both regions with it and reports success; otherwise leaves them as
        they are and reports failure. */
    method LoadFromStorage(flash: Option<StoredRecord>) returns (success: bool)
      requires Valid()
      requires flash.Some? ==> flash.value.Fits()
      modifies this, channelCalibrationData, segmentConfiguration
      ensures success == flash.Some?
      ensures success ==> channelCalibrationData[..] == flash.value.channelCalibrationData
      ensures success ==> segmentConfiguration[..] == flash.value.segmentConfiguration
      ensures success ==> colorBlind == flash.value.colorBlind
      ensures !success ==> unchanged(this, channelCalibrationData, segmentConfiguration)
    {
      success := flash.Some?;
      if success {
        var record := flash.value;
        forall i | 0 <= i < NumChannels {
          channelCalibrationData[i] := record.channelCalibrationData[i];
        }
        forall i | 0 <= i < NumChannels {
          segmentConfiguration[i] := record.segmentConfiguration[i];
        }
        colorBlind := record.colorBlind;
      }
    }

    /** The defaults of Settings::Init: every channel gets the nominal
        calibration, every configuration byte is cleared, then the per-unit
        table overwrites the calibration and color_blind is cleared. */
    method SetDefaults()
      requires Valid()
      modifies this, channelCalibrationData, segmentConfiguration
      ensures channelCalibrationData[..] == UnitTable
      ensures segmentConfiguration[..] == seq(NumChannels, _ => 0)
      ensures colorBlind == 0
    {
      forall i | 0 <= i < NumChannels {
        channelCalibrationData[i] := NominalCalibration;
      }
      forall i | 0 <= i < NumChannels {
        segmentConfiguration[i] := 0;
      }
      forall i | 0 <= i < |UnitTable| {
        channelCalibrationData[i] := UnitTable[i];
      }
      colorBlind := 0;
    }

    /** The repair pass of Settings::Init over a loaded record. Iteration i
        writes channel i's calibration and configuration byte and nothing
        else; color_blind is not touched. */
    method Sanitize()
      requires Valid()
      modifies channelCalibrationData, segmentConfiguration
      ensures channelCalibrationData[..] == SanitizeCalibration(old(channelCalibrationData[..]))
      ensures segmentConfiguration[..] == RepairConfigurations(old(segmentConfiguration[..]))
    {
      for i := 0 to NumChannels
        invariant forall k :: 0 <= k < i ==>
          channelCalibrationData[k] == SanitizeChannel(old(channelCalibrationData[k]))
        invariant forall k :: 0 <= k < i ==>
          segmentConfiguration[k] == RepairConfiguration(old(segmentConfiguration[k]))
        invariant forall k :: i <= k < NumChannels ==>
          channelCalibrationData[k] == old(channelCalibrationData[k])
        invariant forall k :: i <= k < NumChannels ==>
          segmentConfiguration[k] == old(segmentConfiguration[k])
      {
        // c stands for channel i's record: the four repairs update it field by field.
        var c := channelCalibrationData[i];
        c := c.(adcOffset := FixOutlierAbsolute(c.adcOffset, NominalAdcOffset));
        c := c.(dacOffset := FixOutlier(c.dacOffset, NominalDacOffset));
        c := c.(dacScale := FixOutlier(c.dacScale, NominalDacScale));
        c := c.(adcScale := FixOutlier(c.adcScale, NominalAdcScale));
        channelCalibrationData[i] := c;

        segmentConfiguration[i] := RepairConfiguration(segmentConfiguration[i]);
      }
    }

    /** Settings::Init: defaults, the load, and the repair pass exactly when
        the load succeeded; returns what the storage engine returned. */
    method Init(flash: Option<StoredRecord>) returns (success: bool)
      requires Valid()
      requires flash.Some? ==> flash.value.Fits()
      modifies this, channelCalibrationData, segmentConfiguration
      ensures success == flash.Some?
      ensures !success ==> channelCalibrationData[..] == UnitTable
      ensures !success ==> segmentConfiguration[..] == seq(NumChannels, _ => 0)
      ensures !success ==> colorBlind == 0
      ensures success ==> channelCalibrationData[..] == SanitizeCalibration(flash.value.channelCalibrationData)
      ensures success ==> segmentConfiguration[..] == RepairConfigurations(flash.value.segmentConfiguration)
      ensures success ==> colorBlind == flash.value.colorBlind
      ensures forall i :: 0 <= i < NumChannels ==> ChannelInBand(channelCalibrationData[i])
      ensures forall i :: 0 <= i < NumChannels ==> segmentConfiguration[i] < 8
    {
      SetDefaults();
      success := LoadFromStorage(flash);
      if success {
        Sanitize();
      } else {
        UnitTableInBand();
      }
      assert forall i :: 0 <= i < NumChannels ==> channelCalibrationData[i] == channelCalibrationData[..][i];
      assert forall i :: 0 <= i < NumChannels ==> segmentConfiguration[i] == segmentConfiguration[..][i];
    }
  }
}
