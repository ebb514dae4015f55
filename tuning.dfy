/**
 * The pure decisions of the driver: the channel index written for a
 * frequency, the CHAN value that selects it, the decoding of the seek and
 * signal status registers, the chip-ID test, and the conversion of
 * frequencies from V4L2's 1/16 kHz unit to kHz.
 */
module Tuning {
  import opened Kernel
  import opened Registers

  // ---------------------------------------------------------------- channels

  /** The frequencies `rda5807_set_frequency` accepts. */
  predicate InBand(freq: int) {
    FREQ_MIN_KHZ <= freq <= FREQ_MAX_KHZ
  }

  /** The frequency of channel `idx` in the widest band with 50 kHz spacing. */
  function ChannelFrequency(idx: nat): (freq: int)
    ensures freq >= FREQ_MIN_KHZ
  {
    FREQ_MIN_KHZ + 50 * idx
  }

  /**
   * The channel index for `freq`: the distance from the band start in
   * 50 kHz steps, rounded half up.  It fits the 10-bit WRCHAN field.
   */
  function ChannelIndex(freq: int): (idx: nat)
    requires InBand(freq)
    ensures idx <= 640 < 0x400
    ensures ChannelFrequency(idx) - 25 <= freq < ChannelFrequency(idx) + 25
  {
    (freq - FREQ_MIN_KHZ + 25) / 50
  }

  /** The selected channel is one nearest to `freq`: no channel is closer. */
  lemma ChannelIsNearest(freq: int, k: nat)
    requires InBand(freq)
    ensures var d := ChannelFrequency(ChannelIndex(freq)) - freq;
      var e := ChannelFrequency(k) - freq;
      (if d < 0 then -d else d) <= (if e < 0 then -e else e)
  {
    var idx := ChannelIndex(freq);
    if k < idx {
      assert ChannelFrequency(k) <= ChannelFrequency(idx) - 50;
    } else if k > idx {
      assert ChannelFrequency(k) >= ChannelFrequency(idx) + 50;
    }
  }

  /** A frequency exactly halfway between two channels selects the upper one. */
  lemma HalfwayRoundsUp(k: nat)
    requires k < 640
    ensures ChannelIndex(ChannelFrequency(k) + 25) == k + 1
  {}

  /** Every channel of the band is selected by its own frequency. */
  lemma ChannelRoundTrip(k: nat)
    requires k <= 640
    ensures InBand(ChannelFrequency(k)) && ChannelIndex(ChannelFrequency(k)) == k
  {}

  // ------------------------------------------------------------ CHAN value

  /** The union of the four CHAN fields `rda5807_set_frequency` writes. */
  const CHAN_MASK: bv16 := CHAN_BAND | CHAN_SPACE | CHAN_WRCHAN | CHAN_TUNE

  /**
   * The CHAN value for channel `idx`: band 2 (76-108 MHz), spacing 2
   * (50 kHz), the channel index, and the TUNE bit that starts tuning.
   */
  function ChanValue(idx: nat): (v: bv16)
    requires idx < 0x400
    ensures v & !CHAN_MASK == 0 && v & CHAN_TUNE == CHAN_TUNE
  {
    ChanFields(U16Of(idx));
    (2 << SHIFT_CHAN_BAND) | (2 << SHIFT_CHAN_SPACE) | (U16Of(idx) << SHIFT_CHAN_WRCHAN) | CHAN_TUNE
  }

  /** The fields of a CHAN value built from a 10-bit channel number `h`. */
  lemma ChanFields(h: bv16)
    requires h < 0x400
    ensures var v := (2 << SHIFT_CHAN_BAND) | (2 << SHIFT_CHAN_SPACE) | (h << SHIFT_CHAN_WRCHAN) | CHAN_TUNE;
      && v & !CHAN_MASK == 0
      && (v & CHAN_WRCHAN) >> SHIFT_CHAN_WRCHAN == h
      && (v & CHAN_BAND) >> SHIFT_CHAN_BAND == 2
      && (v & CHAN_SPACE) >> SHIFT_CHAN_SPACE == 2
      && v & CHAN_TUNE == CHAN_TUNE
  {}

  /**
   * A CHAN value lies inside the mask and carries the channel index, band 2,
   * spacing 2 and the TUNE bit.
   */
  lemma ChanValueFields(idx: nat)
    requires idx < 0x400
    ensures ChanValue(idx) & !CHAN_MASK == 0
    ensures ((ChanValue(idx) & CHAN_WRCHAN) >> SHIFT_CHAN_WRCHAN) as int == idx
    ensures (ChanValue(idx) & CHAN_BAND) >> SHIFT_CHAN_BAND == 2
    ensures (ChanValue(idx) & CHAN_SPACE) >> SHIFT_CHAN_SPACE == 2
    ensures ChanValue(idx) & CHAN_TUNE == CHAN_TUNE
  {
    ChanFields(U16Of(idx));
  }

  /** The mask covers every bit but bit 5, so only bit 5 of the old CHAN value survives. */
  lemma ChanMergeKeepsOnlyBit5(cur: bv16, idx: nat)
    requires idx < 0x400
    ensures CHAN_MASK == 0xFFDF
    ensures Merge(cur, CHAN_MASK, ChanValue(idx)) == ChanValue(idx) | (cur & 0x0020)
  {}

  /** 100000 kHz is channel 480, written as 0x781A plus the old bit 5. */
  lemma ChanExample(cur: bv16)
    ensures ChannelIndex(100000) == 480
    ensures ChanValue(480) == 0x781A
    ensures Merge(cur, CHAN_MASK, ChanValue(480)) == 0x781A | (cur & 0x0020)
  {
    assert U16Of(480) == 480 by { assert U16Of(480) as int == 480; }
  }

  // ------------------------------------------------------------ status decode

  const V4L2_TUNER_SUB_MONO: int := 0x0001
  const V4L2_TUNER_SUB_STEREO: int := 0x0002

  /**
   * The audio sub-channels reported from SEEK_RESULT: when a seek or tune
   * completed without failing, stereo or mono by the stereo indicator;
   * otherwise both, meaning unknown.
   */
  function RxSubchans(seekres: bv16): (r: int)
    ensures V4L2_TUNER_SUB_MONO <= r <= V4L2_TUNER_SUB_MONO + V4L2_TUNER_SUB_STEREO
  {
    if seekres & (SEEKRES_COMPLETE | SEEKRES_FAIL) == SEEKRES_COMPLETE then
      if seekres & SEEKRES_STEREO != 0 then V4L2_TUNER_SUB_STEREO else V4L2_TUNER_SUB_MONO
    else
      V4L2_TUNER_SUB_MONO + V4L2_TUNER_SUB_STEREO
  }

  /** The stereo indicator when it is meaningful: after a completed, successful seek or tune. */
  function StereoDetected(seekres: bv16): Option<bool> {
    if seekres & SEEKRES_COMPLETE != 0 && seekres & SEEKRES_FAIL == 0 then
      Some(seekres & SEEKRES_STEREO != 0)
    else
      None
  }

  /** The two tests of COMPLETE and FAIL agree with the single masked comparison. */
  lemma CompleteAndNotFailed(seekres: bv16)
    ensures seekres & (SEEKRES_COMPLETE | SEEKRES_FAIL) == SEEKRES_COMPLETE
        <==> seekres & SEEKRES_COMPLETE != 0 && seekres & SEEKRES_FAIL == 0
  {}

  /**
   * The report is exactly one of mono and stereo when the indicator is known,
   * the one it indicates, and both of them when it is not known.
   */
  lemma RxSubchansDecode(seekres: bv16)
    ensures var rx := RxSubchans(seekres);
      && (rx == V4L2_TUNER_SUB_STEREO <==> StereoDetected(seekres) == Some(true))
      && (rx == V4L2_TUNER_SUB_MONO <==> StereoDetected(seekres) == Some(false))
      && (rx == V4L2_TUNER_SUB_MONO + V4L2_TUNER_SUB_STEREO <==> StereoDetected(seekres) == None)
  {
    CompleteAndNotFailed(seekres);
  }

  /** 0x4400 is stereo, 0x4000 mono, and 0x6400 (failed) unknown. */
  lemma RxSubchansExamples()
    ensures RxSubchans(0x4400) == V4L2_TUNER_SUB_STEREO
    ensures RxSubchans(0x4000) == V4L2_TUNER_SUB_MONO
    ensures RxSubchans(0x6400) == V4L2_TUNER_SUB_MONO + V4L2_TUNER_SUB_STEREO
  {}

  /** The 7-bit RSSI field of SIGNAL. */
  function Rssi(sig: bv16): (s: bv16)
    ensures s < 0x80
  {
    (sig & RSSI) >> SHIFT_RSSI
  }

  /** The RSSI is the top seven bits of SIGNAL, read as a number. */
  lemma RssiIsTopBits(sig: bv16)
    ensures Rssi(sig) as int == sig as int / 512
  {
    assert Rssi(sig) == sig >> 9;
  }

  /** The signal strength reported to V4L2: the RSSI scaled up to the 16-bit range. */
  function ReportedSignal(sig: bv16): (strength: int)
    ensures 0 <= strength <= 0x7F * 512 && strength % 512 == 0
  {
    Rssi(sig) as int * 512
  }

  /** Clearing the low nine bits is shifting them out and back in as zeros. */
  lemma ClearLowNineBits(sig: bv16)
    ensures sig & 0xFE00 == (sig >> 9) << 9
  {}

  /** Shifting a 7-bit value left by nine multiplies it by 512, without overflow. */
  lemma ShiftNineAsInt(h: bv16)
    requires h < 0x80
    ensures (h << 9) as int == h as int * 512
  {}

  /** The reported strength is SIGNAL with its low nine bits cleared. */
  lemma ReportedSignalClearsLowBits(sig: bv16)
    ensures ReportedSignal(sig) == (sig & 0xFE00) as int
  {
    var h := Rssi(sig);
    assert h == sig >> 9;
    ClearLowNineBits(sig);
    ShiftNineAsInt(h);
  }

  /** SIGNAL 0x1E00 has RSSI 15 and is reported as 7680. */
  lemma SignalExample()
    ensures Rssi(0x1E00) == 15 && ReportedSignal(0x1E00) == 7680
  {}

  // ------------------------------------------------------------ chip ID

  /**
   * The probe's verdict on the result of reading CHIPID: a failed read is
   * passed on, a value whose high byte is not 0x58 is -ENODEV, and anything
   * else is accepted (0).
   */
  function ChipIdCheck(chipid: int): (r: int)
    requires chipid < 0x1_0000
    ensures r <= 0
    ensures chipid < 0 ==> r == chipid
    ensures chipid >= 0 ==> r == 0 || r == -ENODEV
  {
    if chipid < 0 then chipid
    else if ToU16(chipid) & 0xFF00 != 0x5800 then -ENODEV
    else 0
  }

  /** The high byte of a 16-bit value is 0x58 exactly when the value is 0x58xx. */
  lemma HighByte58(v: bv16)
    ensures v & 0xFF00 == 0x5800 <==> 0x5800 <= v <= 0x58FF
  {}

  /** The range 0x5800..0x58FF is the same for 16-bit values and for the numbers they denote. */
  lemma ChipIdRangeAsInt(v: bv16)
    ensures 0x5800 <= v <==> 0x5800 <= v as int
    ensures v <= 0x58FF <==> v as int <= 0x58FF
  {}

  /** The chip is accepted exactly when its ID lies in 0x5800..0x58FF. */
  lemma ChipIdAccepted(chipid: int)
    requires chipid < 0x1_0000
    ensures chipid < 0 ==> ChipIdCheck(chipid) == chipid
    ensures chipid >= 0 ==> (ChipIdCheck(chipid) == 0 <==> 0x5800 <= chipid <= 0x58FF)
    ensures chipid >= 0 ==> (ChipIdCheck(chipid) != 0 <==> ChipIdCheck(chipid) == -ENODEV)
  {
    if chipid >= 0 {
      HighByte58(ToU16(chipid));
      ChipIdRangeAsInt(ToU16(chipid));
    }
  }

  /** 0x5841 is accepted and 0x1234 is not. */
  lemma ChipIdExamples()
    ensures ChipIdCheck(0x5841) == 0 && ChipIdCheck(0x1234) == -ENODEV
  {
    ChipIdAccepted(0x5841);
    ChipIdAccepted(0x1234);
  }

  // ------------------------------------------------------------ units

  /**
   * The kHz value `rda5807_vidioc_s_frequency` computes from a frequency in
   * 1/16 kHz as written: the product `f * 625` is taken in 32-bit unsigned
   * arithmetic, so it wraps before the division.
   */
  function KhzAsWritten(f: u32): (khz: u32)
    ensures khz <= (U32_MODULUS - 1) / 10000
  {
    ((f * 625) % U32_MODULUS) / 10000
  }

  /** The intended conversion: 1/16 kHz to kHz, rounded down. */
  function KhzFromSixteenths(f: u32): (khz: u32)
    ensures 16 * khz <= f < 16 * khz + 16
  {
    f / 16
  }

  /** Without wrap-around, scaling by 625/10000 is dividing by 16. */
  lemma ConversionWithoutOverflow(f: u32)
    requires f * 625 < U32_MODULUS
    ensures KhzAsWritten(f) == KhzFromSixteenths(f)
  {
    var q, r := f / 16, f % 16;
    assert f == 16 * q + r;
    assert f * 625 == 10000 * q + 625 * r;
    assert 0 <= 625 * r < 10000;
  }

  /** Every frequency whose kHz value can be in band is converted without wrap-around. */
  lemma ConversionInBand(f: u32)
    requires f < (FREQ_MAX_KHZ + 1) * 16
    ensures KhzAsWritten(f) == KhzFromSixteenths(f)
  {
    ConversionWithoutOverflow(f);
  }

  /**
   * 8087948/16 kHz (about 505 MHz) wraps to 76000 kHz as written, which is in
   * band, while the intended 505496 kHz is rejected.
   */
  lemma ConversionOverflowExample()
    ensures KhzAsWritten(8087948) == 76000 && InBand(KhzAsWritten(8087948))
    ensures KhzFromSixteenths(8087948) == 505496 && !InBand(KhzFromSixteenths(8087948))
  {}
}
