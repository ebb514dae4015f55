/**
 * The tuner operations of the driver as functions on a bus snapshot: the
 * single-field setters, `rda5807_set_frequency`, the control handler, the
 * tuner query, the frequency request and the probe's chip check.  The
 * `Driver` class carries them out step by step and is proved to agree.
 */
module Handlers {
  import opened Kernel
  import opened Registers
  import opened Transport
  import opened ReadModifyWrite
  import opened Tuning
  import opened Setters

  // ------------------------------------------------------------ setters

  /** `rda5807_set_enable`: update the ENABLE bit of CTRL. */
  function SetEnable(b: Bus, enabled: bool): (o: Outcome)
    requires b.Valid()
    ensures o.bus.Valid()
    ensures o.ret <= 0
    ensures |b.log| < |o.bus.log| && o.bus.log[..|b.log|] == b.log
    ensures o.bus.log[|b.log|] == SelectAndRead(Ctrl.Code())
  {
    Update(b, Ctrl, CTRL_ENABLE, EnableValue(enabled))
  }

  /** `rda5807_set_mute`: update the DMUTE bit of CTRL (set means not muted). */
  function SetMute(b: Bus, muted: bool): (o: Outcome)
    requires b.Valid()
    ensures o.bus.Valid()
    ensures o.ret <= 0
    ensures |b.log| < |o.bus.log| && o.bus.log[..|b.log|] == b.log
    ensures o.bus.log[|b.log|] == SelectAndRead(Ctrl.Code())
  {
    Update(b, Ctrl, CTRL_DMUTE, MuteValue(muted))
  }

  /** `rda5807_set_volume`: update the DAC volume field of INTM_THRESH_VOL. */
  function SetVolume(b: Bus, volume: int): (o: Outcome)
    requires b.Valid()
    ensures o.bus.Valid()
    ensures o.ret <= 0
    ensures |b.log| < |o.bus.log| && o.bus.log[..|b.log|] == b.log
    ensures o.bus.log[|b.log|] == SelectAndRead(IntmThreshVol.Code())
  {
    Update(b, IntmThreshVol, VOLUME_DAC, VolumeValue(volume))
  }

  /** `rda5807_set_preemphasis`: update the DEEMPHASIS bit of IOCFG. */
  function SetPreemphasis(b: Bus, preemp: int): (o: Outcome)
    requires b.Valid()
    ensures o.bus.Valid()
    ensures o.ret <= 0
    ensures |b.log| < |o.bus.log| && o.bus.log[..|b.log|] == b.log
    ensures o.bus.log[|b.log|] == SelectAndRead(IoCfg.Code())
  {
    Update(b, IoCfg, DEEMPHASIS, PreemphasisValue(preemp))
  }

  /**
   * After a successful single-field update with `val` inside `mask`, the field
   * holds `val`, the rest of `reg` is as before and no other register changed;
   * after a failed one no register changed.
   */
  lemma FieldUpdate(b: Bus, reg: Reg, mask: bv16, val: bv16)
    requires b.Valid() && val & !mask == 0
    ensures var o := Update(b, reg, mask, val);
      && (o.ret == 0 ==> o.bus.regs[reg] & mask == val)
      && (o.ret == 0 ==> o.bus.regs[reg] & !mask == b.regs[reg] & !mask)
      && (forall r: Reg :: r != reg ==> o.bus.regs[r] == b.regs[r])
      && (o.ret != 0 ==> o.bus.regs == b.regs)
  {
    UpdateSetsMaskedBits(b, reg, mask, val);
    UpdateKeepsUnmaskedBits(b, reg, mask, val);
    UpdateEffect(b, reg, mask, val);
  }

  /** `set_enable` sets bit 0 of CTRL exactly when enabling, and changes no other bit. */
  lemma SetEnableEffect(b: Bus, enabled: bool)
    requires b.Valid()
    ensures var o := SetEnable(b, enabled);
      && (o.ret == 0 ==> (o.bus.regs[Ctrl] & CTRL_ENABLE != 0 <==> enabled))
      && (o.ret == 0 ==> o.bus.regs[Ctrl] & !CTRL_ENABLE == b.regs[Ctrl] & !CTRL_ENABLE)
      && (forall r: Reg :: r != Ctrl ==> o.bus.regs[r] == b.regs[r])
      && (o.ret != 0 ==> o.bus.regs == b.regs)
  {
    FieldUpdate(b, Ctrl, CTRL_ENABLE, EnableValue(enabled));
  }

  /** `set_mute(m)` sets bit 14 of CTRL exactly when `!m`, and changes no other bit. */
  lemma SetMuteEffect(b: Bus, muted: bool)
    requires b.Valid()
    ensures var o := SetMute(b, muted);
      && (o.ret == 0 ==> (o.bus.regs[Ctrl] & CTRL_DMUTE != 0 <==> !muted))
      && (o.ret == 0 ==> o.bus.regs[Ctrl] & !CTRL_DMUTE == b.regs[Ctrl] & !CTRL_DMUTE)
      && (forall r: Reg :: r != Ctrl ==> o.bus.regs[r] == b.regs[r])
      && (o.ret != 0 ==> o.bus.regs == b.regs)
  {
    FieldUpdate(b, Ctrl, CTRL_DMUTE, MuteValue(muted));
  }

  /** `set_preemphasis` sets bit 11 of IOCFG exactly for 50 microseconds, and no other bit. */
  lemma SetPreemphasisEffect(b: Bus, preemp: int)
    requires b.Valid()
    ensures var o := SetPreemphasis(b, preemp);
      && (o.ret == 0 ==> (o.bus.regs[IoCfg] & DEEMPHASIS != 0 <==> preemp == V4L2_PREEMPHASIS_50_uS))
      && (o.ret == 0 ==> o.bus.regs[IoCfg] & !DEEMPHASIS == b.regs[IoCfg] & !DEEMPHASIS)
      && (forall r: Reg :: r != IoCfg ==> o.bus.regs[r] == b.regs[r])
      && (o.ret != 0 ==> o.bus.regs == b.regs)
  {
    FieldUpdate(b, IoCfg, DEEMPHASIS, PreemphasisValue(preemp));
  }

  /** `set_volume(v)` for 0 <= v <= 15 writes `v` to bits 0-3 of register 0x05 and changes no other bit. */
  lemma SetVolumeEffect(b: Bus, volume: int)
    requires b.Valid() && 0 <= volume <= 15
    ensures var o := SetVolume(b, volume);
      && (o.ret == 0 ==> (o.bus.regs[IntmThreshVol] & VOLUME_DAC) as int == volume)
      && (o.ret == 0 ==> o.bus.regs[IntmThreshVol] & !VOLUME_DAC == b.regs[IntmThreshVol] & !VOLUME_DAC)
      && (forall r: Reg :: r != IntmThreshVol ==> o.bus.regs[r] == b.regs[r])
      && (o.ret != 0 ==> o.bus.regs == b.regs)
  {
    VolumeInField(volume);
    FieldUpdate(b, IntmThreshVol, VOLUME_DAC, VolumeValue(volume));
  }

  /** Enabling with CTRL at 0 and every transfer succeeding reads CTRL, then writes 0x0001 to it. */
  lemma SetEnableExample(b: Bus)
    requires b.Valid() && b.regs[Ctrl] == 0 && b.replies == []
    ensures var o := SetEnable(b, true);
      && o.ret == 0
      && o.bus.log == b.log + [SelectAndRead(0x02), WriteBytes([0x02, 0x00, 0x01])]
      && o.bus.regs[Ctrl] == 0x0001
  {
    UpdateReadSucceeds(b, Ctrl, CTRL_ENABLE, EnableValue(true));
    assert Merge(0, CTRL_ENABLE, EnableValue(true)) == 0x0001;
    assert WriteBuffer(Ctrl, 0x0001) == [0x02, 0x00, 0x01];
  }

  // ------------------------------------------------------------ frequency

  /**
   * `rda5807_set_frequency`: a frequency outside 76000..108000 kHz is
   * -ERANGE; otherwise one update of CHAN with the four-field value.
   */
  function SetFrequency(b: Bus, freq: u32): (o: Outcome)
    requires b.Valid()
    ensures o.bus.Valid()
    ensures o.ret <= 0
    ensures |b.log| <= |o.bus.log| && o.bus.log[..|b.log|] == b.log
    ensures InBand(freq) ==> |b.log| < |o.bus.log| && o.bus.log[|b.log|] == SelectAndRead(Chan.Code())
  {
    if freq < FREQ_MIN_KHZ then Outcome(b, -ERANGE)
    else if freq > FREQ_MAX_KHZ then Outcome(b, -ERANGE)
    else Update(b, Chan, CHAN_MASK, ChanValue(ChannelIndex(freq)))
  }

  /** Out of band is -ERANGE with no bus access at all. */
  lemma SetFrequencyOutOfBand(b: Bus, freq: u32)
    requires b.Valid()
    ensures !InBand(freq) <==> SetFrequency(b, freq) == Outcome(b, -ERANGE)
  {
    if InBand(freq) {
      var o := SetFrequency(b, freq);
      assert |o.bus.log| > |b.log| by { UpdateEffect(b, Chan, CHAN_MASK, ChanValue(ChannelIndex(freq))); }
    }
  }

  /**
   * In band, a successful tune leaves CHAN holding the channel index, band 2,
   * spacing 2 and TUNE, with only bit 5 kept from before.
   */
  lemma SetFrequencyEffect(b: Bus, freq: u32)
    requires b.Valid() && InBand(freq)
    ensures var o := SetFrequency(b, freq);
      var v := ChanValue(ChannelIndex(freq)) | (b.regs[Chan] & 0x0020);
      && (o.ret == 0 ==> o.bus.regs == b.regs[Chan := v])
      && (o.ret != 0 ==> o.bus.regs == b.regs)
  {
    UpdateEffect(b, Chan, CHAN_MASK, ChanValue(ChannelIndex(freq)));
    ChanMergeKeepsOnlyBit5(b.regs[Chan], ChannelIndex(freq));
  }

  // ------------------------------------------------------------ controls

  const V4L2_CID_AUDIO_VOLUME: int := 0x00980905
  const V4L2_CID_AUDIO_MUTE: int := 0x00980909
  const V4L2_CID_TUNE_PREEMPHASIS: int := 0x009B0970

  /** The error of two steps that were both attempted: the first one's, if any. */
  function FirstError(err1: int, err2: int): (err: int)
    ensures err == 0 <==> err1 == 0 && err2 == 0
    ensures err1 != 0 ==> err == err1
    ensures err1 == 0 ==> err == err2
  {
    if err1 != 0 then err1 else err2
  }

  /**
   * `rda5807_s_ctrl`: muting disables the receiver and sets mute, unmuting
   * enables it and clears mute, both always attempted; volume and
   * pre-emphasis go to their setters; any other control is -EINVAL.
   */
  function SetControl(b: Bus, id: int, value: int): (o: Outcome)
    requires b.Valid()
    ensures o.bus.Valid()
    ensures o.ret <= 0
    ensures |b.log| <= |o.bus.log| && o.bus.log[..|b.log|] == b.log
  {
    if id == V4L2_CID_AUDIO_MUTE then
      var o1 := SetEnable(b, value == 0);
      var o2 := SetMute(o1.bus, value != 0);
      Outcome(o2.bus, FirstError(o1.ret, o2.ret))
    else if id == V4L2_CID_AUDIO_VOLUME then SetVolume(b, value)
    else if id == V4L2_CID_TUNE_PREEMPHASIS then SetPreemphasis(b, value)
    else Outcome(b, -EINVAL)
  }

  /**
   * CTRL as the mute control leaves it, from `c0` before: ENABLE and DMUTE
   * both follow `!muted`, and every other bit is as in `c0`.
   */
  predicate MuteControlBits(c0: bv16, c2: bv16, muted: bool) {
    && (c2 & CTRL_ENABLE != 0 <==> !muted)
    && (c2 & CTRL_DMUTE != 0 <==> !muted)
    && c2 & !(CTRL_ENABLE | CTRL_DMUTE) == c0 & !(CTRL_ENABLE | CTRL_DMUTE)
  }

  /** CTRL after the enable merge and then the mute merge of the mute control. */
  function MuteControlCtrl(c0: bv16, muted: bool): bv16 {
    Merge(Merge(c0, CTRL_ENABLE, EnableValue(!muted)), CTRL_DMUTE, MuteValue(muted))
  }

  /** The two merges of the mute control give CTRL its mute control bits. */
  lemma MuteControlCtrlBits(c0: bv16, muted: bool)
    ensures MuteControlBits(c0, MuteControlCtrl(c0, muted), muted)
  {
    var c1 := Merge(c0, CTRL_ENABLE, EnableValue(!muted));
    MergeInsideMask(c0, CTRL_ENABLE, EnableValue(!muted));
    MergeInsideMask(c1, CTRL_DMUTE, MuteValue(muted));
    assert MuteControlCtrl(c0, muted) & CTRL_ENABLE == c1 & CTRL_ENABLE;
  }

  /**
   * The mute control issues the enable update and then the mute update: each
   * starts with a read of CTRL, and the second read is issued even when the
   * first update failed.  The first error is returned.
   */
  lemma MuteControlSequence(b: Bus, value: int)
    requires b.Valid()
    ensures var o1 := SetEnable(b, value == 0);
      var n := |o1.bus.log|;
      var o := SetControl(b, V4L2_CID_AUDIO_MUTE, value);
      && |b.log| < n < |o.bus.log|
      && o.bus.log[..|b.log|] == b.log
      && o.bus.log[|b.log|] == SelectAndRead(Ctrl.Code())
      && o.bus.log[n] == SelectAndRead(Ctrl.Code())
      && (o1.ret != 0 ==> o.ret == o1.ret)
      && (o1.ret == 0 ==> o.ret == SetMute(o1.bus, value != 0).ret)
  {
    var o1 := SetEnable(b, value == 0);
    var o2 := SetMute(o1.bus, value != 0);
    var n := |o1.bus.log|;
    assert o2.bus.log[..n] == o1.bus.log;
    assert o2.bus.log[|b.log|] == o2.bus.log[..n][|b.log|];
    assert o2.bus.log[..|b.log|] == o2.bus.log[..n][..|b.log|];
  }

  /** The mute control returns 0 exactly when both of its updates succeeded. */
  lemma MuteControlSucceeded(b: Bus, value: int)
    requires b.Valid()
    ensures var o1 := SetEnable(b, value == 0);
      var o2 := SetMute(o1.bus, value != 0);
      SetControl(b, V4L2_CID_AUDIO_MUTE, value).ret == 0 <==> o1.ret == 0 && o2.ret == 0
  {}

  /**
   * When the mute control returns 0, CTRL holds both merges (so its ENABLE and
   * DMUTE bits follow `!muted`, `MuteControlCtrlBits`), and no other register changed.
   */
  lemma MuteControlEffect(b: Bus, value: int)
    requires b.Valid()
    ensures var o := SetControl(b, V4L2_CID_AUDIO_MUTE, value);
      o.ret == 0 ==> o.bus.regs == b.regs[Ctrl := MuteControlCtrl(b.regs[Ctrl], value != 0)]
  {
    var o1 := SetEnable(b, value == 0);
    MuteControlSucceeded(b, value);
    UpdateEffect(b, Ctrl, CTRL_ENABLE, EnableValue(value == 0));
    UpdateEffect(o1.bus, Ctrl, CTRL_DMUTE, MuteValue(value != 0));
  }

  /** An unknown control is -EINVAL with no bus access. */
  lemma UnknownControl(b: Bus, id: int, value: int)
    requires b.Valid()
    requires id != V4L2_CID_AUDIO_MUTE && id != V4L2_CID_AUDIO_VOLUME && id != V4L2_CID_TUNE_PREEMPHASIS
    ensures SetControl(b, id, value) == Outcome(b, -EINVAL)
  {}

  // ------------------------------------------------------------ tuner query

  const V4L2_TUNER_RADIO: int := 1
  const V4L2_TUNER_CAP_LOW: int := 0x0001
  const V4L2_TUNER_CAP_STEREO: int := 0x0010
  const V4L2_TUNER_MODE_STEREO: int := 0x0001

  /** The fields of `struct v4l2_tuner` that `rda5807_vidioc_g_tuner` fills in. */
  datatype Tuner = Tuner(
    name: string, kind: int, capability: int,
    rangeLow: int, rangeHigh: int,   // in 1/16 kHz
    rxsubchans: int, audmode: int, signal: int, afc: int)

  /**
   * The tuner description for the given SEEK_RESULT and SIGNAL values: the
   * band limits in 1/16 kHz, the sub-channels that the stereo indicator
   * shows, and SIGNAL with its low nine bits cleared as the strength.
   */
  function TunerReport(seekres: bv16, sig: bv16): (t: Tuner)
    ensures 0 <= t.rangeLow < t.rangeHigh < U32_MODULUS
    ensures KhzFromSixteenths(t.rangeLow) == FREQ_MIN_KHZ && KhzFromSixteenths(t.rangeHigh) == FREQ_MAX_KHZ
    ensures KhzAsWritten(t.rangeLow) == FREQ_MIN_KHZ && KhzAsWritten(t.rangeHigh) == FREQ_MAX_KHZ
    ensures t.rxsubchans == V4L2_TUNER_SUB_STEREO <==> StereoDetected(seekres) == Some(true)
    ensures t.rxsubchans == V4L2_TUNER_SUB_MONO <==> StereoDetected(seekres) == Some(false)
    ensures t.rxsubchans == V4L2_TUNER_SUB_MONO + V4L2_TUNER_SUB_STEREO <==> StereoDetected(seekres) == None
    ensures t.signal == (sig & 0xFE00) as int
  {
    RxSubchansDecode(seekres);
    ReportedSignalClearsLowBits(sig);
    Tuner("FM", V4L2_TUNER_RADIO, V4L2_TUNER_CAP_LOW + V4L2_TUNER_CAP_STEREO,
          FREQ_MIN_KHZ * 16, FREQ_MAX_KHZ * 16,
          RxSubchans(seekres), V4L2_TUNER_MODE_STEREO, ReportedSignal(sig), 0)
  }

  /** A tuner query's bus afterwards and its result: the description, or the negative return value. */
  datatype TunerOutcome = TunerOutcome(bus: Bus, result: Result<Tuner>)

  /**
   * `rda5807_vidioc_g_tuner`: only tuner 0 exists; read SEEK_RESULT, then
   * SIGNAL, stopping at the first failed read.
   */
  function GetTuner(b: Bus, index: int): (o: TunerOutcome)
    requires b.Valid()
    ensures o.bus.Valid()
    ensures o.bus.regs == b.regs
    ensures o.result.Err? ==> o.result.errno < 0
    ensures o.result.Ok? ==> index == 0 && |o.bus.log| == |b.log| + 2
    ensures |b.log| <= |o.bus.log| && o.bus.log[..|b.log|] == b.log
  {
    if index != 0 then TunerOutcome(b, Err(-EINVAL))
    else
      var r1 := Read(b, SeekResult);
      if r1.ret < 0 then TunerOutcome(r1.bus, Err(r1.ret))
      else
        var r2 := Read(r1.bus, Signal);
        if r2.ret < 0 then TunerOutcome(r2.bus, Err(r2.ret))
        else TunerOutcome(r2.bus, Ok(TunerReport(ToU16(r1.ret), ToU16(r2.ret))))
  }

  /**
   * When both reads succeed the query reports the chip's SEEK_RESULT and
   * SIGNAL; a failed read is returned and nothing further is read; the
   * registers never change.
   */
  lemma GetTunerResult(b: Bus)
    requires b.Valid()
    ensures var o := GetTuner(b, 0);
      var b1 := AfterRead(b, SeekResult);
      && o.bus.regs == b.regs
      && (ReadStatus(b) < 0 ==> o == TunerOutcome(b1, Err(ReadStatus(b))))
      && (ReadStatus(b) == 0 && ReadStatus(b1) < 0 ==>
            o == TunerOutcome(AfterRead(b1, Signal), Err(ReadStatus(b1))))
      && (ReadStatus(b) == 0 && ReadStatus(b1) == 0 ==>
            o == TunerOutcome(AfterRead(b1, Signal), Ok(TunerReport(b.regs[SeekResult], b.regs[Signal]))))
  {
    ToU16OfInt(b.regs[SeekResult]);
    ToU16OfInt(b.regs[Signal]);
  }

  /** A query for any tuner but 0 is -EINVAL with no bus access. */
  lemma GetTunerOtherIndex(b: Bus, index: int)
    requires b.Valid() && index != 0
    ensures GetTuner(b, index) == TunerOutcome(b, Err(-EINVAL))
  {}

  // ------------------------------------------------------------ frequency request

  /**
   * `rda5807_vidioc_s_frequency` with the conversion as written: the 32-bit
   * product wraps before the division.
   */
  function SetTunerFrequencyAsWritten(b: Bus, tuner: int, kind: int, frequency: u32): (o: Outcome)
    requires b.Valid()
    ensures o.bus.Valid()
    ensures o.ret <= 0
    ensures |b.log| <= |o.bus.log| && o.bus.log[..|b.log|] == b.log
  {
    if tuner != 0 then Outcome(b, -EINVAL)
    else if kind != V4L2_TUNER_RADIO then Outcome(b, -EINVAL)
    else SetFrequency(b, KhzAsWritten(frequency))
  }

  /**
   * `rda5807_vidioc_s_frequency` with the intended conversion: only radio
   * tuner 0, and the frequency converted from 1/16 kHz to kHz.
   */
  function SetTunerFrequency(b: Bus, tuner: int, kind: int, frequency: u32): (o: Outcome)
    requires b.Valid()
    ensures o.bus.Valid()
    ensures o.ret <= 0
    ensures |b.log| <= |o.bus.log| && o.bus.log[..|b.log|] == b.log
  {
    if tuner != 0 then Outcome(b, -EINVAL)
    else if kind != V4L2_TUNER_RADIO then Outcome(b, -EINVAL)
    else SetFrequency(b, KhzFromSixteenths(frequency))
  }

  /** For every frequency whose kHz value can be in band, the two conversions behave the same. */
  lemma SetTunerFrequencyAgrees(b: Bus, tuner: int, kind: int, frequency: u32)
    requires b.Valid() && frequency < (FREQ_MAX_KHZ + 1) * 16
    ensures SetTunerFrequencyAsWritten(b, tuner, kind, frequency) == SetTunerFrequency(b, tuner, kind, frequency)
  {
    ConversionInBand(frequency);
  }

  /** Above band, the intended conversion is -ERANGE with no bus access. */
  lemma SetTunerFrequencyAboveBand(b: Bus, frequency: u32)
    requires b.Valid() && frequency >= (FREQ_MAX_KHZ + 1) * 16
    ensures SetTunerFrequency(b, 0, V4L2_TUNER_RADIO, frequency) == Outcome(b, -ERANGE)
  {}

  /**
   * As written, 8087948/16 kHz (far above band) tunes to channel 0 instead of
   * being rejected.
   */
  lemma SetTunerFrequencyOverflow(b: Bus)
    requires b.Valid()
    ensures SetTunerFrequencyAsWritten(b, 0, V4L2_TUNER_RADIO, 8087948)
         == Update(b, Chan, CHAN_MASK, ChanValue(0))
    ensures SetTunerFrequency(b, 0, V4L2_TUNER_RADIO, 8087948) == Outcome(b, -ERANGE)
  {
    ConversionOverflowExample();
  }

  // ------------------------------------------------------------ probe

  /** The chip-ID part of `rda5807_i2c_probe`: read CHIPID and judge it. */
  function Probe(b: Bus): (o: Outcome)
    requires b.Valid()
    ensures o.bus.Valid() && o.bus == AfterRead(b, ChipId)
  {
    var rd := Read(b, ChipId);
    Outcome(rd.bus, ChipIdCheck(rd.ret))
  }

  /**
   * The probe passes the check exactly when the read succeeds and CHIPID is
   * 0x58xx; a failed read is returned unchanged, any other ID is -ENODEV.
   */
  lemma ProbeResult(b: Bus)
    requires b.Valid()
    ensures var o := Probe(b);
      && (ReadStatus(b) < 0 ==> o.ret == ReadStatus(b))
      && (ReadStatus(b) == 0 ==> (o.ret == 0 <==> 0x5800 <= b.regs[ChipId] as int <= 0x58FF))
      && (ReadStatus(b) == 0 && o.ret != 0 ==> o.ret == -ENODEV)
  {
    if ReadStatus(b) == 0 {
      ChipIdAccepted(b.regs[ChipId] as int);
    }
  }
}
