/**
 * The driver bound to its chip, as an object whose operations change the
 * chip's registers, consume the scripted transfer results and extend the
 * transfer log step by step, each proved to agree with its specification
 * on bus snapshots in `Transport` and `Handlers`.
 */
module Driver {
  import opened Kernel
  import opened Registers
  import opened Transport
  import opened ReadModifyWrite
  import opened Tuning
  import opened Setters
  import Handlers

  class Rda5807 {
    /** The chip's registers. */
    var regs: map<Reg, bv16>
    /** What the upcoming `i2c_transfer` calls return. */
    var replies: seq<int>
    /** Every transfer started so far. */
    var log: seq<Xfer>

    ghost predicate Valid()
      reads this
    {
      forall r: Reg :: r in regs
    }

    /** The object's state as a bus snapshot. */
    ghost function State(): (b: Bus)
      reads this
      ensures Valid() ==> b.Valid()
    {
      Bus(regs, replies, log)
    }

    /** A driver whose chip holds `regs0`, with transfer results `replies0` and nothing logged yet. */
    constructor (regs0: map<Reg, bv16>, replies0: seq<int>)
      requires forall r: Reg :: r in regs0
      ensures Valid() && State() == Bus(regs0, replies0, [])
    {
      regs := regs0;
      replies := replies0;
      log := [];
    }

    /** `i2c_transfer`: log the transfer and return its scripted result. */
    method Transfer(x: Xfer, count: nat) returns (reply: int)
      modifies this
      ensures reply == NextReply(old(replies), count)
      ensures regs == old(regs) && replies == Rest(old(replies)) && log == old(log) + [x]
    {
      reply := NextReply(replies, count);
      replies := Rest(replies);
      log := log + [x];
    }

    /** `rda5807_i2c_read`: select `reg`, read its two bytes, and decode them high byte first. */
    method I2cRead(reg: Reg) returns (r: int)
      requires Valid()
      modifies this
      ensures Valid() && Outcome(State(), r) == Read(old(State()), reg)
    {
      var err := Transfer(SelectAndRead(reg.Code()), 2);
      if err < 0 {
        return err;
      }
      if err < 2 {
        return -EIO;
      }
      var bytes := BigEndianBytes(regs[reg]);  // what the chip sends back
      BigEndianRoundTrip(regs[reg]);
      r := FromBigEndian(bytes[0], bytes[1]) as int;
    }

    /**
     * `rda5807_i2c_write`: send the register code and the value high byte
     * first; when the transfer succeeds the chip stores the value in the
     * register the first byte names.
     */
    method I2cWrite(reg: Reg, val: bv16) returns (r: int)
      requires Valid()
      modifies this
      ensures Valid() && Outcome(State(), r) == Write(old(State()), reg, val)
    {
      var buf := [reg.Code(), (val >> 8) as bv8, (val & 0xFF) as bv8];
      assert buf == WriteBuffer(reg, val);
      var err := Transfer(WriteBytes(buf), 1);
      if err < 0 {
        return err;
      }
      if err < 1 {
        return -EIO;
      }
      CodeRoundTrip(reg);
      var target := RegOfCode(buf[0]).value;
      regs := regs[target := FromBigEndian(buf[1], buf[2])];
      return 0;
    }

    /** `rda5807_update_reg`: read `reg`; if that worked, write back `val | (old & ~mask)`. */
    method UpdateReg(reg: Reg, mask: bv16, val: bv16) returns (err: int)
      requires Valid()
      modifies this
      ensures Valid() && Outcome(State(), err) == Update(old(State()), reg, mask, val)
    {
      ghost var b := State();
      err := I2cRead(reg);
      ghost var rd := Outcome(State(), err);
      if err >= 0 {
        var v := val | (ToU16(err) & !mask);
        assert Update(b, reg, mask, val) == Write(rd.bus, reg, v) by {
          UpdateIsReadThenWrite(b, reg, mask, val);
        }
        err := I2cWrite(reg, v);
      } else {
        assert Update(b, reg, mask, val) == rd by {
          UpdateIsReadThenWrite(b, reg, mask, val);
        }
      }
    }

    /** `rda5807_set_enable`. */
    method SetEnable(enabled: bool) returns (err: int)
      requires Valid()
      modifies this
      ensures Valid() && Outcome(State(), err) == Handlers.SetEnable(old(State()), enabled)
    {
      var val := if enabled then CTRL_ENABLE else 0;
      err := UpdateReg(Ctrl, CTRL_ENABLE, val);
    }

    /** `rda5807_set_mute`. */
    method SetMute(muted: bool) returns (err: int)
      requires Valid()
      modifies this
      ensures Valid() && Outcome(State(), err) == Handlers.SetMute(old(State()), muted)
    {
      var val := if muted then 0 else CTRL_DMUTE;
      err := UpdateReg(Ctrl, CTRL_DMUTE, val);
    }

    /** `rda5807_set_volume`. */
    method SetVolume(volume: int) returns (err: int)
      requires Valid()
      modifies this
      ensures Valid() && Outcome(State(), err) == Handlers.SetVolume(old(State()), volume)
    {
      err := UpdateReg(IntmThreshVol, VOLUME_DAC, ToU16(volume) << SHIFT_VOLUME_DAC);
    }

    /** `rda5807_set_preemphasis`. */
    method SetPreemphasis(preemp: int) returns (err: int)
      requires Valid()
      modifies this
      ensures Valid() && Outcome(State(), err) == Handlers.SetPreemphasis(old(State()), preemp)
    {
      err := UpdateReg(IoCfg, DEEMPHASIS, if preemp == V4L2_PREEMPHASIS_50_uS then DEEMPHASIS else 0);
    }

    /**
     * `rda5807_set_frequency`: reject out-of-band frequencies, then build the
     * mask and value field by field and update CHAN.
     */
    method SetFrequency(freq: u32) returns (err: int)
      requires Valid()
      modifies this
      ensures Valid() && Outcome(State(), err) == Handlers.SetFrequency(old(State()), freq)
    {
      var mask: bv16 := 0;
      var val: bv16 := 0;
      if freq < FREQ_MIN_KHZ {
        return -ERANGE;
      }
      if freq > FREQ_MAX_KHZ {
        return -ERANGE;
      }
      var idx := ChannelIndex(freq);
      // band 2: 76-108 MHz
      mask := mask | CHAN_BAND;
      val := val | (2 << SHIFT_CHAN_BAND);
      // spacing 2: 50 kHz between channels
      mask := mask | CHAN_SPACE;
      val := val | (2 << SHIFT_CHAN_SPACE);
      // channel number, rounded to the nearest channel
      mask := mask | CHAN_WRCHAN;
      val := val | (U16Of((freq - FREQ_MIN_KHZ + 25) / 50) << SHIFT_CHAN_WRCHAN);
      // the TUNE bit makes the chip retune
      mask := mask | CHAN_TUNE;
      val := val | CHAN_TUNE;
      assert mask == CHAN_MASK && val == ChanValue(idx);
      err := UpdateReg(Chan, mask, val);
    }

    /**
     * `rda5807_s_ctrl`: the mute control disables the receiver while muted
     * and always attempts both updates; volume and pre-emphasis go to their
     * setters; any other control is -EINVAL.
     */
    method SetControl(id: int, value: int) returns (err: int)
      requires Valid()
      modifies this
      ensures Valid() && Outcome(State(), err) == Handlers.SetControl(old(State()), id, value)
    {
      if id == Handlers.V4L2_CID_AUDIO_MUTE {
        var err1 := SetEnable(value == 0);
        var err2 := SetMute(value != 0);
        err := if err1 != 0 then err1 else err2;
      } else if id == Handlers.V4L2_CID_AUDIO_VOLUME {
        err := SetVolume(value);
      } else if id == Handlers.V4L2_CID_TUNE_PREEMPHASIS {
        err := SetPreemphasis(value);
      } else {
        err := -EINVAL;
      }
    }

    /**
     * `rda5807_vidioc_g_tuner`: read SEEK_RESULT and SIGNAL and describe the
     * tuner, or return the first failed read's error.
     */
    method GetTuner(index: int) returns (r: Result<Handlers.Tuner>)
      requires Valid()
      modifies this
      ensures Valid() && Handlers.TunerOutcome(State(), r) == Handlers.GetTuner(old(State()), index)
    {
      if index != 0 {
        return Err(-EINVAL);
      }
      var err := I2cRead(SeekResult);
      if err < 0 {
        return Err(err);
      }
      var seekres := ToU16(err);
      err := I2cRead(Signal);
      if err < 0 {
        return Err(err);
      }
      var signal := ToU16(err);
      r := Ok(Handlers.TunerReport(seekres, signal));
    }

    /**
     * `rda5807_vidioc_s_frequency`: only radio tuner 0; the frequency is
     * converted from 1/16 kHz to kHz (by the intended conversion) and tuned.
     */
    method SetTunerFrequency(tuner: int, kind: int, frequency: u32) returns (err: int)
      requires Valid()
      modifies this
      ensures Valid() && Outcome(State(), err) == Handlers.SetTunerFrequency(old(State()), tuner, kind, frequency)
    {
      if tuner != 0 {
        return -EINVAL;
      }
      if kind != Handlers.V4L2_TUNER_RADIO {
        return -EINVAL;
      }
      err := SetFrequency(KhzFromSixteenths(frequency));
    }

    /** The chip-ID check of `rda5807_i2c_probe`. */
    method Probe() returns (err: int)
      requires Valid()
      modifies this
      ensures Valid() && Outcome(State(), err) == Handlers.Probe(old(State()))
    {
      var chipid := I2cRead(ChipId);
      err := ChipIdCheck(chipid);
    }
  }
}
