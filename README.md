# RDA5807 FM tuner: register-control core

A Dafny model of the register-control core of the Linux driver for the
RDA5807 FM receiver (`linux-3.4/drivers/media/radio/radio-rda5807.c`). The
driver turns tuner operations into masked read-modify-write cycles on the
chip's 16-bit registers, which it reaches over I2C. It also decodes the seek
and signal status registers back into the tuner state that V4L2 reports.

The model has these modules:

- `Kernel`: the 32-bit unsigned type, the errno values used (EIO, ENODEV,
  EINVAL, ERANGE) and `Option`/`Result`. It also has the conversion of a
  number to a 16-bit value, which the driver's `(u16)` casts perform.
- `Registers`: the register map, the field masks and shifts,
  and the band limits. It also holds the merge `val | (old & ~mask)` that
  every update writes back, and the big-endian byte layout of a register on
  the bus.
- `Transport`: a snapshot of the bus as a value (`Bus`), with `Read`, `Write`
  and `Update` (`rda5807_update_reg`) as functions on it.
  - `Bus` holds the chip's registers, the results of the coming transfers
    and a log of every transfer issued.
  - The log is what lets the model state that no write was issued.
- `ReadModifyWrite`: what `rda5807_update_reg` issues on the bus, what it
  returns, and which bits it can change.
- `Tuning`: the pure decisions.
  - the channel index for a frequency, and the four-field CHAN value;
  - the mono/stereo/unknown rule, and the RSSI extraction and scaling;
  - the chip-ID test;
  - the conversion from 1/16 kHz to kHz.
- `Setters`: the value each single-field setter hands to the update, and what
  the merge does to its field.
- `Handlers`: the setters, `rda5807_set_frequency`, the control handler
  (`rda5807_s_ctrl`), the tuner query (`rda5807_vidioc_g_tuner`), the
  frequency request (`rda5807_vidioc_s_frequency`) and the probe's chip check,
  as functions on a bus snapshot, with their lemmas.
- `Driver`: the class `Rda5807`. Its fields are the register map, the
  transfer results and the log. Each method carries one driver function out
  step by step: a transfer, a decode, a store. Its `ensures` equates the new
  state and the result with the matching `Transport` or `Handlers` function
  applied to the old state.

`i2c_transfer` is not modelled. Its results are a parameter: a script of
return values, one per transfer. Each is a negative errno or a number of
messages completed. Once the script is used up, every transfer succeeds.
The chip stores a written value when the write transfer succeeds. A read
returns the stored value.

## Model

| member | source | states |
|---|---|---|
| `Kernel.ToU16` | linux-3.4/drivers/media/radio/radio-rda5807.c:162 | the `(u16)` cast keeps the value modulo 2^16, and leaves a value in 0..65535 unchanged |
| `Kernel.U16Of` | linux-3.4/drivers/media/radio/radio-rda5807.c:222-223 | a number below 2^16, such as the channel index, as a 16-bit value of the same magnitude |
| `Kernel.ToU16OfInt` | linux-3.4/drivers/media/radio/radio-rda5807.c:292 | casting a register value that was returned as `int` back to `u16` gives that register value |
| `Registers.RegOfCode` | linux-3.4/drivers/media/radio/radio-rda5807.c:48-56 | the register a code names; no register for a code outside the map |
| `Registers.CodeRoundTrip` | linux-3.4/drivers/media/radio/radio-rda5807.c:48-56 | the seven codes are distinct, so each names its own register |
| `Registers.ChanFieldsDisjoint` | linux-3.4/drivers/media/radio/radio-rda5807.c:69-75 | the WRCHAN, TUNE, BAND and SPACE fields are pairwise disjoint and leave exactly bit 5 uncovered |
| `Registers.MergeBits` | linux-3.4/drivers/media/radio/radio-rda5807.c:162 | inside the mask the merge holds the bits of `val`; outside it the old bits OR any stray bits of `val` |
| `Registers.MergeInsideMask` | linux-3.4/drivers/media/radio/radio-rda5807.c:162 | with `val` inside the mask, the merge replaces exactly the masked bits by `val` |
| `Registers.MergeKeepsOutsideIff` | linux-3.4/drivers/media/radio/radio-rda5807.c:162 | the bits outside the mask survive iff every stray bit of `val` was already set |
| `Registers.BigEndianRoundTrip` | linux-3.4/drivers/media/radio/radio-rda5807.c:117 | decoding the two bytes the chip sends, high byte first, gives back the register value |
| `Registers.BigEndianBytes` | linux-3.4/drivers/media/radio/radio-rda5807.c:123 | a register value travels as exactly two bytes |
| `Registers.FromBigEndian` | linux-3.4/drivers/media/radio/radio-rda5807.c:117 | the decoded value has the first byte as its high byte and the second as its low byte |
| `Registers.WriteBuffer` | linux-3.4/drivers/media/radio/radio-rda5807.c:123 | the write buffer is three bytes: the register code, then the value high byte first |
| `Transport.TransferStatus` | linux-3.4/drivers/media/radio/radio-rda5807.c:112-114 | a negative transfer result is passed on; fewer messages than requested is -EIO; success is 0, exactly when all messages completed |
| `Transport.Read` | linux-3.4/drivers/media/radio/radio-rda5807.c:92-118 | one two-message transfer is logged; the result is the register value on success, else the transfer's error; no register changes |
| `Transport.Write` | linux-3.4/drivers/media/radio/radio-rda5807.c:120-140 | one transfer of the write buffer is logged; the result is 0 iff it completed, and only then does the register take the value |
| `Transport.Update` | linux-3.4/drivers/media/radio/radio-rda5807.c:153-166 | the update returns 0 or a negative error, keeps the earlier log, and its first transfer is the read of `reg` |
| `ReadModifyWrite.UpdateIsReadThenWrite` | linux-3.4/drivers/media/radio/radio-rda5807.c:153-166 | the update is the read; if the read succeeded, it is followed by the write of the merge of `val` into the value read |
| `ReadModifyWrite.UpdateReadFails` | linux-3.4/drivers/media/radio/radio-rda5807.c:160-161 | a failed read is returned unchanged, no write is issued, and no register changes |
| `ReadModifyWrite.UpdateReadSucceeds` | linux-3.4/drivers/media/radio/radio-rda5807.c:160-165 | after a successful read, exactly one write of the merge follows, to the same register, and its result is returned |
| `ReadModifyWrite.UpdateEffect` | linux-3.4/drivers/media/radio/radio-rda5807.c:153-166 | the update returns 0 or a negative error; on error no register changes (given a failed write stores nothing); on 0 only `reg` changes, to the merge |
| `ReadModifyWrite.UpdateTouchesOnlyReg` | linux-3.4/drivers/media/radio/radio-rda5807.c:153-166 | no register other than `reg` changes |
| `ReadModifyWrite.UpdateKeepsUnmaskedBits` | linux-3.4/drivers/media/radio/radio-rda5807.c:162 | with `val` inside `mask`, a successful update keeps every bit of `reg` outside `mask` |
| `ReadModifyWrite.UpdateSetsMaskedBits` | linux-3.4/drivers/media/radio/radio-rda5807.c:162-163 | with `val` inside `mask`, a successful update leaves exactly `val` in the masked bits |
| `Setters.EnableValue` | linux-3.4/drivers/media/radio/radio-rda5807.c:170 | the enable value lies inside the ENABLE bit and sets it iff enabling |
| `Setters.MuteValue` | linux-3.4/drivers/media/radio/radio-rda5807.c:178 | the mute value lies inside DMUTE and sets it iff not muting |
| `Setters.PreemphasisValue` | linux-3.4/drivers/media/radio/radio-rda5807.c:198-199 | the pre-emphasis value lies inside DEEMPHASIS and sets it iff the argument is 50 microseconds |
| `Setters.VolumeValue` | linux-3.4/drivers/media/radio/radio-rda5807.c:187-189 | the volume is passed as a `u16`, unmasked: it is taken modulo 2^16 |
| `Setters.VolumeInField` | linux-3.4/drivers/media/radio/radio-rda5807.c:184-189 | a volume in 0..15 lies inside the DAC volume field and keeps its magnitude |
| `Setters.VolumeMerge` | linux-3.4/drivers/media/radio/radio-rda5807.c:184-189 | for a volume in 0..15 the merge puts the volume in bits 0-3 and keeps the other bits |
| `Setters.VolumeOutOfRangeLeaks` | linux-3.4/drivers/media/radio/radio-rda5807.c:184-189 | the volume 16, outside the control's range, sets bit 4, which is outside the field |
| `Handlers.FieldUpdate` | linux-3.4/drivers/media/radio/radio-rda5807.c:153-166 | with `val` inside `mask`: on success the field holds `val`, the rest of `reg` is kept and no other register changes; on error nothing changes (given a failed write stores nothing) |
| `Handlers.SetEnable` | linux-3.4/drivers/media/radio/radio-rda5807.c:168-174 | returns 0 or a negative error; the earlier log is kept and the first new transfer is the read of CTRL |
| `Handlers.SetMute` | linux-3.4/drivers/media/radio/radio-rda5807.c:176-182 | returns 0 or a negative error; the earlier log is kept and the first new transfer is the read of CTRL |
| `Handlers.SetVolume` | linux-3.4/drivers/media/radio/radio-rda5807.c:184-190 | returns 0 or a negative error; the earlier log is kept and the first new transfer is the read of register 0x05 |
| `Handlers.SetPreemphasis` | linux-3.4/drivers/media/radio/radio-rda5807.c:192-200 | returns 0 or a negative error; the earlier log is kept and the first new transfer is the read of IOCFG |
| `Handlers.SetEnableEffect` | linux-3.4/drivers/media/radio/radio-rda5807.c:168-174 | `set_enable` sets CTRL bit 0 iff enabling, and changes no other bit or register |
| `Handlers.SetMuteEffect` | linux-3.4/drivers/media/radio/radio-rda5807.c:176-182 | `set_mute(m)` sets CTRL bit 14 iff `!m`, and changes no other bit or register |
| `Handlers.SetPreemphasisEffect` | linux-3.4/drivers/media/radio/radio-rda5807.c:192-200 | `set_preemphasis` sets IOCFG bit 11 iff the argument is 50 microseconds, and nothing else |
| `Handlers.SetVolumeEffect` | linux-3.4/drivers/media/radio/radio-rda5807.c:184-190 | `set_volume(v)` for 0 <= v <= 15 writes `v` to bits 0-3 of register 0x05, and changes no other bit or register |
| `Handlers.SetEnableExample` | linux-3.4/drivers/media/radio/radio-rda5807.c:168-174 | enabling with CTRL at 0 reads CTRL and then writes the buffer [0x02, 0x00, 0x01] |
| `Handlers.SetFrequency` | linux-3.4/drivers/media/radio/radio-rda5807.c:202-229 | returns 0 or a negative error and keeps the earlier log; in band the first new transfer is the read of CHAN |
| `Handlers.SetFrequencyOutOfBand` | linux-3.4/drivers/media/radio/radio-rda5807.c:209-212 | a frequency is rejected with -ERANGE and no bus access iff it is outside 76000..108000 kHz |
| `Handlers.SetFrequencyEffect` | linux-3.4/drivers/media/radio/radio-rda5807.c:214-228 | after a successful tune, CHAN holds the channel value with only bit 5 kept; on error no register changes (given a failed write stores nothing) |
| `Handlers.FirstError` | linux-3.4/drivers/media/radio/radio-rda5807.c:248 | the first error wins; the result is 0 iff both steps returned 0 |
| `Handlers.SetControl` | linux-3.4/drivers/media/radio/radio-rda5807.c:236-257 | returns 0 or a negative error and only appends to the log |
| `Handlers.MuteControlCtrlBits` | linux-3.4/drivers/media/radio/radio-rda5807.c:241-249 | the enable merge and then the mute merge make ENABLE and DMUTE both follow "not muted", and keep the other CTRL bits |
| `Handlers.MuteControlSequence` | linux-3.4/drivers/media/radio/radio-rda5807.c:246-248 | the log starts with the read of CTRL for enable(!muted) and, after that update's transfers, a second read of CTRL for mute(muted), issued even when the first update failed; the first error is returned, otherwise the second update's result |
| `Handlers.MuteControlSucceeded` | linux-3.4/drivers/media/radio/radio-rda5807.c:246-248 | the mute control returns 0 iff both updates succeeded |
| `Handlers.MuteControlEffect` | linux-3.4/drivers/media/radio/radio-rda5807.c:241-249 | when the mute control returns 0, CTRL holds both merges and no other register changed |
| `Handlers.UnknownControl` | linux-3.4/drivers/media/radio/radio-rda5807.c:254-255 | any other control id is -EINVAL, with no bus access |
| `Handlers.TunerReport` | linux-3.4/drivers/media/radio/radio-rda5807.c:308-320 | both conversions take the reported range limits back to 76000 and 108000 kHz; the sub-channels are stereo, mono or both exactly when the stereo indicator is set, clear or unknown; the strength is SIGNAL with its low nine bits cleared |
| `Handlers.GetTuner` | linux-3.4/drivers/media/radio/radio-rda5807.c:278-323 | no register changes and the earlier log is kept; an error is negative; a report is given only for index 0, after exactly two transfers |
| `Handlers.GetTunerResult` | linux-3.4/drivers/media/radio/radio-rda5807.c:289-322 | SEEK_RESULT is read, then SIGNAL; the first failed read is returned and nothing more is read; otherwise the report is built from the two register values; no register changes |
| `Handlers.GetTunerOtherIndex` | linux-3.4/drivers/media/radio/radio-rda5807.c:286-287 | any tuner index but 0 is -EINVAL, with no bus access |
| `Handlers.SetTunerFrequencyAsWritten` | linux-3.4/drivers/media/radio/radio-rda5807.c:325-336 | returns 0 or a negative error and only appends to the log |
| `Handlers.SetTunerFrequency` | linux-3.4/drivers/media/radio/radio-rda5807.c:325-336 | returns 0 or a negative error and only appends to the log |
| `Handlers.SetTunerFrequencyAgrees` | linux-3.4/drivers/media/radio/radio-rda5807.c:335 | below (108000+1)*16 the conversion as written and the intended one give the same request |
| `Handlers.SetTunerFrequencyAboveBand` | linux-3.4/drivers/media/radio/radio-rda5807.c:330-335 | with the intended conversion, every frequency above band is -ERANGE, with no bus access |
| `Handlers.SetTunerFrequencyOverflow` | linux-3.4/drivers/media/radio/radio-rda5807.c:335 | as written, 8087948/16 kHz tunes channel 0; the intended conversion rejects it |
| `Handlers.Probe` | linux-3.4/drivers/media/radio/radio-rda5807.c:351-360 | the chip check issues exactly one read, of CHIPID |
| `Handlers.ProbeResult` | linux-3.4/drivers/media/radio/radio-rda5807.c:351-360 | a failed read is returned; otherwise the chip is accepted (0) iff CHIPID is in 0x5800..0x58FF, and any other ID is -ENODEV |
| `Tuning.ChannelIndex` | linux-3.4/drivers/media/radio/radio-rda5807.c:222-223 | in band the index is at most 640, so it fits the 10-bit WRCHAN field, and its channel lies within 25 kHz of the frequency |
| `Tuning.ChannelIsNearest` | linux-3.4/drivers/media/radio/radio-rda5807.c:222-223 | no channel is closer to the frequency than the selected one |
| `Tuning.HalfwayRoundsUp` | linux-3.4/drivers/media/radio/radio-rda5807.c:222 | a frequency exactly halfway between two channels selects the upper one |
| `Tuning.ChannelRoundTrip` | linux-3.4/drivers/media/radio/radio-rda5807.c:222 | every channel 0..640 is in band and is selected by its own frequency |
| `Tuning.ChanFields` | linux-3.4/drivers/media/radio/radio-rda5807.c:214-226 | a CHAN value built from a 10-bit number lies inside the mask and carries that number, band 2, spacing 2 and TUNE |
| `Tuning.ChanValue` | linux-3.4/drivers/media/radio/radio-rda5807.c:214-226 | the CHAN value lies inside the CHAN mask and sets TUNE |
| `Tuning.ChanValueFields` | linux-3.4/drivers/media/radio/radio-rda5807.c:214-226 | the CHAN value for an index lies inside the mask 0xFFDF, and its WRCHAN field reads back as the index |
| `Tuning.ChanMergeKeepsOnlyBit5` | linux-3.4/drivers/media/radio/radio-rda5807.c:214-228 | the mask is 0xFFDF, so the written value is the CHAN value plus bit 5 of the old CHAN |
| `Tuning.ChanExample` | linux-3.4/drivers/media/radio/radio-rda5807.c:214-228 | 100000 kHz is index 480, written as 0x781A plus the old bit 5 |
| `Tuning.CompleteAndNotFailed` | linux-3.4/drivers/media/radio/radio-rda5807.c:293-295 | the masked comparison holds iff COMPLETE is set and FAIL is clear |
| `Tuning.RxSubchans` | linux-3.4/drivers/media/radio/radio-rda5807.c:293-301 | the reported sub-channels are mono (1), stereo (2) or both (3) |
| `Tuning.RxSubchansDecode` | linux-3.4/drivers/media/radio/radio-rda5807.c:293-301 | stereo iff the indicator is known and set; mono iff known and clear; mono and stereo together iff unknown |
| `Tuning.RxSubchansExamples` | linux-3.4/drivers/media/radio/radio-rda5807.c:293-301 | 0x4400 is stereo, 0x4000 mono, and 0x6400 unknown |
| `Tuning.Rssi` | linux-3.4/drivers/media/radio/radio-rda5807.c:306 | the RSSI is in 0..127 |
| `Tuning.RssiIsTopBits` | linux-3.4/drivers/media/radio/radio-rda5807.c:306 | the RSSI is SIGNAL divided by 512 |
| `Tuning.ReportedSignal` | linux-3.4/drivers/media/radio/radio-rda5807.c:318 | the reported strength is a multiple of 512, at most 65024 |
| `Tuning.ReportedSignalClearsLowBits` | linux-3.4/drivers/media/radio/radio-rda5807.c:306-318 | the reported strength is SIGNAL with its low nine bits cleared |
| `Tuning.SignalExample` | linux-3.4/drivers/media/radio/radio-rda5807.c:306-318 | SIGNAL 0x1E00 has RSSI 15 and is reported as 7680 |
| `Tuning.HighByte58` | linux-3.4/drivers/media/radio/radio-rda5807.c:356 | the high byte is 0x58 iff the value is in 0x5800..0x58FF |
| `Tuning.ChipIdCheck` | linux-3.4/drivers/media/radio/radio-rda5807.c:351-360 | the check returns 0 or a negative error; a failed read is passed on; any ID read gives 0 or -ENODEV |
| `Tuning.ChipIdAccepted` | linux-3.4/drivers/media/radio/radio-rda5807.c:351-360 | a negative read result is passed on; a chip ID is accepted iff it is in 0x5800..0x58FF, and otherwise the result is -ENODEV |
| `Tuning.ChipIdExamples` | linux-3.4/drivers/media/radio/radio-rda5807.c:351-360 | 0x5841 is accepted and 0x1234 is -ENODEV |
| `Tuning.KhzFromSixteenths` | linux-3.4/drivers/media/radio/radio-rda5807.c:335 | the intended conversion: the kHz value rounded down, `16k <= f < 16k + 16` |
| `Tuning.KhzAsWritten` | linux-3.4/drivers/media/radio/radio-rda5807.c:335 | the conversion as written never exceeds 429496 kHz, because the product is taken modulo 2^32 |
| `Tuning.ConversionWithoutOverflow` | linux-3.4/drivers/media/radio/radio-rda5807.c:335 | while `f * 625` fits in 32 bits, the conversion as written equals `f / 16` |
| `Tuning.ConversionInBand` | linux-3.4/drivers/media/radio/radio-rda5807.c:335 | every frequency whose kHz value can be in band converts without wrap-around |
| `Tuning.ConversionOverflowExample` | linux-3.4/drivers/media/radio/radio-rda5807.c:335 | 8087948 wraps to the in-band 76000 kHz, while the intended 505496 kHz is out of band |
| `Driver.Rda5807.Transfer` | linux-3.4/drivers/media/radio/radio-rda5807.c:112 | a transfer consumes one scripted result and logs itself; it changes no register |
| `Driver.Rda5807.I2cRead` | linux-3.4/drivers/media/radio/radio-rda5807.c:92-118 | the new state and the result are those of `Transport.Read` |
| `Driver.Rda5807.I2cWrite` | linux-3.4/drivers/media/radio/radio-rda5807.c:120-140 | the new state and the result are those of `Transport.Write` |
| `Driver.Rda5807.UpdateReg` | linux-3.4/drivers/media/radio/radio-rda5807.c:153-166 | the new state and the result are those of `Transport.Update` |
| `Driver.Rda5807.SetEnable` | linux-3.4/drivers/media/radio/radio-rda5807.c:168-174 | agrees with `Handlers.SetEnable` |
| `Driver.Rda5807.SetMute` | linux-3.4/drivers/media/radio/radio-rda5807.c:176-182 | agrees with `Handlers.SetMute` |
| `Driver.Rda5807.SetVolume` | linux-3.4/drivers/media/radio/radio-rda5807.c:184-190 | agrees with `Handlers.SetVolume` |
| `Driver.Rda5807.SetPreemphasis` | linux-3.4/drivers/media/radio/radio-rda5807.c:192-200 | agrees with `Handlers.SetPreemphasis` |
| `Driver.Rda5807.SetFrequency` | linux-3.4/drivers/media/radio/radio-rda5807.c:202-229 | the mask and value built with successive ORs are `CHAN_MASK` and the CHAN value; agrees with `Handlers.SetFrequency` |
| `Driver.Rda5807.SetControl` | linux-3.4/drivers/media/radio/radio-rda5807.c:236-257 | agrees with `Handlers.SetControl` |
| `Driver.Rda5807.GetTuner` | linux-3.4/drivers/media/radio/radio-rda5807.c:278-323 | agrees with `Handlers.GetTuner` |
| `Driver.Rda5807.SetTunerFrequency` | linux-3.4/drivers/media/radio/radio-rda5807.c:325-336 | agrees with `Handlers.SetTunerFrequency` (the intended conversion) |
| `Driver.Rda5807.Probe` | linux-3.4/drivers/media/radio/radio-rda5807.c:344-360 | agrees with `Handlers.Probe` |

## Left out

- `i2c_transfer` and the I2C message structures: a call into the kernel's I2C core. Each transfer's result is a scripted input. The chip side is reduced to "store on a successful write, return the stored value on a read".
- The chip's own behaviour:
  - status registers changing by themselves (seek completion, RSSI);
  - soft reset;
  - read-only registers.
  A write stores any value in any register of the map.
- Logging (`dev_info`, `dev_warn`): no effect on behaviour.
- Locking around `rda5807_update_reg`: the model is sequential, so the lost-update race between two concurrent updates is not represented.
- The rest of `rda5807_i2c_probe` after the chip-ID check: allocation, control-handler setup, video device registration and their unwinding.
  - `Handlers.Probe` returns 0 where the driver goes on to those steps.
  - `rda5807_i2c_remove` is left out as well.
- `rda5807_vidioc_g_audio`, the file and ioctl operation tables, module init/exit and driver registration: V4L2 and driver-core glue with no register logic.
- The power-management hooks `rda5807_suspend` and `rda5807_resume`. Resume reads the mute control through the V4L2 control framework, which is not part of this model.
- The `v4l2_tuner` fields that `g_tuner` leaves zero (reserved words), and the `int` return values, which are unbounded here. Every value the driver returns fits in an `int`.
- `Transport.Write`: the chip is taken not to store a value whose write transfer failed. A real chip may latch the bytes before the failure is reported. The failure cases of `ReadModifyWrite.UpdateEffect`, `Handlers.FieldUpdate`, `Handlers.SetEnableEffect`, `Handlers.SetMuteEffect`, `Handlers.SetPreemphasisEffect`, `Handlers.SetVolumeEffect` and `Handlers.SetFrequencyEffect` ("on error no register changes") rest on this. Without it, they hold only for a failed read.
- `ReadModifyWrite.UpdateKeepsUnmaskedBits`: states the success case only. On failure no register changes, and `ReadModifyWrite.UpdateEffect` states that. A single lemma covering both cases is too costly for the solver.
- `Handlers.MuteControlEffect`: states the CTRL register after a successful mute control as the two merges. The bit-level consequences are proved separately, on register values, by `Handlers.MuteControlCtrlBits`.
- `Driver.Rda5807.SetTunerFrequency`: uses the intended conversion `f / 16`, not the 32-bit product as written (see Findings). The two agree below (108000+1)*16 (`Handlers.SetTunerFrequencyAgrees`).

## Findings

| source | as written | input that shows it | evidently intended | confidence | as-written member | corrected member |
|---|---|---|---|---|---|---|
| linux-3.4/drivers/media/radio/radio-rda5807.c:335 | the frequency in 1/16 kHz is multiplied by 625 in 32-bit unsigned arithmetic, then divided by 10000, so the product wraps for every frequency of at least 6871948 | frequency 8087948 (about 505 MHz) becomes 76000 kHz; the driver accepts it and tunes channel 0 instead of returning -ERANGE | the frequency divided by 16 (625/10000 = 1/16), which rejects it | not executed | `Handlers.SetTunerFrequencyOverflow` | `Driver.Rda5807.SetTunerFrequency` |
