/**
 * The mask and value each single-field setter hands to the
 * read-modify-write, and what the merge does to the register field.
 */
module Setters {
  import opened Kernel
  import opened Registers

  const V4L2_PREEMPHASIS_50_uS: int := 1

  /** `rda5807_set_enable`'s value: the ENABLE bit when enabling, else nothing. */
  function EnableValue(enabled: bool): (v: bv16)
    ensures v & !CTRL_ENABLE == 0
    ensures v & CTRL_ENABLE != 0 <==> enabled
  {
    if enabled then CTRL_ENABLE else 0
  }

  /** `rda5807_set_mute`'s value: DMUTE (mute disabled) unless muting. */
  function MuteValue(muted: bool): (v: bv16)
    ensures v & !CTRL_DMUTE == 0
    ensures v & CTRL_DMUTE != 0 <==> !muted
  {
    if muted then 0 else CTRL_DMUTE
  }

  /** `rda5807_set_preemphasis`'s value: DEEMPHASIS exactly for 50 microseconds. */
  function PreemphasisValue(preemp: int): (v: bv16)
    ensures v & !DEEMPHASIS == 0
    ensures v & DEEMPHASIS != 0 <==> preemp == V4L2_PREEMPHASIS_50_uS
  {
    if preemp == V4L2_PREEMPHASIS_50_uS then DEEMPHASIS else 0
  }

  /**
   * `rda5807_set_volume`'s value: the `int` volume shifted by 0 and passed
   * as a `u16`, so it is taken modulo 2^16 and not masked (the shift is by
   * 0, so truncating first gives the same value).
   */
  function VolumeValue(volume: int): (v: bv16)
    ensures v as int == volume % 0x1_0000
  {
    ToU16(volume) << SHIFT_VOLUME_DAC
  }

  /** A volume in the control's range 0..15 lies inside the DAC volume field. */
  lemma VolumeInField(volume: int)
    requires 0 <= volume <= 15
    ensures VolumeValue(volume) & !VOLUME_DAC == 0
    ensures VolumeValue(volume) as int == volume
  {
    var v := VolumeValue(volume);
    assert v < 16 by { assert v as int < 16; }
  }

  /** A volume in range sets the DAC field to itself and keeps the other twelve bits. */
  lemma VolumeMerge(cur: bv16, volume: int)
    requires 0 <= volume <= 15
    ensures (Merge(cur, VOLUME_DAC, VolumeValue(volume)) & VOLUME_DAC) as int == volume
    ensures Merge(cur, VOLUME_DAC, VolumeValue(volume)) & !VOLUME_DAC == cur & !VOLUME_DAC
  {
    VolumeInField(volume);
    MergeInsideMask(cur, VOLUME_DAC, VolumeValue(volume));
  }

  /** A volume of 16, outside the control's range, sets bit 4, outside the field. */
  lemma VolumeOutOfRangeLeaks()
    ensures VolumeValue(16) == 0x10
    ensures Merge(0, VOLUME_DAC, VolumeValue(16)) == 0x10
  {
    assert VolumeValue(16) == 0x10 by { assert VolumeValue(16) as int == 16; }
  }
}
