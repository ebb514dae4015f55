/**
 * The register map of the RDA5807 in random-access mode: register codes,
 * field masks and shifts, the masked merge that every register update
 * writes back, and the byte layout of a register on the I2C bus.
 */
module Registers {
  import opened Kernel

  /** The registers the driver touches, with their codes in the chip's map. */
  datatype Reg = ChipId | Ctrl | Chan | IoCfg | IntmThreshVol | SeekResult | Signal
  {
    function Code(): bv8 {
      match this
      case ChipId => 0x00
      case Ctrl => 0x02
      case Chan => 0x03
      case IoCfg => 0x04
      case IntmThreshVol => 0x05
      case SeekResult => 0x0A
      case Signal => 0x0B
    }
  }

  /** How the chip resolves the register code sent as a transfer's first byte. */
  function RegOfCode(c: bv8): (r: Option<Reg>)
    ensures r.Some? ==> r.value.Code() == c
    ensures r.None? ==> forall reg: Reg :: reg.Code() != c
  {
    if c == 0x00 then Some(ChipId)
    else if c == 0x02 then Some(Ctrl)
    else if c == 0x03 then Some(Chan)
    else if c == 0x04 then Some(IoCfg)
    else if c == 0x05 then Some(IntmThreshVol)
    else if c == 0x0A then Some(SeekResult)
    else if c == 0x0B then Some(Signal)
    else None
  }

  /** No two registers share a code, so the chip finds the register the driver named. */
  lemma CodeRoundTrip(reg: Reg)
    ensures RegOfCode(reg.Code()) == Some(reg)
  {}

  // CTRL (0x02)
  const CTRL_DHIZ: bv16 := 1 << 15
  const CTRL_DMUTE: bv16 := 1 << 14
  const CTRL_MONO: bv16 := 1 << 13
  const CTRL_BASS: bv16 := 1 << 12
  const CTRL_SEEKUP: bv16 := 1 << 9
  const CTRL_SEEK: bv16 := 1 << 8
  const CTRL_SKMODE: bv16 := 1 << 7
  const CTRL_CLKMODE: bv16 := 7 << 4
  const CTRL_SOFTRESET: bv16 := 1 << 1
  const CTRL_ENABLE: bv16 := 1 << 0

  // CHAN (0x03)
  const SHIFT_CHAN_WRCHAN: bv16 := 6
  const CHAN_WRCHAN: bv16 := 0x3FF << SHIFT_CHAN_WRCHAN
  const CHAN_TUNE: bv16 := 1 << 4
  const SHIFT_CHAN_BAND: bv16 := 2
  const CHAN_BAND: bv16 := 0x3 << SHIFT_CHAN_BAND
  const SHIFT_CHAN_SPACE: bv16 := 0
  const CHAN_SPACE: bv16 := 0x3 << SHIFT_CHAN_SPACE

  // SEEK_RESULT (0x0A)
  const SEEKRES_COMPLETE: bv16 := 1 << 14
  const SEEKRES_FAIL: bv16 := 1 << 13
  const SEEKRES_STEREO: bv16 := 1 << 10

  // IOCFG (0x04)
  const DEEMPHASIS: bv16 := 1 << 11

  // INTM_THRESH_VOL (0x05)
  const SHIFT_VOLUME_DAC: bv16 := 0
  const VOLUME_DAC: bv16 := 0xF << SHIFT_VOLUME_DAC

  // SIGNAL (0x0B)
  const SHIFT_RSSI: bv16 := 9
  const RSSI: bv16 := 0x7F << SHIFT_RSSI

  // Band limits, in kHz
  const FREQ_MIN_KHZ: int := 76000
  const FREQ_MAX_KHZ: int := 108000

  /** The four CHAN fields are pairwise disjoint, and bit 5 belongs to none of them. */
  lemma ChanFieldsDisjoint()
    ensures CHAN_WRCHAN & CHAN_TUNE == 0 && CHAN_WRCHAN & CHAN_BAND == 0 && CHAN_WRCHAN & CHAN_SPACE == 0
    ensures CHAN_TUNE & CHAN_BAND == 0 && CHAN_TUNE & CHAN_SPACE == 0 && CHAN_BAND & CHAN_SPACE == 0
    ensures !(CHAN_WRCHAN | CHAN_TUNE | CHAN_BAND | CHAN_SPACE) == 0x0020
  {}

  /**
   * The value a read-modify-write puts back: the caller's `val` OR'd onto the
   * bits of the current value `cur` that lie outside `mask`.  `val` itself is
   * not masked, so any of its bits outside `mask` are set as well.
   */
  function Merge(cur: bv16, mask: bv16, val: bv16): bv16 {
    val | (cur & !mask)
  }

  /**
   * What a merge holds: inside the mask exactly the bits of `val`; outside it
   * the old bits together with any stray bits of `val`.
   */
  lemma MergeBits(cur: bv16, mask: bv16, val: bv16)
    ensures Merge(cur, mask, val) & mask == val & mask
    ensures Merge(cur, mask, val) & !mask == (cur | val) & !mask
  {}

  /** A value kept inside its mask replaces exactly the masked bits. */
  lemma MergeInsideMask(cur: bv16, mask: bv16, val: bv16)
    requires val & !mask == 0
    ensures Merge(cur, mask, val) & !mask == cur & !mask
    ensures Merge(cur, mask, val) & mask == val
  {}

  /**
   * The bits outside the mask survive unchanged exactly when every stray bit
   * of `val` outside the mask was already set in the current value.
   */
  lemma MergeKeepsOutsideIff(cur: bv16, mask: bv16, val: bv16)
    ensures Merge(cur, mask, val) & !mask == cur & !mask <==> val & !mask & !cur == 0
  {}

  /** A register value as the chip sends and receives it: high byte first. */
  function BigEndianBytes(v: bv16): (b: seq<bv8>)
    ensures |b| == 2
  {
    [(v >> 8) as bv8, (v & 0xFF) as bv8]
  }

  /** `be16_to_cpu`: two bytes, high byte first, read as a 16-bit value. */
  function FromBigEndian(hi: bv8, lo: bv8): (v: bv16)
    ensures (v >> 8) as bv8 == hi && (v & 0xFF) as bv8 == lo
  {
    ((hi as bv16) << 8) | (lo as bv16)
  }

  /** Decoding what the chip sends gives back the register value. */
  lemma BigEndianRoundTrip(v: bv16)
    ensures FromBigEndian(BigEndianBytes(v)[0], BigEndianBytes(v)[1]) == v
  {}

  /** The three-byte buffer of a register write: the register code, then the value. */
  function WriteBuffer(reg: Reg, v: bv16): (buf: seq<bv8>)
    ensures |buf| == 3 && buf[0] == reg.Code()
    ensures FromBigEndian(buf[1], buf[2]) == v
  {
    [reg.Code()] + BigEndianBytes(v)
  }
}
