/**
 * Properties of the read-modify-write primitive `rda5807_update_reg`:
 * what it issues on the bus, what it returns, and which register bits it
 * can change.
 */
module ReadModifyWrite {
  import opened Kernel
  import opened Registers
  import opened Transport

  /** The update is the read followed, when it succeeds, by the write of the merged value. */
  lemma UpdateIsReadThenWrite(b: Bus, reg: Reg, mask: bv16, val: bv16)
    requires b.Valid()
    ensures var rd := Read(b, reg);
      Update(b, reg, mask, val) ==
        if rd.ret < 0 then rd else Write(rd.bus, reg, Merge(ToU16(rd.ret), mask, val))
  {
    ToU16OfInt(b.regs[reg]);
  }

  /** A failed read is returned unchanged, and no write is issued. */
  lemma UpdateReadFails(b: Bus, reg: Reg, mask: bv16, val: bv16)
    requires b.Valid() && NextReply(b.replies, 2) < 2
    ensures var o := Update(b, reg, mask, val);
      && o.ret < 0
      && o.ret == ReadStatus(b)
      && o.bus.regs == b.regs
      && o.bus.log == b.log + [SelectAndRead(reg.Code())]
      && o.bus.replies == Rest(b.replies)
  {}

  /**
   * After a successful read exactly one write follows, to the same register,
   * carrying the merge of the value read with `val`; the update returns that
   * write's result.
   */
  lemma UpdateReadSucceeds(b: Bus, reg: Reg, mask: bv16, val: bv16)
    requires b.Valid() && NextReply(b.replies, 2) >= 2
    ensures var o := Update(b, reg, mask, val);
      var v := Merge(b.regs[reg], mask, val);
      && o.bus.log == b.log + [SelectAndRead(reg.Code()), WriteBytes(WriteBuffer(reg, v))]
      && o.ret == TransferStatus(NextReply(Rest(b.replies), 1), 1)
      && o.bus.regs == (if o.ret == 0 then b.regs[reg := v] else b.regs)
      && o.bus.replies == Rest(Rest(b.replies))
  {}

  /**
   * The effect of an update on the registers: nothing changes unless it
   * returns 0, and then only `reg` changes, to the merged value.
   */
  lemma UpdateEffect(b: Bus, reg: Reg, mask: bv16, val: bv16)
    requires b.Valid()
    ensures var o := Update(b, reg, mask, val);
      && o.ret <= 0
      && (o.ret != 0 ==> o.bus.regs == b.regs)
      && (o.ret == 0 ==> o.bus.regs == b.regs[reg := Merge(b.regs[reg], mask, val)])
  {
    if NextReply(b.replies, 2) >= 2 {
      UpdateReadSucceeds(b, reg, mask, val);
    }
  }

  /** An update writes no register other than `reg`. */
  lemma UpdateTouchesOnlyReg(b: Bus, reg: Reg, mask: bv16, val: bv16, r: Reg)
    requires b.Valid() && r != reg
    ensures Update(b, reg, mask, val).bus.regs[r] == b.regs[r]
  {}

  /**
   * With `val` inside `mask`, a successful update keeps every bit of `reg`
   * outside `mask` (a failed one changes no register at all: `UpdateEffect`).
   */
  lemma UpdateKeepsUnmaskedBits(b: Bus, reg: Reg, mask: bv16, val: bv16)
    requires b.Valid() && val & !mask == 0
    ensures var o := Update(b, reg, mask, val);
      o.ret == 0 ==> o.bus.regs[reg] & !mask == b.regs[reg] & !mask
  {
    if ReadStatus(b) == 0 {
      var o := Write(AfterRead(b, reg), reg, Merge(b.regs[reg], mask, val));
      if o.ret == 0 {
        MergeInsideMask(b.regs[reg], mask, val);
      }
    }
  }

  /** With `val` inside `mask`, a successful update leaves `val` in the masked bits of `reg`. */
  lemma UpdateSetsMaskedBits(b: Bus, reg: Reg, mask: bv16, val: bv16)
    requires b.Valid() && val & !mask == 0
    ensures var o := Update(b, reg, mask, val);
      o.ret == 0 ==> o.bus.regs[reg] & mask == val
  {
    if ReadStatus(b) == 0 {
      var o := Write(AfterRead(b, reg), reg, Merge(b.regs[reg], mask, val));
      if o.ret == 0 {
        MergeInsideMask(b.regs[reg], mask, val);
      }
    }
  }
}
