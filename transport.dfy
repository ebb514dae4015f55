/**
 * The I2C register transport as the driver sees it, and the driver's
 * read-modify-write primitive, as functions on a snapshot of the bus.
 *
 * The bus call `i2c_transfer` is not modelled; its results are a script:
 * `replies` lists what the upcoming transfers return (a negative errno, or
 * the number of messages completed), and once it is exhausted every
 * transfer completes all its messages.  The transfer log records every
 * transfer the driver starts, whether or not it succeeds.
 */
module Transport {
  import opened Kernel
  import opened Registers

  /** One `i2c_transfer` call issued by the driver. */
  datatype Xfer =
    | SelectAndRead(code: bv8)   // write the register code, then read two bytes
    | WriteBytes(buf: seq<bv8>)  // one message: register code and value

  /** The chip's registers, the scripted transfer results, and the transfer log. */
  datatype Bus = Bus(regs: map<Reg, bv16>, replies: seq<int>, log: seq<Xfer>)
  {
    ghost predicate Valid() {
      forall r: Reg :: r in regs
    }
  }

  /** A bus snapshot after an operation, with the operation's `int` return value. */
  datatype Outcome = Outcome(bus: Bus, ret: int)

  /** What the next `i2c_transfer` of `count` messages returns. */
  function NextReply(replies: seq<int>, count: nat): int {
    if replies == [] then count else replies[0]
  }

  /** The script left after one transfer. */
  function Rest(replies: seq<int>): (rest: seq<int>)
    ensures replies == [] ==> rest == []
    ensures replies != [] ==> replies == [replies[0]] + rest
  {
    if replies == [] then [] else replies[1..]
  }

  /**
   * How the driver's read and write helpers judge a transfer of `count`
   * messages: a negative result is passed on, fewer messages than requested
   * is -EIO, and otherwise the transfer succeeded (0).
   */
  function TransferStatus(reply: int, count: nat): (st: int)
    ensures st <= 0
    ensures st == 0 <==> reply >= count
    ensures reply < 0 ==> st == reply
    ensures 0 <= reply < count ==> st == -EIO
  {
    if reply < 0 then reply else if reply < count then -EIO else 0
  }

  /** The bus after the two-message transfer that reads `reg`. */
  function AfterRead(b: Bus, reg: Reg): (b': Bus)
    ensures b'.regs == b.regs && b'.replies == Rest(b.replies)
    ensures b'.log == b.log + [SelectAndRead(reg.Code())]
  {
    Bus(b.regs, Rest(b.replies), b.log + [SelectAndRead(reg.Code())])
  }

  /** 0 when the read transfer of the next reply succeeds, otherwise its negative errno. */
  function ReadStatus(b: Bus): (st: int)
    ensures st <= 0
    ensures st == 0 <==> NextReply(b.replies, 2) >= 2
  {
    TransferStatus(NextReply(b.replies, 2), 2)
  }

  /**
   * `rda5807_i2c_read`: one transfer of two messages; the register value on
   * success, otherwise a negative errno.  The registers do not change.
   */
  function Read(b: Bus, reg: Reg): (o: Outcome)
    requires b.Valid()
    ensures o.bus.Valid() && o.bus == AfterRead(b, reg)
    ensures o.ret < 0 <==> NextReply(b.replies, 2) < 2
    ensures o.ret >= 0 ==> o.ret == b.regs[reg] as int
    ensures o.ret < 0 ==> o.ret == ReadStatus(b)
  {
    var st := ReadStatus(b);
    Outcome(AfterRead(b, reg), if st < 0 then st else b.regs[reg] as int)
  }

  /**
   * `rda5807_i2c_write`: one transfer of the three-byte buffer; 0 on success,
   * otherwise a negative errno.  The chip stores the value only when the
   * transfer succeeded.
   */
  function Write(b: Bus, reg: Reg, v: bv16): (o: Outcome)
    requires b.Valid()
    ensures o.bus.Valid()
    ensures o.bus.log == b.log + [WriteBytes(WriteBuffer(reg, v))] && o.bus.replies == Rest(b.replies)
    ensures o.ret <= 0
    ensures o.ret == 0 <==> NextReply(b.replies, 1) >= 1
    ensures o.bus.regs == if o.ret == 0 then b.regs[reg := v] else b.regs
  {
    var st := TransferStatus(NextReply(b.replies, 1), 1);
    Outcome(Bus(if st == 0 then b.regs[reg := v] else b.regs, Rest(b.replies),
                b.log + [WriteBytes(WriteBuffer(reg, v))]),
            st)
  }

  /**
   * `rda5807_update_reg`: read the whole register; on failure return the
   * error; otherwise write `val | (old & ~mask)` back and return the write's
   * result.
   */
  function Update(b: Bus, reg: Reg, mask: bv16, val: bv16): (o: Outcome)
    requires b.Valid()
    ensures o.bus.Valid()
    ensures o.ret <= 0
    ensures |b.log| < |o.bus.log| && o.bus.log[..|b.log|] == b.log
    ensures o.bus.log[|b.log|] == SelectAndRead(reg.Code())
  {
    var st := ReadStatus(b);
    if st < 0 then Outcome(AfterRead(b, reg), st)
    else Write(AfterRead(b, reg), reg, Merge(b.regs[reg], mask, val))
  }
}
