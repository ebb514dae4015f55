/**
 * Conventions of the Linux kernel that the RDA5807 driver relies on:
 * fixed-width unsigned integers, negative errno return codes, and the
 * C conversion of an `int` to a `u16`.
 */
module Kernel {

  /** C `u32`: arithmetic on it wraps modulo 2^32, which callers write out. */
  type u32 = x: int | 0 <= x < 0x1_0000_0000

  const U32_MODULUS: int := 0x1_0000_0000

  /** The errno values the driver returns, negated as the kernel does. */
  const EIO: int := 5
  const ENODEV: int := 19
  const EINVAL: int := 22
  const ERANGE: int := 34

  datatype Option<+T> = None | Some(value: T)

  /** A kernel-style result: a value, or a negative errno. */
  datatype Result<+T> = Ok(value: T) | Err(errno: int)

  /** Shifting a zero bit into the bottom of a 16-bit value that has room for it. */
  lemma ShiftInZero(h: bv16)
    requires h < 0x8000
    ensures (h << 1) as int == 2 * (h as int)
  {}

  /** Shifting a one bit into the bottom of a 16-bit value that has room for it. */
  lemma ShiftInOne(h: bv16)
    requires h < 0x8000
    ensures ((h << 1) | 1) as int == 2 * (h as int) + 1
  {
    assert (h << 1) as int == 2 * (h as int);
    assert (h << 1) | 1 == (h << 1) + 1;
    assert ((h << 1) + 1) as int == (h << 1) as int + 1;
  }

  /**
   * The 16-bit pattern of a number that fits in 16 bits, built one bit at a
   * time from the most significant end.  This is C's conversion of an `int`
   * in 0..0xFFFF to `u16`.
   */
  function U16Of(i: nat): (v: bv16)
    requires i < 0x1_0000
    ensures v as int == i
  {
    if i == 0 then 0
    else
      var high := U16Of(i / 2);
      assert high < 0x8000 by { assert high as int < 0x8000; }
      if i % 2 == 1 then ShiftInOne(high); (high << 1) | 1
      else ShiftInZero(high); high << 1
  }

  /** C's implicit conversion `(u16)x` of any `int`: reduction modulo 2^16. */
  function ToU16(x: int): (v: bv16)
    ensures v as int == x % 0x1_0000
    ensures 0 <= x < 0x1_0000 ==> v as int == x
  {
    assert 0 <= x < 0x1_0000 ==> x % 0x1_0000 == x;
    U16Of(x % 0x1_0000)
  }

  /** Converting a register value to `int` and back gives the value again. */
  lemma ToU16OfInt(v: bv16)
    ensures ToU16(v as int) == v
  {
    var w := ToU16(v as int);
    assert w as int == v as int;
    assert (w as int) as bv16 == w;
    assert (v as int) as bv16 == v;
  }
}
