/** Fixed-width integers of the emulator and the bitwise operations Rust
    performs on `u8`, defined bit by bit on naturals. */
module Words {

  /** Rust's `u8`, `u16` and (64-bit) `usize`. */
  type u8 = x: int | 0 <= x < 0x100
  type u16 = x: int | 0 <= x < 0x1_0000
  type usize = x: int | 0 <= x < 0x1_0000_0000_0000_0000

  /** `Result<T, String>` of the source. The message is diagnostic text only,
      so a failure carries nothing. */
  datatype Result<T> = Ok(value: T) | Err

  function Pow2(k: nat): (p: nat)
    ensures p >= 1
  {
    if k == 0 then 1 else 2 * Pow2(k - 1)
  }

  /** Bitwise or of the low `width` bits: the lowest bit of the result is set
      when either lowest bit is, the rest is the or of the halves. */
  function Or(a: nat, b: nat, width: nat): (r: nat)
    requires a < Pow2(width) && b < Pow2(width)
    ensures r < Pow2(width)
    ensures a <= r && b <= r
    decreases width
  {
    if width == 0 then 0
    else 2 * Or(a / 2, b / 2, width - 1) + (if a % 2 == 1 || b % 2 == 1 then 1 else 0)
  }

  /** Bitwise and of the low `width` bits. */
  function And(a: nat, b: nat, width: nat): (r: nat)
    requires a < Pow2(width) && b < Pow2(width)
    ensures r <= a && r <= b
    decreases width
  {
    if width == 0 then 0
    else 2 * And(a / 2, b / 2, width - 1) + (if a % 2 == 1 && b % 2 == 1 then 1 else 0)
  }

  /** Bitwise exclusive or of the low `width` bits. */
  function Xor(a: nat, b: nat, width: nat): (r: nat)
    requires a < Pow2(width) && b < Pow2(width)
    ensures r < Pow2(width)
    ensures r == 0 <==> a == b
    decreases width
  {
    if width == 0 then 0
    else 2 * Xor(a / 2, b / 2, width - 1) + (if a % 2 != b % 2 then 1 else 0)
  }

  /** `a | b`, `a & b`, `a ^ b` on `u8`. */
  function BitOr(a: u8, b: u8): u8 { Or(a, b, ByteWidth()) }
  function BitAnd(a: u8, b: u8): u8 { And(a, b, ByteWidth()) }
  function BitXor(a: u8, b: u8): u8 { Xor(a, b, ByteWidth()) }

  /** The number of bits of a `u8`. */
  function ByteWidth(): (w: nat)
    ensures Pow2(w) == 0x100
  {
    8
  }

  /** `a >> 1` and `a << 1` on `u8`: a logical shift, the bit shifted out is lost. */
  function ShiftRight1(a: u8): u8 { a / 2 }
  function ShiftLeft1(a: u8): u8 { (a * 2) % 0x100 }

  /** `a.wrapping_sub(b)` on `u8`. */
  function WrappingSub(a: u8, b: u8): (r: u8)
    ensures (r + b) % 0x100 == a
  {
    if a >= b then a - b else a - b + 0x100
  }

  /** Masking with 1 keeps the lowest bit. */
  lemma {:induction false} AndLowBit(a: nat, width: nat)
    requires 1 <= width && a < Pow2(width)
    ensures And(a, 1, width) == a % 2
  {
    assert And(a / 2, 0, width - 1) == 0;
  }

  /** Masking with the top bit of the width keeps exactly that bit. */
  lemma {:induction false} AndTopBitOf(a: nat, width: nat)
    requires 1 <= width && a < Pow2(width)
    ensures And(a, Pow2(width - 1), width) == if a >= Pow2(width - 1) then Pow2(width - 1) else 0
    decreases width
  {
    if width == 1 {
      AndLowBit(a, width);
    } else {
      AndTopBitOf(a / 2, width - 1);
    }
  }

  /** Masking a `u8` with 0x80 yields 0x80 exactly when its top bit is set. */
  lemma AndTopBit(a: u8)
    ensures BitAnd(a, 0x80) == if a >= 0x80 then 0x80 else 0
  {
    AndTopBitOf(a, ByteWidth());
  }

  /** Masking a `u8` with 0x01 yields its lowest bit. */
  lemma AndOne(a: u8)
    ensures BitAnd(a, 0x01) == a % 2
  {
    AndLowBit(a, ByteWidth());
  }

  /** Exclusive or with the same operand twice gives the first operand back. */
  lemma {:induction false} XorTwice(a: nat, b: nat, width: nat)
    requires a < Pow2(width) && b < Pow2(width)
    ensures Xor(Xor(a, b, width), b, width) == a
    decreases width
  {
    if width > 0 {
      XorTwice(a / 2, b / 2, width - 1);
      var r := Xor(a, b, width);
      assert r / 2 == Xor(a / 2, b / 2, width - 1);
      assert r % 2 == if a % 2 != b % 2 then 1 else 0;
    }
  }
}
