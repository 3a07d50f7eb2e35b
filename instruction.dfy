/** Decoding of 16-bit CHIP-8 instruction words into their fields. */
module Decoding {
  import opened Words

  /** The fields of one instruction word, as the source keeps them: the
      family `itype` (top nibble), `x` (low nibble of the high byte), `y`
      (high nibble of the low byte), `n` (lowest nibble), `kk` (low byte) and
      `nnn` (low 12 bits). The datatype's destructors are the source's field
      accessors. */
  datatype Instruction = Instruction(itype: u8, n: u8, x: u8, y: u8, kk: u8, nnn: u16)
  {
    /** The fields are consistent with one 16-bit word: every nibble is below
        16, `kk` is `y` and `n` side by side, `nnn` is `x` and `kk`. */
    ghost predicate Valid()
    {
      itype < 16 && x < 16 && y < 16 && n < 16 &&
      kk == y * 0x10 + n && nnn == x * 0x100 + kk
    }
  }

  /** Splits a word into its fields. Each mask-and-shift of the source is
      written as the division and remainder it computes on an unsigned word. */
  function Decode(data: u16): (r: Instruction)
    ensures r.Valid()
    ensures data == r.itype * 0x1000 + r.nnn
    ensures r.itype == data / 0x1000
    ensures r.kk == data % 0x100 && r.n == data % 0x10
  {
    FieldArithmetic(data);
    Instruction(
      itype := data / 0x1000,
      n := data % 0x10,
      x := data / 0x100 % 0x10,
      y := data / 0x10 % 0x10,
      kk := data % 0x100,
      nnn := data % 0x1000)
  }

  /** How the nibble and byte fields of a word nest inside each other. */
  lemma FieldArithmetic(data: u16)
    ensures data / 0x100 % 0x10 == data % 0x1000 / 0x100
    ensures data % 0x1000 % 0x100 == data % 0x100
    ensures data % 0x100 / 0x10 == data / 0x10 % 0x10
    ensures data % 0x100 % 0x10 == data % 0x10
  {
    var hi, lo := data / 0x1000, data % 0x1000;
    assert data == (hi * 0x10) * 0x100 + lo;
    Shift(hi * 0x10, lo, 0x100);
    Shift(hi, lo / 0x100, 0x10);
    var a, b := data / 0x100, data % 0x100;
    assert data == (a * 0x10) * 0x10 + b;
    Shift(a * 0x10, b, 0x10);
    Shift(a, b / 0x10, 0x10);
  }

  /** Adding whole multiples of a digit's weight moves only the quotient. */
  lemma Shift(k: nat, lo: nat, d: nat)
    requires d == 0x10 || d == 0x100 || d == 0x1000
    ensures (k * d + lo) / d == k + lo / d && (k * d + lo) % d == lo % d
    ensures lo < d ==> (k * d + lo) / d == k && (k * d + lo) % d == lo
  {
  }

  /** The word whose fields `ins` holds: the family above the 12-bit operand. */
  function Encode(ins: Instruction): (w: u16)
    requires ins.Valid()
    ensures w / 0x1000 == ins.itype && w % 0x1000 == ins.nnn
  {
    ins.itype * 0x1000 + ins.nnn
  }

  /** Decoding loses nothing: the word is rebuilt from its fields. */
  lemma EncodeDecode(data: u16)
    ensures Encode(Decode(data)) == data
  {
  }

  /** Every consistent set of fields is the decoding of exactly one word. */
  lemma DecodeEncode(ins: Instruction)
    requires ins.Valid()
    ensures Decode(Encode(ins)) == ins
  {
    var w := Encode(ins);
    FieldArithmetic(w);
    Shift(ins.itype, ins.nnn, 0x1000);
    Shift(ins.x, ins.kk, 0x100);
    Shift(ins.y, ins.n, 0x10);
  }

  /** Two different words never decode to the same instruction. */
  lemma DecodeInjective(a: u16, b: u16)
    requires Decode(a) == Decode(b)
    ensures a == b
  {
    EncodeDecode(a);
    EncodeDecode(b);
  }
}
