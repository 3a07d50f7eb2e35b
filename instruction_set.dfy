/** Properties of the instruction set as `execute` implements it, proved
    about the functions of module Opcodes. */
module InstructionSet {
  import opened Words
  import opened Decoding
  import opened Opcodes
  import MemoryUnit

  /** The state `init` creates has sixteen zero registers, starts at 0x200
      with nothing on the stack, and both timers at 60. */
  lemma BootState()
    ensures Machine(Boot, []).Valid()
    ensures forall k :: 0 <= k < 16 ==> Boot.reg[k] == 0
    ensures Boot.pc == MemoryUnit.RomStart && Boot.i == 0 && Boot.sp == 0
    ensures Boot.dt == 60 && Boot.st == 60
  {
  }

  /** 1nnn and Bnnn replace the program counter and nothing else; Bnnn adds
      V0, so its target can pass 0xFFF but stays well inside `u16`. */
  lemma Jumps(m: Machine, ins: Instruction)
    requires m.Valid() && ins.Valid() && (ins.itype == 1 || ins.itype == 0xB)
    ensures Defined(m, ins)
    ensures var r := Exec(m, ins);
      r.Ok? && r.value.frames == m.frames && r.value.core.(pc := m.core.pc) == m.core &&
      r.value.core.pc == (if ins.itype == 1 then ins.nnn else ins.nnn + m.core.reg[0]) &&
      r.value.core.pc <= 0xFFF + 0xFF
  {
  }

  /** 2nnn saves the address of the instruction after it on top of the stack,
      counts one more frame in the CPU's stack pointer and jumps to nnn. */
  lemma CallPushes(m: Machine, call: Instruction)
    requires m.Valid() && call.Valid() && call.itype == 2
    requires |m.frames| < 16 && m.core.sp < 0xFF
    ensures Defined(m, call)
    ensures var r := Exec(m, call);
      r.Ok? && r.value.frames == m.frames + [m.core.pc] &&
      r.value.core == m.core.(pc := call.nnn, sp := m.core.sp + 1)
  {
  }

  /** 00EE, or any word of family 0 whose low byte is EE, resumes at the
      most recent saved address, drops it, and counts one frame less. */
  lemma ReturnPops(m: Machine, ret: Instruction)
    requires m.Valid() && ret.Valid() && ret.itype == 0 && ret.kk == 0xEE
    requires |m.frames| > 0 && m.core.sp > 0
    ensures Defined(m, ret)
    ensures var r := Exec(m, ret);
      r.Ok? && r.value.frames + [m.frames[|m.frames| - 1]] == m.frames &&
      r.value.core == m.core.(pc := m.frames[|m.frames| - 1], sp := m.core.sp - 1)
  {
  }

  /** A call followed by a return puts the whole machine back as it was. */
  lemma ReturnUndoesCall(m: Machine, call: Instruction, ret: Instruction)
    requires m.Valid() && call.Valid() && call.itype == 2
    requires ret.Valid() && ret.itype == 0 && ret.kk == 0xEE
    requires |m.frames| < 16 && m.core.sp < 0xFF
    ensures Defined(m, call)
    ensures var r := Exec(m, call);
      r.Ok? && r.value.Valid() && Defined(r.value, ret) && Exec(r.value, ret) == Ok(m)
  {
    var called := Exec(m, call).value;
    assert called.frames[..|m.frames|] == m.frames;
  }

  /** The skips 3xkk, 4xkk, 5xyN and 9xy0 advance the program counter by
      exactly two when their comparison holds and leave everything else,
      registers and I included, as it was. 5xyN compares whatever N is. */
  lemma Skips(m: Machine, ins: Instruction)
    requires m.Valid() && ins.Valid() && Defined(m, ins)
    requires ins.itype in {3, 4, 5} || (ins.itype == 9 && ins.n == 0)
    ensures var vx, vy := m.core.reg[ins.x], m.core.reg[ins.y];
      var taken :=
        if ins.itype == 3 then vx == ins.kk
        else if ins.itype == 4 then vx != ins.kk
        else if ins.itype == 5 then vx == vy
        else vx != vy;
      var r := Exec(m, ins);
      r.Ok? && r.value.frames == m.frames && r.value.core.(pc := m.core.pc) == m.core &&
      r.value.core.pc == (if taken then m.core.pc + 2 else m.core.pc)
  {
  }

  /** 6xkk, 7xkk, 8xy0..8xy3 and Annn write one register and nothing else:
      Vx becomes kk, Vx + kk, Vy, Vx | Vy, Vx & Vy or Vx ^ Vy, I becomes nnn.
      None of them touches VF unless VF is the target. */
  lemma SingleTarget(m: Machine, ins: Instruction)
    requires m.Valid() && ins.Valid() && Defined(m, ins)
    requires ins.itype in {6, 7, 0xA} || (ins.itype == 8 && ins.n <= 3)
    ensures var c := m.core;
      var vx, vy := c.reg[ins.x], c.reg[ins.y];
      var r := Exec(m, ins);
      r.Ok? && r.value.frames == m.frames &&
      if ins.itype == 0xA then
        r.value.core == c.(i := ins.nnn)
      else
        r.value.core.(reg := c.reg) == c &&
        (forall k :: 0 <= k < 16 && k != ins.x ==> r.value.core.reg[k] == c.reg[k]) &&
        r.value.core.reg[ins.x] ==
          if ins.itype == 6 then ins.kk
          else if ins.itype == 7 then vx + ins.kk
          else if ins.n == 0 then vy
          else if ins.n == 1 then BitOr(vx, vy)
          else if ins.n == 2 then BitAnd(vx, vy)
          else BitXor(vx, vy)
  {
  }

  /** 8xy1 and 8xy2: an or is at least each operand, an and at most each. */
  lemma OrAndBounds(m: Machine, ins: Instruction)
    requires m.Valid() && ins.Valid() && ins.itype == 8 && (ins.n == 1 || ins.n == 2)
    ensures Defined(m, ins)
    ensures var vx, vy := m.core.reg[ins.x], m.core.reg[ins.y];
      var r := Exec(m, ins);
      r.Ok? &&
      (ins.n == 1 ==> vx <= r.value.core.reg[ins.x] && vy <= r.value.core.reg[ins.x]) &&
      (ins.n == 2 ==> r.value.core.reg[ins.x] <= vx && r.value.core.reg[ins.x] <= vy)
  {
  }

  /** 8xy3 executed twice with x != y restores the registers. */
  lemma XorTwiceRestores(c: Core, ins: Instruction)
    requires c.Valid() && ins.Valid() && ins.itype == 8 && ins.n == 3 && ins.x != ins.y
    ensures var r := Op8(c, ins);
      r.Ok? && r.value.Valid() && Op8(r.value, ins) == Ok(c)
  {
    var x, y := ins.x, ins.y;
    var reg1 := c.reg[x := BitXor(c.reg[x], c.reg[y])];
    assert Op8(c, ins) == Ok(c.(reg := reg1));
    XorTwice(c.reg[x], c.reg[y], ByteWidth());
    assert reg1[x := BitXor(reg1[x], reg1[y])] == c.reg;
  }

  /** 8xy3 clears Vx exactly when Vx and Vy are equal. */
  lemma XorClears(m: Machine, ins: Instruction)
    requires m.Valid() && ins.Valid() && ins.itype == 8 && ins.n == 3
    ensures Defined(m, ins)
    ensures var r := Exec(m, ins);
      r.Ok? && (r.value.core.reg[ins.x] == 0 <==> m.core.reg[ins.x] == m.core.reg[ins.y])
  {
  }

  /** 8xy4 computes the sum in `u8`, so whenever it runs the sum fits and
      the carry branch is dead: VF ends as 0, or as the sum when x = F. */
  lemma AddNoCarry(m: Machine, ins: Instruction)
    requires m.Valid() && ins.Valid() && ins.itype == 8 && ins.n == 4 && Defined(m, ins)
    ensures var c := m.core;
      var vx, vy := c.reg[ins.x], c.reg[ins.y];
      var r := Exec(m, ins);
      r.Ok? && r.value.frames == m.frames && r.value.core.(reg := c.reg) == c &&
      r.value.core.reg[ins.x] == vx + vy &&
      (ins.x != VF ==> r.value.core.reg[VF] == 0) &&
      (forall k :: 0 <= k < 15 && k != ins.x ==> r.value.core.reg[k] == c.reg[k])
  {
  }

  /** 8xy5 and 8xy7: VF is 1 exactly when the minuend is strictly larger and
      Vx becomes the difference modulo 256. VF is written first, so for x = F
      the difference is what remains in VF. */
  lemma Subtracts(m: Machine, ins: Instruction)
    requires m.Valid() && ins.Valid() && ins.itype == 8 && (ins.n == 5 || ins.n == 7)
    ensures Defined(m, ins)
    ensures var c := m.core;
      var a, b := if ins.n == 5 then c.reg[ins.x] else c.reg[ins.y],
                  if ins.n == 5 then c.reg[ins.y] else c.reg[ins.x];
      var r := Exec(m, ins);
      r.Ok? && r.value.frames == m.frames && r.value.core.(reg := c.reg) == c &&
      r.value.core.reg[ins.x] == (a as int - b) % 0x100 &&
      (ins.x != VF ==> r.value.core.reg[VF] == if a > b then 1 else 0) &&
      (forall k :: 0 <= k < 15 && k != ins.x ==> r.value.core.reg[k] == c.reg[k])
  {
  }

  /** 8xy6: VF takes the bit shifted out and Vx is halved. For x = F the
      shift applies to the flag just written, which leaves 0. */
  lemma ShiftsRight(m: Machine, ins: Instruction)
    requires m.Valid() && ins.Valid() && ins.itype == 8 && ins.n == 6
    ensures Defined(m, ins)
    ensures var c := m.core;
      var vx := c.reg[ins.x];
      var r := Exec(m, ins);
      r.Ok? && r.value.frames == m.frames && r.value.core.(reg := c.reg) == c &&
      (ins.x != VF ==> r.value.core.reg[VF] == vx % 2 && r.value.core.reg[ins.x] == vx / 2) &&
      (ins.x == VF ==> r.value.core.reg[VF] == 0) &&
      (forall k :: 0 <= k < 15 && k != ins.x ==> r.value.core.reg[k] == c.reg[k])
  {
    AndOne(m.core.reg[ins.x]);
  }

  /** 8xyE: VF takes the top bit in place, as 0x80 rather than 1, and Vx is
      doubled modulo 256. For x = F the flag shifted left leaves 0. */
  lemma ShiftsLeft(m: Machine, ins: Instruction)
    requires m.Valid() && ins.Valid() && ins.itype == 8 && ins.n == 0xE
    ensures Defined(m, ins)
    ensures var c := m.core;
      var vx := c.reg[ins.x];
      var r := Exec(m, ins);
      r.Ok? && r.value.frames == m.frames && r.value.core.(reg := c.reg) == c &&
      (ins.x != VF ==> r.value.core.reg[VF] == (if vx >= 0x80 then 0x80 else 0) &&
                       r.value.core.reg[ins.x] == (vx as int * 2) % 0x100) &&
      (ins.x == VF ==> r.value.core.reg[VF] == 0) &&
      (forall k :: 0 <= k < 15 && k != ins.x ==> r.value.core.reg[k] == c.reg[k])
  {
    AndTopBit(m.core.reg[ins.x]);
  }
}
