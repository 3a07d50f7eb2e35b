/** What executing one decoded instruction does to the CPU registers and the
    return-address stack, as pure functions. The `CPU` class of module Engine
    is proved to follow these, and the properties of the instruction set are
    proved about them here. */
module Opcodes {
  import opened Words
  import opened Decoding
  import MemoryUnit

  /** Index of the flag register VF. */
  const VF := 0xF

  /** The value a flag register takes for a condition: 1 when it holds. */
  function Flag(b: bool): u8
  {
    if b then 1 else 0
  }

  /** The registers of the CPU: V0..VF, the program counter, the index
      register, the CPU's own copy of the stack pointer and the two timers. */
  datatype Core = Core(reg: seq<u8>, pc: u16, i: u16, sp: u8, dt: u8, st: u8)
  {
    ghost predicate Valid() { |reg| == 16 }
  }

  /** The CPU registers with the live return addresses of the memory's stack. */
  datatype Machine = Machine(core: Core, frames: seq<u16>)
  {
    ghost predicate Valid() { core.Valid() && |frames| <= 16 }
  }

  /** The state `init` creates. */
  const Boot := Core(seq(16, _ => 0), 0x200, 0, 0, 60, 60)

  /** The instructions `execute` refuses: families C..F, family 0 unless the
      low byte is EE (00E0 included), family 8 with a selector other than
      0..7 and E, family 9 with a non-zero low nibble. */
  predicate Rejected(ins: Instruction)
  {
    ins.itype >= 0xC ||
    (ins.itype == 0 && ins.kk != 0xEE) ||
    (ins.itype == 8 && !(ins.n <= 7 || ins.n == 0xE)) ||
    (ins.itype == 9 && ins.n != 0)
  }

  /** The instruction does not make the source panic: no `u8` or `u16`
      addition overflows, no pop from an empty stack, no push onto a full one. */
  ghost predicate Defined(m: Machine, ins: Instruction)
    requires m.Valid() && ins.Valid()
  {
    var c := m.core;
    match ins.itype
    case 0 => ins.kk == 0xEE ==> |m.frames| > 0 && c.sp > 0
    case 2 => |m.frames| < 16 && c.sp < 0xFF
    case 3 => c.reg[ins.x] == ins.kk ==> c.pc <= 0xFFFD
    case 4 => c.reg[ins.x] != ins.kk ==> c.pc <= 0xFFFD
    case 5 => c.reg[ins.x] == c.reg[ins.y] ==> c.pc <= 0xFFFD
    case 7 => c.reg[ins.x] as int + ins.kk <= 0xFF
    case 8 => ins.n == 4 ==> c.reg[ins.x] as int + c.reg[ins.y] <= 0xFF
    case 9 => ins.n == 0 && c.reg[ins.x] != c.reg[ins.y] ==> c.pc <= 0xFFFD
    case _ => true
  }

  /** `opcode_0`: 00EE returns from a subroutine. Only the low byte is looked at. */
  function Op0(m: Machine, ins: Instruction): Result<Machine>
    requires m.Valid() && ins.Valid()
    requires ins.kk == 0xEE ==> |m.frames| > 0 && m.core.sp > 0
  {
    if ins.kk == 0xEE then
      var top := |m.frames| - 1;
      Ok(Machine(m.core.(pc := m.frames[top], sp := m.core.sp - 1), m.frames[..top]))
    else
      Err
  }

  /** `opcode_1`: 1nnn jumps to nnn. */
  function Op1(c: Core, ins: Instruction): Core
    requires ins.Valid()
  {
    c.(pc := ins.nnn)
  }

  /** `opcode_2`: 2nnn pushes the program counter and jumps to nnn. */
  function Op2(m: Machine, ins: Instruction): Machine
    requires m.Valid() && ins.Valid()
    requires |m.frames| < 16 && m.core.sp < 0xFF
  {
    Machine(m.core.(pc := ins.nnn, sp := m.core.sp + 1), m.frames + [m.core.pc])
  }

  /** Skips the next instruction when `cond` holds. */
  function SkipIf(c: Core, cond: bool): Core
    requires cond ==> c.pc <= 0xFFFD
  {
    if cond then c.(pc := c.pc + 2) else c
  }

  /** `opcode_3`: 3xkk skips when Vx == kk. */
  function Op3(c: Core, ins: Instruction): Core
    requires c.Valid() && ins.Valid()
    requires c.reg[ins.x] == ins.kk ==> c.pc <= 0xFFFD
  {
    SkipIf(c, c.reg[ins.x] == ins.kk)
  }

  /** `opcode_4`: 4xkk skips when Vx != kk. */
  function Op4(c: Core, ins: Instruction): Core
    requires c.Valid() && ins.Valid()
    requires c.reg[ins.x] != ins.kk ==> c.pc <= 0xFFFD
  {
    SkipIf(c, c.reg[ins.x] != ins.kk)
  }

  /** `opcode_5`: 5xyN skips when Vx == Vy, whatever N is. */
  function Op5(c: Core, ins: Instruction): Core
    requires c.Valid() && ins.Valid()
    requires c.reg[ins.x] == c.reg[ins.y] ==> c.pc <= 0xFFFD
  {
    SkipIf(c, c.reg[ins.x] == c.reg[ins.y])
  }

  /** `opcode_6`: 6xkk loads kk into Vx. */
  function Op6(c: Core, ins: Instruction): Core
    requires c.Valid() && ins.Valid()
  {
    c.(reg := c.reg[ins.x := ins.kk])
  }

  /** `opcode_7`: 7xkk adds kk to Vx; the `u8` addition must not overflow. */
  function Op7(c: Core, ins: Instruction): Core
    requires c.Valid() && ins.Valid()
    requires c.reg[ins.x] as int + ins.kk <= 0xFF
  {
    c.(reg := c.reg[ins.x := c.reg[ins.x] + ins.kk])
  }

  /** The register file after 8xyN. Each flag operation writes VF first and
      Vx second, so for x = F the second write wins. */
  function Alu(reg: seq<u8>, ins: Instruction): Result<seq<u8>>
    requires |reg| == 16 && ins.Valid()
    requires ins.n == 4 ==> reg[ins.x] as int + reg[ins.y] <= 0xFF
  {
    var x, y := ins.x, ins.y;
    match ins.n
    case 0 => Ok(reg[x := reg[y]])
    case 1 => Ok(reg[x := BitOr(reg[x], reg[y])])
    case 2 => Ok(reg[x := BitAnd(reg[x], reg[y])])
    case 3 => Ok(reg[x := BitXor(reg[x], reg[y])])
    case 4 =>
      // the sum is taken in u8 and only then widened, so it never exceeds 255
      var sum: int := reg[x] + reg[y];
      var flagged := reg[VF := Flag(sum > 0xFF)];
      Ok(flagged[x := sum % 0x100])
    case 5 =>
      var vx, vy := reg[x], reg[y];
      var flagged := reg[VF := Flag(vx > vy)];
      Ok(flagged[x := WrappingSub(vx, vy)])
    case 6 =>
      // Vx is read again after VF was written
      var flagged := reg[VF := BitAnd(reg[x], 0x01)];
      Ok(flagged[x := ShiftRight1(flagged[x])])
    case 7 =>
      var vx, vy := reg[x], reg[y];
      var flagged := reg[VF := Flag(vy > vx)];
      Ok(flagged[x := WrappingSub(vy, vx)])
    case 0xE =>
      var flagged := reg[VF := BitAnd(reg[x], 0x80)];
      Ok(flagged[x := ShiftLeft1(flagged[x])])
    case _ => Err
  }

  /** `opcode_8`: the register-to-register family. */
  function Op8(c: Core, ins: Instruction): Result<Core>
    requires c.Valid() && ins.Valid()
    requires ins.n == 4 ==> c.reg[ins.x] as int + c.reg[ins.y] <= 0xFF
  {
    match Alu(c.reg, ins)
    case Ok(reg) => Ok(c.(reg := reg))
    case Err => Err
  }

  /** `opcode_9`: 9xy0 skips when Vx != Vy; any other low nibble is refused. */
  function Op9(c: Core, ins: Instruction): Result<Core>
    requires c.Valid() && ins.Valid()
    requires ins.n == 0 && c.reg[ins.x] != c.reg[ins.y] ==> c.pc <= 0xFFFD
  {
    if ins.n == 0 then Ok(SkipIf(c, c.reg[ins.x] != c.reg[ins.y])) else Err
  }

  /** `opcode_A`: Annn loads nnn into I. */
  function OpA(c: Core, ins: Instruction): Core
    requires ins.Valid()
  {
    c.(i := ins.nnn)
  }

  /** `opcode_B`: Bnnn jumps to nnn + V0, computed in `u16`. */
  function OpB(c: Core, ins: Instruction): Core
    requires c.Valid() && ins.Valid()
  {
    c.(pc := ins.nnn + c.reg[0])
  }

  /** `execute`: dispatch on the family. */
  function Exec(m: Machine, ins: Instruction): (r: Result<Machine>)
    requires m.Valid() && ins.Valid() && Defined(m, ins)
    ensures r.Err? <==> Rejected(ins)
    ensures r.Ok? ==> r.value.Valid()
    ensures r.Ok? ==> r.value.core.dt == m.core.dt && r.value.core.st == m.core.st
    ensures r.Ok? && m.core.sp == |m.frames| ==> r.value.core.sp == |r.value.frames|
  {
    var c := m.core;
    match ins.itype
    case 0x0 => Op0(m, ins)
    case 0x1 => Ok(m.(core := Op1(c, ins)))
    case 0x2 => Ok(Op2(m, ins))
    case 0x3 => Ok(m.(core := Op3(c, ins)))
    case 0x4 => Ok(m.(core := Op4(c, ins)))
    case 0x5 => Ok(m.(core := Op5(c, ins)))
    case 0x6 => Ok(m.(core := Op6(c, ins)))
    case 0x7 => Ok(m.(core := Op7(c, ins)))
    case 0x8 => Lift(m, Op8(c, ins))
    case 0x9 => Lift(m, Op9(c, ins))
    case 0xA => Ok(m.(core := OpA(c, ins)))
    case 0xB => Ok(m.(core := OpB(c, ins)))
    case _ => Err
  }

  /** A new register state inside the unchanged stack. */
  function Lift(m: Machine, r: Result<Core>): Result<Machine>
  {
    match r
    case Ok(c) => Ok(m.(core := c))
    case Err => Err
  }

  /** A unit result of the source paired with the state it left behind. */
  function After<T>(r: Result<()>, s: T): Result<T>
  {
    if r.Ok? then Ok(s) else Err
  }

  /** The fetch of the next instruction is possible and so is its execution:
      `pc += 2` does not overflow, `read_word` is not asked for 0xFFF, and the
      fetched instruction is `Defined`. */
  ghost predicate CycleDefined(m: Machine, ram: seq<u8>)
    requires m.Valid() && |ram| == MemoryUnit.RamSize
  {
    var loc := m.core.pc;
    loc <= 0xFFFD && loc != MemoryUnit.RamSize - 1 &&
    (loc < MemoryUnit.RamSize ==>
      Defined(m.(core := m.core.(pc := loc + 2)), Decode(MemoryUnit.BigEndian(ram[loc], ram[loc + 1]))))
  }

  /** One fetch-decode-execute cycle over the RAM contents `ram`: take the
      address from `pc` and advance it by two, read the big-endian word there,
      decode it and execute it. */
  function Cycle(m: Machine, ram: seq<u8>): (r: Result<Machine>)
    requires m.Valid() && |ram| == MemoryUnit.RamSize && CycleDefined(m, ram)
  {
    var loc := m.core.pc;
    var advanced := m.(core := m.core.(pc := loc + 2));
    if loc >= MemoryUnit.RamSize then Err
    else Exec(advanced, Decode(MemoryUnit.BigEndian(ram[loc], ram[loc + 1])))
  }
}
