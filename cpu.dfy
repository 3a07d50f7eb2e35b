/** The CPU: sixteen byte registers, the program counter, the index
    register, a stack pointer and the two timers, updated in place by one
    method per opcode family. Every method is proved to leave the state the
    functions of module Opcodes describe. */
module Engine {
  import opened Words
  import opened Decoding
  import opened Opcodes
  import MemoryUnit

  class CPU {
    var dt: u8
    var st: u8
    var i: u16
    var pc: u16
    var sp: u8
    const reg: array<u8>

    /** There are exactly sixteen registers V0..VF. */
    ghost predicate Valid()
      reads this
    {
      reg.Length == 16
    }

    /** The registers as a value. */
    ghost function State(): (c: Core)
      reads this, reg
      requires Valid()
      ensures c.Valid()
    {
      Core(reg[..], pc, i, sp, dt, st)
    }

    /** The registers together with the live return addresses of `mem`. */
    ghost function Snapshot(mem: MemoryUnit.Memory): (m: Machine)
      reads this, reg, mem, mem.stack
      requires Valid() && mem.Valid()
      ensures m.Valid()
    {
      Machine(State(), mem.Frames())
    }

    /** `init`: zero registers, programs start at 0x200, both timers at 60. */
    constructor Init()
      ensures Valid() && fresh(reg)
      ensures State() == Boot
    {
      dt := 60;
      st := 60;
      i := 0;
      pc := 0x200;
      sp := 0;
      reg := new u8[16](_ => 0);
      new;
      assert reg[..] == seq(16, _ => 0);
    }

    /** `execution_address`: hands out the program counter and moves it on
        by one two-byte instruction. */
    method ExecutionAddress() returns (loc: u16)
      requires pc <= 0xFFFD
      modifies this`pc
      ensures loc == old(pc) && pc == old(pc) + 2
    {
      loc := pc;
      pc := pc + 2;
    }

    /** `execute`: runs one decoded instruction against this CPU and the
        return stack of `mem`. A refused instruction changes nothing. */
    method Execute(instr: Instruction, mem: MemoryUnit.Memory) returns (r: Result<()>)
      requires Valid() && mem.Valid() && instr.Valid()
      requires Defined(Snapshot(mem), instr)
      modifies this, reg, mem`sp, mem.stack
      ensures Valid() && mem.Valid()
      ensures After(r, Snapshot(mem)) == Exec(old(Snapshot(mem)), instr)
      ensures r.Err? ==> Snapshot(mem) == old(Snapshot(mem))
    {
      match instr.itype
      case 0x0 => r := Opcode0(instr, mem);
      case 0x1 => r := Opcode1(instr);
      case 0x2 => r := Opcode2(instr, mem);
      case 0x3 => r := Opcode3(instr);
      case 0x4 => r := Opcode4(instr);
      case 0x5 => r := Opcode5(instr);
      case 0x6 => r := Opcode6(instr);
      case 0x7 => r := Opcode7(instr);
      case 0x8 => r := Opcode8(instr);
      case 0x9 => r := Opcode9(instr);
      case 0xA => r := OpcodeA(instr);
      case 0xB => r := OpcodeB(instr);
      case _ => r := Err;
    }

    /** `opcode_0`: 00EE pops the return address into `pc` and decrements
        the CPU's stack pointer; any other low byte is refused. */
    method Opcode0(instr: Instruction, mem: MemoryUnit.Memory) returns (r: Result<()>)
      requires Valid() && mem.Valid() && instr.Valid()
      requires instr.kk == 0xEE ==> mem.sp > 0 && sp > 0
      modifies this`pc, this`sp, mem`sp
      ensures Valid() && mem.Valid()
      ensures After(r, Snapshot(mem)) == Op0(old(Snapshot(mem)), instr)
      ensures r.Err? ==> Snapshot(mem) == old(Snapshot(mem))
    {
      if instr.kk == 0xEE {
        pc := mem.PopStack();
        sp := sp - 1;
        r := Ok(());
      } else {
        r := Err;
      }
    }

    /** `opcode_1`: 1nnn jumps to nnn. */
    method Opcode1(instr: Instruction) returns (r: Result<()>)
      requires Valid() && instr.Valid()
      modifies this`pc
      ensures r.Ok? && State() == Op1(old(State()), instr)
    {
      pc := instr.nnn;
      r := Ok(());
    }

    /** `opcode_2`: 2nnn pushes `pc` onto the memory's stack, increments the
        CPU's stack pointer and jumps to nnn. */
    method Opcode2(instr: Instruction, mem: MemoryUnit.Memory) returns (r: Result<()>)
      requires Valid() && mem.Valid() && instr.Valid()
      requires mem.sp < MemoryUnit.StackSize && sp < 0xFF
      modifies this`pc, this`sp, mem`sp, mem.stack
      ensures Valid() && mem.Valid()
      ensures r.Ok? && Snapshot(mem) == Op2(old(Snapshot(mem)), instr)
    {
      mem.PushStack(pc);
      sp := sp + 1;
      pc := instr.nnn;
      r := Ok(());
    }

    /** `opcode_3`: 3xkk skips the next instruction when Vx == kk. */
    method Opcode3(instr: Instruction) returns (r: Result<()>)
      requires Valid() && instr.Valid()
      requires reg[instr.x] == instr.kk ==> pc <= 0xFFFD
      modifies this`pc
      ensures r.Ok? && State() == Op3(old(State()), instr)
    {
      if reg[instr.x] == instr.kk {
        pc := pc + 2;
      }
      r := Ok(());
    }

    /** `opcode_4`: 4xkk skips the next instruction when Vx != kk. */
    method Opcode4(instr: Instruction) returns (r: Result<()>)
      requires Valid() && instr.Valid()
      requires reg[instr.x] != instr.kk ==> pc <= 0xFFFD
      modifies this`pc
      ensures r.Ok? && State() == Op4(old(State()), instr)
    {
      if reg[instr.x] != instr.kk {
        pc := pc + 2;
      }
      r := Ok(());
    }

    /** `opcode_5`: 5xyN skips the next instruction when Vx == Vy; N is not
        looked at. */
    method Opcode5(instr: Instruction) returns (r: Result<()>)
      requires Valid() && instr.Valid()
      requires reg[instr.x] == reg[instr.y] ==> pc <= 0xFFFD
      modifies this`pc
      ensures r.Ok? && State() == Op5(old(State()), instr)
    {
      if reg[instr.x] == reg[instr.y] {
        pc := pc + 2;
      }
      r := Ok(());
    }

    /** `opcode_6`: 6xkk sets Vx to kk. */
    method Opcode6(instr: Instruction) returns (r: Result<()>)
      requires Valid() && instr.Valid()
      modifies reg
      ensures r.Ok? && State() == Op6(old(State()), instr)
    {
      reg[instr.x] := instr.kk;
      r := Ok(());
    }

    /** `opcode_7`: 7xkk adds kk to Vx. */
    method Opcode7(instr: Instruction) returns (r: Result<()>)
      requires Valid() && instr.Valid()
      requires reg[instr.x] as int + instr.kk <= 0xFF
      modifies reg
      ensures r.Ok? && State() == Op7(old(State()), instr)
    {
      reg[instr.x] := reg[instr.x] + instr.kk;
      r := Ok(());
    }

    /** `opcode_8`: the register-to-register family, writing VF before Vx
        in every operation that sets a flag. */
    method Opcode8(instr: Instruction) returns (r: Result<()>)
      requires Valid() && instr.Valid()
      requires instr.n == 4 ==> reg[instr.x] as int + reg[instr.y] <= 0xFF
      modifies reg
      ensures After(r, State()) == Op8(old(State()), instr)
      ensures r.Err? ==> State() == old(State())
    {
      var x, y := instr.x, instr.y;
      r := Ok(());
      match instr.n
      case 0x0 => reg[x] := reg[y];
      case 0x1 => reg[x] := BitOr(reg[x], reg[y]);
      case 0x2 => reg[x] := BitAnd(reg[x], reg[y]);
      case 0x3 => reg[x] := BitXor(reg[x], reg[y]);
      case 0x4 =>
        // the addition happens in u8, so the sum is never above 255
        var sum: u16 := reg[x] + reg[y];
        reg[VF] := Flag(sum > 0xFF);
        reg[x] := sum % 0x100;
      case 0x5 =>
        var vx, vy := reg[x], reg[y];
        reg[VF] := Flag(vx > vy);
        reg[x] := WrappingSub(vx, vy);
      case 0x6 =>
        reg[VF] := BitAnd(reg[x], 0x01);
        reg[x] := ShiftRight1(reg[x]);
      case 0x7 =>
        var vx, vy := reg[x], reg[y];
        reg[VF] := Flag(vy > vx);
        reg[x] := WrappingSub(vy, vx);
      case 0xE =>
        reg[VF] := BitAnd(reg[x], 0x80);
        reg[x] := ShiftLeft1(reg[x]);
      case _ => r := Err;
    }

    /** `opcode_9`: 9xy0 skips the next instruction when Vx != Vy; any other
        low nibble is refused. */
    method Opcode9(instr: Instruction) returns (r: Result<()>)
      requires Valid() && instr.Valid()
      requires instr.n == 0 && reg[instr.x] != reg[instr.y] ==> pc <= 0xFFFD
      modifies this`pc
      ensures After(r, State()) == Op9(old(State()), instr)
      ensures r.Err? ==> State() == old(State())
    {
      if instr.n == 0 {
        if reg[instr.x] != reg[instr.y] {
          pc := pc + 2;
        }
        r := Ok(());
      } else {
        r := Err;
      }
    }

    /** `opcode_A`: Annn sets I to nnn. */
    method OpcodeA(instr: Instruction) returns (r: Result<()>)
      requires Valid() && instr.Valid()
      modifies this`i
      ensures r.Ok? && State() == OpA(old(State()), instr)
    {
      i := instr.nnn;
      r := Ok(());
    }

    /** `opcode_B`: Bnnn jumps to nnn + V0. */
    method OpcodeB(instr: Instruction) returns (r: Result<()>)
      requires Valid() && instr.Valid()
      modifies this`pc
      ensures r.Ok? && State() == OpB(old(State()), instr)
    {
      pc := instr.nnn + reg[0];
      r := Ok(());
    }
  }

  /** One fetch-decode-execute cycle: `execution_address`, then `read_word`
      at that address, `decode` and `execute`. A failed read or a refused
      instruction leaves the advanced program counter behind and nothing else
      changed. */
  method Step(cpu: CPU, mem: MemoryUnit.Memory) returns (r: Result<()>)
    requires cpu.Valid() && mem.Valid()
    requires CycleDefined(cpu.Snapshot(mem), mem.ram[..])
    modifies cpu, cpu.reg, mem`sp, mem.stack
    ensures cpu.Valid() && mem.Valid()
    ensures After(r, cpu.Snapshot(mem)) == Cycle(old(cpu.Snapshot(mem)), old(mem.ram[..]))
    ensures r.Err? ==>
      cpu.Snapshot(mem) == old(cpu.Snapshot(mem)).(core := old(cpu.Snapshot(mem)).core.(pc := old(cpu.pc) + 2))
  {
    ghost var before := cpu.Snapshot(mem);
    var loc := cpu.ExecutionAddress();
    assert cpu.Snapshot(mem) == before.(core := before.core.(pc := loc + 2));
    match mem.ReadWord(loc)
    case Err => r := Err;
    case Ok(word) =>
      assert word == MemoryUnit.BigEndian(mem.ram[loc], mem.ram[loc + 1]);
      r := cpu.Execute(Decode(word), mem);
  }
}
