# CHIP-8 instruction engine

A Dafny model of the instruction engine of the `nexes/Chip-8` Rust emulator,
with the properties of that engine proved. It covers three parts:

- the decoder that splits a 16-bit instruction word into its fields
  (`src/lib/instruction.rs`);
- the memory, which holds:
  - 4 KiB of RAM with the hex font at 0x000 and programs from 0x200;
  - the 64x32 video buffer;
  - the 16-entry return-address stack and its pointer

  (`src/lib/memory.rs`);
- the CPU, which holds sixteen byte registers, `pc`, `i`, `sp` and two timers,
  and has one method per opcode family (`src/lib/cpu.rs`).

Modules:

- `Words` holds the Rust integer types as subset types of `int`, a `Result`
  without a message, and the `u8` operations `|`, `&`, `^`, `>>`, `<<` and
  `wrapping_sub`. The bitwise operations are defined bit by bit on naturals.
- `Decoding` holds `Instruction`, `Decode` and its inverse `Encode`. The
  source's masks and shifts are written as the divisions and remainders they
  compute. The datatype's destructors stand for the source's field accessors.
- `MemoryUnit` holds class `Memory`, over three arrays and a stack pointer
  that its methods update in place. Rust's debug-build panics become
  preconditions:
  - `pop_stack` on an empty stack;
  - `push_stack` on a full one;
  - `read_word(0xFFF)`, which indexes one byte past RAM;
  - a ROM larger than the space above 0x200.
- `Opcodes` gives the meaning of `execute` as pure functions over the register
  state (`Core`) and the live return addresses (`Machine`). `Defined` collects
  the source's panics: a `u8` addition (7xkk, 8xy4) or `u16` addition (`pc += 2`)
  that overflows, the `u8` stack pointer going below 0 or above 255, a 00EE
  popping an empty memory stack and a 2nnn pushing onto a full one.
- `InstructionSet` proves the properties of each opcode family about those
  functions.
- `Engine` holds class `CPU`. It writes registers in the source's order and
  each of its methods is proved to leave exactly the state the `Opcodes`
  functions give. `Step` composes `execution_address`, `read_word`, `decode`
  and `execute`, and is proved equal to `Opcodes.Cycle`.

Where the published description of the instruction set and the code
disagree, the model follows the code:

- 8xy4 adds in `u8` before widening the sum. A sum above 255 therefore panics
  rather than setting a carry. When the addition runs, VF always becomes 0.
- 8xyE sets VF to `Vx & 0x80`, which is 0 or 0x80, rather than 0 or 1.
- Every flag operation of family 8 writes VF *before* Vx. When x is F, the
  value left in VF is the result, not the flag.
- 5xyN skips whatever N is.
- 00EE is recognised by its low byte alone.
- 00E0 and families C to F are refused.
- `read_n_bytes` also refuses a range that ends exactly at the end of RAM.

## Model

| member | source | states |
|---|---|---|
| Decoding.Decode | src/lib/instruction.rs:70-79 | decoding is total; every field is below 16 (kk below 256, nnn below 0x1000); kk is y and n side by side, nnn is x and kk; the word is itype * 0x1000 + nnn; itype is the top nibble, kk the low byte, n the low nibble |
| Decoding.Encode | src/lib/instruction.rs:5-9 | the word of a consistent field set has the family as its top nibble and nnn as its low 12 bits |
| Decoding.EncodeDecode | src/lib/instruction.rs:72-77 | the word is rebuilt exactly from its decoded fields |
| Decoding.DecodeEncode | src/lib/instruction.rs:5-9 | every consistent field set is the decoding of the word built from it |
| Decoding.DecodeInjective | src/lib/instruction.rs:70-79 | two different words never decode to the same instruction |
| Words.WrappingSub | src/lib/cpu.rs:163-164 | the difference plus the subtrahend is the minuend modulo 256 |
| Words.AndOne | src/lib/cpu.rs:170 | `v & 0x01` is the lowest bit of v |
| Words.AndTopBit | src/lib/cpu.rs:190 | `v & 0x80` is 0x80 when the top bit of v is set and 0 otherwise |
| Words.XorTwice | src/lib/cpu.rs:141 | xor with the same operand twice gives the first operand back |
| MemoryUnit.Memory.Allocate | src/lib/memory.rs:14-26 | fresh buffers of 0x1000, 2048 and 16 entries; the font table byte for byte at 0x000..0x050; the rest of RAM, all of the video buffer and the stack zero; sp is 0 |
| MemoryUnit.Memory.WriteRomData | src/lib/memory.rs:30-34 | the program sits byte for byte from 0x200 on; every other byte, the font included, is unchanged |
| MemoryUnit.Memory.WriteFontData | src/lib/memory.rs:38-61 | the first 80 bytes hold the font table; the rest of RAM is unchanged |
| MemoryUnit.Memory.WriteByte | src/lib/memory.rs:64-71 | fails exactly when the address is 0x1000 or above, and then changes nothing; otherwise exactly that byte becomes the value and reads back |
| MemoryUnit.Memory.ClearVram | src/lib/memory.rs:74-78 | every video cell is 0; RAM and the stack are outside its frame |
| MemoryUnit.Memory.ReadWord | src/lib/memory.rs:83-93 | fails exactly above 0xFFF; otherwise the high byte of the result is the byte at loc and the low byte the one after it (big-endian); 0xFFF is excluded |
| MemoryUnit.Memory.ReadByte | src/lib/memory.rs:96-102 | fails exactly above 0xFFF; otherwise the byte stored there, reading nothing but RAM |
| MemoryUnit.Memory.ReadNBytes | src/lib/memory.rs:105-120 | fails exactly when loc + count reaches 0x1000 (an exact fit included); otherwise count bytes, the k-th being the byte at loc + k |
| MemoryUnit.Memory.PopStack | src/lib/memory.rs:128-131 | decrements sp and returns the newest live address, which leaves the live stack |
| MemoryUnit.Memory.PushStack | src/lib/memory.rs:134-137 | stores the value at the old sp, changes no other stack cell, and increments sp: the value is the newest live address |
| MemoryUnit.PushThenPop | src/lib/memory.rs:128-137 | a push then a pop returns the pushed value and restores sp and the live stack |
| Opcodes.Exec | src/lib/cpu.rs:41-57 | refuses exactly families C..F, family 0 with a low byte other than EE, 8xyN with N outside 0..7 and E, and 9xyN with N not 0; never changes the timers; keeps the CPU's stack pointer equal to the number of live return addresses |
| InstructionSet.BootState | src/lib/cpu.rs:21-30 | the initial state has sixteen zero registers, pc 0x200, i 0, sp 0 and both timers at 60 |
| InstructionSet.Jumps | src/lib/cpu.rs:221-224 | 1nnn sets pc to nnn and Bnnn to nnn + V0 (at most 0xFFF + 0xFF, no u16 overflow); nothing else changes |
| InstructionSet.CallPushes | src/lib/cpu.rs:81-87 | 2nnn appends the current pc to the live stack, increments sp and sets pc to nnn |
| InstructionSet.ReturnPops | src/lib/cpu.rs:60-72 | any family-0 word with low byte EE resumes at the newest saved address, drops it and decrements sp |
| InstructionSet.ReturnUndoesCall | src/lib/cpu.rs:60-87 | a call followed by a return restores the whole machine |
| InstructionSet.Skips | src/lib/cpu.rs:90-117 | 3xkk, 4xkk, 5xyN (any N) and 9xy0 add exactly 2 to pc when their comparison holds, leave it otherwise, and change no register, I or stack |
| InstructionSet.SingleTarget | src/lib/cpu.rs:120-141 | 6xkk, 7xkk, 8xy0..8xy3 set Vx to kk, Vx + kk, Vy, Vx or Vy, Vx and Vy, Vx xor Vy and change no other register (VF included); Annn sets only I to nnn |
| InstructionSet.OrAndBounds | src/lib/cpu.rs:137-139 | after 8xy1 Vx is at least both operands; after 8xy2 it is at most both |
| InstructionSet.XorClears | src/lib/cpu.rs:141 | after 8xy3 Vx is 0 exactly when Vx and Vy were equal |
| InstructionSet.XorTwiceRestores | src/lib/cpu.rs:141 | the register update of 8xy3 applied twice with x different from y restores every register |
| InstructionSet.AddNoCarry | src/lib/cpu.rs:143-152 | 8xy4 (when it does not panic) sets Vx to Vx + Vy and VF to 0 for x other than F; the carry branch is never taken |
| InstructionSet.Subtracts | src/lib/cpu.rs:154-185 | 8xy5 / 8xy7 set VF to 1 exactly when the minuend is strictly larger and Vx to the difference modulo 256; for x = F the difference is what stays in VF |
| InstructionSet.ShiftsRight | src/lib/cpu.rs:167-172 | 8xy6 sets VF to the low bit of Vx and halves Vx; for x = F the final VF is 0 |
| InstructionSet.ShiftsLeft | src/lib/cpu.rs:187-192 | 8xyE sets VF to 0x80 when the top bit of Vx is set (0 otherwise) and doubles Vx modulo 256; for x = F the final VF is 0 |
| Engine.CPU.Init | src/lib/cpu.rs:21-30 | the new CPU's state is the boot state: zero registers, pc 0x200, i 0, sp 0, timers 60 |
| Engine.CPU.ExecutionAddress | src/lib/cpu.rs:34-39 | returns the old pc and advances pc by 2, changing nothing else |
| Engine.CPU.Execute | src/lib/cpu.rs:41-57 | the registers and live stack afterwards are what `Opcodes.Exec` gives; a refused instruction changes nothing |
| Engine.CPU.Opcode0 | src/lib/cpu.rs:60-72 | pops into pc and decrements sp for low byte EE, otherwise fails and changes nothing |
| Engine.CPU.Opcode1 | src/lib/cpu.rs:75-78 | pc becomes nnn |
| Engine.CPU.Opcode2 | src/lib/cpu.rs:81-87 | the memory's stack gains the old pc, sp is incremented, pc becomes nnn |
| Engine.CPU.Opcode3 | src/lib/cpu.rs:90-99 | skips when Vx == kk |
| Engine.CPU.Opcode4 | src/lib/cpu.rs:102-108 | skips when Vx != kk |
| Engine.CPU.Opcode5 | src/lib/cpu.rs:111-117 | skips when Vx == Vy, whatever N is |
| Engine.CPU.Opcode6 | src/lib/cpu.rs:120-123 | Vx becomes kk |
| Engine.CPU.Opcode7 | src/lib/cpu.rs:126-129 | Vx becomes Vx + kk |
| Engine.CPU.Opcode8 | src/lib/cpu.rs:132-199 | the register file after the in-place writes (VF first, then Vx) is the one `Opcodes.Alu` gives; an unknown selector fails and changes nothing |
| Engine.CPU.Opcode9 | src/lib/cpu.rs:202-212 | skips when Vx != Vy for N = 0; any other N fails and changes nothing |
| Engine.CPU.OpcodeA | src/lib/cpu.rs:215-218 | I becomes nnn |
| Engine.CPU.OpcodeB | src/lib/cpu.rs:221-224 | pc becomes nnn + V0 |
| Engine.Step | src/lib/cpu.rs:34-57 | fetch at pc, advance pc by 2, read the big-endian word, decode and execute it: the result and state are `Opcodes.Cycle` of the old state and RAM; a failed read or a refused instruction leaves only pc advanced by 2 |

## Left out

- `src/lib/display.rs`: the SDL window, rendering, event polling and key lookup are user interface and I/O.
- `src/lib/system.rs`: reading the ROM file is I/O, and its `run` is empty. Its only effect on the engine is `write_rom_data`, which is modelled.
- `src/main.rs` and `src/lib/lib.rs` only start the process and wire the modules together.
- `Memory::print_memory` and `print_stack` are console output.
- `Memory::get_vram` only hands out a reference to the video buffer.
- `Instruction`'s `Display` implementation is diagnostic text.
- Failures carry no message. The source's message text comes from `stringify!` and has no meaning for the engine.
- 00E0, Cxkk, Dxyn, Ex9E/ExA1, the Fx family and a timer tick have no code in the source, so they are modelled only as refused instructions or not at all.
- Rust's debug-build overflow and index panics are preconditions (`requires`, and `Defined` for `execute`), not modelled behaviour.
- Engine.CPU.Execute: its postcondition covers the live part of the memory's stack (below `sp`); Opcode2 also writes that cell through `push_stack`, and `MemoryUnit.Memory.PushStack` states that write for every cell.
- Decoding.Decode: the mask-and-shift expressions are stated as division and remainder by powers of two, which is what they compute on a `u16`.
- MemoryUnit.Memory.ReadNBytes: `loc + count` overflowing `usize` is a precondition rather than a panic.
