/** The machine's memory: 4 KiB of byte-addressable RAM with the hex font at
    0x000 and programs from 0x200, the 64x32 video buffer and the 16-entry
    return-address stack. */
module MemoryUnit {
  import opened Words

  const RamSize := 0x1000
  const VramSize := 64 * 32
  const StackSize := 16
  const RomStart := 0x200
  const FontSize := 80

  /** The sprites of the hex digits 0..F, five rows of one byte each. */
  const Font: seq<u8> := [
    0xF0, 0x90, 0x90, 0x90, 0xF0, // 0
    0x20, 0x60, 0x20, 0x20, 0x70, // 1
    0xF0, 0x10, 0xF0, 0x80, 0xF0, // 2
    0xF0, 0x10, 0xF0, 0x10, 0xF0, // 3
    0x90, 0x90, 0xF0, 0x10, 0x10, // 4
    0xF0, 0x80, 0xF0, 0x10, 0xF0, // 5
    0xF0, 0x80, 0xF0, 0x90, 0xF0, // 6
    0xF0, 0x10, 0x20, 0x40, 0x40, // 7
    0xF0, 0x90, 0xF0, 0x90, 0xF0, // 8
    0xF0, 0x90, 0xF0, 0x10, 0xF0, // 9
    0xF0, 0x90, 0xF0, 0x90, 0x90, // A
    0xE0, 0x90, 0xE0, 0x90, 0xE0, // B
    0xF0, 0x80, 0x80, 0x80, 0xF0, // C
    0xE0, 0x90, 0x90, 0x90, 0xE0, // D
    0xF0, 0x80, 0xF0, 0x80, 0xF0, // E
    0xF0, 0x80, 0xF0, 0x80, 0x80  // F
  ]

  /** The value of two bytes read most significant first. */
  function BigEndian(msb: u8, lsb: u8): u16 { msb * 0x100 + lsb }

  class Memory {
    const romLocation: u16
    const ram: array<u8>
    const vram: array<u8>
    const stack: array<u16>
    var sp: usize

    /** The fixed sizes of the three buffers and the bound of the stack pointer. */
    ghost predicate Valid()
      reads this
    {
      romLocation == RomStart &&
      ram.Length == RamSize && vram.Length == VramSize && stack.Length == StackSize &&
      ram != vram && sp <= StackSize
    }

    /** The live return addresses, oldest first. */
    ghost function Frames(): (f: seq<u16>)
      reads this, stack
      requires Valid()
      ensures |f| == sp
    {
      stack[..sp]
    }

    /** `allocate`: zeroed buffers, an empty stack, the font at 0x000. */
    constructor Allocate()
      ensures Valid() && fresh(ram) && fresh(vram) && fresh(stack)
      ensures ram[..FontSize] == Font
      ensures forall k :: FontSize <= k < RamSize ==> ram[k] == 0
      ensures forall k :: 0 <= k < VramSize ==> vram[k] == 0
      ensures forall k :: 0 <= k < StackSize ==> stack[k] == 0
      ensures sp == 0 && Frames() == []
    {
      romLocation := RomStart;
      ram := new u8[RamSize](_ => 0);
      vram := new u8[VramSize](_ => 0);
      stack := new u16[StackSize](_ => 0);
      sp := 0;
      new;
      WriteFontData();
    }

    /** `write_rom_data`: copies the program to 0x200 onwards. The source does
        not check the length; a program past the end of RAM panics. */
    method WriteRomData(data: seq<u8>)
      requires Valid()
      requires |data| <= RamSize - RomStart
      modifies ram
      ensures ram[..RomStart] == old(ram[..RomStart])
      ensures ram[..FontSize] == old(ram[..FontSize])
      ensures ram[RomStart .. RomStart + |data|] == data
      ensures ram[RomStart + |data| ..] == old(ram[RomStart + |data| ..])
    {
      for offset := 0 to |data|
        invariant forall k :: 0 <= k < offset ==> ram[romLocation + k] == data[k]
        invariant forall k :: 0 <= k < RamSize && !(RomStart <= k < RomStart + offset) ==> ram[k] == old(ram[k])
      {
        ram[romLocation + offset] := data[offset];
      }
    }

    /** `write_font_data`: copies the font table to 0x000 onwards. */
    method WriteFontData()
      requires Valid()
      modifies ram
      ensures ram[..FontSize] == Font
      ensures ram[FontSize..] == old(ram[FontSize..])
    {
      var fonts := Font;
      for i := 0 to |fonts|
        invariant forall k :: 0 <= k < i ==> ram[k] == fonts[k]
        invariant forall k :: i <= k < RamSize ==> ram[k] == old(ram[k])
      {
        ram[i] := fonts[i];
      }
    }

    /** `write_byte`: stores one byte, or fails outside RAM and stores nothing. */
    method WriteByte(location: u16, val: u8) returns (r: Result<()>)
      requires Valid()
      modifies ram
      ensures r.Err? <==> location >= RamSize
      ensures r.Ok? ==> ram[..] == old(ram[..])[location := val] && ReadByte(location) == Ok(val)
      ensures r.Err? ==> ram[..] == old(ram[..])
    {
      if location >= 0x1000 {
        return Err;
      }
      ram[location] := val;
      return Ok(());
    }

    /** `clear_vram`: every pixel off. */
    method ClearVram()
      requires Valid()
      modifies vram
      ensures forall k :: 0 <= k < VramSize ==> vram[k] == 0
    {
      for i := 0 to vram.Length
        invariant forall k :: 0 <= k < i ==> vram[k] == 0
      {
        vram[i] := 0;
      }
    }

    /** `read_word`: the big-endian word at `loc` and `loc + 1`. Only
        addresses past 0xFFF are rejected, so reading at 0xFFF would index
        one byte past RAM (a panic in the source). */
    function ReadWord(loc: u16): (r: Result<u16>)
      reads this, ram
      requires Valid()
      requires loc != RamSize - 1
      ensures r.Err? <==> loc >= RamSize
      ensures r.Ok? ==> r.value / 0x100 == ram[loc] && r.value % 0x100 == ram[loc + 1]
    {
      if loc > 0xFFF then Err
      else Ok(BigEndian(ram[loc], ram[loc + 1]))
    }

    /** `read_byte`: the byte at `loc`, or a failure outside RAM. */
    function ReadByte(loc: u16): (r: Result<u8>)
      reads this, ram
      requires Valid()
      ensures r.Err? <==> loc >= RamSize
      ensures r.Ok? ==> r.value == ram[loc]
    {
      if loc > 0xFFF then Err else Ok(ram[loc])
    }

    /** `read_n_bytes`: `count` bytes from `loc` on. The bound check rejects a
        range that ends exactly at the end of RAM as well. */
    method ReadNBytes(count: usize, loc: usize) returns (r: Result<seq<u8>>)
      requires Valid()
      requires loc + count < 0x1_0000_0000_0000_0000
      ensures r.Err? <==> loc + count >= RamSize
      ensures r.Ok? ==> |r.value| == count
      ensures r.Ok? ==> forall k :: 0 <= k < count ==> ReadByte(loc + k) == Ok(r.value[k])
    {
      if loc + count >= ram.Length {
        return Err;
      }
      var mem: seq<u8> := [];
      for i := 0 to count
        invariant |mem| == i
        invariant forall k :: 0 <= k < i ==> mem[k] == ram[loc + k]
      {
        mem := mem + [ram[loc + i]];
      }
      return Ok(mem);
    }

    /** `pop_stack`: removes and returns the most recent return address. */
    method PopStack() returns (v: u16)
      requires Valid()
      requires sp > 0
      modifies this`sp
      ensures Valid() && sp == old(sp) - 1
      ensures v == old(Frames())[sp] && Frames() == old(Frames())[..sp]
    {
      sp := sp - 1;
      v := stack[sp];
    }

    /** `push_stack`: stores `val` above the live return addresses. */
    method PushStack(val: u16)
      requires Valid()
      requires sp < StackSize
      modifies this`sp, stack
      ensures Valid() && sp == old(sp) + 1
      ensures stack[..] == old(stack[..])[old(sp) := val]
      ensures Frames() == old(Frames()) + [val]
    {
      stack[sp] := val;
      sp := sp + 1;
    }
  }

  /** A push followed by a pop hands back the pushed address and leaves the
      live stack as it was. */
  method PushThenPop(mem: Memory, val: u16) returns (popped: u16)
    requires mem.Valid() && mem.sp < StackSize
    modifies mem`sp, mem.stack
    ensures popped == val
    ensures mem.Valid() && mem.sp == old(mem.sp) && mem.Frames() == old(mem.Frames())
  {
    mem.PushStack(val);
    popped := mem.PopStack();
  }
}
