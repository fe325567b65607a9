/** The 4096-byte memory (src/memory.rs), preloaded with the hexadecimal
    font of section 2.4 of Cowgod's Chip-8 Technical Reference. */
module Memory {
  import opened Words

  const SIZE: nat := 4096

  /** Where a program's first byte is loaded (`PROGRAM_START` of src/chip8.rs).
      It is declared here rather than in module Chip8 because Cpu needs it
      and Chip8 imports Cpu: Dafny modules may not import each other in a
      cycle, as the Rust modules do. */
  const PROGRAM_START: u16 := 0x200

  /** The 16 glyphs 0-F, 5 bytes each, in digit order. */
  const FONT: seq<u8> := [
    0xF0, 0x90, 0x90, 0x90, 0xF0,  // 0
    0x20, 0x60, 0x20, 0x20, 0x70,  // 1
    0xF0, 0x10, 0xF0, 0x80, 0xF0,  // 2
    0xF0, 0x10, 0xF0, 0x10, 0xF0,  // 3
    0x90, 0x90, 0xF0, 0x10, 0x10,  // 4
    0xF0, 0x80, 0xF0, 0x10, 0xF0,  // 5
    0xF0, 0x80, 0xF0, 0x90, 0xF0,  // 6
    0xF0, 0x10, 0x20, 0x40, 0x40,  // 7
    0xF0, 0x90, 0xF0, 0x90, 0xF0,  // 8
    0xF0, 0x90, 0xF0, 0x10, 0xF0,  // 9
    0xF0, 0x90, 0xF0, 0x90, 0x90,  // A
    0xE0, 0x90, 0xE0, 0x90, 0xE0,  // B
    0xF0, 0x80, 0x80, 0x80, 0xF0,  // C
    0xE0, 0x90, 0x90, 0x90, 0xE0,  // D
    0xF0, 0x80, 0xF0, 0x80, 0xF0,  // E
    0xF0, 0x80, 0xF0, 0x80, 0x80   // F
  ]

  /** The memory image `Memory::new` produces. */
  function Initial(): (m: seq<u8>)
    ensures |m| == SIZE
  {
    FONT + seq(SIZE - |FONT|, _ => 0)
  }

  /** `read_byte`: the byte at `addr`, or the index-out-of-range panic. */
  function Read(mem: seq<u8>, addr: u16): (r: Result<u8>)
    requires |mem| == SIZE
    ensures r.Ok? <==> addr < SIZE
    ensures r.Ok? ==> r.value == mem[addr]
    ensures r.Err? ==> r.error == AddressOutOfRange(addr)
  {
    if addr < SIZE then Ok(mem[addr]) else Err(AddressOutOfRange(addr))
  }

  /** `write_byte`: the memory with `data` at `addr`, or the panic. */
  function Write(mem: seq<u8>, addr: u16, data: u8): (r: Result<seq<u8>>)
    requires |mem| == SIZE
    ensures r.Ok? <==> addr < SIZE
    ensures r.Ok? ==> |r.value| == SIZE && r.value[addr] == data
    ensures r.Ok? ==> forall a | 0 <= a < SIZE && a != addr :: r.value[a] == mem[a]
    ensures r.Err? ==> r.error == AddressOutOfRange(addr)
  {
    if addr < SIZE then Ok(mem[addr := data]) else Err(AddressOutOfRange(addr))
  }

  /** `get_font_sprite_addr`: where the glyph of a digit starts.  The five
      bytes from there lie inside the font exactly for the digits 0-F, and
      distinct digits have disjoint glyphs. */
  function FontSpriteAddr(sprite: u8): (r: u16)
    ensures r % 5 == 0 && r / 5 == sprite
    ensures r + 5 <= |FONT| <==> sprite < 16
  {
    sprite * 5
  }

  /** A fresh memory holds the font at 0x000-0x04F and zero everywhere else. */
  lemma InitialLayout()
    ensures Initial()[..|FONT|] == FONT && |FONT| == 80
    ensures forall a | |FONT| <= a < SIZE :: Initial()[a] == 0
  {
  }

  /** The glyph of digit `d` in a fresh memory is the five bytes of row `d`
      of the font table. */
  lemma GlyphInInitialMemory(d: u8)
    requires d < 16
    ensures var a := FontSpriteAddr(d);
      Initial()[a..a + 5] == FONT[5 * d..5 * d + 5]
  {
  }

  lemma GlyphA()
    ensures FontSpriteAddr(0xA) == 50
    ensures Initial()[50..55] == [0xF0, 0x90, 0xF0, 0x90, 0x90]
  {
    assert Initial()[50..55] == FONT[50..55];
    assert FONT[50..55] == [FONT[50], FONT[51], FONT[52], FONT[53], FONT[54]];
    assert FONT[50] == 0xF0 && FONT[51] == 0x90 && FONT[52] == 0xF0;
    assert FONT[53] == 0x90 && FONT[54] == 0x90;
  }

  /** Reading back what was written gives it; other addresses are unaffected. */
  lemma ReadAfterWrite(mem: seq<u8>, a: u16, v: u8, b: u16)
    requires |mem| == SIZE && a < SIZE
    ensures Read(Write(mem, a, v).value, b) == if b == a then Ok(v) else Read(mem, b)
  {
  }

  /** `Memory`: the byte array, updated in place. */
  class Memory {
    const bytes: array<u8>

    ghost predicate Valid()
      reads this
    {
      bytes.Length == SIZE
    }

    function Contents(): (m: seq<u8>)
      reads this, bytes
      requires Valid()
      ensures |m| == SIZE
    {
      bytes[..]
    }

    /** `Memory::new`: zeroes, then the font written byte by byte. */
    constructor ()
      ensures Valid() && fresh(bytes)
      ensures Contents() == Initial()
    {
      bytes := new u8[SIZE](_ => 0);
      new;
      for b := 0 to |FONT|
        invariant Valid()
        invariant forall a | 0 <= a < b :: bytes[a] == FONT[a]
        invariant forall a | b <= a < SIZE :: bytes[a] == 0
      {
        var _ := WriteByte(b, FONT[b]);
      }
      assert forall a | 0 <= a < SIZE :: bytes[a] == Initial()[a];
    }

    /** `read_byte`. */
    method ReadByte(addr: u16) returns (r: Result<u8>)
      requires Valid()
      ensures r == Read(Contents(), addr)
    {
      if addr >= SIZE {
        return Err(AddressOutOfRange(addr));
      }
      r := Ok(bytes[addr]);
    }

    /** `write_byte`; a panic happens before anything is stored. */
    method WriteByte(addr: u16, data: u8) returns (r: Result<()>)
      requires Valid()
      modifies bytes
      ensures Valid()
      ensures var w := Write(old(Contents()), addr, data);
        && (r.Ok? <==> w.Ok?)
        && (r.Ok? ==> Contents() == w.value)
        && (r.Err? ==> r.error == w.error && Contents() == old(Contents()))
    {
      if addr >= SIZE {
        return Err(AddressOutOfRange(addr));
      }
      bytes[addr] := data;
      r := Ok(());
    }
  }
}
