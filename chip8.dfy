/** The machine (src/chip8.rs): a processor and its memory, and the loader
    that copies a program image into memory from `PROGRAM_START`. */
module Chip8 {
  import opened Words
  import M = Memory
  import C = Cpu

  /** The loop of `load_rom` from `rom`'s first byte on, storing at `addr`:
      each pass writes one byte, then advances `addr`. */
  function Load(mem: seq<u8>, rom: seq<u8>, addr: u16): (r: Result<seq<u8>>)
    requires |mem| == M.SIZE
    ensures r.Ok? ==> |r.value| == M.SIZE
    decreases |rom|
  {
    if |rom| == 0 then Ok(mem)
    else
      var m :- M.Write(mem, addr, rom[0]);
      Load(m, rom[1..], addr + 1)  // addr < 4096 here: `addr += 1` cannot overflow
  }

  /** Loading succeeds exactly when the image ends inside memory; memory
      then holds the image from `addr` on and is unchanged elsewhere.  A
      failure is the first store past the end. */
  lemma {:induction false} LoadSpec(mem: seq<u8>, rom: seq<u8>, addr: u16)
    requires |mem| == M.SIZE
    ensures var r := Load(mem, rom, addr);
      && (r.Ok? <==> |rom| == 0 || addr + |rom| <= M.SIZE)
      && (r.Ok? && |rom| > 0 ==> r.value == mem[..addr] + rom + mem[addr + |rom|..])
      && (r.Err? ==> r.error == AddressOutOfRange(if addr >= M.SIZE then addr else M.SIZE))
    decreases |rom|
  {
    if |rom| > 0 && addr < M.SIZE {
      var m := mem[addr := rom[0]];
      LoadSpec(m, rom[1..], addr + 1);
      if addr + |rom| <= M.SIZE {
        var r := Load(m, rom[1..], addr + 1).value;
        if |rom| > 1 {
          assert r == m[..addr + 1] + rom[1..] + m[addr + |rom|..];
          assert m[..addr + 1] == mem[..addr] + [rom[0]];
          assert m[addr + |rom|..] == mem[addr + |rom|..];
          assert [rom[0]] + rom[1..] == rom;
        } else {
          assert r == m;
          assert m == mem[..addr] + [rom[0]] + mem[addr + 1..];
        }
      }
    }
  }

  /** The largest program `load_rom` accepts is 4096 - 0x200 = 3584 bytes. */
  lemma RomCapacity(mem: seq<u8>, rom: seq<u8>)
    requires |mem| == M.SIZE
    ensures Load(mem, rom, M.PROGRAM_START).Ok? <==> |rom| <= 3584
  {
    LoadSpec(mem, rom, M.PROGRAM_START);
  }

  /** Loading never touches the bytes below `PROGRAM_START`: the font and
      the interpreter area survive. */
  lemma LoadKeepsLowMemory(mem: seq<u8>, rom: seq<u8>)
    requires |mem| == M.SIZE && |rom| <= 3584
    ensures var r := Load(mem, rom, M.PROGRAM_START);
      r.Ok? && r.value[..M.PROGRAM_START] == mem[..M.PROGRAM_START]
  {
    LoadSpec(mem, rom, M.PROGRAM_START);
  }

  /** `Chip8`. */
  class Chip8 {
    const cpu: C.Cpu
    const memory: M.Memory

    ghost predicate Valid()
      reads this, cpu, memory
    {
      cpu.Valid() && memory.Valid() && memory.bytes != cpu.v
    }

    /** `Chip8::new`. */
    constructor ()
      ensures Valid() && fresh(cpu) && fresh(memory)
      ensures cpu.State() == C.Initial() && memory.Contents() == M.Initial()
    {
      cpu := new C.Cpu();
      memory := new M.Memory();
    }

    /** `load_rom`: copy `rom` into memory from `PROGRAM_START`; the
        processor is not touched. */
    method LoadRom(rom: seq<u8>) returns (res: Result<()>)
      requires Valid()
      modifies memory.bytes
      ensures Valid() && cpu.State() == old(cpu.State())
      ensures var e := Load(old(memory.Contents()), rom, M.PROGRAM_START);
        && (res.Ok? <==> e.Ok?)
        && (res.Ok? ==> memory.Contents() == e.value)
        && (res.Err? ==> res.error == e.error)
    {
      var addr: u16 := M.PROGRAM_START;
      for k := 0 to |rom|
        invariant memory.Valid()
        invariant Load(memory.Contents(), rom[k..], addr) ==
                  Load(old(memory.Contents()), rom, M.PROGRAM_START)
      {
        assert rom[k..][1..] == rom[k + 1..];
        var _ :- memory.WriteByte(addr, rom[k]);
        addr := addr + 1;
      }
      res := Ok(());
    }
  }
}
