/** The processor (src/cpu.rs): fifteen usable registers, the index
    register, two timers, the program counter and a call stack, and the
    effect of each decoded instruction on them and on memory. */
module Cpu {
  import opened Words
  import opened Instructions
  import M = Memory

  /** The registers the source keeps in `CPU`. */
  datatype CpuState = CpuState(
    v: seq<u8>,       // vx: the 16 register slots; only V0-VE are reachable
    i: u16,           // the index register
    dt: u8,           // delay timer
    st: u8,           // sound timer
    pc: u16,          // program counter
    sp: u8,           // stack pointer: the top frame lives in stack[sp]
    stack: seq<u16>)  // 16 slots; slot 0 is never written

  predicate WellFormed(c: CpuState) {
    |c.v| == 16 && |c.stack| == 16 && c.sp <= 15
  }

  /** `CPU::new`. */
  function Initial(): (c: CpuState)
    ensures WellFormed(c)
  {
    CpuState(seq(16, _ => 0), 0, 0, 0, M.PROGRAM_START, 0, seq(16, _ => 0))
  }

  /** A fresh processor: registers, index, timers and stack all zero, and
      the program counter at the program's first byte. */
  lemma InitialState()
    ensures Initial().pc == 0x200 && Initial().sp == 0 && Initial().i == 0
    ensures Initial().dt == 0 && Initial().st == 0
    ensures forall r | 0 <= r < 16 :: Initial().v[r] == 0 && Initial().stack[r] == 0
  {
  }

  /** `read_register`: any register from 15 (VF) up panics. */
  function ReadReg(c: CpuState, r: u8): (d: Result<u8>)
    requires WellFormed(c)
    ensures d.Ok? <==> r < 15
    ensures d.Ok? ==> d.value == c.v[r]
    ensures d.Err? ==> d.error == RegisterOutOfRange(r)
  {
    if r >= 15 then Err(RegisterOutOfRange(r)) else Ok(c.v[r])
  }

  /** `write_register`: the same guard; only register `r` changes. */
  function WriteReg(c: CpuState, r: u8, data: u8): (d: Result<CpuState>)
    requires WellFormed(c)
    ensures d.Ok? <==> r < 15
    ensures d.Ok? ==> WellFormed(d.value) && d.value == c.(v := c.v[r := data])
    ensures d.Err? ==> d.error == RegisterOutOfRange(r)
  {
    if r >= 15 then Err(RegisterOutOfRange(r)) else Ok(c.(v := c.v[r := data]))
  }

  /** Reading a register back gives what was written; the other registers
      and everything else keep their values. */
  lemma ReadAfterWriteReg(c: CpuState, r: u8, data: u8, q: u8)
    requires WellFormed(c) && r < 15
    ensures ReadReg(WriteReg(c, r, data).value, q) == if q == r then Ok(data) else ReadReg(c, q)
  {
  }

  /** `self.pc += 2` when `cond` holds, with the `u16` overflow check. */
  function SkipIf(c: CpuState, cond: bool): (r: Result<CpuState>)
    requires WellFormed(c)
    ensures r.Ok? <==> !cond || c.pc + 2 < 0x1_0000
    ensures r.Ok? ==> r.value == c.(pc := if cond then c.pc + 2 else c.pc) && WellFormed(r.value)
    ensures r.Err? ==> r.error == ArithmeticOverflow
  {
    if cond then
      var pc :- CheckedAdd16(c.pc, 2);
      Ok(c.(pc := pc))
    else
      Ok(c)
  }

  /** The digits `LD_B` computes, by the source's own formula. */
  function Bcd(x: u8): (r: (u8, u8, u8))
    ensures r.0 < 10 && r.1 < 10 && r.2 < 10
    ensures 100 * r.0 + 10 * r.1 + r.2 == x
  {
    var hundreds := (x - x % 100) / 100;
    var tens := ((x - hundreds * 100) - x % 10) / 10;
    var ones := x - hundreds * 100 - tens * 10;
    (hundreds, tens, ones)
  }

  /** The formula yields the three decimal digits of `x`. */
  lemma BcdDigits(x: u8)
    ensures var (h, t, o) := Bcd(x);
      && h < 10 && t < 10 && o < 10
      && 100 * h + 10 * t + o == x
      && h == x / 100 && t == (x / 10) % 10 && o == x % 10
  {
    var (h, t, o) := Bcd(x);
    DivMulUnique(x, 100, h, 10 * t + o);
    DivMulUnique(x, 10, 10 * h + t, o);
    DivMulUnique(10 * h + t, 10, h, t);
  }

  lemma BcdExample()
    ensures Bcd(157) == (1, 5, 7) && Bcd(0) == (0, 0, 0) && Bcd(255) == (2, 5, 5)
  {
  }

  /** The loop of `LD_I_write`, from register `reg` on and storing at `addr`:
      each pass reads the register, stores it, then advances `addr`. */
  function StoreRegs(c: CpuState, mem: seq<u8>, reg: nat, x: u8, addr: u16): (r: Result<seq<u8>>)
    requires WellFormed(c) && |mem| == M.SIZE && reg <= x + 1
    ensures r.Ok? ==> |r.value| == M.SIZE
    decreases x + 1 - reg
  {
    if reg > x then Ok(mem)
    else
      var d :- ReadReg(c, reg);
      var m :- M.Write(mem, addr, d);
      StoreRegs(c, m, reg + 1, x, addr + 1)  // addr < 4096 here: `addr += 1` cannot overflow
  }

  /** The loop of `LD_I_read`: each pass reads memory, writes the register,
      then advances `addr`. */
  function LoadRegs(c: CpuState, mem: seq<u8>, reg: nat, x: u8, addr: u16): (r: Result<CpuState>)
    requires WellFormed(c) && |mem| == M.SIZE && reg <= x + 1
    ensures r.Ok? ==> WellFormed(r.value)
    decreases x + 1 - reg
  {
    if reg > x then Ok(c)
    else
      var d :- M.Read(mem, addr);
      var c' :- WriteReg(c, reg, d);
      LoadRegs(c', mem, reg + 1, x, addr + 1)  // addr < 4096 here: `addr += 1` cannot overflow
  }

  /** The outcome of an arm that changes only registers: the memory is
      passed through. */
  function Pair(r: Result<CpuState>, mem: seq<u8>): (res: Result<(CpuState, seq<u8>)>)
    requires (r.Ok? ==> WellFormed(r.value)) && |mem| == M.SIZE
    ensures res.Ok? <==> r.Ok?
    ensures res.Ok? ==> res.value == (r.value, mem)
    ensures res.Err? ==> res.error == r.error
  {
    var c :- r;
    Ok((c, mem))
  }

  /** What `SHR` and `SHL` do once their write to VF has returned: read
      `Vx` and store it shifted by one (`<<` on `u8` drops the top bit). */
  function ShiftAfterFlag(r: Result<CpuState>, x: u8, left: bool): (res: Result<CpuState>)
    requires r.Ok? ==> WellFormed(r.value)
    ensures res.Ok? ==> WellFormed(res.value)
  {
    var c :- r;
    var a :- ReadReg(c, x);
    WriteReg(c, x, if left then (2 * a) % 0x100 else a / 2)
  }

  /** `(vx & 0x80) >> 7` as SHR and SHL compute it, on the register index. */
  function FirstBit(x: u8): (r: nat)
    ensures r == x / 0x80
  {
    Pow2Values();
    AndSingleBit(x, 7);
    ShiftRightIsDiv(x, 7);
    ShiftLeftRight(ShiftRight(x, 7) % 2, 7);
    ShiftRight(Words.And(x, 0x80), 7)
  }

  // The four groups of arms of `execute`.

  predicate ControlArm(ins: Instruction) {
    ins.Sys? || ins.Cls? || ins.Ret? || ins.Jp? || ins.Call? || ins.SeByte? || ins.SneByte? ||
    ins.SeReg? || ins.SneReg? || ins.JpV0? || ins.Drw? || ins.Skp? || ins.Sknp? ||
    ins.LdRegFromKey? || ins.LdF?
  }

  predicate RegisterArm(ins: Instruction) {
    ins.LdByte? || ins.AddByte? || ins.LdReg? || ins.Or? || ins.And? || ins.Xor? || ins.LdI? ||
    ins.Rnd? || ins.LdRegFromDt? || ins.LdDtFromReg? || ins.LdStFromReg? || ins.AddI?
  }

  predicate FlagArm(ins: Instruction) {
    ins.AddReg? || ins.Sub? || ins.Shr? || ins.Subn? || ins.Shl?
  }

  predicate MemoryArm(ins: Instruction) {
    ins.LdB? || ins.LdIWrite? || ins.LdIRead?
  }

  /** `execute`: the new registers and memory, or the panic.  `rnd` is the
      byte `rand::random` returns.  The arms are grouped as the methods of
      `Cpu` execute them; only the memory arms change memory. */
  function Exec(c: CpuState, mem: seq<u8>, ins: Instruction, rnd: u8): (r: Result<(CpuState, seq<u8>)>)
    requires WellFormed(c) && |mem| == M.SIZE
    ensures r.Ok? ==> WellFormed(r.value.0) && |r.value.1| == M.SIZE
  {
    if MemoryArm(ins) then ExecMemory(c, mem, ins)
    else Pair(ExecCpu(c, ins, rnd), mem)
  }

  /** The arms that leave memory alone. */
  function ExecCpu(c: CpuState, ins: Instruction, rnd: u8): (r: Result<CpuState>)
    requires WellFormed(c) && !MemoryArm(ins)
    ensures r.Ok? ==> WellFormed(r.value)
  {
    if ControlArm(ins) then ExecControl(c, ins)
    else if RegisterArm(ins) then ExecRegister(c, ins, rnd)
    else ExecFlagged(c, ins)
  }

  /** The arms that move `pc` or the stack pointer, and the unimplemented ones. */
  function ExecControl(c: CpuState, ins: Instruction): (r: Result<CpuState>)
    requires WellFormed(c) && ControlArm(ins)
    ensures r.Ok? ==> WellFormed(r.value)
  {
    match ins
    case Sys(_) => Err(Unimplemented)
    case Cls => Err(Unimplemented)
    case Ret =>
      if c.sp == 0 then Err(StackUnderflow)
      else Ok(c.(pc := c.stack[c.sp], sp := c.sp - 1))
    case Jp(a) => Ok(c.(pc := a))
    case Call(a) =>
      if c.sp == 15 then Err(StackOverflow)
      else Ok(c.(sp := c.sp + 1, stack := c.stack[c.sp + 1 := c.pc], pc := a))
    case SeByte(x, kk) => SkipIf(c, x == kk)
    case SneByte(x, kk) => SkipIf(c, x != kk)
    case SeReg(x, y) => SkipIf(c, x == y)
    case SneReg(x, y) =>
      var a :- ReadReg(c, x);
      var b :- ReadReg(c, y);
      SkipIf(c, a != b)
    case JpV0(a) =>
      var v0 := ReadReg(c, 0).value;
      var pc :- CheckedAdd16(a, v0);
      Ok(c.(pc := pc))
    case Drw(_, _, _) => Err(Unimplemented)
    case Skp(_) => Err(Unimplemented)
    case Sknp(_) => Err(Unimplemented)
    case LdRegFromKey(_) => Err(Unimplemented)
    case LdF(_) => Err(Unimplemented)
  }

  /** The arms that set one register, the index or a timer. */
  function ExecRegister(c: CpuState, ins: Instruction, rnd: u8): (r: Result<CpuState>)
    requires WellFormed(c) && RegisterArm(ins)
    ensures r.Ok? ==> WellFormed(r.value)
  {
    match ins
    case LdByte(x, kk) => WriteReg(c, x, kk)
    case AddByte(x, kk) =>
      var a :- ReadReg(c, x);
      var d :- CheckedAdd8(a, kk);
      WriteReg(c, x, d)
    case LdReg(x, y) =>
      var d :- ReadReg(c, y);
      WriteReg(c, x, d)
    case Or(x, y) =>
      var a :- ReadReg(c, x);
      var b :- ReadReg(c, y);
      WriteReg(c, x, Or8(a, b))
    case And(x, y) =>
      var a :- ReadReg(c, x);
      var b :- ReadReg(c, y);
      WriteReg(c, x, And8(a, b))
    case Xor(x, y) =>
      var a :- ReadReg(c, x);
      var b :- ReadReg(c, y);
      WriteReg(c, x, Xor8(a, b))
    case LdI(a) => Ok(c.(i := a))
    case Rnd(x, kk) => WriteReg(c, x, And8(rnd, kk))
    case LdRegFromDt(x) => WriteReg(c, x, c.dt)
    case LdDtFromReg(x) => var a :- ReadReg(c, x); Ok(c.(dt := a))
    case LdStFromReg(x) => var a :- ReadReg(c, x); Ok(c.(st := a))
    case AddI(x) =>
      var a :- ReadReg(c, x);
      var i :- CheckedAdd16(c.i, a);
      Ok(c.(i := i))
  }

  /** The arms that also write VF. */
  function ExecFlagged(c: CpuState, ins: Instruction): (r: Result<CpuState>)
    requires WellFormed(c) && FlagArm(ins)
    ensures r.Ok? ==> WellFormed(r.value)
  {
    match ins
    case AddReg(x, y) =>
      var a :- ReadReg(c, x);
      var b :- ReadReg(c, y);
      var (d, carry) := OverflowingAdd8(a, b);
      var c1 := WriteReg(c, x, d).value;  // x < 15: the read of Vx succeeded
      WriteReg(c1, 0xF, if carry then 1 else 0)
    case Sub(x, y) =>
      var a :- ReadReg(c, x);
      var b :- ReadReg(c, y);
      var (d, borrow) := OverflowingSub8(a, b);
      var c1 := WriteReg(c, x, d).value;  // x < 15: the read of Vx succeeded
      WriteReg(c1, 0xF, if borrow then 0 else 1)
    case Shr(x) =>
      ShiftAfterFlag(WriteReg(c, 0xF, if FirstBit(x) == 1 then 1 else 0), x, false)
    case Subn(x, y) =>
      var b :- ReadReg(c, y);
      var a :- ReadReg(c, x);
      var (d, borrow) := OverflowingSub8(b, a);
      var c1 := WriteReg(c, x, d).value;  // x < 15: the read of Vx succeeded
      WriteReg(c1, 0xF, if borrow then 0 else 1)
    case Shl(x) =>
      ShiftAfterFlag(WriteReg(c, 0xF, if FirstBit(x) == 1 then 1 else 0), x, true)
  }

  /** The arms that go through memory. */
  function ExecMemory(c: CpuState, mem: seq<u8>, ins: Instruction): (r: Result<(CpuState, seq<u8>)>)
    requires WellFormed(c) && |mem| == M.SIZE && MemoryArm(ins)
    ensures r.Ok? ==> WellFormed(r.value.0) && |r.value.1| == M.SIZE
  {
    match ins
    case LdB(x) =>
      var (h, t, o) := Bcd(x);
      // Once the write at `i` succeeds, `i < 4096`, so `i + 1` and `i + 2`
      // cannot overflow.
      var m1 :- M.Write(mem, c.i, h);
      var m2 :- M.Write(m1, c.i + 1, t);
      var m3 :- M.Write(m2, c.i + 2, o);
      Ok((c, m3))
    case LdIWrite(x) =>
      var m :- StoreRegs(c, mem, 0, x, c.i);
      Ok((c, m))
    case LdIRead(x) =>
      Pair(LoadRegs(c, mem, 0, x, c.i), mem)
  }

  // ---------------------------------------------------------------------
  // Control flow

  /** `CALL` pushes the return address into the next slot; `RET` pops it
      back: the registers, `sp` and `pc` are as before the call, and only
      the stack slot written by the call differs. */
  lemma CallThenRet(c: CpuState, mem: seq<u8>, a: u16, rnd: u8)
    requires WellFormed(c) && |mem| == M.SIZE && c.sp < 15
    ensures var called := Exec(c, mem, Call(a), rnd);
      && called.Ok? && called.value.0.pc == a && called.value.0.sp == c.sp + 1
      && Exec(called.value.0, mem, Ret, rnd) == Ok((c.(stack := c.stack[c.sp + 1 := c.pc]), mem))
  {
  }

  /** `CALL` panics exactly on a full stack (15 frames), `RET` exactly on an
      empty one. */
  lemma StackGuards(c: CpuState, mem: seq<u8>, a: u16, rnd: u8)
    requires WellFormed(c) && |mem| == M.SIZE
    ensures Exec(c, mem, Call(a), rnd).Ok? <==> c.sp < 15
    ensures Exec(c, mem, Call(a), rnd).Err? ==> Exec(c, mem, Call(a), rnd).error == StackOverflow
    ensures Exec(c, mem, Ret, rnd).Ok? <==> c.sp > 0
    ensures Exec(c, mem, Ret, rnd).Err? ==> Exec(c, mem, Ret, rnd).error == StackUnderflow
  {
  }

  /** A run of `CALL`s to the given targets, one after another. */
  function Calls(c: CpuState, mem: seq<u8>, targets: seq<u16>, rnd: u8): (r: Result<CpuState>)
    requires WellFormed(c) && |mem| == M.SIZE
    ensures r.Ok? ==> WellFormed(r.value)
    decreases |targets|
  {
    if |targets| == 0 then Ok(c)
    else
      var (c', _) :- Exec(c, mem, Call(targets[0]), rnd);
      Calls(c', mem, targets[1..], rnd)
  }

  /** Calls nest at most 15 deep: a run of calls succeeds exactly when it
      leaves at most 15 frames, and then `sp` counts them. */
  lemma {:induction false} CallDepth(c: CpuState, mem: seq<u8>, targets: seq<u16>, rnd: u8)
    requires WellFormed(c) && |mem| == M.SIZE
    ensures Calls(c, mem, targets, rnd).Ok? <==> c.sp + |targets| <= 15
    ensures Calls(c, mem, targets, rnd).Ok? ==> Calls(c, mem, targets, rnd).value.sp == c.sp + |targets|
    decreases |targets|
  {
    if |targets| > 0 && c.sp < 15 {
      var (c', _) := Exec(c, mem, Call(targets[0]), rnd).value;
      CallDepth(c', mem, targets[1..], rnd);
    }
  }

  /** Whether a skip instruction's test holds.  As in the source,
      `SE Vx, byte` and `SNE Vx, byte` compare the register number, not
      its contents, with the byte, and `SE Vx, Vy` compares the two
      register numbers; only `SNE Vx, Vy` reads the registers. */
  predicate SkipTaken(c: CpuState, ins: Instruction)
    requires WellFormed(c)
    requires ins.SeByte? || ins.SneByte? || ins.SeReg? || (ins.SneReg? && ins.x < 15 && ins.y < 15)
  {
    match ins
    case SeByte(x, kk) => x == kk
    case SneByte(x, kk) => x != kk
    case SeReg(x, y) => x == y
    case SneReg(x, y) => c.v[x] != c.v[y]
  }

  /** A skip instruction advances `pc` by 2 when its test holds and changes
      nothing else; it panics only when that addition overflows `u16` or
      `SNE Vx, Vy` names VF or beyond. */
  lemma Skips(c: CpuState, mem: seq<u8>, ins: Instruction, rnd: u8)
    requires WellFormed(c) && |mem| == M.SIZE
    requires ins.SeByte? || ins.SneByte? || ins.SeReg? || ins.SneReg?
    ensures var r := Exec(c, mem, ins, rnd);
      && (r.Ok? <==> (ins.SneReg? ==> ins.x < 15 && ins.y < 15) &&
                     (SkipTaken(c, ins) ==> c.pc + 2 < 0x1_0000))
      && (r.Ok? ==> r.value == (c.(pc := c.pc + if SkipTaken(c, ins) then 2 else 0), mem))
  {
  }

  /** The departure from the textbook `SE`: with V1 = 5, `SE V1, 0x01`
      skips because it compares the register number 1 with the byte. */
  lemma SeByteComparesIndex(c: CpuState, mem: seq<u8>, rnd: u8)
    requires WellFormed(c) && |mem| == M.SIZE && c.v[1] == 5 && c.pc == 0x200
    ensures Exec(c, mem, SeByte(1, 1), rnd) == Ok((c.(pc := 0x202), mem))
    ensures Exec(c, mem, SeByte(1, 5), rnd) == Ok((c, mem))
  {
  }

  // ---------------------------------------------------------------------
  // Register arms

  /** The value an arm that writes only `Vx` stores, given that the
      registers it reads are V0-VE. */
  function StoredValue(c: CpuState, ins: Instruction, rnd: u8): u8
    requires WellFormed(c)
    requires ins.LdByte? || ins.AddByte? || ins.LdReg? || ins.Or? || ins.And? ||
             ins.Xor? || ins.Rnd? || ins.LdRegFromDt?
    requires ins.LdReg? || ins.Or? || ins.And? || ins.Xor? ==> ins.x < 15 && ins.y < 15
    requires ins.AddByte? ==> ins.x < 15 && c.v[ins.x] + ins.kk < 0x100
  {
    match ins
    case LdByte(_, kk) => kk
    case AddByte(x, kk) => c.v[x] + kk
    case LdReg(_, y) => c.v[y]
    case Or(x, y) => Or8(c.v[x], c.v[y])
    case And(x, y) => And8(c.v[x], c.v[y])
    case Xor(x, y) => Xor8(c.v[x], c.v[y])
    case Rnd(_, kk) => And8(rnd, kk)
    case LdRegFromDt(_) => c.dt
  }

  /** The arms that write one register succeed exactly when every register
      they name is V0-VE (and, for `ADD Vx, byte`, the sum fits in a byte);
      then `Vx` alone changes. */
  lemma RegisterArms(c: CpuState, mem: seq<u8>, ins: Instruction, rnd: u8)
    requires WellFormed(c) && |mem| == M.SIZE
    requires ins.LdByte? || ins.AddByte? || ins.LdReg? || ins.Or? || ins.And? ||
             ins.Xor? || ins.Rnd? || ins.LdRegFromDt?
    ensures var r := Exec(c, mem, ins, rnd);
      && (r.Ok? <==> ins.x < 15 && (ins.LdReg? || ins.Or? || ins.And? || ins.Xor? ==> ins.y < 15) &&
                     (ins.AddByte? ==> c.v[ins.x] + ins.kk < 0x100))
      && (r.Ok? ==> r.value == (c.(v := c.v[ins.x := StoredValue(c, ins, rnd)]), mem))
      && (r.Err? && ins.AddByte? && ins.x < 15 ==> r.error == ArithmeticOverflow)
  {
    ExecRegisterGroup(c, mem, ins, rnd);
    RegisterWrites(c, ins, rnd);
  }

  /** `execute` runs a register arm through its group. */
  lemma ExecRegisterGroup(c: CpuState, mem: seq<u8>, ins: Instruction, rnd: u8)
    requires WellFormed(c) && |mem| == M.SIZE && RegisterArm(ins)
    ensures Exec(c, mem, ins, rnd) == Pair(ExecRegister(c, ins, rnd), mem)
  {
    assert !MemoryArm(ins) && !ControlArm(ins);
    assert ExecCpu(c, ins, rnd) == ExecRegister(c, ins, rnd);
  }

  /** `execute` runs an arm that sets VF through its group. */
  lemma ExecFlaggedGroup(c: CpuState, mem: seq<u8>, ins: Instruction, rnd: u8)
    requires WellFormed(c) && |mem| == M.SIZE && FlagArm(ins)
    ensures Exec(c, mem, ins, rnd) == Pair(ExecFlagged(c, ins), mem)
  {
    assert !MemoryArm(ins) && !ControlArm(ins) && !RegisterArm(ins);
    assert ExecCpu(c, ins, rnd) == ExecFlagged(c, ins);
  }

  /** `RegisterArms` for the group function alone. */
  lemma RegisterWrites(c: CpuState, ins: Instruction, rnd: u8)
    requires WellFormed(c)
    requires ins.LdByte? || ins.AddByte? || ins.LdReg? || ins.Or? || ins.And? ||
             ins.Xor? || ins.Rnd? || ins.LdRegFromDt?
    ensures var r := ExecRegister(c, ins, rnd);
      && (r.Ok? <==> ins.x < 15 && (ins.LdReg? || ins.Or? || ins.And? || ins.Xor? ==> ins.y < 15) &&
                     (ins.AddByte? ==> c.v[ins.x] + ins.kk < 0x100))
      && (r.Ok? ==> r.value == c.(v := c.v[ins.x := StoredValue(c, ins, rnd)]))
      && (r.Err? && ins.AddByte? && ins.x < 15 ==> r.error == ArithmeticOverflow)
  {
  }

  /** `RND Vx, byte` never sets a bit the mask does not have. */
  lemma RndMasked(c: CpuState, mem: seq<u8>, x: u8, kk: u8, rnd: u8)
    requires WellFormed(c) && |mem| == M.SIZE && x < 15
    ensures var r := Exec(c, mem, Rnd(x, kk), rnd).value.0;
      r.v[x] <= kk && Words.And(r.v[x], kk) == r.v[x]
  {
    AndIdempotent(rnd, kk);
  }

  /** The arms that set VF always panic: `write_register` rejects
      register 15.  The panic names the first register the arm touches
      that is out of range. */
  lemma FlagArmsPanic(c: CpuState, mem: seq<u8>, ins: Instruction, rnd: u8)
    requires WellFormed(c) && |mem| == M.SIZE
    requires ins.AddReg? || ins.Sub? || ins.Subn? || ins.Shr? || ins.Shl?
    ensures var r := Exec(c, mem, ins, rnd);
      && r.Err?
      && r.error == RegisterOutOfRange(
           if ins.Shr? || ins.Shl? then 15
           else if ins.Subn? && ins.y >= 15 then ins.y
           else if ins.x >= 15 then ins.x
           else if ins.y >= 15 then ins.y
           else 15)
  {
    ExecFlaggedGroup(c, mem, ins, rnd);
    FlagWritesPanic(c, ins);
  }

  /** `FlagArmsPanic` for the group function alone. */
  lemma FlagWritesPanic(c: CpuState, ins: Instruction)
    requires WellFormed(c)
    requires ins.AddReg? || ins.Sub? || ins.Subn? || ins.Shr? || ins.Shl?
    ensures var r := ExecFlagged(c, ins);
      && r.Err?
      && r.error == RegisterOutOfRange(
           if ins.Shr? || ins.Shl? then 15
           else if ins.Subn? && ins.y >= 15 then ins.y
           else if ins.x >= 15 then ins.x
           else if ins.y >= 15 then ins.y
           else 15)
  {
  }

  // ---------------------------------------------------------------------
  // Index register and timers

  /** `LD I`, `JP V0`, `LD DT`, `LD ST` and `ADD I`: the one field each
      sets, with `u16` overflow checks where the source adds. */
  lemma IndexAndTimerArms(c: CpuState, mem: seq<u8>, ins: Instruction, rnd: u8)
    requires WellFormed(c) && |mem| == M.SIZE
    requires ins.LdI? || ins.JpV0? || ins.LdDtFromReg? || ins.LdStFromReg? || ins.AddI?
    ensures var r := Exec(c, mem, ins, rnd);
      && (ins.LdI? ==> r == Ok((c.(i := ins.nnn), mem)))
      && (ins.JpV0? ==> (r.Ok? <==> ins.nnn + c.v[0] < 0x1_0000) &&
                        (r.Ok? ==> r.value == (c.(pc := ins.nnn + c.v[0]), mem)))
      && (ins.LdDtFromReg? ==> (r.Ok? <==> ins.x < 15) &&
                               (r.Ok? ==> r.value == (c.(dt := c.v[ins.x]), mem)))
      && (ins.LdStFromReg? ==> (r.Ok? <==> ins.x < 15) &&
                               (r.Ok? ==> r.value == (c.(st := c.v[ins.x]), mem)))
      && (ins.AddI? ==> (r.Ok? <==> ins.x < 15 && c.i + c.v[ins.x] < 0x1_0000) &&
                        (r.Ok? ==> r.value == (c.(i := c.i + c.v[ins.x]), mem)))
  {
  }

  /** A decoded `JP V0, addr` never overflows: `addr` has 12 bits. */
  lemma DecodedJpV0Fits(c: CpuState, mem: seq<u8>, op: u16, rnd: u8)
    requires WellFormed(c) && |mem| == M.SIZE
    requires FromOpcode(op).Some? && FromOpcode(op).value.JpV0?
    ensures Exec(c, mem, FromOpcode(op).value, rnd).Ok?
  {
    DecodedOperandsInRange(op);
  }

  // ---------------------------------------------------------------------
  // Memory arms

  /** `LD B, Vx` stores the digits of the register NUMBER `x` (the source
      passes the index, not `Vx`) at I, I+1, I+2. */
  lemma StoreBcd(c: CpuState, mem: seq<u8>, x: u8, rnd: u8)
    requires WellFormed(c) && |mem| == M.SIZE
    ensures var r := Exec(c, mem, LdB(x), rnd);
      && (r.Ok? <==> c.i + 2 < M.SIZE)
      && (r.Err? ==> r.error == AddressOutOfRange(if c.i >= M.SIZE then c.i else M.SIZE))
      && (r.Ok? ==> r.value.0 == c && r.value.1[c.i..c.i + 3] == [x / 100, (x / 10) % 10, x % 10])
      && (r.Ok? ==> forall a | 0 <= a < M.SIZE && !(c.i <= a < c.i + 3) :: r.value.1[a] == mem[a])
  {
    BcdDigits(x);
    if c.i + 2 < M.SIZE {
      var m := Exec(c, mem, LdB(x), rnd).value.1;
      assert m[c.i..c.i + 3] == [m[c.i], m[c.i + 1], m[c.i + 2]];
    }
  }

  lemma {:induction false} StoreRegsSpec(c: CpuState, mem: seq<u8>, reg: nat, x: u8, addr: u16)
    requires WellFormed(c) && |mem| == M.SIZE && reg <= x + 1
    ensures var r := StoreRegs(c, mem, reg, x, addr);
      && (r.Ok? <==> reg > x || (x < 15 && addr + (x - reg) < M.SIZE))
      && (r.Ok? ==> forall a | 0 <= a < M.SIZE ::
            r.value[a] == if addr <= a <= addr + (x - reg) then c.v[reg + (a - addr)] else mem[a])
    ensures var r := StoreRegs(c, mem, reg, x, addr);
      r.Err? ==>
        r.error == (if reg >= 15 then RegisterOutOfRange(reg)
                    else if addr >= M.SIZE then AddressOutOfRange(addr)
                    else if 15 - reg <= M.SIZE - addr then RegisterOutOfRange(15)
                    else AddressOutOfRange(M.SIZE))
    decreases x + 1 - reg
  {
    if reg <= x && reg < 15 && addr < M.SIZE {
      StoreRegsSpec(c, mem[addr := c.v[reg]], reg + 1, x, addr + 1);
    }
  }

  lemma {:induction false} LoadRegsSpec(c: CpuState, mem: seq<u8>, reg: nat, x: u8, addr: u16)
    requires WellFormed(c) && |mem| == M.SIZE && reg <= x + 1
    ensures var r := LoadRegs(c, mem, reg, x, addr);
      && (r.Ok? <==> reg > x || (x < 15 && addr + (x - reg) < M.SIZE))
      && (r.Ok? ==> r.value == c.(v := r.value.v))
      && (r.Ok? ==> forall k | 0 <= k < 16 ::
            r.value.v[k] == if reg <= k <= x then mem[addr + (k - reg)] else c.v[k])
    ensures var r := LoadRegs(c, mem, reg, x, addr);
      r.Err? ==>
        r.error == (if addr >= M.SIZE then AddressOutOfRange(addr)
                    else if reg >= 15 then RegisterOutOfRange(reg)
                    else if M.SIZE - addr <= 15 - reg then AddressOutOfRange(M.SIZE)
                    else RegisterOutOfRange(15))
    decreases x + 1 - reg
  {
    if reg <= x && reg < 15 && addr < M.SIZE {
      LoadRegsSpec(c.(v := c.v[reg := mem[addr]]), mem, reg + 1, x, addr + 1);
    }
  }

  /** `LD [I], Vx` stores V0..Vx at I..I+x and changes no register; it
      succeeds exactly when x names no register past VE and I+x is inside
      memory.  Otherwise it panics at whichever guard the loop meets first:
      the read of VF, or the write just past the end of memory. */
  lemma RegisterDump(c: CpuState, mem: seq<u8>, x: u8, rnd: u8)
    requires WellFormed(c) && |mem| == M.SIZE
    ensures var r := Exec(c, mem, LdIWrite(x), rnd);
      && (r.Ok? <==> x < 15 && c.i + x < M.SIZE)
      && (r.Ok? ==> r.value.0 == c)
      && (r.Ok? ==> forall a | 0 <= a < M.SIZE ::
            r.value.1[a] == if c.i <= a <= c.i + x then c.v[a - c.i] else mem[a])
    ensures var r := Exec(c, mem, LdIWrite(x), rnd);
      r.Err? ==>
        r.error == (if c.i >= M.SIZE then AddressOutOfRange(c.i)
                    else if 15 <= M.SIZE - c.i then RegisterOutOfRange(15)
                    else AddressOutOfRange(M.SIZE))
  {
    StoreRegsSpec(c, mem, 0, x, c.i);
  }

  /** `LD Vx, [I]` loads V0..Vx from I..I+x and changes nothing else; it
      succeeds under the same condition as `LD [I], Vx`.  Each pass reads
      memory before writing the register, so on a tie the memory read is
      the one that panics. */
  lemma RegisterLoad(c: CpuState, mem: seq<u8>, x: u8, rnd: u8)
    requires WellFormed(c) && |mem| == M.SIZE
    ensures var r := Exec(c, mem, LdIRead(x), rnd);
      && (r.Ok? <==> x < 15 && c.i + x < M.SIZE)
      && (r.Ok? ==> r.value.1 == mem && r.value.0 == c.(v := r.value.0.v))
      && (r.Ok? ==> forall k | 0 <= k < 16 ::
            r.value.0.v[k] == if k <= x then mem[c.i + k] else c.v[k])
    ensures var r := Exec(c, mem, LdIRead(x), rnd);
      r.Err? ==>
        r.error == (if c.i >= M.SIZE then AddressOutOfRange(c.i)
                    else if M.SIZE - c.i <= 15 then AddressOutOfRange(M.SIZE)
                    else RegisterOutOfRange(15))
  {
    LoadRegsSpec(c, mem, 0, x, c.i);
  }

  /** Storing V0..Vx and loading them back from the same I is a no-op on
      the registers. */
  lemma StoreThenLoad(c: CpuState, mem: seq<u8>, x: u8, rnd: u8)
    requires WellFormed(c) && |mem| == M.SIZE && x < 15 && c.i + x < M.SIZE
    ensures Exec(c, mem, LdIWrite(x), rnd).Ok?
    ensures var stored := Exec(c, mem, LdIWrite(x), rnd).value;
      Exec(stored.0, stored.1, LdIRead(x), rnd) == Ok((c, stored.1))
  {
    RegisterDump(c, mem, x, rnd);
    var stored := Exec(c, mem, LdIWrite(x), rnd).value;
    RegisterLoad(stored.0, stored.1, x, rnd);
    var loaded := Exec(stored.0, stored.1, LdIRead(x), rnd).value.0;
    assert loaded.v == c.v;
  }

  /** The arms left as `todo!()` or `unimplemented!()` panic whatever the
      state. */
  lemma UnimplementedArms(c: CpuState, mem: seq<u8>, ins: Instruction, rnd: u8)
    requires WellFormed(c) && |mem| == M.SIZE
    ensures Exec(c, mem, ins, rnd) == Err(Unimplemented) <==>
      ins.Sys? || ins.Cls? || ins.Drw? || ins.Skp? || ins.Sknp? || ins.LdRegFromKey? || ins.LdF?
  {
    if ControlArm(ins) {
      UnimplementedControl(c, ins);
    } else if RegisterArm(ins) {
      ImplementedRegister(c, ins, rnd);
    } else if FlagArm(ins) {
      ImplementedFlagged(c, ins);
    } else {
      ImplementedMemory(c, mem, ins);
    }
  }

  /** Among the control arms, the unimplemented ones. */
  lemma UnimplementedControl(c: CpuState, ins: Instruction)
    requires WellFormed(c) && ControlArm(ins)
    ensures ExecControl(c, ins) == Err(Unimplemented) <==>
      ins.Sys? || ins.Cls? || ins.Drw? || ins.Skp? || ins.Sknp? || ins.LdRegFromKey? || ins.LdF?
  {
  }

  /** No register, index or timer arm is unimplemented. */
  lemma ImplementedRegister(c: CpuState, ins: Instruction, rnd: u8)
    requires WellFormed(c) && RegisterArm(ins)
    ensures ExecRegister(c, ins, rnd) != Err(Unimplemented)
  {
  }

  /** No arm that sets VF is unimplemented. */
  lemma ImplementedFlagged(c: CpuState, ins: Instruction)
    requires WellFormed(c) && FlagArm(ins)
    ensures ExecFlagged(c, ins) != Err(Unimplemented)
  {
  }

  /** No memory arm is unimplemented. */
  lemma ImplementedMemory(c: CpuState, mem: seq<u8>, ins: Instruction)
    requires WellFormed(c) && |mem| == M.SIZE && MemoryArm(ins)
    ensures ExecMemory(c, mem, ins) != Err(Unimplemented)
  {
    match ins
    case LdB(_) =>
    case LdIWrite(x) => StoreRegsFaults(c, mem, 0, x, c.i);
    case LdIRead(x) => LoadRegsFaults(c, mem, 0, x, c.i);
  }

  /** The register dump panics only on a register guard or a memory index. */
  lemma {:induction false} StoreRegsFaults(c: CpuState, mem: seq<u8>, reg: nat, x: u8, addr: u16)
    requires WellFormed(c) && |mem| == M.SIZE && reg <= x + 1
    ensures var r := StoreRegs(c, mem, reg, x, addr);
      r.Err? ==> r.error.RegisterOutOfRange? || r.error.AddressOutOfRange?
    decreases x + 1 - reg
  {
    if reg <= x && reg < 15 && addr < M.SIZE {
      StoreRegsFaults(c, mem[addr := c.v[reg]], reg + 1, x, addr + 1);
    }
  }

  /** The register load panics only on a memory index or a register guard. */
  lemma {:induction false} LoadRegsFaults(c: CpuState, mem: seq<u8>, reg: nat, x: u8, addr: u16)
    requires WellFormed(c) && |mem| == M.SIZE && reg <= x + 1
    ensures var r := LoadRegs(c, mem, reg, x, addr);
      r.Err? ==> r.error.RegisterOutOfRange? || r.error.AddressOutOfRange?
    decreases x + 1 - reg
  {
    if reg <= x && reg < 15 && addr < M.SIZE {
      LoadRegsFaults(c.(v := c.v[reg := mem[addr]]), mem, reg + 1, x, addr + 1);
    }
  }

  // ---------------------------------------------------------------------
  // The fetch-decode-execute step

  /** `(high_byte << 8) & low_byte`, the opcode `step` composes. */
  function ComposeOpcode(high: u8, low: u8): (r: u16)
    ensures r <= low
  {
    Words.And(high * 0x100, low)
  }

  /** The composed opcode is always 0: the shifted high byte and the low
      byte have no bit in common (the textbook composition is `|`). */
  lemma ComposedOpcodeIsZero(high: u8, low: u8)
    ensures ComposeOpcode(high, low) == 0
  {
    Pow2Values();
    AndShiftedOut(high, low, 8);
  }

  /** What `step` computes: fetch two bytes at `pc`, decode, execute.  An
      opcode that does not decode is skipped; `pc` is never advanced here. */
  function StepOutcome(c: CpuState, mem: seq<u8>, rnd: u8): (r: Result<(CpuState, seq<u8>)>)
    requires WellFormed(c) && |mem| == M.SIZE
    ensures r.Ok? ==> WellFormed(r.value.0) && |r.value.1| == M.SIZE
    ensures c.pc + 1 >= M.SIZE ==> r == Err(AddressOutOfRange(if c.pc >= M.SIZE then c.pc else c.pc + 1))
  {
    var high :- M.Read(mem, c.pc);
    var low :- M.Read(mem, c.pc + 1);  // pc < 4096 here: `pc + 1` cannot overflow
    match FromOpcode(ComposeOpcode(high, low))
    case None => Ok((c, mem))
    case Some(ins) => Exec(c, mem, ins, rnd)
  }

  /** Every step panics: out of memory when `pc` or `pc + 1` is past the
      end, and otherwise because opcode 0 decodes to `SYS 0`, which is
      unimplemented. */
  lemma StepAlwaysPanics(c: CpuState, mem: seq<u8>, rnd: u8)
    requires WellFormed(c) && |mem| == M.SIZE
    ensures StepOutcome(c, mem, rnd) ==
      if c.pc >= M.SIZE then Err(AddressOutOfRange(c.pc))
      else if c.pc + 1 >= M.SIZE then Err(AddressOutOfRange(c.pc + 1))
      else Err(Unimplemented)
  {
    if c.pc + 1 < M.SIZE {
      ComposedOpcodeIsZero(mem[c.pc], mem[c.pc + 1]);
      DecodeExample5();
    }
  }


  // ---------------------------------------------------------------------
  // The processor as the source keeps it: arrays and fields updated in place

  /** `CPU`. */
  class Cpu {
    const v: array<u8>
    var i: u16
    var dt: u8
    var st: u8
    var pc: u16
    var sp: u8
    const stack: array<u16>

    ghost predicate Valid()
      reads this
    {
      v.Length == 16 && stack.Length == 16 && sp <= 15
    }

    /** The registers as a value. */
    function State(): (c: CpuState)
      reads this, v, stack
      requires Valid()
      ensures WellFormed(c)
    {
      CpuState(v[..], i, dt, st, pc, sp, stack[..])
    }

    /** `CPU::new`. */
    constructor ()
      ensures Valid() && fresh(v) && fresh(stack)
      ensures State() == Initial()
    {
      v := new u8[16](_ => 0);
      i, dt, st, pc, sp := 0, 0, 0, M.PROGRAM_START, 0;
      stack := new u16[16](_ => 0);
      new;
      assert v[..] == Initial().v && stack[..] == Initial().stack;
    }

    /** `read_register`. */
    method ReadRegister(r: u8) returns (d: Result<u8>)
      requires Valid()
      ensures d == ReadReg(State(), r)
    {
      if r >= 15 {
        return Err(RegisterOutOfRange(r));
      }
      d := Ok(v[r]);
    }

    /** `write_register`; a rejected register changes nothing. */
    method WriteRegister(r: u8, data: u8) returns (res: Result<()>)
      requires Valid()
      modifies v
      ensures Valid()
      ensures var w := WriteReg(old(State()), r, data);
        && (res.Ok? <==> w.Ok?)
        && (res.Ok? ==> State() == w.value)
        && (res.Err? ==> res.error == w.error && State() == old(State()))
    {
      if r >= 15 {
        return Err(RegisterOutOfRange(r));
      }
      v[r] := data;
      res := Ok(());
    }

    /** `self.pc += 2` when `cond` holds. */
    method Skip(cond: bool) returns (res: Result<()>)
      requires Valid()
      modifies this
      ensures Valid()
      ensures var e := SkipIf(old(State()), cond);
        && (res.Ok? <==> e.Ok?)
        && (res.Ok? ==> State() == e.value)
        && (res.Err? ==> res.error == e.error)
    {
      if cond {
        var next :- CheckedAdd16(pc, 2);
        pc := next;
      }
      res := Ok(());
    }

    /** The rest of `SHR`/`SHL` once `write_register(0xF, ..)` has returned
        `flag`: read `Vx` and store it shifted. */
    method ShiftAfterFlagWrite(flag: Result<()>, x: u8, left: bool) returns (res: Result<()>)
      requires Valid()
      modifies v
      ensures Valid()
      ensures var e := ShiftAfterFlag(if flag.Ok? then Ok(old(State())) else Err(flag.error), x, left);
        && (res.Ok? <==> e.Ok?)
        && (res.Ok? ==> State() == e.value)
        && (res.Err? ==> res.error == e.error)
    {
      if flag.Err? {
        return Err(flag.error);
      }
      var a: u8 :- ReadRegister(x);
      res := WriteRegister(x, if left then (2 * a) % 0x100 else a / 2);
    }

    /** The loop of `LD [I], Vx`. */
    method StoreRegisters(mem: M.Memory, x: u8) returns (res: Result<()>)
      requires Valid() && mem.Valid() && mem.bytes != v
      modifies mem.bytes
      ensures mem.Valid()
      ensures var e := StoreRegs(State(), old(mem.Contents()), 0, x, i);
        && (res.Ok? <==> e.Ok?)
        && (res.Ok? ==> mem.Contents() == e.value)
        && (res.Err? ==> res.error == e.error)
    {
      var addr := i;
      var reg: nat := 0;
      while reg <= x
        invariant reg <= x + 1 && mem.Valid()
        invariant StoreRegs(State(), mem.Contents(), reg, x, addr) ==
                  StoreRegs(State(), old(mem.Contents()), 0, x, i)
        decreases x + 1 - reg
      {
        var d :- ReadRegister(reg);
        var _ :- mem.WriteByte(addr, d);
        addr := addr + 1;
        reg := reg + 1;
      }
      res := Ok(());
    }

    /** The loop of `LD Vx, [I]`. */
    method LoadRegisters(mem: M.Memory, x: u8) returns (res: Result<()>)
      requires Valid() && mem.Valid() && mem.bytes != v
      modifies v
      ensures Valid()
      ensures var e := LoadRegs(old(State()), mem.Contents(), 0, x, i);
        && (res.Ok? <==> e.Ok?)
        && (res.Ok? ==> State() == e.value)
        && (res.Err? ==> res.error == e.error)
    {
      var addr := i;
      var reg: nat := 0;
      while reg <= x
        invariant reg <= x + 1 && Valid()
        invariant LoadRegs(State(), mem.Contents(), reg, x, addr) ==
                  LoadRegs(old(State()), mem.Contents(), 0, x, i)
        decreases x + 1 - reg
      {
        var d :- mem.ReadByte(addr);
        var _ :- WriteRegister(reg, d);
        addr := addr + 1;
        reg := reg + 1;
      }
      res := Ok(());
    }

    /** The arms of `execute` that move `pc` or the stack pointer, and the
        ones that are not implemented. */
    method ExecuteControl(ins: Instruction) returns (res: Result<()>)
      requires Valid() && ControlArm(ins)
      modifies this, stack
      ensures Valid()
      ensures var e := ExecControl(old(State()), ins);
        && (res.Ok? <==> e.Ok?)
        && (res.Ok? ==> State() == e.value)
        && (res.Err? ==> res.error == e.error)
    {
      match ins
      case Sys(_) => res := Err(Unimplemented);
      case Cls => res := Err(Unimplemented);
      case Ret =>
        if sp == 0 {
          return Err(StackUnderflow);
        }
        pc := stack[sp];
        sp := sp - 1;
        res := Ok(());
      case Jp(a) =>
        pc := a;
        res := Ok(());
      case Call(a) =>
        if sp == 15 {
          return Err(StackOverflow);
        }
        sp := sp + 1;
        stack[sp] := pc;
        pc := a;
        res := Ok(());
      case SeByte(x, kk) => res := Skip(x == kk);
      case SneByte(x, kk) => res := Skip(x != kk);
      case SeReg(x, y) => res := Skip(x == y);
      case SneReg(x, y) =>
        var a :- ReadRegister(x);
        var b :- ReadRegister(y);
        res := Skip(a != b);
      case JpV0(a) =>
        var v0 := ReadRegister(0);
        var next :- CheckedAdd16(a, v0.value);
        pc := next;
        res := Ok(());
      case Drw(_, _, _) => res := Err(Unimplemented);
      case Skp(_) => res := Err(Unimplemented);
      case Sknp(_) => res := Err(Unimplemented);
      case LdRegFromKey(_) => res := Err(Unimplemented);
      case LdF(_) => res := Err(Unimplemented);
    }

    /** The arms of `execute` that set one register, the index or a timer. */
    method ExecuteRegisters(ins: Instruction, rnd: u8) returns (res: Result<()>)
      requires Valid() && RegisterArm(ins)
      modifies this, v
      ensures Valid()
      ensures var e := ExecRegister(old(State()), ins, rnd);
        && (res.Ok? <==> e.Ok?)
        && (res.Ok? ==> State() == e.value)
        && (res.Err? ==> res.error == e.error)
    {
      match ins
      case LdByte(x, kk) => res := WriteRegister(x, kk);
      case AddByte(x, kk) =>
        var a :- ReadRegister(x);
        var d :- CheckedAdd8(a, kk);
        res := WriteRegister(x, d);
      case LdReg(x, y) =>
        var d :- ReadRegister(y);
        res := WriteRegister(x, d);
      case Or(x, y) =>
        var a :- ReadRegister(x);
        var b :- ReadRegister(y);
        res := WriteRegister(x, Or8(a, b));
      case And(x, y) =>
        var a :- ReadRegister(x);
        var b :- ReadRegister(y);
        res := WriteRegister(x, And8(a, b));
      case Xor(x, y) =>
        var a :- ReadRegister(x);
        var b :- ReadRegister(y);
        res := WriteRegister(x, Xor8(a, b));
      case LdI(a) =>
        i := a;
        res := Ok(());
      case Rnd(x, kk) => res := WriteRegister(x, And8(rnd, kk));
      case LdRegFromDt(x) => res := WriteRegister(x, dt);
      case LdDtFromReg(x) =>
        var a :- ReadRegister(x);
        dt := a;
        res := Ok(());
      case LdStFromReg(x) =>
        var a :- ReadRegister(x);
        st := a;
        res := Ok(());
      case AddI(x) =>
        var a :- ReadRegister(x);
        var next :- CheckedAdd16(i, a);
        i := next;
        res := Ok(());
    }

    /** The arms of `execute` that also write VF. */
    method ExecuteFlagged(ins: Instruction) returns (res: Result<()>)
      requires Valid() && FlagArm(ins)
      modifies v
      ensures Valid()
      ensures var e := ExecFlagged(old(State()), ins);
        && (res.Ok? <==> e.Ok?)
        && (res.Ok? ==> State() == e.value)
        && (res.Err? ==> res.error == e.error)
    {
      match ins
      case AddReg(x, y) =>
        var a :- ReadRegister(x);
        var b :- ReadRegister(y);
        var (d, carry) := OverflowingAdd8(a, b);
        var _ := WriteRegister(x, d);  // x < 15 was checked by the read
        res := WriteRegister(0xF, if carry then 1 else 0);
      case Sub(x, y) =>
        var a :- ReadRegister(x);
        var b :- ReadRegister(y);
        var (d, borrow) := OverflowingSub8(a, b);
        var _ := WriteRegister(x, d);  // x < 15 was checked by the read
        res := WriteRegister(0xF, if borrow then 0 else 1);
      case Shr(x) =>
        var flag := WriteRegister(0xF, if FirstBit(x) == 1 then 1 else 0);
        res := ShiftAfterFlagWrite(flag, x, false);
      case Subn(x, y) =>
        var b :- ReadRegister(y);
        var a :- ReadRegister(x);
        var (d, borrow) := OverflowingSub8(b, a);
        var _ := WriteRegister(x, d);  // x < 15 was checked by the read
        res := WriteRegister(0xF, if borrow then 0 else 1);
      case Shl(x) =>
        var flag := WriteRegister(0xF, if FirstBit(x) == 1 then 1 else 0);
        res := ShiftAfterFlagWrite(flag, x, true);
    }

    /** The arms of `execute` that go through memory. */
    method ExecuteMemory(mem: M.Memory, ins: Instruction) returns (res: Result<()>)
      requires Valid() && mem.Valid() && mem.bytes != v && MemoryArm(ins)
      modifies v, mem.bytes
      ensures Valid() && mem.Valid()
      ensures var e := ExecMemory(old(State()), old(mem.Contents()), ins);
        && (res.Ok? <==> e.Ok?)
        && (res.Ok? ==> State() == e.value.0 && mem.Contents() == e.value.1)
        && (res.Err? ==> res.error == e.error)
    {
      match ins
      case LdB(x) =>
        var (h, t, o) := Bcd(x);
        var _ :- mem.WriteByte(i, h);
        var _ :- mem.WriteByte(i + 1, t);
        res := mem.WriteByte(i + 2, o);
      case LdIWrite(x) => res := StoreRegisters(mem, x);
      case LdIRead(x) => res := LoadRegisters(mem, x);
    }

    /** `execute`; `rnd` is the byte `rand::random` returns. */
    method Execute(mem: M.Memory, ins: Instruction, rnd: u8) returns (res: Result<()>)
      requires Valid() && mem.Valid() && mem.bytes != v
      modifies this, v, stack, mem.bytes
      ensures Valid() && mem.Valid()
      ensures var e := Exec(old(State()), old(mem.Contents()), ins, rnd);
        && (res.Ok? <==> e.Ok?)
        && (res.Ok? ==> State() == e.value.0 && mem.Contents() == e.value.1)
        && (res.Err? ==> res.error == e.error)
    {
      if MemoryArm(ins) {
        res := ExecuteMemory(mem, ins);
      } else {
        res := ExecuteCpu(ins, rnd);
      }
    }

    /** The arms of `execute` that leave memory alone. */
    method ExecuteCpu(ins: Instruction, rnd: u8) returns (res: Result<()>)
      requires Valid() && !MemoryArm(ins)
      modifies this, v, stack
      ensures Valid()
      ensures var e := ExecCpu(old(State()), ins, rnd);
        && (res.Ok? <==> e.Ok?)
        && (res.Ok? ==> State() == e.value)
        && (res.Err? ==> res.error == e.error)
    {
      if ControlArm(ins) {
        res := ExecuteControl(ins);
      } else if RegisterArm(ins) {
        res := ExecuteRegisters(ins, rnd);
      } else {
        res := ExecuteFlagged(ins);
      }
    }

    /** `step`. */
    method Step(mem: M.Memory, rnd: u8) returns (res: Result<()>)
      requires Valid() && mem.Valid() && mem.bytes != v
      modifies this, v, stack, mem.bytes
      ensures Valid() && mem.Valid()
      ensures var e := StepOutcome(old(State()), old(mem.Contents()), rnd);
        && (res.Ok? <==> e.Ok?)
        && (res.Ok? ==> State() == e.value.0 && mem.Contents() == e.value.1)
        && (res.Err? ==> res.error == e.error)
    {
      var high :- mem.ReadByte(pc);
      var low :- mem.ReadByte(pc + 1);
      var opcode := ComposeOpcode(high, low);
      match FromOpcode(opcode)
      case None => res := Ok(());
      case Some(ins) => res := Execute(mem, ins, rnd);
    }
  }
}
