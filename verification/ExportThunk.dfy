/** The AArch64 stub that stands in for an entry of a private export table
    (cuda_client.cpp). The semantics of the few instructions it uses follows section
    C6.2 of the Arm Architecture Reference Manual (DDI 0487). */
module ExportThunk {

  // ----- Registers and instructions -----

  /** X0 to X30; the last element stands for the zero register, number 31 in every
      instruction used here. */
  type File = x: seq<bv64> | |x| == 32 witness seq(32, _ => 0)

  const ZR: nat := 31

  type Register = r: nat | r < 32

  function Number(r: bv5): Register { r as nat }

  function Get(x: File, r: Register): bv64 { if r == ZR then 0 else x[r] }

  function Set(x: File, r: Register, v: bv64): File { if r == ZR then x else x[r := v] }

  /** The instructions, with the half-word a move wide writes to. */
  datatype Instruction =
    | MovZ(wide: bool, rd: Register, imm: bv16, hw: bv2)
    | MovK(wide: bool, rd: Register, imm: bv16, hw: bv2)
    | MovReg(rd: Register, rm: Register)
    | Br(rn: Register)
    | Unknown

  function Rd(w: bv32): Register { Number((w & 31) as bv5) }

  function Rn(w: bv32): Register { Number(((w >> 5) & 31) as bv5) }

  function Rm(w: bv32): Register { Number(((w >> 16) & 31) as bv5) }

  function Imm(w: bv32): bv16 { ((w >> 5) & 0xffff) as bv16 }

  function Hw(w: bv32): bv2 { ((w >> 21) & 3) as bv2 }

  /** MOVZ and MOVK (C6.2, move wide with zero, with keep), ORR of a register with the
      zero register and no shift, BR. A 32-bit move wide has only two half-words. */
  function Disassemble(w: bv32): Instruction {
    if w & 0xff80_0000 == 0xd280_0000 then MovZ(true, Rd(w), Imm(w), Hw(w))
    else if w & 0xff80_0000 == 0xf280_0000 then MovK(true, Rd(w), Imm(w), Hw(w))
    else if w & 0xffc0_0000 == 0x5280_0000 then MovZ(false, Rd(w), Imm(w), Hw(w))
    else if w & 0xffc0_0000 == 0x7280_0000 then MovK(false, Rd(w), Imm(w), Hw(w))
    else if w & 0xffe0_ffe0 == 0xaa00_03e0 then MovReg(Rd(w), Rm(w))
    else if w & 0xffff_fc1f == 0xd61f_0000 then Br(Rn(w))
    else Unknown
  }

  /** A half-word in its place. */
  function Placed(imm: bv16, hw: bv2): bv64 {
    if hw == 0 then imm as bv64
    else if hw == 1 then (imm as bv64) << 16
    else if hw == 2 then (imm as bv64) << 32
    else (imm as bv64) << 48
  }

  function Hole(hw: bv2): bv64 {
    if hw == 0 then 0xffff_ffff_ffff_0000
    else if hw == 1 then 0xffff_ffff_0000_ffff
    else if hw == 2 then 0xffff_0000_ffff_ffff
    else 0x0000_ffff_ffff_ffff
  }

  function Kept(was: bv64, imm: bv16, hw: bv2): bv64 { (was & Hole(hw)) | Placed(imm, hw) }

  const LOW: bv64 := 0xffff_ffff

  /** A 32-bit destination clears the upper half of its register. */
  function Narrow(wide: bool, v: bv64): bv64 { if wide then v else v & LOW }

  /** An instruction goes on to the next or jumps to an address. */
  datatype Outcome = Next(x: File) | Jump(x: File, target: bv64) | Undefined

  function Execute(x: File, i: Instruction): Outcome {
    match i
    case MovZ(wide, rd, imm, hw) => Next(Set(x, rd, Narrow(wide, Placed(imm, hw))))
    case MovK(wide, rd, imm, hw) => Next(Set(x, rd, Narrow(wide, Kept(Get(x, rd), imm, hw))))
    case MovReg(rd, rm) => Next(Set(x, rd, Get(x, rm)))
    case Br(rn) => Jump(x, Get(x, rn))
    case Unknown => Undefined
  }

  /** Instructions one after another, up to a jump. */
  function Perform(x: File, program: seq<Instruction>): Outcome
    decreases |program|
  {
    if program == [] then Next(x)
    else
      var first := Execute(x, program[0]);
      if first.Next? then Perform(first.x, program[1..]) else first
  }

  function Decoded(code: seq<bv32>): seq<Instruction> { seq(|code|, i requires 0 <= i < |code| => Disassemble(code[i])) }

  // ----- The emitter -----

  function Half(value: bv64, hw: bv2): bv16 {
    if hw == 0 then (value & 0xffff) as bv16
    else if hw == 1 then ((value >> 16) & 0xffff) as bv16
    else if hw == 2 then ((value >> 32) & 0xffff) as bv16
    else ((value >> 48) & 0xffff) as bv16
  }

  /** The four words that put a constant together. */
  function Constant(reg: Register, value: bv64): seq<Instruction> {
    [ MovZ(true, reg, Half(value, 0), 0), MovK(true, reg, Half(value, 1), 1),
      MovK(true, reg, Half(value, 2), 2), MovK(true, reg, Half(value, 3), 3) ]
  }

  lemma Wide0(reg: bv5, value: bv64)
    ensures Disassemble(0xd280_0000 | (((value & 0xffff) as bv32) << 5) | (reg as bv32)) == MovZ(true, Number(reg), Half(value, 0), 0)
  {
  }

  lemma Wide1(reg: bv5, value: bv64)
    ensures Disassemble(0xf2a0_0000 | ((((value >> 16) & 0xffff) as bv32) << 5) | (reg as bv32)) == MovK(true, Number(reg), Half(value, 1), 1)
  {
  }

  lemma Wide2(reg: bv5, value: bv64)
    ensures Disassemble(0xf2c0_0000 | ((((value >> 32) & 0xffff) as bv32) << 5) | (reg as bv32)) == MovK(true, Number(reg), Half(value, 2), 2)
  {
  }

  lemma Wide3(reg: bv5, value: bv64)
    ensures Disassemble(0xf2e0_0000 | ((((value >> 48) & 0xffff) as bv32) << 5) | (reg as bv32)) == MovK(true, Number(reg), Half(value, 3), 3)
  {
  }

  function ConstantWords(reg: bv5, value: bv64): (w: seq<bv32>)
    ensures |w| == 4
  {
    [ 0xd280_0000 | (((value & 0xffff) as bv32) << 5) | (reg as bv32),
      0xf2a0_0000 | ((((value >> 16) & 0xffff) as bv32) << 5) | (reg as bv32),
      0xf2c0_0000 | ((((value >> 32) & 0xffff) as bv32) << 5) | (reg as bv32),
      0xf2e0_0000 | ((((value >> 48) & 0xffff) as bv32) << 5) | (reg as bv32) ]
  }

  lemma ConstantDecodes(reg: bv5, value: bv64)
    ensures Decoded(ConstantWords(reg, value)) == Constant(Number(reg), value)
  {
    Wide0(reg, value);
    Wide1(reg, value);
    Wide2(reg, value);
    Wide3(reg, value);
    FourDecoded(ConstantWords(reg, value));
  }

  lemma FourDecoded(w: seq<bv32>)
    requires |w| == 4
    ensures Decoded(w) == [Disassemble(w[0]), Disassemble(w[1]), Disassemble(w[2]), Disassemble(w[3])]
  {
  }

  /** lupine_a64_emit_mov_imm64. */
  method EmitMovImm64(out: array<bv32>, at: nat, reg: bv5, value: bv64)
    requires at + 4 <= out.Length
    modifies out
    ensures out[..] == old(out[..at]) + ConstantWords(reg, value) + old(out[at + 4..])
  {
    out[at] := 0xd280_0000 | (((value & 0xffff) as bv32) << 5) | (reg as bv32);
    out[at + 1] := 0xf2a0_0000 | ((((value >> 16) & 0xffff) as bv32) << 5) | (reg as bv32);
    out[at + 2] := 0xf2c0_0000 | ((((value >> 32) & 0xffff) as bv32) << 5) | (reg as bv32);
    out[at + 3] := 0xf2e0_0000 | ((((value >> 48) & 0xffff) as bv32) << 5) | (reg as bv32);
  }

  /** The arguments moved up two registers, the highest destination first. */
  function Shift(): seq<Instruction> {
    [ MovReg(7, 5), MovReg(6, 4), MovReg(5, 3), MovReg(4, 2), MovReg(3, 1), MovReg(2, 0) ]
  }

  function SlotHalf(slot: bv32, hw: bv2): bv16 {
    if hw == 0 then (slot & 0xffff) as bv16 else ((slot >> 16) & 0xffff) as bv16
  }

  function Slot(slot: bv32): seq<Instruction> {
    [ MovZ(false, 0, SlotHalf(slot, 0), 0), MovK(false, 0, SlotHalf(slot, 1), 1) ]
  }

  function Stub(slot: bv32, table: bv64, handler: bv64): seq<Instruction> {
    Shift() + Slot(slot) + Constant(1, table) + Constant(16, handler) + [Br(16)]
  }

  lemma ShiftWords()
    ensures Disassemble(0xaa05_03e7) == MovReg(7, 5) && Disassemble(0xaa04_03e6) == MovReg(6, 4)
    ensures Disassemble(0xaa03_03e5) == MovReg(5, 3) && Disassemble(0xaa02_03e4) == MovReg(4, 2)
    ensures Disassemble(0xaa01_03e3) == MovReg(3, 1) && Disassemble(0xaa00_03e2) == MovReg(2, 0)
    ensures Disassemble(0xd61f_0200) == Br(16)
  {
  }

  lemma SlotWords(slot: bv32)
    ensures Disassemble(0x5280_0000 | ((slot & 0xffff) << 5) | 0) == MovZ(false, 0, SlotHalf(slot, 0), 0)
    ensures Disassemble(0x72a0_0000 | (((slot >> 16) & 0xffff) << 5) | 0) == MovK(false, 0, SlotHalf(slot, 1), 1)
  {
  }

  function FirstWords(slot: bv32): (w: seq<bv32>)
    ensures |w| == 8
  {
    [ 0xaa05_03e7, 0xaa04_03e6, 0xaa03_03e5, 0xaa02_03e4, 0xaa01_03e3, 0xaa00_03e2,
      0x5280_0000 | ((slot & 0xffff) << 5) | 0,
      0x72a0_0000 | (((slot >> 16) & 0xffff) << 5) | 0 ]
  }

  lemma FirstDecodes(slot: bv32)
    ensures Decoded(FirstWords(slot)) == Shift() + Slot(slot)
  {
    ShiftWords();
    SlotWords(slot);
  }

  const BRANCH: bv32 := 0xd61f_0200

  function StubWords(slot: bv32, table: bv64, handler: bv64): seq<bv32> {
    FirstWords(slot) + ConstantWords(1, table) + ConstantWords(16, handler) + [BRANCH]
  }

  /** The words lupine_make_private_export_stub writes, */
  method MakeStub(slot: bv32, table: bv64, handler: bv64) returns (words: array<bv32>)
    ensures fresh(words) && words[..] == StubWords(slot, table, handler)
  {
    words := new bv32[17];
    WriteFirst(words, slot);
    EmitMovImm64(words, 8, 1, table);
    assert words[..12] == FirstWords(slot) + ConstantWords(1, table);
    EmitMovImm64(words, 12, 16, handler);
    words[16] := BRANCH;
  }

  method WriteFirst(words: array<bv32>, slot: bv32)
    requires words.Length == 17
    modifies words
    ensures words[..8] == FirstWords(slot)
  {
    words[0], words[1], words[2] := 0xaa05_03e7, 0xaa04_03e6, 0xaa03_03e5;
    words[3], words[4], words[5] := 0xaa02_03e4, 0xaa01_03e3, 0xaa00_03e2;
    words[6] := 0x5280_0000 | ((slot & 0xffff) << 5) | 0;
    words[7] := 0x72a0_0000 | (((slot >> 16) & 0xffff) << 5) | 0;
  }

  lemma DecodedConcat(a: seq<bv32>, b: seq<bv32>)
    ensures Decoded(a + b) == Decoded(a) + Decoded(b)
  {
  }

  lemma Numbers()
    ensures Number(0) == 0 && Number(1) == 1 && Number(2) == 2 && Number(3) == 3 && Number(4) == 4
    ensures Number(5) == 5 && Number(6) == 6 && Number(7) == 7 && Number(16) == 16
  {
  }

  /** and the program they are. */
  lemma StubDecodes(slot: bv32, table: bv64, handler: bv64)
    ensures Decoded(StubWords(slot, table, handler)) == Stub(slot, table, handler)
  {
    var a, b, c := FirstWords(slot), ConstantWords(1, table), ConstantWords(16, handler);
    DecodedConcat(a + b + c, [BRANCH]);
    DecodedConcat(a + b, c);
    DecodedConcat(a, b);
    FirstDecodes(slot);
    ConstantDecodes(1, table);
    ConstantDecodes(16, handler);
    Numbers();
    BranchDecodes();
  }

  lemma BranchDecodes()
    ensures Decoded([BRANCH]) == [Br(16)]
  {
    ShiftWords();
  }

  // ----- What the stub does -----

  /** A part that runs through leads to the part behind it. */
  lemma {:induction false} InTwo(x: File, first: seq<Instruction>, second: seq<Instruction>)
    requires Perform(x, first).Next?
    ensures Perform(x, first + second) == Perform(Perform(x, first).x, second)
    decreases |first|
  {
    if first == [] {
      assert first + second == second;
    } else {
      assert (first + second)[1..] == first[1..] + second;
      InTwo(Execute(x, first[0]).x, first[1..], second);
    }
  }

  lemma Assembled(value: bv64)
    ensures Kept(Kept(Kept(Placed(Half(value, 0), 0), Half(value, 1), 1), Half(value, 2), 2), Half(value, 3), 3) == value
  {
  }

  lemma AssembledSlot(slot: bv32)
    ensures Narrow(false, Kept(Narrow(false, Placed(SlotHalf(slot, 0), 0)), SlotHalf(slot, 1), 1)) == slot as bv64
  {
  }

  lemma OneStep(x: File, program: seq<Instruction>, next: File)
    requires program != [] && Execute(x, program[0]) == Next(next)
    ensures Perform(x, program) == Perform(next, program[1..])
  {
  }

  lemma Overwritten(x: File, r: nat, a: bv64, b: bv64)
    requires r < 32
    ensures x[r := a][r := b] == x[r := b]
  {
  }

  /** A move wide with keep over a register that was set before. */
  lemma KeepStep(x: File, wide: bool, reg: Register, imm: bv16, hw: bv2, a: bv64, program: seq<Instruction>)
    requires reg != ZR && program != [] && program[0] == MovK(wide, reg, imm, hw)
    ensures Perform(x[reg := a], program) == Perform(x[reg := Narrow(wide, Kept(a, imm, hw))], program[1..])
  {
    var b := Narrow(wide, Kept(a, imm, hw));
    Overwritten(x, reg, a, b);
    OneStep(x[reg := a], program, x[reg := b]);
  }

  /** Putting a constant together sets one register to it. */
  lemma ConstantRuns(x: File, reg: Register, value: bv64)
    requires reg != ZR
    ensures Perform(x, Constant(reg, value)) == Next(x[reg := value])
  {
    var p := Constant(reg, value);
    var a := Placed(Half(value, 0), 0);
    var b := Kept(a, Half(value, 1), 1);
    var c := Kept(b, Half(value, 2), 2);
    OneStep(x, p, x[reg := a]);
    KeepStep(x, true, reg, Half(value, 1), 1, a, p[1..]);
    KeepStep(x, true, reg, Half(value, 2), 2, b, p[2..]);
    KeepStep(x, true, reg, Half(value, 3), 3, c, p[3..]);
    assert p[1..][1..] == p[2..] && p[2..][1..] == p[3..] && p[3..][1..] == [];
    Assembled(value);
  }

  lemma TwoSteps(x: File, reg: Register, h0: bv16, h1: bv16, program: seq<Instruction>)
    requires reg != ZR && program == [MovZ(false, reg, h0, 0), MovK(false, reg, h1, 1)]
    ensures Perform(x, program) == Next(x[reg := Narrow(false, Kept(Narrow(false, Placed(h0, 0)), h1, 1))])
  {
    var a := Narrow(false, Placed(h0, 0));
    OneStep(x, program, x[reg := a]);
    KeepStep(x, false, reg, h1, 1, a, program[1..]);
    assert program[1..][1..] == [];
  }

  lemma SlotRuns(x: File, slot: bv32)
    ensures Perform(x, Slot(slot)) == Next(x[0 := slot as bv64])
  {
    AssembledSlot(slot);
    TwoSteps(x, 0, SlotHalf(slot, 0), SlotHalf(slot, 1), Slot(slot));
  }

  /** The registers after the arguments have moved up. */
  function Shifted(x: File): File { x[2 := x[0]][3 := x[1]][4 := x[2]][5 := x[3]][6 := x[4]][7 := x[5]] }

  lemma MoveStep(x: File, program: seq<Instruction>, rd: Register, rm: Register)
    requires program != [] && program[0] == MovReg(rd, rm) && rd != ZR && rm != ZR
    ensures Perform(x, program) == Perform(x[rd := x[rm]], program[1..])
  {
  }

  /** No register is overwritten before it is read. */
  lemma ShiftRuns(x: File)
    ensures Perform(x, Shift()) == Next(Shifted(x))
  {
    var p := Shift();
    var x1: File := x[7 := x[5]];
    var x2: File := x1[6 := x1[4]];
    var x3: File := x2[5 := x2[3]];
    var x4: File := x3[4 := x3[2]];
    var x5: File := x4[3 := x4[1]];
    MoveStep(x, p, 7, 5);
    MoveStep(x1, p[1..], 6, 4);
    MoveStep(x2, p[2..], 5, 3);
    MoveStep(x3, p[3..], 4, 2);
    MoveStep(x4, p[4..], 3, 1);
    MoveStep(x5, p[5..], 2, 0);
    Tails(p);
    assert x5[2 := x5[0]] == Shifted(x);
  }

  lemma Tails(p: seq<Instruction>)
    requires |p| == 6
    ensures p[1..][1..] == p[2..] && p[2..][1..] == p[3..] && p[3..][1..] == p[4..]
    ensures p[4..][1..] == p[5..] && p[5..][1..] == []
  {
  }

  lemma StubPerforms(x: File, slot: bv32, table: bv64, handler: bv64)
    ensures Perform(x, Stub(slot, table, handler)) == Jump(Shifted(x)[0 := slot as bv64][1 := table][16 := handler], handler)
  {
    var x1 := Shifted(x);
    var x2: File := x1[0 := slot as bv64];
    var x3: File := x2[1 := table];
    var a, b, c, d := Shift(), Slot(slot), Constant(1, table), Constant(16, handler);
    ShiftRuns(x);
    SlotRuns(x1, slot);
    ConstantRuns(x2, 1, table);
    ConstantRuns(x3, 16, handler);
    InTwo(x, a, b);
    InTwo(x, a + b, c);
    InTwo(x, a + b + c, d);
    InTwo(x, a + b + c + d, [Br(16)]);
    LastRuns(x3[16 := handler], [Br(16)]);
  }

  lemma LastRuns(x: File, last: seq<Instruction>)
    requires last == [Br(16)]
    ensures Perform(x, last) == Jump(x, x[16])
  {
  }

  /** The emitted words, run from the first, end in a jump to the handler with the slot
      in W0 and the upper half of X0 clear, the table in X1, the caller's X0 to X5 in X2
      to X7, and every other register but the scratch register X16 as it was: X30 holds
      the caller's return address. */
  lemma ThunkIsCorrect(x: File, slot: bv32, table: bv64, handler: bv64)
    ensures var end := Perform(x, Decoded(StubWords(slot, table, handler)));
            && end.Jump? && end.target == handler
            && end.x[0] == slot as bv64 && end.x[1] == table
            && (forall i :: 0 <= i < 6 ==> end.x[i + 2] == x[i])
            && (forall r :: 8 <= r < 32 && r != 16 ==> end.x[r] == x[r])
  {
    StubDecodes(slot, table, handler);
    StubPerforms(x, slot, table, handler);
  }
}
