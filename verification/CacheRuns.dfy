/** What the emitted code does when it runs: the memory accesses of the stack caches. */
module CacheRuns {
  import opened Words
  import opened Target
  import opened Emission
  import opened Rings
  import Uxn

  /** The machine after the code emitted so far. */
  ghost function Run(e: Emitter, m0: Machine): Machine {
    Exec(e.code, m0)
  }

  ghost function Ring(m: Machine, r: bool): seq<nat> {
    if r then m.rs else m.ws
  }

  ghost function Ptr(m: Machine, reg: Reg): nat {
    At(m.regs, reg) % 256
  }

  ghost predicate Calm(m: Machine) {
    m.Shaped() && !m.fault && m.exit == Running
  }

  predicate IsBase(base: nat) {
    base == WS_BASE || base == RS_BASE || base == DEV_BASE || base == RAM_BASE
  }

  /** The cached memory base is the one the base register holds, unless it is unknown (0). */
  ghost predicate BaseOk(e: Emitter, m: Machine) {
    && |m.regs| == NUM_REGS
    && (e.memBase == 0 || IsBase(e.memBase))
    && (e.memBase != 0 ==> m.regs[MEM_BASE] == Address(m.regs[VM], e.memBase))
  }

  ghost predicate Agree(regs: seq<nat>, regs': seq<nat>, changed: set<Reg>) {
    |regs'| == |regs| && forall x: Reg :: x < |regs| && x !in changed ==> regs'[x] == regs[x]
  }

  /** Only registers have changed. */
  ghost predicate OnlyRegs(m: Machine, m': Machine, changed: set<Reg>) {
    m' == m.(regs := m'.regs) && Agree(m.regs, m'.regs, changed)
  }

  function RegionAt(base: nat): Region {
    if base == WS_BASE then Ws else if base == RS_BASE then Rs else if base == DEV_BASE then Dev else Ram
  }

  lemma BasesDiffer(vm: nat, a: nat, b: nat)
    requires a < b < WORD
    ensures Address(vm, a) != Address(vm, b)
  {
  }

  lemma SelectedAt(m: Machine, base: nat)
    requires |m.regs| == NUM_REGS && IsBase(base) && m.regs[MEM_BASE] == Address(m.regs[VM], base)
    ensures Selected(m) == RegionAt(base)
  {
    BasesDiffer(m.regs[VM], WS_BASE, RS_BASE);
    BasesDiffer(m.regs[VM], WS_BASE, RAM_BASE);
    BasesDiffer(m.regs[VM], RS_BASE, RAM_BASE);
    BasesDiffer(m.regs[VM], WS_BASE, DEV_BASE);
    BasesDiffer(m.regs[VM], RS_BASE, DEV_BASE);
    BasesDiffer(m.regs[VM], DEV_BASE, RAM_BASE);
    hide Address;
  }

  lemma SelectedFrame(m: Machine, m': Machine)
    requires |m.regs| == |m'.regs| == NUM_REGS
    requires m'.regs[MEM_BASE] == m.regs[MEM_BASE] && m'.regs[VM] == m.regs[VM]
    ensures Selected(m') == Selected(m)
  {
  }

  lemma SetMemBaseRuns(e: Emitter, base: nat, m0: Machine)
    requires Calm(Run(e, m0)) && BaseOk(e, Run(e, m0)) && IsBase(base)
    ensures var e' := e.SetMemBase(base);
      && Calm(Run(e', m0)) && BaseOk(e', Run(e', m0)) && e'.memBase == base
      && OnlyRegs(Run(e, m0), Run(e', m0), {MEM_BASE}) && Selected(Run(e', m0)) == RegionAt(base)
  {
    hide AreBytes;
    hide Exec;
    var m, m' := Run(e, m0), Run(e.SetMemBase(base), m0);
    if e.memBase != base {
      assert m' == Step(Op2(Alu.ADD, MEM_BASE, R(VM), Imm(base)), m);
    }
    SelectedAt(m', base);
  }

  /** Writes byte "src" at the pointer "sp", which the offset register holds, and moves the
      pointer up. */
  lemma PutRuns(m: Machine, sp: Reg, src: Reg, r: bool)
    requires Calm(m) && Selected(m) == (if r then Rs else Ws)
    requires sp == StackPtr(r) && (IsOp(src) || src == TMP) && m.regs[MEM_OFFSET] == m.regs[sp] % 256
    ensures var m1 := Step(Op1(MOV_U8, Mem, R(src)), m);
      var m2 := Step(Op2(Alu.ADD, sp, R(sp), Imm(1)), m1);
      var p := Ptr(m, sp);
      && Calm(m2) && Selected(m2) == Selected(m)
      && Ring(m2, r) == Ring(m, r)[p := m.regs[src] % 256]
      && m2 == (if r then m.(rs := m2.rs) else m.(ws := m2.ws)).(regs := m2.regs)
      && Agree(m.regs, m2.regs, {sp}) && Ptr(m2, sp) == Up(p)
  {
    hide AreBytes;
    hide Selected;
    hide Exec;
    hide Step;
    StepPut(src, m);
    var m1 := Step(Op1(MOV_U8, Mem, R(src)), m);
    StepAluImm(Alu.ADD, sp, sp, 1, m1);
    SelectedFrame(m, Step(Op2(Alu.ADD, sp, R(sp), Imm(1)), m1));
    PutKeepsBytes(Ring(m, r), Ptr(m, sp), m.regs[src] % 256);
    WordUp(m.regs[sp]);
  }

  lemma PutKeepsBytes(ring: seq<nat>, p: nat, v: nat)
    requires AreBytes(ring) && p < |ring| && v < 256
    ensures AreBytes(ring[p := v])
  {
  }

  lemma PutByteRuns(m: Machine, sp: Reg, src: Reg, r: bool)
    requires Calm(m) && Selected(m) == (if r then Rs else Ws)
    requires sp == StackPtr(r) && IsOp(src)
    ensures var m1 := Step(Op1(MOV_U8, R(MEM_OFFSET), R(sp)), m);
      var m2 := Step(Op1(MOV_U8, Mem, R(src)), m1);
      var m3 := Step(Op2(Alu.ADD, sp, R(sp), Imm(1)), m2);
      PushedAll(m, m3, m.regs[src], false, r)
  {
    hide AreBytes;
    hide Selected;
    hide Exec;
    hide Step;
    StepMov(MOV_U8, MEM_OFFSET, sp, m);
    var m1 := Step(Op1(MOV_U8, R(MEM_OFFSET), R(sp)), m);
    SelectedFrame(m, m1);
    PutRuns(m1, sp, src, r);
  }

  /** One byte has been pushed on a stack in memory. */
  ghost predicate Pushed(m: Machine, m': Machine, sp: Reg, v: nat, r: bool)
    requires m.Shaped()
  {
    && Calm(m') && Selected(m') == Selected(m)
    && Ring(m', r) == Ring(m, r)[Ptr(m, sp) := v]
    && m' == (if r then m.(rs := m'.rs) else m.(ws := m'.ws)).(regs := m'.regs)
    && Agree(m.regs, m'.regs, {MEM_OFFSET, TMP, sp})
    && Ptr(m', sp) == Up(Ptr(m, sp))
  }

  /** Writes one half of a short, by way of the scratch register. */
  lemma PutHalfRuns(m: Machine, sp: Reg, reg: Reg, high: bool, r: bool)
    requires Calm(m) && Selected(m) == (if r then Rs else Ws)
    requires sp == StackPtr(r) && IsOp(reg)
    ensures var half := if high then Op2(Alu.LSHR, TMP, R(reg), Imm(8)) else Op2(Alu.AND, TMP, R(reg), Imm(0xff));
      var m1 := Step(Op1(MOV_U8, R(MEM_OFFSET), R(sp)), m);
      var m2 := Step(half, m1);
      var m3 := Step(Op1(MOV_U8, Mem, R(TMP)), m2);
      var m4 := Step(Op2(Alu.ADD, sp, R(sp), Imm(1)), m3);
      Pushed(m, m4, sp, (if high then m.regs[reg] / 256 else m.regs[reg]) % 256, r)
  {
    hide AreBytes;
    hide Exec;
    hide Calc;
    hide Selected;
    hide Exec;
    hide Step;
    StepMov(MOV_U8, MEM_OFFSET, sp, m);
    hide Pushed;
    var m1 := Step(Op1(MOV_U8, R(MEM_OFFSET), R(sp)), m);
    HalfRuns(m1, reg, high);
    var half := if high then Op2(Alu.LSHR, TMP, R(reg), Imm(8)) else Op2(Alu.AND, TMP, R(reg), Imm(0xff));
    var m2 := Step(half, m1);
    SelectedFrame(m, m2);
    PutRuns(m2, sp, TMP, r);
    PushedAfter(m, m2, Step(Op2(Alu.ADD, sp, R(sp), Imm(1)), Step(Op1(MOV_U8, Mem, R(TMP)), m2)), sp, r,
      (if high then m.regs[reg] / 256 else m.regs[reg]) % 256);
  }

  lemma PushedAfter(m: Machine, m2: Machine, m4: Machine, sp: Reg, r: bool, v: nat)
    requires Calm(m) && OnlyRegs(m, m2, {MEM_OFFSET, TMP}) && sp == StackPtr(r) && Selected(m2) == Selected(m)
    requires Calm(m4) && Selected(m4) == Selected(m2)
    requires Ring(m4, r) == Ring(m2, r)[Ptr(m2, sp) := v]
    requires m4 == (if r then m2.(rs := m4.rs) else m2.(ws := m4.ws)).(regs := m4.regs)
    requires Agree(m2.regs, m4.regs, {sp}) && Ptr(m4, sp) == Up(Ptr(m2, sp))
    ensures Pushed(m, m4, sp, v, r)
  {
    hide AreBytes;
    hide Selected;
  }

  lemma HalfRuns(m: Machine, reg: Reg, high: bool)
    requires m.exit == Running && |m.regs| == NUM_REGS && IsOp(reg)
    ensures var half := if high then Op2(Alu.LSHR, TMP, R(reg), Imm(8)) else Op2(Alu.AND, TMP, R(reg), Imm(0xff));
      var m' := Step(half, m);
      && OnlyRegs(m, m', {TMP}) && m'.regs[TMP] % 256 == (if high then m.regs[reg] / 256 else m.regs[reg]) % 256
  {
    hide Step;
    AndByte(m.regs[reg]);
    Masks();
    if high { StepAluImm(Alu.LSHR, TMP, reg, 8, m); } else { StepAluImm(Alu.AND, TMP, reg, 0xff, m); }
  }

  /** The bytes of a value have been pushed on a stack in memory. */
  ghost predicate PushedAll(m: Machine, m': Machine, v: nat, short: bool, r: bool)
    requires m.Shaped()
  {
    var sp := StackPtr(r);
    && Calm(m')
    && Ring(m', r) == Written(Ring(m, r), Ptr(m, sp), v, short)
    && m' == (if r then m.(rs := m'.rs) else m.(ws := m'.ws)).(regs := m'.regs)
    && Agree(m.regs, m'.regs, {MEM_OFFSET, TMP, sp})
    && Ptr(m', sp) == Above(Ptr(m, sp), short)
  }

  lemma PutShortRuns(m: Machine, reg: Reg, r: bool)
    requires Calm(m) && Selected(m) == (if r then Rs else Ws) && IsOp(reg)
    ensures var sp := StackPtr(r);
      var m1 := Step(Op1(MOV_U8, R(MEM_OFFSET), R(sp)), m);
      var m2 := Step(Op2(Alu.LSHR, TMP, R(reg), Imm(8)), m1);
      var m3 := Step(Op1(MOV_U8, Mem, R(TMP)), m2);
      var m4 := Step(Op2(Alu.ADD, sp, R(sp), Imm(1)), m3);
      var m5 := Step(Op1(MOV_U8, R(MEM_OFFSET), R(sp)), m4);
      var m6 := Step(Op2(Alu.AND, TMP, R(reg), Imm(0xff)), m5);
      var m7 := Step(Op1(MOV_U8, Mem, R(TMP)), m6);
      var m8 := Step(Op2(Alu.ADD, sp, R(sp), Imm(1)), m7);
      PushedAll(m, m8, m.regs[reg], true, r)
  {
    hide AreBytes;
    hide Selected;
    hide Exec;
    hide Step;
    var sp := StackPtr(r);
    PutHalfRuns(m, sp, reg, true, r);
    var m4 := Step(Op2(Alu.ADD, sp, R(sp), Imm(1)), Step(Op1(MOV_U8, Mem, R(TMP)),
      Step(Op2(Alu.LSHR, TMP, R(reg), Imm(8)), Step(Op1(MOV_U8, R(MEM_OFFSET), R(sp)), m))));
    assert m4.regs[reg] == m.regs[reg];
    PutHalfRuns(m4, sp, reg, false, r);
  }

  lemma DoPushSteps(e: Emitter, cell: Cell, r: bool, m0: Machine)
    requires var m1 := Run(e.SetMemBase(StackBase(r)), m0);
      Calm(m1) && Selected(m1) == (if r then Rs else Ws) && IsOp(cell.reg)
    ensures var m1 := Run(e.SetMemBase(StackBase(r)), m0);
      PushedAll(m1, Run(e.DoPush(cell, r), m0), m1.regs[cell.reg], cell.isShort, r)
    ensures e.DoPush(cell, r).memBase == e.SetMemBase(StackBase(r)).memBase
  {
    hide Selected;
    hide Exec;
    hide Step;
    hide Emitter.SetMemBase;
    hide PushedAll;
    var m1 := Run(e.SetMemBase(StackBase(r)), m0);
    if cell.isShort {
      PutShortRuns(m1, cell.reg, r);
    } else {
      PutByteRuns(m1, StackPtr(r), cell.reg, r);
    }
  }

  /** A cell has been written out: its bytes are pushed on the stack in memory. */
  ghost predicate CellWritten(m: Machine, m': Machine, v: nat, short: bool, r: bool)
    requires m.Shaped()
  {
    var sp := StackPtr(r);
    && Calm(m')
    && Ring(m', r) == Written(Ring(m, r), Ptr(m, sp), v, short)
    && m' == (if r then m.(rs := m'.rs) else m.(ws := m'.ws)).(regs := m'.regs)
    && Agree(m.regs, m'.regs, {MEM_BASE, MEM_OFFSET, TMP, sp})
    && Ptr(m', sp) == Above(Ptr(m, sp), short)
  }

  lemma AfterBase(m: Machine, m1: Machine, m': Machine, v: nat, short: bool, r: bool)
    requires Calm(m) && OnlyRegs(m, m1, {MEM_BASE}) && PushedAll(m1, m', v, short, r)
    ensures CellWritten(m, m', v, short, r)
  {
    hide AreBytes;
    hide Written;
    var sp := StackPtr(r);
    assert Ptr(m1, sp) == Ptr(m, sp);
  }

  lemma DoPushRuns(e: Emitter, cell: Cell, r: bool, m0: Machine)
    requires Calm(Run(e, m0)) && BaseOk(e, Run(e, m0)) && IsOp(cell.reg)
    ensures var m, m' := Run(e, m0), Run(e.DoPush(cell, r), m0);
      CellWritten(m, m', m.regs[cell.reg], cell.isShort, r) && BaseOk(e.DoPush(cell, r), m')
  {
    hide AreBytes;
    hide Exec;
    hide Step;
    hide Selected;
    SetMemBaseRuns(e, StackBase(r), m0);
    DoPushSteps(e, cell, r, m0);
    hide Emitter.SetMemBase;
    hide Emitter.DoPush;
    hide Address;
    var m, m1, m' := Run(e, m0), Run(e.SetMemBase(StackBase(r)), m0), Run(e.DoPush(cell, r), m0);
    assert m1.regs[cell.reg] == m.regs[cell.reg];
    AfterBase(m, m1, m', m.regs[cell.reg], cell.isShort, r);
    hide CellWritten;
  }

  /** Moves a pointer down and reads the byte there. */
  lemma TakeRuns(m: Machine, sp: Reg, reg: Reg, r: bool)
    requires Calm(m) && Selected(m) == (if r then Rs else Ws)
    requires (sp == WSP || sp == RSP || IsOp(sp)) && (IsOp(reg) || reg == TMP) && reg != sp
    ensures var m1 := Step(Op2(Alu.SUB, sp, R(sp), Imm(1)), m);
      var m2 := Step(Op1(MOV_U8, R(MEM_OFFSET), R(sp)), m1);
      var m3 := Step(Op1(MOV_U8, R(reg), Mem), m2);
      var p := Down(Ptr(m, sp));
      && Calm(m3) && Selected(m3) == Selected(m) && OnlyRegs(m, m3, {MEM_OFFSET, sp, reg})
      && m3.regs[reg] == Ring(m, r)[p] < 256 && Ptr(m3, sp) == p
  {
    hide Selected;
    hide Exec;
    hide Step;
    StepAluImm(Alu.SUB, sp, sp, 1, m);
    var m1 := Step(Op2(Alu.SUB, sp, R(sp), Imm(1)), m);
    WordDown(m.regs[sp]);
    StepMov(MOV_U8, MEM_OFFSET, sp, m1);
    var m2 := Step(Op1(MOV_U8, R(MEM_OFFSET), R(sp)), m1);
    SelectedFrame(m, m2);
    StepGet(reg, m2);
    SelectedFrame(m, Step(Op1(MOV_U8, R(reg), Mem), m2));
  }

  lemma ShlByte(x: Reg, m: Machine)
    requires m.exit == Running && x < |m.regs| && m.regs[x] < 256
    ensures Step(Op2(Alu.SHL, x, R(x), Imm(8)), m) == m.(regs := m.regs[x := m.regs[x] * 256])
  {
    hide Step;
    hide Exec;
    StepAluImm(Alu.SHL, x, x, 8, m);
    ShiftByte(m.regs[x]);
    assert Calc(Alu.SHL, m.regs[x], 8) == Shl(m.regs[x], 8) by { hide Shl; hide Lshr; }
    hide Calc;
  }

  lemma ShiftByte(v: nat)
    requires v < 256
    ensures Shl(v, 8) == v * 256
  {
    Masks();
    assert Shl(v, 8) == (v * Pow2(8)) % WORD;
    hide Pow2;
    hide Shl;
  }

  lemma LshrByte(x: Reg, m: Machine)
    requires m.exit == Running && x < |m.regs|
    ensures Step(Op2(Alu.LSHR, x, R(x), Imm(8)), m) == m.(regs := m.regs[x := m.regs[x] / 256])
  {
    StepAluImm(Alu.LSHR, x, x, 8, m);
    Masks();
    hide Step;
    hide Exec;
  }

  lemma OrBytes(d: Reg, x: Reg, hi: nat, lo: nat, m: Machine)
    requires m.exit == Running && d < |m.regs| && x < |m.regs| && lo < 256
    requires (m.regs[d] == hi * 256 && m.regs[x] == lo) || (m.regs[d] == lo && m.regs[x] == hi * 256)
    ensures Step(Op2(Alu.OR, d, R(d), R(x)), m) == m.(regs := m.regs[d := hi * 256 + lo])
  {
    StepAlu(Alu.OR, d, d, x, m);
    Join(hi, lo);
    hide Step;
    hide Exec;
    hide Or;
  }

  /** Reads the two bytes below a pointer as a short. */
  lemma TakeShortRuns(m: Machine, sp: Reg, reg: Reg, r: bool)
    requires Calm(m) && Selected(m) == (if r then Rs else Ws)
    requires (sp == WSP || sp == RSP || IsOp(sp)) && IsOp(reg) && reg != sp
    ensures var m1 := Step(Op2(Alu.SUB, sp, R(sp), Imm(1)), m);
      var m2 := Step(Op1(MOV_U8, R(MEM_OFFSET), R(sp)), m1);
      var m3 := Step(Op1(MOV_U8, R(reg), Mem), m2);
      var m4 := Step(Op2(Alu.SUB, sp, R(sp), Imm(1)), m3);
      var m5 := Step(Op1(MOV_U8, R(MEM_OFFSET), R(sp)), m4);
      var m6 := Step(Op1(MOV_U8, R(TMP), Mem), m5);
      var m7 := Step(Op2(Alu.SHL, TMP, R(TMP), Imm(8)), m6);
      var m8 := Step(Op2(Alu.OR, reg, R(reg), R(TMP)), m7);
      var p := Down(Ptr(m, sp));
      && Calm(m8) && OnlyRegs(m, m8, {MEM_OFFSET, TMP, sp, reg})
      && m8.regs[reg] == Ring(m, r)[Down(p)] * 256 + Ring(m, r)[p] < 0x1_0000
      && Ptr(m8, sp) == Down(p)
  {
    hide AreBytes;
    hide Selected;
    hide Exec;
    hide Step;
    TakeRuns(m, sp, reg, r);
    var m3 := Step(Op1(MOV_U8, R(reg), Mem), Step(Op1(MOV_U8, R(MEM_OFFSET), R(sp)),
      Step(Op2(Alu.SUB, sp, R(sp), Imm(1)), m)));
    TakeRuns(m3, sp, TMP, r);
    var m6 := Step(Op1(MOV_U8, R(TMP), Mem), Step(Op1(MOV_U8, R(MEM_OFFSET), R(sp)),
      Step(Op2(Alu.SUB, sp, R(sp), Imm(1)), m3)));
    ShlByte(TMP, m6);
    OrBytes(reg, TMP, m6.regs[TMP], m6.regs[reg], Step(Op2(Alu.SHL, TMP, R(TMP), Imm(8)), m6));
  }

  lemma WordUp(v: nat)
    ensures (v + 1) % WORD % 256 == Up(v % 256)
  {
    WordCut(v + 1);
  }

  lemma WordDown(v: nat)
    ensures (v - 1) % WORD % 256 == Down(v % 256)
  {
    WordCut(v - 1);
  }
}
