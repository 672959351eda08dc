/** What the emitted code computes: loads, stores, literals and arithmetic, in terms of the
    reference interpreter's functions. */
module Values {
  import opened Words
  import opened Target
  import opened Emission
  import opened Allocator
  import opened Rings
  import opened CacheRuns
  import opened CacheSound
  import opened PopSound
  import Uxn

  /** A step that only changes a register with no other holder, and scratch registers. */
  lemma ComputedGood(e: Emitter, e': Emitter, m0: Machine, s: Snap, held: multiset<Reg>, reg: Reg, v: nat)
    requires Good(e, m0, s, held) && SameBooks(e, e') && BaseOk(e', Run(e', m0))
    requires OnlyRegs(Run(e, m0), Run(e', m0), {MEM_BASE, MEM_OFFSET, TMP, reg})
    requires At(Run(e', m0).regs, reg) == v && IsOp(reg) && reg in held
    requires Unused(e.wcache, reg) && Unused(e.rcache, reg)
    ensures Good(e', m0, s.(vals := s.vals[reg := v]), held)
  {
    hide Exec;
    assert GoodCache(e.wcache) && GoodCache(e.rcache);
    BooksInv(e, e', held);
    hide Inv;
    var s1 := s.(vals := s.vals - {reg});
    var m, m' := Run(e, m0), Run(e', m0);
    assert SideRel(e.wcache, m, s1, false) && SideRel(e.rcache, m, s1, true) by { hide Stacked; hide InRange; }
    hide SideRel;
    RelFrame(e, m, e', m', s1, {MEM_BASE, MEM_OFFSET, TMP, reg});
    hide AreBytes;
    hide BaseOk;
    SideVals(e', m', s1, s.(vals := s.vals[reg := v]));
  }

  lemma SideVals(e: Emitter, m: Machine, s: Snap, s': Snap)
    requires SideRel(e.wcache, m, s, false) && SideRel(e.rcache, m, s, true)
    requires s'.w == s.w && s'.r == s.r && s'.wOrigin == s.wOrigin && s'.rOrigin == s.rOrigin
    ensures SideRel(e.wcache, m, s', false) && SideRel(e.rcache, m, s', true)
  {
    hide Stacked;
    hide InRange;
  }

  // ---- loads ----

  /** Selects main memory and points at an address. */
  lemma PointRuns(e: Emitter, addr: Reg, m0: Machine)
    requires Calm(Run(e, m0)) && BaseOk(e, Run(e, m0)) && IsOp(addr)
    ensures var e' := e.SetMemBase(RAM_BASE).Emit(Op1(MOV_U16, R(MEM_OFFSET), R(addr)));
      var m, m' := Run(e, m0), Run(e', m0);
      && Calm(m') && BaseOk(e', m') && Selected(m') == Ram && OnlyRegs(m, m', {MEM_BASE, MEM_OFFSET})
      && m'.regs[MEM_OFFSET] == m.regs[addr] % 0x1_0000
  {
    hide Exec;
    hide Step;
    hide Selected;
    hide AreBytes;
    SetMemBaseRuns(e, RAM_BASE, m0);
    var e1 := e.SetMemBase(RAM_BASE);
    var m1 := Run(e1, m0);
    hide Emitter.SetMemBase;
    StepMov(MOV_U16, MEM_OFFSET, addr, m1);
    var m' := Step(Op1(MOV_U16, R(MEM_OFFSET), R(addr)), m1);
    SelectedFrame(m1, m');
    BaseFrame(e1, e1.Emit(Op1(MOV_U16, R(MEM_OFFSET), R(addr))), m1, m', {MEM_OFFSET});
    hide Address;
  }

  lemma LoadByteRuns(reg: Reg, m: Machine)
    requires Calm(m) && Selected(m) == Ram && m.regs[MEM_OFFSET] < 0x1_0000 && reg < NUM_REGS && reg != MEM_BASE && reg != VM
    ensures var m' := Step(Op1(MOV_U8, R(reg), Mem), m);
      && Calm(m') && Selected(m') == Ram && OnlyRegs(m, m', {reg})
      && m'.regs[reg] == m.ram[m.regs[MEM_OFFSET]] < 256
  {
    hide Exec;
    hide Step;
    hide Selected;
    StepGet(reg, m);
    SelectedFrame(m, Step(Op1(MOV_U8, R(reg), Mem), m));
  }

  /** Moves the offset register to the next address, wrapping as the address width asks. */
  lemma NextRuns(wide: bool, m: Machine)
    requires Calm(m) && Selected(m) == Ram && m.regs[MEM_OFFSET] < 0x1_0000
    ensures var m1 := Step(Op2(Alu.ADD, MEM_OFFSET, R(MEM_OFFSET), Imm(1)), m);
      var m2 := Step(Op2(Alu.AND, MEM_OFFSET, R(MEM_OFFSET), Mask(wide)), m1);
      && Calm(m2) && Selected(m2) == Ram && OnlyRegs(m, m2, {MEM_OFFSET})
      && m2.regs[MEM_OFFSET] == Uxn.After(m.regs[MEM_OFFSET], wide) < 0x1_0000
  {
    hide Exec;
    hide Step;
    hide Selected;
    hide AreBytes;
    var at := m.regs[MEM_OFFSET];
    StepAluImm(Alu.ADD, MEM_OFFSET, MEM_OFFSET, 1, m);
    var m1 := Step(Op2(Alu.ADD, MEM_OFFSET, R(MEM_OFFSET), Imm(1)), m);
    assert m1.regs[MEM_OFFSET] == at + 1;
    StepAluImm(Alu.AND, MEM_OFFSET, MEM_OFFSET, if wide then 0xffff else 0xff, m1);
    AndByte(at + 1);
    AndShort(at + 1);
    hide Words.And;
    SelectedFrame(m, Step(Op2(Alu.AND, MEM_OFFSET, R(MEM_OFFSET), Mask(wide)), m1));
  }

  /** The second half of loading a short. */
  lemma LoadLowRuns(reg: Reg, wide: bool, m: Machine)
    requires Calm(m) && Selected(m) == Ram && m.regs[MEM_OFFSET] < 0x1_0000 && IsOp(reg) && m.regs[reg] < 256
    ensures var m1 := Step(Op2(Alu.SHL, reg, R(reg), Imm(8)), m);
      var m2 := Step(Op2(Alu.ADD, MEM_OFFSET, R(MEM_OFFSET), Imm(1)), m1);
      var m3 := Step(Op2(Alu.AND, MEM_OFFSET, R(MEM_OFFSET), Mask(wide)), m2);
      var m4 := Step(Op1(MOV_U8, R(TMP), Mem), m3);
      var m5 := Step(Op2(Alu.OR, reg, R(reg), R(TMP)), m4);
      && OnlyRegs(m, m5, {MEM_OFFSET, TMP, reg})
      && m5.regs[reg] == m.regs[reg] * 256 + Uxn.Peek(m.ram, Uxn.After(m.regs[MEM_OFFSET], wide))
  {
    hide Exec;
    hide Step;
    hide Selected;
    hide AreBytes;
    ShlByte(reg, m);
    var m1 := Step(Op2(Alu.SHL, reg, R(reg), Imm(8)), m);
    SelectedFrame(m, m1);
    NextRuns(wide, m1);
    var m3 := Step(Op2(Alu.AND, MEM_OFFSET, R(MEM_OFFSET), Mask(wide)), Step(Op2(Alu.ADD, MEM_OFFSET, R(MEM_OFFSET), Imm(1)), m1));
    LoadByteRuns(TMP, m3);
    OrBytes(reg, TMP, m.regs[reg], m3.ram[m3.regs[MEM_OFFSET]], Step(Op1(MOV_U8, R(TMP), Mem), m3));
  }

  lemma LoadToRuns(e: Emitter, reg: Reg, addr: Reg, wide: bool, short: bool, m0: Machine)
    requires Calm(Run(e, m0)) && BaseOk(e, Run(e, m0)) && IsOp(addr) && IsOp(reg)
    ensures var e' := e.LoadTo(reg, addr, wide, short); var m, m' := Run(e, m0), Run(e', m0);
      && BaseOk(e', m') && OnlyRegs(m, m', {MEM_BASE, MEM_OFFSET, TMP, reg})
      && m'.regs[reg] == Uxn.Fetch(m.ram, m.regs[addr] % 0x1_0000, wide, short)
  {
    hide Exec;
    hide Step;
    hide Selected;
    hide AreBytes;
    PointRuns(e, addr, m0);
    var e1 := e.SetMemBase(RAM_BASE).Emit(Op1(MOV_U16, R(MEM_OFFSET), R(addr)));
    var m1 := Run(e1, m0);
    LoadByteRuns(reg, m1);
    var m2 := Step(Op1(MOV_U8, R(reg), Mem), m1);
    hide Emitter.SetMemBase;
    if short { LoadLowRuns(reg, wide, m2); }
    var e' := e.LoadTo(reg, addr, wide, short);
    BaseFrame(e1, e', m1, Run(e', m0), {MEM_OFFSET, TMP, reg});
    hide BaseOk;
  }

  /** A load into a register the opcode alone holds. */
  lemma LoadGood(e: Emitter, reg: Reg, addr: Reg, wide: bool, short: bool, m0: Machine, s: Snap, held: multiset<Reg>)
    requires Good(e, m0, s, held) && addr in s.vals && IsOp(reg) && reg in held && e.Count(reg) == 1
    ensures var v := Uxn.Fetch(s.ram, s.vals[addr] % 0x1_0000, wide, short);
      && Good(e.LoadTo(reg, addr, wide, short), m0, s.(vals := s.vals[reg := v]), held)
      && v < if short then 0x1_0000 else 256
  {
    hide Exec;
    hide Emitter.LoadTo;
    var m := Run(e, m0);
    assert IsOp(addr) && m.regs[addr] == s.vals[addr];
    LoadToRuns(e, reg, addr, wide, short, m0);
    LoadToBooks(e, reg, addr, wide, short);
    FetchBound(s.ram, s.vals[addr] % 0x1_0000, wide, short);
    SoleHolder(e, held, reg);
    hide Inv;
    hide SideRel;
    ComputedGood(e, e.LoadTo(reg, addr, wide, short), m0, s, held, reg, Uxn.Fetch(s.ram, s.vals[addr] % 0x1_0000, wide, short));
  }

  lemma FetchBound(ram: Uxn.Bytes, at: nat, wide: bool, short: bool)
    requires AreBytes(ram)
    ensures Uxn.Fetch(ram, at, wide, short) < if short then 0x1_0000 else 256
  {
  }

  // ---- literals ----

  lemma ImmediateRuns(e: Emitter, reg: Reg, pc: nat, short: bool, m0: Machine)
    requires Calm(Run(e, m0)) && BaseOk(e, Run(e, m0)) && IsOp(reg) && pc < 0x1_0000
    ensures var e' := e.LiteralTo(reg, pc, short); var m, m' := Run(e, m0), Run(e', m0);
      && BaseOk(e', m') && OnlyRegs(m, m', {MEM_BASE, MEM_OFFSET, TMP, reg})
      && m'.regs[reg] == Uxn.Fetch(m.ram, pc, true, short)
  {
    hide Exec;
    hide Step;
    hide Selected;
    SetMemBaseRuns(e, RAM_BASE, m0);
    var e0 := e.SetMemBase(RAM_BASE);
    var m1 := Run(e0, m0);
    hide Emitter.SetMemBase;
    StepMovImm(MOV_U16, MEM_OFFSET, pc, m1);
    var m2 := Step(Op1(MOV_U16, R(MEM_OFFSET), Imm(pc)), m1);
    SelectedFrame(m1, m2);
    if !short {
      LoadByteRuns(reg, m2);
    } else if pc < 0xffff {
      SwappedLoad(reg, m2);
    } else {
      WrappedLoad(reg, m2);
    }
    var e' := e.LiteralTo(reg, pc, short);
    BaseFrame(e0, e', m1, Run(e', m0), {MEM_OFFSET, TMP, reg});
    hide BaseOk;
  }

  /** A little-endian load with its bytes swapped is the big-endian short. */
  lemma SwappedLoad(reg: Reg, m: Machine)
    requires Calm(m) && Selected(m) == Ram && m.regs[MEM_OFFSET] < 0xffff && IsOp(reg)
    ensures var m' := Step(RevU16(reg), Step(LoadU16(reg), m));
      OnlyRegs(m, m', {reg}) && m'.regs[reg] == Uxn.Fetch(m.ram, m.regs[MEM_OFFSET], true, true)
  {
    hide Exec;
    hide Selected;
    hide Calc;
    var at := m.regs[MEM_OFFSET];
    assert m.ram[at] < 256 && m.ram[at + 1] < 256;
    hide AreBytes;
    var m1 := Step(LoadU16(reg), m);
    assert m1 == m.(regs := m.regs[reg := m.ram[at] + 256 * m.ram[at + 1]]);
    SwapBytes(m.ram[at], m.ram[at + 1]);
  }

  lemma SwapBytes(a: nat, b: nat)
    requires a < 256 && b < 256
    ensures (a + 256 * b) % 256 * 256 + (a + 256 * b) / 256 % 256 == a * 256 + b
  {
  }

  /** A literal whose second byte is at address 0. */
  lemma WrappedLoad(reg: Reg, m: Machine)
    requires Calm(m) && Selected(m) == Ram && m.regs[MEM_OFFSET] == 0xffff && IsOp(reg)
    ensures var m1 := Step(Op1(MOV_U8, R(reg), Mem), m);
      var m2 := Step(Op2(Alu.SHL, reg, R(reg), Imm(8)), m1);
      var m3 := Step(Op1(MOV_U16, R(MEM_OFFSET), Imm(0x1_0000)), m2);
      var m4 := Step(Op1(MOV_U8, R(TMP), Mem), m3);
      var m5 := Step(Op2(Alu.OR, reg, R(reg), R(TMP)), m4);
      OnlyRegs(m, m5, {MEM_OFFSET, TMP, reg}) && m5.regs[reg] == Uxn.Fetch(m.ram, 0xffff, true, true)
  {
    hide Exec;
    hide Step;
    hide Selected;
    hide AreBytes;
    LoadByteRuns(reg, m);
    var m1 := Step(Op1(MOV_U8, R(reg), Mem), m);
    ShlByte(reg, m1);
    var m2 := Step(Op2(Alu.SHL, reg, R(reg), Imm(8)), m1);
    StepMovImm(MOV_U16, MEM_OFFSET, 0x1_0000, m2);
    var m3 := Step(Op1(MOV_U16, R(MEM_OFFSET), Imm(0x1_0000)), m2);
    SelectedFrame(m1, m3);
    LoadByteRuns(TMP, m3);
    OrBytes(reg, TMP, m1.regs[reg], m3.ram[0], Step(Op1(MOV_U8, R(TMP), Mem), m3));
  }

  lemma LiteralToBooks(e: Emitter, reg: Reg, pc: nat, short: bool)
    ensures SameBooks(e, e.LiteralTo(reg, pc, short))
  {
  }

  /** The literal is read from memory when the code runs. */
  lemma ImmediateGood(e: Emitter, pc: nat, short: bool, m0: Machine, s: Snap, held: multiset<Reg>)
    requires Good(e, m0, s, held) && |held| < NUM_OPS && pc < 0x1_0000
    ensures var (e', reg) := e.Immediate(pc, short); var v := Uxn.Fetch(s.ram, pc, true, short);
      && Good(e', m0, s.(vals := s.vals[reg := v]), held + multiset{reg})
      && v < if short then 0x1_0000 else 256
  {
    hide Exec;
    hide Emitter.LiteralTo;
    hide Emitter.Alloc;
    AllocGood(e, m0, s, held);
    var (e1, reg) := e.Alloc();
    var held1 := held + multiset{reg};
    SoleHolder(e1, held1, reg);
    hide Inv;
    hide SideRel;
    ImmediateRuns(e1, reg, pc, short, m0);
    LiteralToBooks(e1, reg, pc, short);
    FetchBound(s.ram, pc, true, short);
    ComputedGood(e1, e1.LiteralTo(reg, pc, short), m0, s, held1, reg, Uxn.Fetch(s.ram, pc, true, short));
  }

  // ---- stores ----

  lemma PokeRuns(src: Reg, v: nat, m: Machine)
    requires Calm(m) && Selected(m) == Ram && m.regs[MEM_OFFSET] < 0x1_0000 && src < NUM_REGS && m.regs[src] % 256 == v % 256
    ensures var m' := Step(Op1(MOV_U8, Mem, R(src)), m);
      Calm(m') && Selected(m') == Ram && m' == m.(ram := Uxn.Poke(m.ram, m.regs[MEM_OFFSET], v))
  {
    hide Exec;
    hide Step;
    hide Selected;
    hide AreBytes;
    StepPut(src, m);
    SelectedFrame(m, Step(Op1(MOV_U8, Mem, R(src)), m));
    PutKeepsBytes(m.ram, m.regs[MEM_OFFSET], v % 256);
  }

  lemma StoreShortRuns(reg: Reg, wide: bool, m: Machine)
    requires Calm(m) && Selected(m) == Ram && m.regs[MEM_OFFSET] < 0x1_0000 && IsOp(reg)
    ensures var m1 := Step(Op2(Alu.LSHR, TMP, R(reg), Imm(8)), m);
      var m2 := Step(Op1(MOV_U8, Mem, R(TMP)), m1);
      var m3 := Step(Op2(Alu.ADD, MEM_OFFSET, R(MEM_OFFSET), Imm(1)), m2);
      var m4 := Step(Op2(Alu.AND, MEM_OFFSET, R(MEM_OFFSET), Mask(wide)), m3);
      var m5 := Step(Op1(MOV_U8, Mem, R(reg)), m4);
      && Calm(m5) && m5 == m.(regs := m5.regs, ram := m5.ram) && Agree(m.regs, m5.regs, {MEM_OFFSET, TMP})
      && m5.ram == Uxn.Write(m.ram, m.regs[MEM_OFFSET], wide, m.regs[reg], true)
  {
    hide Exec;
    hide Step;
    hide Selected;
    hide AreBytes;
    var v := m.regs[reg];
    HalfRuns(m, reg, true);
    var m1 := Step(Op2(Alu.LSHR, TMP, R(reg), Imm(8)), m);
    SelectedFrame(m, m1);
    PokeRuns(TMP, v / 256, m1);
    var m2 := Step(Op1(MOV_U8, Mem, R(TMP)), m1);
    NextRuns(wide, m2);
    PokeRuns(reg, v, Step(Op2(Alu.AND, MEM_OFFSET, R(MEM_OFFSET), Mask(wide)), Step(Op2(Alu.ADD, MEM_OFFSET, R(MEM_OFFSET), Imm(1)), m2)));
  }

  lemma StoreFromRuns(e: Emitter, reg: Reg, addr: Reg, wide: bool, short: bool, m0: Machine)
    requires Calm(Run(e, m0)) && BaseOk(e, Run(e, m0)) && IsOp(addr) && IsOp(reg)
    ensures var e' := e.StoreFrom(reg, addr, wide, short); var m, m' := Run(e, m0), Run(e', m0);
      && BaseOk(e', m') && Calm(m') && Agree(m.regs, m'.regs, {MEM_BASE, MEM_OFFSET, TMP})
      && m' == m.(regs := m'.regs, ram := Uxn.Write(m.ram, m.regs[addr] % 0x1_0000, wide, m.regs[reg], short))
  {
    hide Exec;
    hide Step;
    hide Selected;
    hide AreBytes;
    PointRuns(e, addr, m0);
    var e1 := e.SetMemBase(RAM_BASE).Emit(Op1(MOV_U16, R(MEM_OFFSET), R(addr)));
    var m1 := Run(e1, m0);
    var e' := e.StoreFrom(reg, addr, wide, short);
    hide Emitter.SetMemBase;
    if short {
      StoreShortRuns(reg, wide, m1);
    } else {
      PokeRuns(reg, m1.regs[reg], m1);
    }
    BaseSame(e1, e', m1, Run(e', m0));
    hide BaseOk;
    hide Uxn.Write;
  }

  lemma BaseSame(e: Emitter, e': Emitter, m: Machine, m': Machine)
    requires BaseOk(e, m) && |m'.regs| == NUM_REGS && e'.memBase == e.memBase
    requires m'.regs[MEM_BASE] == m.regs[MEM_BASE] && m'.regs[VM] == m.regs[VM]
    ensures BaseOk(e', m')
  {
    hide Address;
  }

  /** A store changes memory exactly as the reference does. */
  lemma StoreGood(e: Emitter, reg: Reg, addr: Reg, wide: bool, short: bool, m0: Machine, s: Snap, held: multiset<Reg>)
    requires Good(e, m0, s, held) && addr in s.vals && reg in s.vals
    ensures var ram := Uxn.Write(s.ram, s.vals[addr] % 0x1_0000, wide, s.vals[reg], short);
      Good(e.StoreFrom(reg, addr, wide, short), m0, s.(ram := ram), held)
  {
    hide Exec;
    hide Emitter.StoreFrom;
    var m := Run(e, m0);
    assert IsOp(addr) && IsOp(reg) && m.regs[addr] == s.vals[addr] && m.regs[reg] == s.vals[reg];
    StoreFromRuns(e, reg, addr, wide, short, m0);
    StoreFromBooks(e, reg, addr, wide, short);
    var e' := e.StoreFrom(reg, addr, wide, short);
    BooksInv(e, e', held);
    assert GoodCache(e.wcache) && GoodCache(e.rcache);
    hide Inv;
    StoredRel(e, m, e', Run(e', m0), s);
    hide Rel;
  }

  lemma StoredRel(e: Emitter, m: Machine, e': Emitter, m': Machine, s: Snap)
    requires Rel(e, m, s) && GoodCache(e.wcache) && GoodCache(e.rcache)
    requires BaseOk(e', m') && Calm(m') && Agree(m.regs, m'.regs, {MEM_BASE, MEM_OFFSET, TMP})
    requires m' == m.(regs := m'.regs, ram := m'.ram)
    requires e'.wcache == e.wcache && e'.rcache == e.rcache
    ensures Rel(e', m', s.(ram := m'.ram))
  {
    hide AreBytes;
    hide BaseOk;
    hide Stacked;
    hide InRange;
    SideFrame(e.wcache, m, m', s, false);
    SideFrame(e.rcache, m, m', s, true);
    SideVals(e, m', s, s.(ram := m'.ram));
    hide SideRel;
  }

  // ---- arithmetic ----

  /** A relative address, as a word; only its low sixteen bits are used. */
  lemma RelativeGood(e: Emitter, reg: Reg, pc: nat, m0: Machine, s: Snap, held: multiset<Reg>)
    requires Good(e, m0, s, held) && reg in s.vals && !e.Relative(reg, pc).Hazard()
    ensures var v := (pc + Words.SignExtend8(s.vals[reg])) % WORD;
      Good(e.Relative(reg, pc), m0, s.(vals := s.vals[reg := v]), held)
  {
    hide Exec;
    hide Step;
    var m := Run(e, m0);
    assert IsOp(reg) && m.regs[reg] == s.vals[reg] && e.Count(reg) == 1;
    SoleHolder(e, held, reg);
    RelativeBooks(e, reg, pc);
    var e' := e.Relative(reg, pc);
    assert Calm(m) && BaseOk(e, m);
    hide Good;
    hide AreBytes;
    hide Words.SignExtend8;
    StepMov(MOV_S8, reg, reg, m);
    StepAluImm(Alu.ADD, reg, reg, pc, Step(Op1(MOV_S8, R(reg), R(reg)), m));
    BaseFrame(e, e', m, Run(e', m0), {reg});
    hide BaseOk;
    ComputedGood(e, e', m0, s, held, reg, (pc + Words.SignExtend8(s.vals[reg])) % WORD);
  }

  lemma MaskRuns(c: Reg, short: bool, m: Machine)
    requires m.exit == Running && c < |m.regs|
    ensures Step(Op2(Alu.AND, c, R(c), Mask(short)), m) == m.(regs := m.regs[c := Uxn.Wrap(m.regs[c], short)])
  {
    hide Exec;
    hide Step;
    StepAluImm(Alu.AND, c, c, if short then 0xffff else 0xff, m);
    AndByte(m.regs[c]);
    AndShort(m.regs[c]);
    hide Words.And;
  }

  lemma IncGood(e: Emitter, a: Reg, short: bool, m0: Machine, s: Snap, held: multiset<Reg>)
    requires Good(e, m0, s, held) && a in s.vals && e.Count(a) == 1
    ensures var e' := e.Own(a).Emit(Op2(Alu.ADD, a, R(a), Imm(1))).Emit(Op2(Alu.AND, a, R(a), Mask(short)));
      Good(e', m0, s.(vals := s.vals[a := Uxn.Wrap(s.vals[a] + 1, short)]), held) && SameBooks(e, e')
  {
    hide Exec;
    hide Step;
    var m := Run(e, m0);
    assert IsOp(a) && m.regs[a] == s.vals[a] && e.Count(a) == 1;
    SoleHolder(e, held, a);
    var e' := e.Own(a).Emit(Op2(Alu.ADD, a, R(a), Imm(1))).Emit(Op2(Alu.AND, a, R(a), Mask(short)));
    assert Calm(m) && BaseOk(e, m);
    hide Good;
    hide AreBytes;
    StepAluImm(Alu.ADD, a, a, 1, m);
    MaskRuns(a, short, Step(Op2(Alu.ADD, a, R(a), Imm(1)), m));
    WordCut(s.vals[a] + 1);
    BaseFrame(e, e', m, Run(e', m0), {a});
    hide BaseOk;
    ComputedGood(e, e', m0, s, held, a, Uxn.Wrap(s.vals[a] + 1, short));
  }

  lemma TwoStepRuns(alu: Alu, c: Reg, a: Reg, b: Reg, short: bool, m: Machine)
    requires m.exit == Running && c < |m.regs| && a < |m.regs| && b < |m.regs|
    ensures var m1 := Step(Op2(alu, c, R(a), R(b)), m);
      Step(Op2(Alu.AND, c, R(c), Mask(short)), m1)
        == m.(regs := m.regs[c := Uxn.Wrap(Calc(alu, m.regs[a], m.regs[b]), short)])
  {
    hide Exec;
    hide Step;
    hide Calc;
    StepAlu(alu, c, a, b, m);
    MaskRuns(c, short, Step(Op2(alu, c, R(a), R(b)), m));
  }

  lemma ExecSix(i1: Instr, i2: Instr, i3: Instr, i4: Instr, i5: Instr, i6: Instr, m: Machine)
    ensures Exec([i1, i2, i3, i4, i5, i6], m) == Step(i6, Step(i5, Step(i4, Step(i3, Step(i2, Step(i1, m))))))
  {
    hide Step;
    hide Exec;
    ExecNil(m);
    ExecSnoc([], i1, m);
    ExecSnoc([i1], i2, m);
    ExecSnoc([i1, i2], i3, m);
    ExecSnoc([i1, i2, i3], i4, m);
    ExecSnoc([i1, i2, i3, i4], i5, m);
    ExecSnoc([i1, i2, i3, i4, i5], i6, m);
    assert [] + [i1] == [i1] && [i1] + [i2] == [i1, i2] && [i1, i2] + [i3] == [i1, i2, i3];
    assert [i1, i2, i3] + [i4] == [i1, i2, i3, i4] && [i1, i2, i3, i4] + [i5] == [i1, i2, i3, i4, i5];
    assert [i1, i2, i3, i4, i5] + [i6] == [i1, i2, i3, i4, i5, i6];
  }

  lemma ExecNil(m: Machine)
    ensures Exec([], m) == m
  {
  }

  lemma ExecOne(i: Instr, m: Machine)
    ensures Exec([i], m) == Step(i, m)
  {
    hide Step;
    assert [i][..0] == [];
  }

  /** The division saves the base register in the scratch register and restores it. */
  lemma QuotientRuns(c: Reg, a: Reg, b: Reg, m: Machine)
    requires m.exit == Running && |m.regs| == NUM_REGS && IsOp(c) && IsOp(a) && IsOp(b) && m.regs[b] != 0
    ensures var m' := Exec([Op1(MOV, R(TMP), R(MEM_BASE)), Op1(MOV, R(MEM_BASE), R(a)), Op1(MOV, R(MEM_OFFSET), R(b)),
           DivUW, Op1(MOV, R(c), R(MEM_BASE)), Op1(MOV, R(MEM_BASE), R(TMP))], m);
      OnlyRegs(m, m', {MEM_OFFSET, TMP, c}) && m'.regs[c] == Quotient(m.regs[a], m.regs[b])
  {
    hide Exec;
    var i1, i2, i3 := Op1(MOV, R(TMP), R(MEM_BASE)), Op1(MOV, R(MEM_BASE), R(a)), Op1(MOV, R(MEM_OFFSET), R(b));
    var i5, i6 := Op1(MOV, R(c), R(MEM_BASE)), Op1(MOV, R(MEM_BASE), R(TMP));
    ExecSix(i1, i2, i3, DivUW, i5, i6, m);
    StepMov(MOV, TMP, MEM_BASE, m);
    var m1 := Step(i1, m);
    StepMov(MOV, MEM_BASE, a, m1);
    var m2 := Step(i2, m1);
    StepMov(MOV, MEM_OFFSET, b, m2);
    var m3 := Step(i3, m2);
    StepDiv(m3);
    var m4 := Step(DivUW, m3);
    StepMov(MOV, c, MEM_BASE, m4);
    var m5 := Step(i5, m4);
    StepMov(MOV, MEM_BASE, TMP, m5);
    hide Step;
  }

  lemma StepDiv(m: Machine)
    requires m.exit == Running && |m.regs| == NUM_REGS && m.regs[MEM_OFFSET] != 0
    ensures Step(DivUW, m) == m.(regs := m.regs[MEM_BASE := Quotient(m.regs[MEM_BASE], m.regs[MEM_OFFSET])])
  {
    hide Exec;
    hide Calc;
  }

  lemma DivRuns(c: Reg, a: Reg, b: Reg, m: Machine)
    requires m.exit == Running && |m.regs| == NUM_REGS && IsOp(c) && IsOp(a) && IsOp(b)
    ensures var m' := Step(IfZero(b, [Op1(MOV, R(c), Imm(0))],
          [Op1(MOV, R(TMP), R(MEM_BASE)), Op1(MOV, R(MEM_BASE), R(a)), Op1(MOV, R(MEM_OFFSET), R(b)),
           DivUW, Op1(MOV, R(c), R(MEM_BASE)), Op1(MOV, R(MEM_BASE), R(TMP))]), m);
      && OnlyRegs(m, m', {MEM_OFFSET, TMP, c})
      && m'.regs[c] == Quotient(m.regs[a], m.regs[b])
  {
    if m.regs[b] == 0 {
      hide Calc;
      ExecOne(Op1(MOV, R(c), Imm(0)), m);
      StepMovImm(MOV, c, 0, m);
    } else {
      QuotientRuns(c, a, b, m);
      hide Exec;
      hide Calc;
    }
  }

  lemma ShiftRuns(c: Reg, a: Reg, b: Reg, short: bool, m: Machine)
    requires m.exit == Running && |m.regs| == NUM_REGS && IsOp(c) && IsOp(a) && IsOp(b) && c != b
    ensures var m1 := Step(Op2(Alu.AND, TMP, R(b), Imm(0x0f)), m);
      var m2 := Step(Op2(Alu.LSHR, c, R(a), R(TMP)), m1);
      var m3 := Step(Op2(Alu.LSHR, TMP, R(b), Imm(4)), m2);
      var m4 := Step(Op2(Alu.SHL, c, R(c), R(TMP)), m3);
      var m5 := Step(Op2(Alu.AND, c, R(c), Mask(short)), m4);
      && OnlyRegs(m, m5, {TMP, c})
      && m5.regs[c] == Uxn.Wrap(Shl(Lshr(m.regs[a], m.regs[b] % 16), m.regs[b] / 16), short)
  {
    hide Exec;
    hide Step;
    hide Pow2;
    hide Uxn.Wrap;
    StepAluImm(Alu.AND, TMP, b, 0x0f, m);
    AndNibble(m.regs[b]);
    hide Words.And;
    var m1 := Step(Op2(Alu.AND, TMP, R(b), Imm(0x0f)), m);
    StepAlu(Alu.LSHR, c, a, TMP, m1);
    var m2 := Step(Op2(Alu.LSHR, c, R(a), R(TMP)), m1);
    StepAluImm(Alu.LSHR, TMP, b, 4, m2);
    var m3 := Step(Op2(Alu.LSHR, TMP, R(b), Imm(4)), m2);
    TwoStepRuns(Alu.SHL, c, c, TMP, short, m3);
    hide Shl;
    NibbleUp(m.regs[b]);
    hide Lshr;
  }

  lemma AndNibble(v: nat)
    ensures And(v, 0x0f) == v % 16
  {
    AndMask(v, 4);
  }

  lemma NibbleUp(v: nat)
    ensures Lshr(v, 4) == v / 16
  {
    assert Pow2(4) == 16;
  }

  predicate IsArith(op: Uxn.Op) {
    op.Add? || op.Sub? || op.Mul? || op.Div? || op.And? || op.Ora? || op.Eor? || op.Sft?
  }

  /** Cutting the machine's wider results to the operand width gives the reference's results. */
  lemma CutResults(a: nat, b: nat, short: bool)
    ensures Uxn.Wrap(Calc(Alu.ADD, a, b), short) == Uxn.Arith(Uxn.Add, short, a, b)
    ensures Uxn.Wrap(Calc(Alu.SUB, a, b), short) == Uxn.Arith(Uxn.Sub, short, a, b)
    ensures Uxn.Wrap(Calc(Alu.MUL, a, b), short) == Uxn.Arith(Uxn.Mul, short, a, b)
  {
    hide Shl;
    hide Lshr;
    hide Words.And;
    hide Or;
    hide Xor;
    hide Pow2;
    WordCut(a + b);
    WordCut(a - b);
    WordCut(a * b);
  }

  lemma CutShift(a: nat, b: nat, short: bool)
    ensures Uxn.Wrap(Shl(Lshr(a, b % 16), b / 16), short) == Uxn.Arith(Uxn.Sft, short, a, b)
  {
    var x := Lshr(a, b % 16) * Pow2(b / 16);
    WordCut(x);
    hide Words.And;
    hide Or;
    hide Xor;
    hide Pow2;
  }

  lemma ArithRuns(op: Uxn.Op, c: Reg, a: Reg, b: Reg, short: bool, e: Emitter, m0: Machine)
    requires IsArith(op) && Calm(Run(e, m0)) && IsOp(c) && IsOp(a) && IsOp(b) && c != a && c != b
    ensures var m, m' := Run(e, m0), Run(e.Calculate(op, c, a, b, short), m0);
      && OnlyRegs(m, m', {MEM_OFFSET, TMP, c})
      && m'.regs[c] == Uxn.Arith(op, short, m.regs[a], m.regs[b])
  {
    hide Exec;
    hide Step;
    hide AreBytes;
    var m := Run(e, m0);
    var va, vb := m.regs[a], m.regs[b];
    match op
    case Add => TwoStepRuns(Alu.ADD, c, a, b, short, m); CutResults(va, vb, short); hide Calc; hide Uxn.Wrap; hide Uxn.Arith;
    case Sub => TwoStepRuns(Alu.SUB, c, a, b, short, m); CutResults(va, vb, short); hide Calc; hide Uxn.Wrap; hide Uxn.Arith;
    case Mul => TwoStepRuns(Alu.MUL, c, a, b, short, m); CutResults(va, vb, short); hide Calc; hide Uxn.Wrap; hide Uxn.Arith;
    case Div => DivRuns(c, a, b, m); hide Calc; hide Uxn.Wrap;
    case Sft => ShiftRuns(c, a, b, short, m); CutShift(va, vb, short); hide Calc; hide Uxn.Wrap; hide Uxn.Arith;
    case _ => BitsRuns(op, c, a, b, short, e, m0);
  }

  lemma BitsRuns(op: Uxn.Op, c: Reg, a: Reg, b: Reg, short: bool, e: Emitter, m0: Machine)
    requires (op.And? || op.Ora? || op.Eor?) && Calm(Run(e, m0)) && IsOp(c) && IsOp(a) && IsOp(b)
    ensures var m, m' := Run(e, m0), Run(e.Calculate(op, c, a, b, short), m0);
      && OnlyRegs(m, m', {MEM_OFFSET, TMP, c})
      && m'.regs[c] == Uxn.Arith(op, short, m.regs[a], m.regs[b])
  {
    hide Exec;
    hide Step;
    hide AreBytes;
    hide Words.And;
    hide Or;
    hide Xor;
    hide Shl;
    hide Lshr;
    hide Uxn.Wrap;
    var m := Run(e, m0);
    if op.And? {
      StepAlu(Alu.AND, c, a, b, m);
    } else if op.Ora? {
      StepAlu(Alu.OR, c, a, b, m);
    } else {
      StepAlu(Alu.XOR, c, a, b, m);
    }
  }

  lemma ArithBound(op: Uxn.Op, short: bool, a: nat, b: nat)
    requires IsArith(op) && a < (if short then 0x1_0000 else 256)
    requires op == Uxn.Sft || b < (if short then 0x1_0000 else 256)
    ensures Uxn.Arith(op, short, a, b) < if short then 0x1_0000 else 256
  {
    Masks();
    if op.And? || op.Ora? || op.Eor? {
      BitwiseBound(a, b, if short then 16 else 8);
      hide Words.And;
      hide Or;
      hide Xor;
      hide Pow2;
    } else if op.Div? {
      if b > 0 { QuotientBound(a, b); }
      hide Words.And;
      hide Or;
      hide Xor;
      hide Pow2;
    } else {
      hide Words.And;
      hide Or;
      hide Xor;
      hide Pow2;
    }
  }

  lemma QuotientBound(a: nat, b: nat)
    requires b > 0
    ensures a / b <= a
  {
    MulMono(b, a / b);
    assert b * (a / b) <= a;
  }

  /** Arithmetic into a register the opcode alone holds. */
  lemma CalculateGood(e: Emitter, op: Uxn.Op, c: Reg, a: Reg, b: Reg, short: bool, m0: Machine, s: Snap, held: multiset<Reg>)
    requires Good(e, m0, s, held) && IsArith(op)
    requires a in s.vals && b in s.vals && c !in s.vals && c in held && IsOp(c) && e.Count(c) == 1
    ensures var v := Uxn.Arith(op, short, s.vals[a], s.vals[b]);
      Good(e.Calculate(op, c, a, b, short), m0, s.(vals := s.vals[c := v]), held)
  {
    hide Exec;
    hide Emitter.Calculate;
    hide Uxn.Arith;
    var m := Run(e, m0);
    HeldValue(e, m0, s, held, a);
    HeldValue(e, m0, s, held, b);
    SoleGood(e, m0, s, held, c);
    hide Good;
    hide AreBytes;
    CalculateBooks(e, op, c, a, b, short);
    CalculateBase(e, op, c, a, b, short);
    ArithRuns(op, c, a, b, short, e, m0);
    var e' := e.Calculate(op, c, a, b, short);
    BaseFrame(e, e', m, Run(e', m0), {MEM_OFFSET, TMP, c});
    hide BaseOk;
    hide SameBooks;
    hide Unused;
    ComputedGood(e, e', m0, s, held, c, Uxn.Arith(op, short, s.vals[a], s.vals[b]));
  }

  lemma HeldValue(e: Emitter, m0: Machine, s: Snap, held: multiset<Reg>, x: Reg)
    requires Good(e, m0, s, held) && x in s.vals
    ensures Calm(Run(e, m0)) && BaseOk(e, Run(e, m0)) && IsOp(x) && Run(e, m0).regs[x] == s.vals[x]
  {
    hide Exec;
    hide SideRel;
    hide AreBytes;
  }

  lemma SoleGood(e: Emitter, m0: Machine, s: Snap, held: multiset<Reg>, c: Reg)
    requires Good(e, m0, s, held) && IsOp(c) && c in held && e.Count(c) == 1
    ensures held[c] == 1 && Unused(e.wcache, c) && Unused(e.rcache, c)
  {
    SoleHolder(e, held, c);
  }

  lemma CalculateBase(e: Emitter, op: Uxn.Op, c: Reg, a: Reg, b: Reg, short: bool)
    ensures e.Calculate(op, c, a, b, short).memBase == e.memBase
  {
  }

  lemma CompareGood(e: Emitter, op: Uxn.Op, c: Reg, a: Reg, b: Reg, m0: Machine, s: Snap, held: multiset<Reg>)
    requires Good(e, m0, s, held) && (op.Equ? || op.Neq? || op.Gth? || op.Lth?)
    requires a in s.vals && b in s.vals && c !in s.vals && c in held && IsOp(c) && e.Count(c) == 1
    ensures var e' := e.Emit(Compare(a, b)).Emit(SetFlag(c, e.Condition(op)));
      var v := if Uxn.Compares(op, s.vals[a], s.vals[b]) then 1 else 0;
      Good(e', m0, s.(vals := s.vals[c := v]), held) && SameBooks(e, e')
  {
    hide Exec;
    var m := Run(e, m0);
    assert IsOp(a) && IsOp(b) && m.regs[a] == s.vals[a] && m.regs[b] == s.vals[b];
    SoleHolder(e, held, c);
    var e1 := e.Emit(Compare(a, b));
    var e' := e1.Emit(SetFlag(c, e.Condition(op)));
    assert Calm(m) && BaseOk(e, m);
    var v := if Uxn.Compares(op, s.vals[a], s.vals[b]) then 1 else 0;
    FlagRuns(op, a, b, c, e.Condition(op), m);
    hide Step;
    CompareRel(e, m0, s, held, a, b);
    var m1 := Run(e1, m0);
    hide Good;
    hide AreBytes;
    BaseFrame(e1, e', m1, Run(e', m0), {c});
    hide BaseOk;
    ComputedGood(e1, e', m0, s, held, c, v);
  }

  lemma FlagRuns(op: Uxn.Op, a: Reg, b: Reg, c: Reg, cond: Cond, m: Machine)
    requires m.exit == Running && |m.regs| == NUM_REGS && IsOp(a) && IsOp(b) && IsOp(c)
    requires cond == (match op case Equ => EQUAL case Neq => NOT_EQUAL case Gth => GREATER case _ => LESS)
    requires op.Equ? || op.Neq? || op.Gth? || op.Lth?
    ensures var m1 := Step(Compare(a, b), m);
      && m1 == m.(order := m.Get(a) - m.Get(b))
      && Step(SetFlag(c, cond), m1)
        == m1.(regs := m1.regs[c := if Uxn.Compares(op, m.regs[a], m.regs[b]) then 1 else 0])
  {
    hide Exec;
    hide Calc;
  }

  /** The comparison flags are part of no relation. */
  lemma CompareRel(e: Emitter, m0: Machine, s: Snap, held: multiset<Reg>, a: Reg, b: Reg)
    requires Good(e, m0, s, held)
    requires Run(e.Emit(Compare(a, b)), m0) == Run(e, m0).(order := Run(e.Emit(Compare(a, b)), m0).order)
    ensures Good(e.Emit(Compare(a, b)), m0, s, held)
    ensures Calm(Run(e.Emit(Compare(a, b)), m0)) && BaseOk(e.Emit(Compare(a, b)), Run(e.Emit(Compare(a, b)), m0))
  {
    hide Exec;
    hide Step;
    BooksInv(e, e.Emit(Compare(a, b)), held);
    hide Inv;
    hide Stacked;
    hide InRange;
    hide AreBytes;
  }
}
