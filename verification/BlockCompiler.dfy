/** The opcode emitters and the compile loop as they work on the context in place. */
module BlockCompiler {
  import opened Words
  import opened Target
  import opened Emission
  import opened Facts
  import opened JitContext
  import opened CompileLoop
  import opened DeviceOps
  import opened Blocks
  import opened Jumps
  import opened FactsSound
  import opened Compiler
  import Allocator
  import Values
  import Calls
  import Uxn

  /** The static values beside the stacks: rings of facts, and the pointers pops move. */
  class StaticStacks {
    const wst: array<Fact>
    const rst: array<Fact>
    var wsp: nat
    var rsp: nat
    var keep: bool
    var shadowWsp: nat
    var shadowRsp: nat

    ghost predicate Valid()
      reads this
    {
      && wst.Length == RING && rst.Length == RING && wst != rst
      && wsp < RING && rsp < RING && shadowWsp < RING && shadowRsp < RING
    }

    ghost function State(): (t: Tracker)
      requires Valid()
      reads this, wst, rst
    {
      Tracker(wst[..], rst[..], wsp, rsp, keep, shadowWsp, shadowRsp)
    }

    constructor ()
      ensures Valid() && fresh(wst) && fresh(rst) && State() == NoFacts()
    {
      wst := new Fact[RING](_ => NO_FACT);
      rst := new Fact[RING](_ => NO_FACT);
      wsp, rsp, keep, shadowWsp, shadowRsp := 0, 0, false, 0, 0;
    }

    method Begin(op: nat)
      requires Valid()
      modifies this
      ensures Valid() && State() == old(State()).Begin(op)
    {
      keep, shadowWsp, shadowRsp := Uxn.FlagK(op), wsp, rsp;
    }

    /** Moves the pointer of pops down and reads the entry it passes over. */
    method PopEntry(flagR: bool) returns (f: Fact)
      requires Valid()
      modifies this
      ensures Valid() && State() == old(State()).WithPopPtr(flagR, Back(old(State()).PopPtr(flagR), 1))
      ensures f == State().At(flagR, State().PopPtr(flagR))
    {
      var p := (if keep then (if flagR then shadowRsp else shadowWsp) else (if flagR then rsp else wsp));
      p := (p - 1) % RING;
      if keep {
        if flagR { shadowRsp := p; } else { shadowWsp := p; }
      } else {
        if flagR { rsp := p; } else { wsp := p; }
      }
      f := if flagR then rst[p] else wst[p];
    }

    method Pop(flag2: bool, flagR: bool) returns (k: Known)
      requires Valid()
      modifies this
      ensures Valid() && (State(), k) == old(State()).Pop(flag2, flagR)
    {
      PopTwice(State(), flagR);
      hide State;
      var lo := PopEntry(flagR);
      if flag2 {
        var hi := PopEntry(flagR);
        k := if hi.constant && lo.constant then Known(true, true, false, hi.value * 256 + lo.value) else Unknown(true);
      } else {
        k := Known(false, lo.constant, lo.boolean, lo.value);
      }
    }

    method PushFact(f: Fact, flagR: bool)
      requires Valid()
      modifies this, wst, rst
      ensures Valid() && State() == old(State()).PushFact(f, flagR)
    {
      if flagR {
        rst[rsp] := f;
        rsp := (rsp + 1) % RING;
      } else {
        wst[wsp] := f;
        wsp := (wsp + 1) % RING;
      }
    }

    method Push(k: Known, flagR: bool)
      requires Valid()
      modifies this, wst, rst
      ensures Valid() && State() == old(State()).Push(k, flagR)
    {
      hide State;
      hide Tracker.PushFact;
      if k.short {
        PushFact(Fact(k.constant, k.boolean, k.value / 256 % 256), flagR);
        PushFact(Fact(k.constant, k.boolean, k.value % 256), flagR);
      } else {
        PushFact(Fact(k.constant, k.boolean, k.value % 256), flagR);
      }
    }

    /** Moves the real pointer down. */
    method Drop(flag2: bool, flagR: bool)
      requires Valid()
      modifies this
      ensures Valid() && State() == old(State()).Drop(flag2, flagR)
    {
      var size := if flag2 then 2 else 1;
      if flagR { rsp := (rsp - size) % RING; } else { wsp := (wsp - size) % RING; }
    }
  }

  lemma PopTwice(t: Tracker, r: bool)
    ensures var p := t.PopPtr(r);
      && t.WithPopPtr(r, Back(p, 1)).WithPopPtr(r, Back(Back(p, 1), 1)) == t.WithPopPtr(r, Back(p, 2))
      && Back(Back(p, 1), 1) == Back(p, 2)
  {
    var p := t.PopPtr(r);
    assert (p - 1) % RING == p - 1 - RING * ((p - 1) / RING);
    ModShift(p - 2, -((p - 1) / RING));
  }

  datatype Operand = Operand(reg: Reg, known: Known)

  class BlockCompiler {
    const ctx: Context
    const known: StaticStacks
    const rom: Uxn.Bytes
    var pc: nat
    var done: bool

    ghost predicate Valid()
      reads this, ctx, ctx.wstCache, ctx.rstCache, known
    {
      ctx.Valid() && known.Valid() && pc < 0x1_0000
    }

    ghost function Repr(): set<object> {
      {this, ctx, ctx.regRefCounts, ctx.wstCache, ctx.wstCache.cells, ctx.rstCache, ctx.rstCache.cells,
       known, known.wst, known.rst}
    }

    ghost function E(): (e: Emitter)
      requires Valid()
      reads this, ctx, ctx.regRefCounts, ctx.wstCache, ctx.wstCache.cells, ctx.rstCache, ctx.rstCache.cells
      reads known, known.wst, known.rst
      ensures e.opcode == ctx.currentOpcode && e.memBase == ctx.memBase && e.code == ctx.code
    {
      ctx.State()
    }

    ghost function T(): Tracker
      requires Valid()
      reads this, ctx, ctx.regRefCounts, ctx.wstCache, ctx.wstCache.cells, ctx.rstCache, ctx.rstCache.cells
      reads known, known.wst, known.rst
    {
      known.State()
    }

    constructor (rom: Uxn.Bytes, entry: nat)
      requires entry < 0x1_0000
      ensures Valid() && fresh(Repr()) && this.rom == rom
      ensures Ctx(E(), T(), pc, done) == Start(entry)
    {
      ctx := new Context();
      known := new StaticStacks();
      this.rom, pc, done := rom, entry, false;
    }

    predicate FlagR()
      reads ctx
    {
      Uxn.FlagR(ctx.currentOpcode)
    }

    predicate Flag2()
      reads ctx
    {
      Uxn.Flag2(ctx.currentOpcode)
    }

    // ---- operands ----

    method Pop(flag2: bool, flagR: bool) returns (o: Operand)
      requires Valid()
      modifies Repr() - {this}
      ensures Valid() && (E(), o.reg) == old(E()).CachePop(flag2, flagR) && (T(), o.known) == old(T()).Pop(flag2, flagR)
      ensures o.known.short == flag2
    {
      var k := known.Pop(flag2, flagR);
      var reg := ctx.CachePop(flag2, flagR);
      o := Operand(reg, k);
    }

    method Push(o: Operand, flagR: bool)
      requires Valid()
      modifies Repr() - {this}
      ensures Valid() && E() == old(E()).Push(o.reg, o.known.short, flagR) && T() == old(T()).Push(o.known, flagR)
    {
      ctx.PushReg(o.reg, o.known.short, flagR);
      known.Push(o.known, flagR);
    }

    method Alloc() returns (reg: Reg)
      requires Valid()
      modifies Repr() - {this}
      ensures Valid() && (E(), reg) == old(E()).Alloc() && T() == old(T())
    {
      reg := ctx.AllocReg();
    }

    method Emit(i: Instr)
      requires Valid()
      modifies ctx`code
      ensures Valid() && E() == old(E()).Emit(i) && T() == old(T())
    {
      ctx.Emit(i);
    }

    method SetMemBase(base: nat)
      requires Valid()
      modifies ctx`code, ctx`memBase
      ensures Valid() && E() == old(E()).SetMemBase(base) && T() == old(T())
    {
      ctx.SetMemBase(base);
    }

    ghost method Own(reg: Reg)
      requires Valid()
      modifies ctx`sharedWrite
      ensures Valid() && E() == old(E()).Own(reg) && T() == old(T())
    {
      ctx.Own(reg);
    }

    method ClearBoth()
      requires Valid()
      modifies Repr() - {this}
      ensures Valid() && E() == old(E()).ClearBoth() && T() == old(T())
    {
      ctx.ClearBoth();
    }

    // ---- memory access ----

    method LoadTo(reg: Reg, addr: Reg, wide: bool, flag2: bool)
      requires Valid()
      modifies ctx`code, ctx`memBase
      ensures Valid() && E() == old(E()).LoadTo(reg, addr, wide, flag2) && T() == old(T())
    {
      hide E;
      hide T;
      hide Emitter.SetMemBase;
      SetMemBase(RAM_BASE);
      Emit(Op1(MOV_U16, R(MEM_OFFSET), R(addr)));
      Emit(Op1(MOV_U8, R(reg), Mem));
      if flag2 {
        Emit(Op2(Alu.SHL, reg, R(reg), Imm(8)));
        Emit(Op2(Alu.ADD, MEM_OFFSET, R(MEM_OFFSET), Imm(1)));
        Emit(Op2(Alu.AND, MEM_OFFSET, R(MEM_OFFSET), Mask(wide)));
        Emit(Op1(MOV_U8, R(TMP), Mem));
        Emit(Op2(Alu.OR, reg, R(reg), R(TMP)));
      }
    }

    method StoreFrom(reg: Reg, addr: Reg, wide: bool, flag2: bool)
      requires Valid()
      modifies ctx`code, ctx`memBase
      ensures Valid() && E() == old(E()).StoreFrom(reg, addr, wide, flag2) && T() == old(T())
    {
      hide E;
      hide T;
      hide Emitter.SetMemBase;
      SetMemBase(RAM_BASE);
      Emit(Op1(MOV_U16, R(MEM_OFFSET), R(addr)));
      if flag2 {
        Emit(Op2(Alu.LSHR, TMP, R(reg), Imm(8)));
        Emit(Op1(MOV_U8, Mem, R(TMP)));
        Emit(Op2(Alu.ADD, MEM_OFFSET, R(MEM_OFFSET), Imm(1)));
        Emit(Op2(Alu.AND, MEM_OFFSET, R(MEM_OFFSET), Mask(wide)));
      }
      Emit(Op1(MOV_U8, Mem, R(reg)));
    }

    method Relative(reg: Reg)
      requires Valid()
      modifies ctx`code, ctx`sharedWrite
      ensures Valid() && E() == old(E()).Relative(reg, pc) && T() == old(T())
    {
      hide E;
      hide T;
      Own(reg);
      Emit(Op1(MOV_S8, R(reg), R(reg)));
      Emit(Op2(Alu.ADD, reg, R(reg), Imm(pc)));
    }

    /** Loads the literal at the current address and moves past it. */
    method Immediate(isShort: bool) returns (o: Operand)
      requires Valid()
      modifies Repr()
      ensures Valid() && (E(), o.reg) == old(E()).Immediate(old(pc), isShort) && T() == old(T()) && done == old(done)
      ensures o.known == Known(isShort, true, false, Uxn.Fetch(rom, old(pc), true, isShort))
      ensures pc == (old(pc) + if isShort then 2 else 1) % 0x1_0000
    {
      hide E;
      hide T;
      hide Emitter.SetMemBase;
      hide Emitter.Alloc;
      var reg := Alloc();
      var value := Uxn.Fetch(rom, pc, true, isShort);
      SetMemBase(RAM_BASE);
      Emit(Op1(MOV_U16, R(MEM_OFFSET), Imm(pc)));
      if !isShort {
        Emit(Op1(MOV_U8, R(reg), Mem));
      } else if pc < 0xffff {
        Emit(LoadU16(reg));
        Emit(RevU16(reg));
      } else {
        Emit(Op1(MOV_U8, R(reg), Mem));
        Emit(Op2(Alu.SHL, reg, R(reg), Imm(8)));
        Emit(Op1(MOV_U16, R(MEM_OFFSET), Imm(pc + 1)));
        Emit(Op1(MOV_U8, R(TMP), Mem));
        Emit(Op2(Alu.OR, reg, R(reg), R(TMP)));
      }
      o := Operand(reg, Known(isShort, true, false, value));
      SetPc((pc + if isShort then 2 else 1) % 0x1_0000);
    }

    method SetPc(newPc: nat)
      requires Valid() && newPc < 0x1_0000
      modifies this`pc
      ensures Valid() && pc == newPc && E() == old(E()) && T() == old(T())
    {
      pc := newPc;
    }

    // ---- opcodes that change stacks only ----

    method Lit()
      requires Valid() && Uxn.OpOf(ctx.currentOpcode).Lit?
      modifies Repr()
      ensures Valid() && E() == old(E()).Plain(old(pc)) && done == old(done)
      ensures T() == old(T()).Apply(old(ctx.currentOpcode), Uxn.Fetch(rom, old(pc), true, Uxn.Flag2(old(ctx.currentOpcode))))
      ensures pc == (old(pc) + if Uxn.Flag2(old(ctx.currentOpcode)) then 2 else 1) % 0x1_0000
    {
      hide E;
      hide T;
      hide Emitter.CachePop;
      hide Emitter.Push;
      hide Tracker.Pop;
      hide Tracker.Push;
      hide Uxn.FlagR;
      hide Uxn.FlagK;
      hide Uxn.Flag2;
      hide Emitter.Immediate;
      hide Uxn.Fetch;
      var flag2, flagR := Flag2(), FlagR();
      var lit := Immediate(flag2);
      Push(lit, flagR);
    }

    method Inc()
      requires Valid() && Uxn.OpOf(ctx.currentOpcode).Inc?
      modifies Repr() - {this}
      ensures Valid() && E() == old(E()).Plain(pc) && T() == old(T()).Apply(old(ctx.currentOpcode), 0)
    {
      hide E;
      hide T;
      hide Emitter.CachePop;
      hide Emitter.Push;
      hide Tracker.Pop;
      hide Tracker.Push;
      hide Uxn.FlagR;
      hide Uxn.FlagK;
      hide Uxn.Flag2;
      var flag2, flagR := Flag2(), FlagR();
      var a := Pop(flag2, flagR);
      Own(a.reg);
      Emit(Op2(Alu.ADD, a.reg, R(a.reg), Imm(1)));
      Emit(Op2(Alu.AND, a.reg, R(a.reg), Mask(flag2)));
      Push(Operand(a.reg, Incremented(a.known)), flagR);
    }

    /** Drops the top of a stack, unless the opcode keeps it. */
    method DropTop(flag2: bool, flagR: bool, flagK: bool)
      requires Valid()
      modifies Repr() - {this}
      ensures Valid() && E() == (if flagK then old(E()) else old(E()).Discard(flag2, flagR))
      ensures T() == if flagK then old(T()) else old(T()).Drop(flag2, flagR)
    {
      if !flagK {
        known.Drop(flag2, flagR);
        ctx.CacheDiscard(flag2, flagR);
      }
    }

    method PopOp()
      requires Valid() && Uxn.OpOf(ctx.currentOpcode).Pop?
      modifies Repr() - {this}
      ensures Valid() && E() == old(E()).Plain(pc) && T() == old(T()).Apply(old(ctx.currentOpcode), 0)
    {
      hide E;
      hide T;
      hide Emitter.CachePop;
      hide Emitter.Push;
      hide Tracker.Pop;
      hide Tracker.Push;
      hide Uxn.FlagR;
      hide Uxn.FlagK;
      hide Uxn.Flag2;
      hide Emitter.Discard;
      hide Tracker.Drop;
      var flag2, flagR := Flag2(), FlagR();
      DropTop(flag2, flagR, Uxn.FlagK(ctx.currentOpcode));
    }

    method Nip()
      requires Valid() && Uxn.OpOf(ctx.currentOpcode).Nip?
      modifies Repr() - {this}
      ensures Valid() && E() == old(E()).Plain(pc) && T() == old(T()).Apply(old(ctx.currentOpcode), 0)
    {
      hide E;
      hide T;
      hide Emitter.CachePop;
      hide Emitter.Push;
      hide Tracker.Pop;
      hide Tracker.Push;
      hide Uxn.FlagR;
      hide Uxn.FlagK;
      hide Uxn.Flag2;
      hide Emitter.Discard;
      hide Tracker.Drop;
      var flag2, flagR := Flag2(), FlagR();
      var flagK := Uxn.FlagK(ctx.currentOpcode);
      var b := Pop(flag2, flagR);
      DropTop(flag2, flagR, flagK);
      Push(b, flagR);
    }

    method Swp()
      requires Valid() && Uxn.OpOf(ctx.currentOpcode).Swp?
      modifies Repr() - {this}
      ensures Valid() && E() == old(E()).Plain(pc) && T() == old(T()).Apply(old(ctx.currentOpcode), 0)
    {
      hide E;
      hide T;
      hide Emitter.CachePop;
      hide Emitter.Push;
      hide Tracker.Pop;
      hide Tracker.Push;
      hide Uxn.FlagR;
      hide Uxn.FlagK;
      hide Uxn.Flag2;
      var flag2, flagR := Flag2(), FlagR();
      var b := Pop(flag2, flagR);
      var a := Pop(flag2, flagR);
      Push(b, flagR);
      Push(a, flagR);
    }

    method Rot()
      requires Valid() && Uxn.OpOf(ctx.currentOpcode).Rot?
      modifies Repr() - {this}
      ensures Valid() && E() == old(E()).Plain(pc) && T() == old(T()).Apply(old(ctx.currentOpcode), 0)
    {
      hide E;
      hide T;
      hide Emitter.CachePop;
      hide Emitter.Push;
      hide Tracker.Pop;
      hide Tracker.Push;
      hide Uxn.FlagR;
      hide Uxn.FlagK;
      hide Uxn.Flag2;
      var flag2, flagR := Flag2(), FlagR();
      var c := Pop(flag2, flagR);
      var b := Pop(flag2, flagR);
      var a := Pop(flag2, flagR);
      Push(b, flagR);
      Push(c, flagR);
      Push(a, flagR);
    }

    method Dup()
      requires Valid() && Uxn.OpOf(ctx.currentOpcode).Dup?
      modifies Repr() - {this}
      ensures Valid() && E() == old(E()).Plain(pc) && T() == old(T()).Apply(old(ctx.currentOpcode), 0)
    {
      hide E;
      hide T;
      hide Emitter.CachePop;
      hide Emitter.Push;
      hide Tracker.Pop;
      hide Tracker.Push;
      hide Uxn.FlagR;
      hide Uxn.FlagK;
      hide Uxn.Flag2;
      var flag2, flagR := Flag2(), FlagR();
      var a := Pop(flag2, flagR);
      Push(a, flagR);
      Push(a, flagR);
    }

    method Ovr()
      requires Valid() && Uxn.OpOf(ctx.currentOpcode).Ovr?
      modifies Repr() - {this}
      ensures Valid() && E() == old(E()).Plain(pc) && T() == old(T()).Apply(old(ctx.currentOpcode), 0)
    {
      hide E;
      hide T;
      hide Emitter.CachePop;
      hide Emitter.Push;
      hide Tracker.Pop;
      hide Tracker.Push;
      hide Uxn.FlagR;
      hide Uxn.FlagK;
      hide Uxn.Flag2;
      var flag2, flagR := Flag2(), FlagR();
      var b := Pop(flag2, flagR);
      var a := Pop(flag2, flagR);
      Push(a, flagR);
      Push(b, flagR);
      Push(a, flagR);
    }

    method Sth()
      requires Valid() && Uxn.OpOf(ctx.currentOpcode).Sth?
      modifies Repr() - {this}
      ensures Valid() && E() == old(E()).Plain(pc) && T() == old(T()).Apply(old(ctx.currentOpcode), 0)
    {
      hide E;
      hide T;
      hide Emitter.CachePop;
      hide Emitter.Push;
      hide Tracker.Pop;
      hide Tracker.Push;
      hide Uxn.FlagR;
      hide Uxn.FlagK;
      hide Uxn.Flag2;
      var flag2, flagR := Flag2(), FlagR();
      var a := Pop(flag2, flagR);
      Push(a, !flagR);
    }

    /** EQU, NEQ, GTH and LTH: the result is known to be a truth value. */
    method Compare()
      requires Valid() && (Uxn.OpOf(ctx.currentOpcode).Equ? || Uxn.OpOf(ctx.currentOpcode).Neq? || Uxn.OpOf(ctx.currentOpcode).Gth? || Uxn.OpOf(ctx.currentOpcode).Lth?)
      modifies Repr() - {this}
      ensures Valid() && E() == old(E()).Plain(pc) && T() == old(T()).Apply(old(ctx.currentOpcode), 0)
    {
      hide E;
      hide T;
      hide Emitter.CachePop;
      hide Emitter.Push;
      hide Tracker.Pop;
      hide Tracker.Push;
      hide Uxn.FlagR;
      hide Uxn.FlagK;
      hide Uxn.Flag2;
      hide Emitter.Alloc;
      var flag2, flagR := Flag2(), FlagR();
      var op := Uxn.OpOf(ctx.currentOpcode);
      var b := Pop(flag2, flagR);
      var a := Pop(flag2, flagR);
      var c := Alloc();
      Emit(Instr.Compare(a.reg, b.reg));
      Emit(SetFlag(c, match op case Equ => EQUAL case Neq => NOT_EQUAL case Gth => GREATER case _ => LESS));
      Push(Operand(c, Known(false, false, true, 0)), flagR);
    }

    /** LDZ, LDR and LDA. */
    method Load()
      requires Valid() && (Uxn.OpOf(ctx.currentOpcode).Ldz? || Uxn.OpOf(ctx.currentOpcode).Ldr? || Uxn.OpOf(ctx.currentOpcode).Lda?)
      modifies Repr() - {this}
      ensures Valid() && E() == old(E()).Plain(pc) && T() == old(T()).Apply(old(ctx.currentOpcode), 0)
    {
      hide E;
      hide T;
      hide Emitter.CachePop;
      hide Emitter.Push;
      hide Tracker.Pop;
      hide Tracker.Push;
      hide Uxn.FlagR;
      hide Uxn.FlagK;
      hide Uxn.Flag2;
      hide Emitter.Alloc;
      hide Emitter.LoadTo;
      hide Emitter.Relative;
      var flag2, flagR := Flag2(), FlagR();
      var op := Uxn.OpOf(ctx.currentOpcode);
      MemorySteps(E(), T(), pc);
      hide Emitter.Plain;
      hide Tracker.Apply;
      hide Uxn.OpOf;
      var addr := Pop(op.Lda?, flagR);
      if op.Ldr? {
        Relative(addr.reg);
      }
      var value := Alloc();
      LoadTo(value, addr.reg, !op.Ldz?, flag2);
      Push(Operand(value, Unknown(flag2)), flagR);
    }

    /** STZ, STR and STA. */
    method Store()
      requires Valid() && (Uxn.OpOf(ctx.currentOpcode).Stz? || Uxn.OpOf(ctx.currentOpcode).Str? || Uxn.OpOf(ctx.currentOpcode).Sta?)
      modifies Repr() - {this}
      ensures Valid() && E() == old(E()).Plain(pc) && T() == old(T()).Apply(old(ctx.currentOpcode), 0)
    {
      hide E;
      hide T;
      hide Emitter.CachePop;
      hide Emitter.Push;
      hide Tracker.Pop;
      hide Tracker.Push;
      hide Uxn.FlagR;
      hide Uxn.FlagK;
      hide Uxn.Flag2;
      hide Emitter.StoreFrom;
      hide Emitter.Relative;
      var flag2, flagR := Flag2(), FlagR();
      var op := Uxn.OpOf(ctx.currentOpcode);
      MemorySteps(E(), T(), pc);
      hide Emitter.Plain;
      hide Tracker.Apply;
      hide Uxn.OpOf;
      var addr := Pop(op.Sta?, flagR);
      var value := Pop(flag2, flagR);
      if op.Str? {
        Relative(addr.reg);
      }
      StoreFrom(value.reg, addr.reg, !op.Stz?, flag2);
    }

    method EmitMasked(alu: Alu, c: Reg, a: Reg, b: Reg, flag2: bool)
      requires Valid()
      modifies ctx`code
      ensures Valid() && T() == old(T())
      ensures E() == old(E()).Emit(Op2(alu, c, R(a), R(b))).Emit(Op2(Alu.AND, c, R(c), Mask(flag2)))
    {
      hide E;
      hide T;
      Emit(Op2(alu, c, R(a), R(b)));
      Emit(Op2(Alu.AND, c, R(c), Mask(flag2)));
    }

    method Shift(c: Reg, a: Reg, b: Reg, flag2: bool)
      requires Valid()
      modifies ctx`code
      ensures Valid() && E() == old(E()).Calculate(Uxn.Sft, c, a, b, flag2) && T() == old(T())
    {
      hide E;
      hide T;
      Emit(Op2(Alu.AND, TMP, R(b), Imm(0x0f)));
      Emit(Op2(Alu.LSHR, c, R(a), R(TMP)));
      Emit(Op2(Alu.LSHR, TMP, R(b), Imm(4)));
      EmitMasked(Alu.SHL, c, c, TMP, flag2);
    }

    method Divide(c: Reg, a: Reg, b: Reg, ghost flag2: bool)
      requires Valid()
      modifies ctx`code
      ensures Valid() && E() == old(E()).Calculate(Uxn.Div, c, a, b, flag2) && T() == old(T())
    {
      hide E;
      hide T;
      Emit(IfZero(b,
        [Op1(MOV, R(c), Imm(0))],
        [Op1(MOV, R(TMP), R(MEM_BASE)), Op1(MOV, R(MEM_BASE), R(a)), Op1(MOV, R(MEM_OFFSET), R(b)),
         DivUW, Op1(MOV, R(c), R(MEM_BASE)), Op1(MOV, R(MEM_BASE), R(TMP))]));
    }

    method Calculate(op: Uxn.Op, c: Reg, a: Reg, b: Reg, flag2: bool)
      requires Valid() && Values.IsArith(op)
      modifies ctx`code
      ensures Valid() && E() == old(E()).Calculate(op, c, a, b, flag2) && T() == old(T())
    {
      CalculateSteps(E(), op, c, a, b, flag2);
      hide E;
      hide T;
      hide Mask;
      hide Emitter.Emit;
      hide Emitter.Calculate;
      hide AluOf;
      if op.Div? {
        Divide(c, a, b, flag2);
      } else if op.Sft? {
        Shift(c, a, b, flag2);
      } else if op.And? || op.Ora? || op.Eor? {
        Emit(Op2(AluOf(op), c, R(a), R(b)));
      } else {
        EmitMasked(AluOf(op), c, a, b, flag2);
      }
    }

    /** ADD, SUB, MUL, DIV, AND, ORA, EOR and SFT: constants are folded. */
    method Arithmetic()
      requires Valid() && Values.IsArith(Uxn.OpOf(ctx.currentOpcode))
      modifies Repr() - {this}
      ensures Valid() && E() == old(E()).Plain(pc) && T() == old(T()).Apply(old(ctx.currentOpcode), 0)
    {
      hide E;
      hide T;
      hide Emitter.CachePop;
      hide Emitter.Push;
      hide Tracker.Pop;
      hide Tracker.Push;
      hide Uxn.FlagR;
      hide Uxn.FlagK;
      hide Uxn.Flag2;
      hide Emitter.Alloc;
      hide Emitter.Calculate;
      hide Uxn.OpOf;
      var flag2, flagR, op := Flag2(), FlagR(), Uxn.OpOf(ctx.currentOpcode);
      ArithSteps(E(), T(), pc, 0);
      hide Emitter.Plain;
      hide Tracker.Apply;
      var b := Pop(flag2 && op != Uxn.Sft, flagR);
      var a := Pop(flag2, flagR);
      var c := Alloc();
      Calculate(op, c, a.reg, b.reg, flag2);
      Push(Operand(c, Folded(op, a.known, b.known)), flagR);
    }

    // ---- dispatch ----

    /** Emits an opcode that neither jumps nor talks to a device. */
    method Plain()
      requires Valid() && IsPlain(Uxn.OpOf(ctx.currentOpcode))
      modifies Repr()
      ensures var code, at := old(ctx.currentOpcode), old(pc);
        && Valid() && done == old(done) && E() == old(E()).Plain(at) && T() == old(T()).Apply(code, LiteralHere(rom, code, at))
        && pc == PastLiteral(code, at)
    {
      hide E;
      hide T;
      hide Emitter.Plain;
      hide Tracker.Apply;
      hide Uxn.Fetch;
      hide Uxn.OpOf;
      hide Uxn.Flag2;
      ghost var lit := LiteralHere(rom, ctx.currentOpcode, pc);
      assert Uxn.OpOf(ctx.currentOpcode).Lit? ==> PastLiteral(ctx.currentOpcode, pc) == (pc + if Uxn.Flag2(ctx.currentOpcode) then 2 else 1) % 0x1_0000;
      assert !Uxn.OpOf(ctx.currentOpcode).Lit? ==> PastLiteral(ctx.currentOpcode, pc) == pc;
      hide PastLiteral;
      SameWithoutLiteral(T(), ctx.currentOpcode, lit);
      var op := Uxn.OpOf(ctx.currentOpcode);
      if op.Lit? {
        Lit();
      } else if Shuffles(op) {
        Shuffle();
      } else {
        Compute();
      }
    }

    method Shuffle()
      requires Valid() && Shuffles(Uxn.OpOf(ctx.currentOpcode))
      modifies Repr() - {this}
      ensures Valid() && E() == old(E()).Plain(pc) && T() == old(T()).Apply(old(ctx.currentOpcode), 0)
    {
      hide E;
      hide T;
      hide Emitter.Plain;
      hide Tracker.Apply;
      var op := Uxn.OpOf(ctx.currentOpcode);
      hide Uxn.OpOf;
      match op {
        case Inc => Inc();
        case Pop => PopOp();
        case Nip => Nip();
        case Swp => Swp();
        case Rot => Rot();
        case Dup => Dup();
        case Ovr => Ovr();
        case Sth => Sth();
      }
    }

    method Compute()
      requires Valid() && IsPlain(Uxn.OpOf(ctx.currentOpcode))
      requires !Shuffles(Uxn.OpOf(ctx.currentOpcode)) && !Uxn.OpOf(ctx.currentOpcode).Lit?
      modifies Repr() - {this}
      ensures Valid() && E() == old(E()).Plain(pc) && T() == old(T()).Apply(old(ctx.currentOpcode), 0)
    {
      hide E;
      hide T;
      hide Emitter.Plain;
      hide Tracker.Apply;
      var op := Uxn.OpOf(ctx.currentOpcode);
      hide Uxn.OpOf;
      match op {
        case Equ | Neq | Gth | Lth => Compare();
        case Ldz | Ldr | Lda => Load();
        case Stz | Str | Sta => Store();
        case Add | Sub | Mul | Div | And | Ora | Eor | Sft => Arithmetic();
      }
    }

    // ---- jumps ----

    method SetCode(newCode: seq<Instr>)
      requires Valid()
      modifies ctx`code
      ensures Valid() && E() == old(E()).(code := newCode) && T() == old(T())
    {
      ctx.SetCode(newCode);
    }

    method ForgetMemBase()
      requires Valid()
      modifies ctx`memBase
      ensures Valid() && E() == old(E()).(memBase := 0) && T() == old(T())
    {
      ctx.ForgetMemBase();
    }

    /** The jump to the target in a register. */
    method JumpAbs(reg: Reg, site: Calls.Site)
      requires Valid()
      modifies ctx`code, ctx`memBase
      ensures Valid() && E() == Departed(Append(old(E()), Jumps.JumpAbs(reg, site)), site) && T() == old(T())
    {
      hide E;
      hide T;
      if site.Constant? {
        if site.ret == 0 {
          Emit(if site.immediate then JumpBody(site.target) else JumpBodyIfEqual(reg, site.target));
        } else {
          ForgetMemBase();
          Emit(if site.immediate then CallHead(site.target, site.ret)
               else IfEqual(reg, site.target, [CallHead(site.target, site.ret)]));
        }
      }
      Emit(Leave(R(reg)));
    }

    /** The jump to an absolute or relative target. */
    method EmitTail(reg: Reg, flag2: bool, site: Calls.Site)
      requires Valid()
      modifies ctx`code, ctx`memBase
      ensures Valid() && E() == Departed(Append(old(E()), Tail(reg, flag2, site, pc)), site) && T() == old(T())
    {
      hide E;
      hide T;
      hide Jumps.JumpAbs;
      if !flag2 {
        Emit(Op1(MOV_S8, R(reg), R(reg)));
        Emit(Op2(Alu.ADD, reg, R(reg), Imm(pc)));
      }
      JumpAbs(reg, site);
    }

    method JumpTo(reg: Reg, flag2: bool, site: Calls.Site)
      requires Valid()
      modifies Repr() - {this}
      ensures Valid() && E() == Jumps.JumpTo(old(E()), reg, flag2, site, pc) && T() == old(T())
    {
      hide E;
      hide T;
      hide Emitter.ClearBoth;
      hide Tail;
      ClearBoth();
      EmitTail(reg, flag2, site);
    }

    /** A jump under the condition that a register is not zero. */
    method JumpUnlessZero(condition: Reg, reg: Reg, flag2: bool, site: Calls.Site)
      requires Valid() && (site.Constant? ==> site.ret == 0)
      modifies Repr() - {this}
      ensures Valid() && E() == Jumps.JumpUnlessZero(old(E()), condition, reg, flag2, site, pc) && T() == old(T())
    {
      hide E;
      hide T;
      hide Emitter.ClearBoth;
      hide Tail;
      ClearBoth();
      var outer := ctx.code;
      SetCode([]);
      EmitTail(reg, flag2, site);
      assert ctx.code == Tail(reg, flag2, site, pc);
      SetCode(outer + [UnlessLowByteZero(condition, ctx.code)]);
    }

    method PushReturn(to: bool)
      requires Valid()
      modifies Repr() - {this}
      ensures Valid() && E() == Jumps.PushReturn(old(E()), pc, to) && T() == old(T()).Push(Unknown(true), to)
    {
      hide E;
      hide T;
      hide Emitter.Alloc;
      hide Emitter.Push;
      hide Tracker.Push;
      var reg := Alloc();
      Emit(Op1(MOV_U16, R(reg), Imm(pc)));
      Push(Operand(reg, Unknown(true)), to);
    }

    /** The target of an immediate jump: a constant that no register is needed for. */
    method ImmediateJumpTarget() returns (target: nat)
      requires Valid()
      modifies Repr()
      ensures Valid() && done == old(done) && pc == (old(pc) + 2) % 0x1_0000 && T() == old(T())
      ensures target == (pc + Uxn.Fetch(rom, old(pc), true, true)) % 0x1_0000
      ensures E() == old(E()).Emit(Op1(MOV_U16, R(TMP), Imm(target)))
    {
      hide E;
      hide T;
      hide Uxn.Fetch;
      var offset := Uxn.Fetch(rom, pc, true, true);
      SetPc((pc + 2) % 0x1_0000);
      target := (pc + offset) % 0x1_0000;
      Emit(Op1(MOV_U16, R(TMP), Imm(target)));
    }

    // ---- opcodes that jump ----

    method Brk()
      requires Valid() && Uxn.OpOf(ctx.currentOpcode).Brk?
      modifies Repr()
      ensures Valid() && done && pc == old(pc) && T() == old(T())
      ensures E() == Append(old(E()).ClearBoth(), [Leave(Imm(Calls.BREAK))])
    {
      hide E;
      hide T;
      hide Emitter.ClearBoth;
      ClearBoth();
      Emit(Leave(Imm(Calls.BREAK)));
      Finalize();
    }

    method Finalize()
      requires Valid()
      modifies this`done
      ensures Valid() && done && E() == old(E()) && T() == old(T())
    {
      done := true;
    }

    /** The compiler handle is put back: the block goes on. */
    method Unfinalize()
      requires Valid()
      modifies this`done
      ensures Valid() && !done && E() == old(E()) && T() == old(T())
    {
      done := false;
    }

    /** JCI, JMI and JSI. */
    method ImmediateJump()
      requires Valid() && IsImmediate(Uxn.OpOf(ctx.currentOpcode)) && !done
      modifies Repr()
      ensures var code, at := old(ctx.currentOpcode), old(pc); var op, after := Uxn.OpOf(code), (at + 2) % 0x1_0000;
        var target := (after + Uxn.Fetch(rom, at, true, true)) % 0x1_0000;
        && Valid() && pc == after && !done && T() == old(T()).Apply(code, 0)
        && E() == JumpOp(old(E()), after, Calls.Constant(target, true, if op.Jsi? then after else 0), target)
    {
      hide E;
      hide T;
      hide Emitter.CachePop;
      hide Emitter.ClearBoth;
      hide Tracker.Pop;
      hide Tracker.Push;
      hide Jumps.JumpTo;
      hide Jumps.JumpUnlessZero;
      hide Jumps.PushReturn;
      hide NextOpcode;
      hide SignExtend8;
      hide Uxn.FlagR;
      hide Uxn.FlagK;
      hide Uxn.Flag2;
      hide Uxn.Fetch;
      var op := Uxn.OpOf(ctx.currentOpcode);
      hide Uxn.OpOf;
      if op.Jci? {
        var condition := Pop(false, false);
        var target := ImmediateJumpTarget();
        JumpUnlessZero(condition.reg, TMP, true, Calls.Constant(target, true, 0));
      } else {
        var target := ImmediateJumpTarget();
        if op.Jsi? {
          PushReturn(true);
          JumpTo(TMP, true, Calls.Constant(target, true, pc));
        } else {
          JumpTo(TMP, true, Calls.Constant(target, true, 0));
        }
      }
    }

    /** Compiles the next opcode under the condition that the target is zero. */
    method Skip(target: Reg, condition: Reg, conditional: bool)
      requires Valid() && !done
      modifies Repr()
      ensures var inner := NextOpcode(Ctx(old(E()).(code := []), old(T()), old(pc), false), rom);
        Valid() && Ctx(E(), T(), pc, done) == Ctx(Guarded(old(E()), inner.e, target, condition, conditional), inner.t, inner.pc, false)
      decreases Left(pc), 3
    {
      hide E;
      hide T;
      hide Emitter.ClearBoth;
      hide NextOpcode;
      var outer := ctx.code;
      SetCode([]);
      Next();
      Unfinalize();
      ClearBoth();
      var guarded := IfEqual(target, 0, ctx.code);
      SetCode(outer + [if conditional then UnlessLowByteZero(condition, [guarded]) else guarded]);
    }

    /** JMP, JCN and JSR: a jump whose target is known to be a truth value skips an opcode. */
    method PoppedJump()
      requires Valid() && PopsTarget(Uxn.OpOf(ctx.currentOpcode)) && !done
      modifies Repr()
      ensures Valid() && Ctx(E(), T(), pc, done) == PoppedResult(old(E()), old(T()), old(pc), rom)
      decreases Left(pc), 4
    {
      hide E;
      hide T;
      hide Emitter.CachePop;
      hide Emitter.ClearBoth;
      hide Tracker.Pop;
      hide Tracker.Push;
      hide Jumps.JumpTo;
      hide Jumps.JumpUnlessZero;
      hide Jumps.PushReturn;
      hide NextOpcode;
      hide SignExtend8;
      hide Uxn.FlagR;
      hide Uxn.FlagK;
      hide Uxn.Flag2;
      hide Guarded;
      var flag2, flagR, op := Flag2(), FlagR(), Uxn.OpOf(ctx.currentOpcode);
      hide Uxn.OpOf;
      var target := Pop(flag2, flagR);
      var ret, condition := 0, 0;
      if op.Jcn? {
        var c := Pop(false, flagR);
        condition := c.reg;
      } else if op.Jsr? {
        PushReturn(!flagR);
        ret := pc;
      }
      if !flag2 && target.known.boolean {
        ClearBoth();
        Skip(target.reg, condition, op.Jcn?);
      } else if op.Jcn? {
        JumpUnlessZero(condition, target.reg, flag2, SiteOf(target.known, pc, 0));
      } else {
        JumpTo(target.reg, flag2, SiteOf(target.known, pc, ret));
        if op.Jmp? {
          Finalize();
        }
      }
    }

    /** The call of a device: from here on no memory base is known. */
    method Asking(isInput: bool, flag2: bool, port: Reg)
      requires Valid()
      modifies Repr() - {this}
      ensures Valid() && E() == DeviceOps.Asking(old(E()), isInput, flag2, port) && T() == old(T())
    {
      hide E;
      hide T;
      hide Emitter.ClearBoth;
      ClearBoth();
      ForgetMemBase();
      Emit(Op1(MOV, R(MEM_BASE), R(VM)));
      Emit(Op1(MOV, R(MEM_OFFSET), R(port)));
      Emit(CallDevice(isInput, flag2));
    }

    method ToPage(port: Reg, value: Reg, flag2: bool)
      requires Valid()
      modifies ctx`code, ctx`memBase
      ensures Valid() && E() == DeviceOps.ToPage(old(E()), port, value, flag2) && T() == old(T())
    {
      hide E;
      hide T;
      hide Emitter.SetMemBase;
      SetMemBase(DEV_BASE);
      Emit(Op1(MOV_U8, R(MEM_OFFSET), R(port)));
      if flag2 {
        Emit(Op2(Alu.LSHR, TMP, R(value), Imm(8)));
        Emit(Op1(MOV_U8, Mem, R(TMP)));
        Emit(Op2(Alu.ADD, MEM_OFFSET, R(MEM_OFFSET), Imm(1)));
        Emit(Op2(Alu.AND, MEM_OFFSET, R(MEM_OFFSET), Imm(0xff)));
      }
      Emit(Op1(MOV_U8, Mem, R(value)));
    }

    /** DEI and DEO. */
    method Device()
      requires Valid() && Uxn.IsDevice(Uxn.OpOf(ctx.currentOpcode))
      modifies Repr() - {this}
      ensures Valid() && E() == DeviceOp(old(E())) && T() == old(T()).Apply(old(ctx.currentOpcode), 0)
    {
      hide E;
      hide T;
      hide Emitter.CachePop;
      hide DeviceOps.Asking;
      hide DeviceOps.ToPage;
      hide Tracker.Pop;
      hide Tracker.Push;
      hide NextOpcode;
      hide Uxn.FlagR;
      hide Uxn.FlagK;
      hide Uxn.Flag2;
      hide Emitter.Alloc;
      hide Emitter.Push;
      hide Uxn.OpOf;
      var flag2, flagR, op := Flag2(), FlagR(), Uxn.OpOf(ctx.currentOpcode);
      var port := Pop(false, flagR);
      if op.Dei? {
        var result := Alloc();
        Asking(true, flag2, port.reg);
        Emit(Op1(MOV, R(result), R(MEM_BASE)));
        Push(Operand(result, Unknown(flag2)), flagR);
      } else {
        var value := Pop(flag2, flagR);
        ToPage(port.reg, value.reg, flag2);
        Asking(false, flag2, port.reg);
      }
    }

    method BeginOpcode(code: nat)
      requires Valid()
      modifies Repr()
      ensures Valid() && E() == old(E()).Begin(code) && T() == old(T()).Begin(code) && ctx.currentOpcode == code
      ensures pc == (old(pc) + 1) % 0x1_0000 && done == old(done)
    {
      BeginKeepsOpcode(ctx.State(), code);
      hide Emitter.Begin;
      ctx.Begin(code);
      known.Begin(code);
      pc := (pc + 1) % 0x1_0000;
    }

    /** Compiles one opcode. */
    method Next()
      requires Valid() && !done
      modifies Repr()
      ensures Valid() && Ctx(E(), T(), pc, done) == NextOpcode(Ctx(old(E()), old(T()), old(pc), false), rom)
      decreases Left(pc), 2
    {
      hide E;
      hide T;
      hide Emitter.ClearBoth;
      if pc < 256 {
        ClearBoth();
        Emit(Leave(Imm(pc)));
        Finalize();
      } else {
        NextCompiled();
      }
    }

    method NextCompiled()
      requires Valid() && !done && 256 <= pc
      modifies Repr()
      ensures Valid() && Ctx(E(), T(), pc, done) == NextOpcode(Ctx(old(E()), old(T()), old(pc), false), rom)
      decreases Left(pc), 1
    {
      hide E;
      hide T;
      hide Emitter.Begin;
      hide Tracker.Begin;
      hide NextOpcode;
      hide Dispatched;
      NextDispatches(E(), T(), pc, rom, Uxn.Peek(rom, pc));
      LeftAfterOpcode(pc);
      BeginOpcode(Uxn.Peek(rom, pc));
      Dispatch();
    }

    method Dispatch()
      requires Valid() && !done
      modifies Repr()
      ensures Valid() && Ctx(E(), T(), pc, done) == Dispatched(old(E()), old(T()), old(pc), rom)
      decreases Left(pc), 5
    {
      hide E;
      hide T;
      hide Emitter.ClearBoth;
      hide Emitter.Plain;
      hide Tracker.Apply;
      hide DeviceOp;
      hide JumpOp;
      hide PoppedResult;
      hide Uxn.Fetch;
      hide PastLiteral;
      hide LiteralHere;
      var op := Uxn.OpOf(ctx.currentOpcode);
      hide Uxn.OpOf;
      if IsPlain(op) {
        Plain();
      } else if PopsTarget(op) {
        PoppedJump();
      } else if op.Brk? {
        Brk();
      } else if Uxn.IsDevice(op) {
        Device();
      } else {
        ImmediateJump();
        if op.Jmi? {
          Finalize();
        }
      }
    }

    /** Compiles the whole block.  The context ends up where module CompileLoop says, so no
        assertion has failed on the way. */
    method CompileBlock()
      requires Valid() && !done && exists entry :: 0 <= entry < 0x1_0000 && Ctx(E(), T(), pc, done) == Start(entry)
      modifies Repr()
      ensures Valid() && done && !E().failed
      ensures Ctx(E(), T(), pc, done) == Compile(Ctx(old(E()), old(T()), old(pc), false), rom)
    {
      ghost var entry :| 0 <= entry < 0x1_0000 && Ctx(E(), T(), pc, done) == Start(entry);
      EveryBlockCompiles(rom, entry);
      hide E;
      hide T;
      hide NextOpcode;
      while !done
        invariant Valid() && Compile(Ctx(E(), T(), pc, done), rom) == Compile(Start(entry), rom)
        decreases Left(pc), if done then 0 else if pc < 256 then 1 else 2
      {
        Next();
      }
    }
  }

  /** What a jump to a popped target comes to, from the state after "Begin". */
  ghost function PoppedResult(e: Emitter, t: Tracker, pc: nat, rom: Uxn.Bytes): Ctx
    requires pc < 0x1_0000
  {
    var code := e.opcode;
    var op, short, r := Uxn.OpOf(code), Uxn.Flag2(code), Uxn.FlagR(code);
    var k := t.Pop(short, r).1;
    if !short && k.boolean then
      var (e1, target, condition) := TargetPopped(e, pc);
      var inner := NextOpcode(Ctx(e1.(code := []), t.Apply(code, 0), pc, false), rom);
      Ctx(Guarded(e1, inner.e, target, condition, op.Jcn?), inner.t, inner.pc, false)
    else Ctx(JumpOp(e, pc, SiteOf(k, pc, if op.Jsr? then pc else 0), 0), t.Apply(code, 0), pc, op.Jmp?)
  }

  /** What one opcode comes to, from the state after "Begin". */
  ghost function Dispatched(e: Emitter, t: Tracker, pc: nat, rom: Uxn.Bytes): Ctx
    requires pc < 0x1_0000
  {
    var code := e.opcode;
    var op, after := Uxn.OpOf(code), (pc + 2) % 0x1_0000;
    var target := (after + Uxn.Fetch(rom, pc, true, true)) % 0x1_0000;
    if IsPlain(op) then Ctx(e.Plain(pc), t.Apply(code, LiteralHere(rom, code, pc)), PastLiteral(code, pc), false)
    else if PopsTarget(op) then PoppedResult(e, t, pc, rom)
    else if op.Brk? then Ctx(Append(e.ClearBoth(), [Leave(Imm(Calls.BREAK))]), t, pc, true)
    else if Uxn.IsDevice(op) then Ctx(DeviceOp(e), t.Apply(code, 0), pc, false)
    else Ctx(JumpOp(e, after, Calls.Constant(target, true, if op.Jsi? then after else 0), target), t.Apply(code, 0), after, op.Jmi?)
  }

  lemma NextDispatches(e: Emitter, t: Tracker, at: nat, rom: Uxn.Bytes, code: nat)
    requires 256 <= at < 0x1_0000 && code == Uxn.Peek(rom, at)
    ensures NextOpcode(Ctx(e, t, at, false), rom) == Dispatched(e.Begin(code), t.Begin(code), (at + 1) % 0x1_0000, rom)
  {
    hide Uxn.OpOf;
    hide Emitter.Begin;
    hide Emitter.Plain;
    hide Tracker.Begin;
    hide DeviceOp;
    hide TargetPopped;
    hide Guarded;
    hide SiteOf;
    hide Uxn.Fetch;
    hide Uxn.FlagR;
    hide Uxn.Flag2;
    hide Emitter.ClearBoth;
    hide PoppedResult;
    hide PushReturn;
    hide Tracker.Pop;
    hide Tracker.Push;
    BeginKeepsOpcode(e, code);
    SameWithoutLiteral(t.Begin(code), code, LiteralAt(rom, code, at));
    var op := Uxn.OpOf(code);
    if PopsTarget(op) {
      PoppedCase(e, t, at, rom, code);
    } else {
      assert ((at + 1) % 0x1_0000 + 2) % 0x1_0000 == (at + 3) % 0x1_0000;
    }
  }

  lemma SameForPopped(e: Emitter, pc: nat, site: Calls.Site, imm: nat)
    requires PopsTarget(Uxn.OpOf(e.opcode))
    ensures JumpOp(e, pc, site, imm) == JumpOp(e, pc, site, 0)
  {
    hide Uxn.OpOf;
    hide Emitter.CachePop;
    hide Jumps.JumpTo;
    hide Jumps.JumpUnlessZero;
    hide Jumps.PushReturn;
  }

  lemma PoppedFacts(t: Tracker, at: nat, rom: Uxn.Bytes, code: nat)
    requires 256 <= at < 0x1_0000 && code == Uxn.Peek(rom, at) && PopsTarget(Uxn.OpOf(code))
    ensures var op, short, pc := Uxn.OpOf(code), Uxn.Flag2(code), (at + 1) % 0x1_0000;
      var k := t.Begin(code).Pop(short, Uxn.FlagR(code)).1;
      && PcAfter(code, at) == pc && TrackAt(t, rom, at) == t.Begin(code).Apply(code, 0)
      && Skips(t, code) == (!short && k.boolean) && Ends(t, code) == (op.Jmp? && !(!short && k.boolean))
      && SiteAt(t, rom, code, at) == SiteOf(k, pc, if op.Jsr? then pc else 0)
  {
    SameWithoutLiteral(t.Begin(code), code, LiteralAt(rom, code, at));
    hide Uxn.OpOf;
    hide Uxn.FlagR;
    hide Uxn.Flag2;
    hide Tracker.Begin;
    hide Tracker.Pop;
    hide Tracker.Apply;
    hide SiteOf;
    hide LiteralAt;
    hide ImmediateTarget;
  }

  lemma PoppedCase(e: Emitter, t: Tracker, at: nat, rom: Uxn.Bytes, code: nat)
    requires 256 <= at < 0x1_0000 && code == Uxn.Peek(rom, at) && PopsTarget(Uxn.OpOf(code)) && e.Begin(code).opcode == code
    ensures NextOpcode(Ctx(e, t, at, false), rom) == PoppedResult(e.Begin(code), t.Begin(code), (at + 1) % 0x1_0000, rom)
  {
    PoppedFacts(t, at, rom, code);
    SameForPopped(e.Begin(code), (at + 1) % 0x1_0000, SiteAt(t, rom, code, at), ImmediateTarget(rom, code, at));
    hide Uxn.OpOf;
    hide Uxn.FlagR;
    hide Uxn.Flag2;
    hide JumpOp;
    hide Emitter.Begin;
    hide Tracker.Begin;
    hide Tracker.Pop;
    hide Tracker.Apply;
    hide TargetPopped;
    hide Guarded;
    hide SiteOf;
    hide SiteAt;
    hide LiteralAt;
    hide ImmediateTarget;
    hide PcAfter;
    hide TrackAt;
    hide Skips;
    hide Ends;
    hide Left;
  }

  lemma LeftAfterOpcode(pc: nat)
    requires 256 <= pc < 0x1_0000
    ensures Left((pc + 1) % 0x1_0000) < Left(pc)
  {
  }

  // ---- the opcode an emitter works on ----

  lemma {:induction false} AllocKeepsOpcode(e: Emitter)
    ensures e.Alloc().0.opcode == e.opcode
    decreases e.Cached()
  {
    if FindFree(e.refs, 0) == 0 && e.Cached() > 0 {
      var first := Uxn.FlagR(e.opcode);
      var side := if e.Cache(first) != [] then first else !first;
      SpillKeepsOpcode(e, side);
      hide Emitter.Spill;
      AllocKeepsOpcode(e.Spill(side));
    }
  }

  lemma SpillKeepsOpcode(e: Emitter, side: bool)
    ensures e.Spill(side).opcode == e.opcode
  {
    if e.Cache(side) != [] {
      Allocator.DoPushBooks(e, e.Cache(side)[0], side);
      hide Emitter.DoPush;
    }
  }

  lemma {:induction false} FlushKeepsOpcode(e: Emitter, r: bool, from: nat)
    ensures e.Flush(r, from).opcode == e.opcode
    decreases |e.Cache(r)| - from
  {
    if from < |e.Cache(r)| {
      var cell := e.Cache(r)[from];
      if cell.needFlush {
        Allocator.DoPushBooks(e, cell, r);
        hide Emitter.DoPush;
        FlushKeepsOpcode(e.DoPush(cell, r).WithCache(r, e.Cache(r)[from := cell.(needFlush := false)]), r, from + 1);
      } else {
        FlushKeepsOpcode(e, r, from + 1);
      }
    }
  }

  lemma BeginKeepsOpcode(e: Emitter, op: nat)
    ensures e.Begin(op).opcode == op
  {
    hide Emitter.RetainCache;
    hide Emitter.Alloc;
    hide Emitter.Flush;
    var e1 := e.(refs := seq(NUM_OPS, i => 0)).RetainCache(false).RetainCache(true).(opcode := op);
    if Uxn.FlagK(op) {
      AllocKeepsOpcode(e1);
      AllocKeepsOpcode(e1.Alloc().0);
      var (e2, w) := e1.Alloc();
      var (e3, r) := e2.Alloc();
      FlushKeepsOpcode(e3.Emit(Op1(MOV_U8, R(w), R(WSP))).Emit(Op1(MOV_U8, R(r), R(RSP))).(wspReg := w, rspReg := r), Uxn.FlagR(op), 0);
    }
  }

  predicate Shuffles(op: Uxn.Op) {
    op.Inc? || op.Pop? || op.Nip? || op.Swp? || op.Rot? || op.Dup? || op.Ovr? || op.Sth?
  }

  function LiteralHere(mem: Uxn.Bytes, code: nat, pc: nat): nat {
    Uxn.Fetch(mem, pc, true, Uxn.Flag2(code))
  }

  lemma SameWithoutLiteral(t: Tracker, code: nat, lit: nat)
    ensures !Uxn.OpOf(code).Lit? ==> t.Apply(code, lit) == t.Apply(code, 0)
  {
    hide Uxn.OpOf;
    hide Tracker.Pop;
    hide Tracker.Push;
  }

  function AluOf(op: Uxn.Op): Alu {
    match op
    case Sub => Alu.SUB
    case Mul => Alu.MUL
    case And => Alu.AND
    case Ora => Alu.OR
    case Eor => Alu.XOR
    case _ => Alu.ADD
  }

  lemma CalculateSteps(e: Emitter, op: Uxn.Op, c: Reg, a: Reg, b: Reg, flag2: bool)
    ensures op.And? || op.Ora? || op.Eor? ==> e.Calculate(op, c, a, b, flag2) == e.Emit(Op2(AluOf(op), c, R(a), R(b)))
    ensures op.Add? || op.Sub? || op.Mul? ==>
      e.Calculate(op, c, a, b, flag2) == e.Emit(Op2(AluOf(op), c, R(a), R(b))).Emit(Op2(Alu.AND, c, R(c), Mask(flag2)))
  {
    hide Mask;
    hide Emitter.Emit;
  }

  function LoadBody(t: Tracker, op: Uxn.Op, short: bool, r: bool): Tracker {
    t.Pop(op.Lda?, r).0.Push(Unknown(short), r)
  }

  function StoreBody(t: Tracker, op: Uxn.Op, short: bool, r: bool): Tracker {
    t.Pop(op.Sta?, r).0.Pop(short, r).0
  }

  lemma MemorySteps(e: Emitter, t: Tracker, pc: nat)
    ensures var op, short, r := Uxn.OpOf(e.opcode), Uxn.Flag2(e.opcode), Uxn.FlagR(e.opcode);
      && (op.Ldz? || op.Ldr? || op.Lda? ==>
            e.Plain(pc) == e.LoadOp(op, pc, short, r) && t.Apply(e.opcode, 0) == LoadBody(t, op, short, r))
      && (op.Stz? || op.Str? || op.Sta? ==>
            e.Plain(pc) == e.StoreOp(op, pc, short, r) && t.Apply(e.opcode, 0) == StoreBody(t, op, short, r))
  {
    hide Uxn.OpOf;
    hide Uxn.FlagR;
    hide Uxn.FlagK;
    hide Uxn.Flag2;
    hide Emitter.LoadOp;
    hide Emitter.StoreOp;
    hide Tracker.Pop;
    hide Tracker.Push;
  }

  lemma ArithSteps(e: Emitter, t: Tracker, pc: nat, lit: nat)
    requires Values.IsArith(Uxn.OpOf(e.opcode))
    ensures e.Plain(pc) == e.Arithmetic(Uxn.OpOf(e.opcode), Uxn.Flag2(e.opcode), Uxn.FlagR(e.opcode))
    ensures t.Apply(e.opcode, lit) == ArithBody(t, Uxn.OpOf(e.opcode), Uxn.Flag2(e.opcode), Uxn.FlagR(e.opcode))
  {
    hide Uxn.OpOf;
    hide Uxn.FlagR;
    hide Uxn.FlagK;
    hide Uxn.Flag2;
    hide Emitter.Arithmetic;
    hide Tracker.Pop;
    hide Tracker.Push;
    hide Folded;
  }
}
