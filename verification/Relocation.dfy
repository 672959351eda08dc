/** Emission never looks at the code emitted so far: whatever an emitter does behind a prefix is
    what it does without, put behind the prefix. */
module Relocation {
  import opened Target
  import opened Emission
  import opened Facts
  import opened Jumps
  import opened Blocks
  import opened CompileLoop
  import opened DeviceOps
  import Calls
  import Uxn

  /** The emitter with "c" in front of its code. */
  function Behind(c: seq<Instr>, e: Emitter): Emitter {
    e.(code := c + e.code)
  }

  function Both<T>(c: seq<Instr>, p: (Emitter, T)): (Emitter, T) {
    (Behind(c, p.0), p.1)
  }

  lemma EmitBehind(c: seq<Instr>, e: Emitter, i: Instr)
    ensures Behind(c, e).Emit(i) == Behind(c, e.Emit(i))
  {
    hide Exec;
    assert (c + e.code) + [i] == c + (e.code + [i]);
  }

  lemma Emits(c: seq<Instr>)
    ensures forall e: Emitter, i: Instr {:trigger Behind(c, e).Emit(i)} :: Behind(c, e).Emit(i) == Behind(c, e.Emit(i))
  {
    hide Behind;
    hide Emitter.Emit;
    forall e: Emitter, i: Instr ensures Behind(c, e).Emit(i) == Behind(c, e.Emit(i)) {
      EmitBehind(c, e, i);
    }
  }

  // ---- registers and the memory base ----

  lemma CountsBehind(c: seq<Instr>, e: Emitter, reg: Reg)
    ensures Behind(c, e).Retain(reg) == Behind(c, e.Retain(reg))
    ensures Behind(c, e).Release(reg) == Behind(c, e.Release(reg))
    ensures Behind(c, e).Own(reg) == Behind(c, e.Own(reg))
    ensures Behind(c, e).Count(reg) == e.Count(reg)
  {
  }

  lemma CacheBehind(c: seq<Instr>, e: Emitter, r: bool, cells: seq<Cell>)
    ensures Behind(c, e).WithCache(r, cells) == Behind(c, e.WithCache(r, cells))
  {
  }

  lemma SetMemBaseBehind(c: seq<Instr>, e: Emitter, base: nat)
    ensures Behind(c, e).SetMemBase(base) == Behind(c, e.SetMemBase(base))
  {
    EmitBehind(c, e, Op2(Alu.ADD, MEM_BASE, R(VM), Imm(base)));
    hide Emitter.Emit;
  }

  lemma DoPushBehind(c: seq<Instr>, e: Emitter, cell: Cell, r: bool)
    ensures Behind(c, e).DoPush(cell, r) == Behind(c, e.DoPush(cell, r))
  {
    SetMemBaseBehind(c, e, StackBase(r));
    Emits(c);
    hide Emitter.Emit;
    hide Emitter.SetMemBase;
    hide Behind;
  }

  lemma SpillBehind(c: seq<Instr>, e: Emitter, r: bool)
    ensures Behind(c, e).Spill(r) == Behind(c, e.Spill(r))
  {
    var cells := e.Cache(r);
    if cells != [] {
      DoPushBehind(c, e, cells[0], r);
      hide Emitter.DoPush;
      hide Exec;
      var e1 := if cells[0].needFlush then e.DoPush(cells[0], r) else e;
      CountsBehind(c, e1, cells[0].reg);
      CacheBehind(c, e1.Release(cells[0].reg), r, cells[1..]);
      hide Emitter.Release;
      hide Emitter.WithCache;
    }
  }

  lemma {:induction false} AllocBehind(c: seq<Instr>, e: Emitter)
    ensures Behind(c, e).Alloc() == Both(c, e.Alloc())
    decreases e.Cached()
  {
    hide Emitter.Spill;
    var reg := FindFree(e.refs, 0);
    if reg != 0 {
      CountsBehind(c, e, reg);
    } else if e.Cached() > 0 {
      var first := Uxn.FlagR(e.opcode);
      var side := if e.Cache(first) != [] then first else !first;
      SpillBehind(c, e, side);
      AllocBehind(c, e.Spill(side));
    }
  }

  lemma AllocInPopBehind(c: seq<Instr>, e: Emitter)
    ensures Behind(c, e).AllocInPop() == Both(c, e.AllocInPop())
  {
    AllocBehind(c, e);
    hide Emitter.Alloc;
  }

  // ---- the caches ----

  lemma {:induction false} FlushBehind(c: seq<Instr>, e: Emitter, r: bool, from: nat)
    ensures Behind(c, e).Flush(r, from) == Behind(c, e.Flush(r, from))
    decreases |e.Cache(r)| - from
  {
    hide Emitter.DoPush;
    hide Exec;
    var cells := e.Cache(r);
    if from < |cells| {
      if cells[from].needFlush {
        DoPushBehind(c, e, cells[from], r);
        var cells' := cells[from := cells[from].(needFlush := false)];
        CacheBehind(c, e.DoPush(cells[from], r), r, cells');
        FlushBehind(c, e.DoPush(cells[from], r).WithCache(r, cells'), r, from + 1);
      } else {
        FlushBehind(c, e, r, from + 1);
      }
    }
  }

  lemma {:induction false} ClearBehind(c: seq<Instr>, e: Emitter, r: bool)
    ensures Behind(c, e).Clear(r) == Behind(c, e.Clear(r))
    decreases |e.Cache(r)|
  {
    hide Emitter.Spill;
    if e.Cache(r) != [] {
      SpillBehind(c, e, r);
      SpillShrinks(e, r);
      ClearBehind(c, e.Spill(r), r);
    }
  }

  lemma SpillShrinks(e: Emitter, r: bool)
    requires e.Cache(r) != []
    ensures |e.Spill(r).Cache(r)| < |e.Cache(r)|
  {
  }

  lemma ClearBothBehind(c: seq<Instr>, e: Emitter)
    ensures Behind(c, e).ClearBoth() == Behind(c, e.ClearBoth())
  {
    ClearBehind(c, e, false);
    ClearBehind(c, e.Clear(false), true);
    hide Emitter.Clear;
    hide Behind;
  }

  lemma {:induction false} RetainFromBehind(c: seq<Instr>, e: Emitter, r: bool, from: nat)
    ensures Behind(c, e).RetainFrom(r, from) == Behind(c, e.RetainFrom(r, from))
    decreases |e.Cache(r)| - from
  {
    if from < |e.Cache(r)| {
      CountsBehind(c, e, e.Cache(r)[from].reg);
      assert |e.Retain(e.Cache(r)[from].reg).Cache(r)| == |e.Cache(r)|;
      hide Emitter.Retain;
      RetainFromBehind(c, e.Retain(e.Cache(r)[from].reg), r, from + 1);
    }
  }

  lemma RetainCacheBehind(c: seq<Instr>, e: Emitter, r: bool)
    ensures Behind(c, e).RetainCache(r) == Behind(c, e.RetainCache(r))
  {
    var cells := e.Cache(r)[NumFlushed(e.Cache(r))..];
    CacheBehind(c, e, r, cells);
    RetainFromBehind(c, e.WithCache(r, cells), r, 0);
    hide Emitter.RetainFrom;
    hide Emitter.WithCache;
  }

  lemma PushBehind(c: seq<Instr>, e: Emitter, reg: Reg, short: bool, r: bool)
    ensures Behind(c, e).Push(reg, short, r) == Behind(c, e.Push(reg, short, r))
  {
    SpillBehind(c, e, r);
    CountsBehind(c, e, reg);
    hide Emitter.Spill;
    var e1 := if |e.Cache(r)| >= CACHE_SIZE then e.Spill(r) else e;
    CacheBehind(c, e1, r, e1.Cache(r) + [Cell(reg, short, true)]);
    CountsBehind(c, e1.WithCache(r, e1.Cache(r) + [Cell(reg, short, true)]), reg);
    hide Emitter.WithCache;
    hide Emitter.Retain;
  }

  // ---- pops ----

  lemma ReadBackBehind(c: seq<Instr>, e: Emitter, reg: Reg, short: bool, r: bool)
    ensures Behind(c, e).ReadBack(reg, short, r) == Behind(c, e.ReadBack(reg, short, r))
  {
    assert Behind(c, e).SpReg(r) == e.SpReg(r);
    Emits(c);
    hide Emitter.Emit;
    hide Behind;
    hide Emitter.SpReg;
  }

  lemma PopFromMemBehind(c: seq<Instr>, e: Emitter, short: bool, r: bool)
    ensures Behind(c, e).PopFromMem(short, r) == Both(c, e.PopFromMem(short, r))
  {
    SetMemBaseBehind(c, e, StackBase(r));
    hide Emitter.SetMemBase;
    var e0 := e.SetMemBase(StackBase(r));
    AllocInPopBehind(c, e0);
    hide Emitter.AllocInPop;
    var (e1, reg) := e0.AllocInPop();
    ReadBackBehind(c, e1, reg, short, r);
    hide Emitter.ReadBack;
    hide Behind;
  }

  lemma SplitBehind(c: seq<Instr>, e: Emitter, r: bool)
    requires e.Cache(r) != []
    ensures Behind(c, e).Split(r) == Both(c, e.Split(r))
  {
    hide Exec;
    hide Emitter.AllocInPop;
    hide Emitter.PopFromMem;
    hide Emitter.Release;
    hide Emitter.Own;
    hide Emitter.Emit;
    hide Emitter.WithCache;
    hide Emitter.Grows;
    AllocInPopBehind(c, e);
    var n := |e.Cache(r)| - 1;
    var (e1, reg) := e.AllocInPop();
    var top := e.Cache(r)[n].reg;
    if e1.Cache(r) == [] {
      CountsBehind(c, e1, reg);
      PopFromMemBehind(c, e1.Release(reg), false, r);
    } else {
      CountsBehind(c, e1, top);
      var i, j := Op1(MOV_U8, R(reg), R(top)), Op2(Alu.LSHR, top, R(top), Imm(8));
      EmitBehind(c, e1.Own(top), i);
      EmitBehind(c, e1.Own(top).Emit(i), j);
      var e3 := e1.Own(top).Emit(i).Emit(j);
      if |e3.Cache(r)| == n + 1 {
        CacheBehind(c, e3, r, e3.Cache(r)[n := e3.Cache(r)[n].(isShort := false)]);
      }
    }
  }

  lemma PopByteBehind(c: seq<Instr>, e: Emitter, r: bool)
    ensures Behind(c, e).PopByte(r) == Both(c, e.PopByte(r))
  {
    hide Emitter.Split;
    hide Emitter.PopFromMem;
    var cells := e.Cache(r);
    if cells == [] {
      PopFromMemBehind(c, e, false, r);
    } else if cells[|cells| - 1].isShort {
      SplitBehind(c, e, r);
    } else {
      CacheBehind(c, e, r, cells[..|cells| - 1]);
    }
  }

  lemma JoinBelowBehind(c: seq<Instr>, e: Emitter, r: bool, low: Reg)
    ensures Behind(c, e).JoinBelow(r, low) == Both(c, e.JoinBelow(r, low))
  {
    PopByteBehind(c, e, r);
    hide Emitter.PopByte;
    var (e1, hi) := e.PopByte(r);
    CountsBehind(c, e1, hi);
    var i, j := Op2(Alu.SHL, hi, R(hi), Imm(8)), Op2(Alu.OR, hi, R(hi), R(low));
    EmitBehind(c, e1.Own(hi), i);
    EmitBehind(c, e1.Own(hi).Emit(i), j);
    CountsBehind(c, e1.Own(hi).Emit(i).Emit(j), low);
    hide Emitter.Own;
    hide Emitter.Emit;
    hide Emitter.Release;
    hide Behind;
  }

  lemma PopBehind(c: seq<Instr>, e: Emitter, short: bool, r: bool)
    ensures Behind(c, e).CachePop(short, r) == Both(c, e.CachePop(short, r))
  {
    PopByteBehind(c, e, r);
    PopFromMemBehind(c, e, true, r);
    hide Emitter.PopByte;
    hide Emitter.PopFromMem;
    hide Emitter.JoinBelow;
    var cells := e.Cache(r);
    if cells != [] {
      CacheBehind(c, e, r, cells[..|cells| - 1]);
      JoinBelowBehind(c, e.WithCache(r, cells[..|cells| - 1]), r, cells[|cells| - 1].reg);
    }
  }

  lemma DiscardByteBehind(c: seq<Instr>, e: Emitter, r: bool)
    ensures Behind(c, e).DiscardByte(r) == Behind(c, e.DiscardByte(r))
  {
    Emits(c);
    hide Emitter.Emit;
    var cells := e.Cache(r);
    if cells != [] {
      var n, top := |cells| - 1, cells[|cells| - 1];
      CountsBehind(c, e, top.reg);
      CacheBehind(c, e, r, cells[..n]);
      CountsBehind(c, e.WithCache(r, cells[..n]), top.reg);
      CacheBehind(c, e.Own(top.reg).Emit(Op2(Alu.LSHR, top.reg, R(top.reg), Imm(8))), r, cells[n := top.(isShort := false)]);
    }
    hide Emitter.Own;
    hide Emitter.WithCache;
    hide Emitter.Release;
  }

  lemma DiscardBehind(c: seq<Instr>, e: Emitter, short: bool, r: bool)
    ensures Behind(c, e).Discard(short, r) == Behind(c, e.Discard(short, r))
  {
    DiscardByteBehind(c, e, r);
    Emits(c);
    hide Emitter.Emit;
    hide Emitter.DiscardByte;
    var cells := e.Cache(r);
    if cells != [] {
      var n, top := |cells| - 1, cells[|cells| - 1];
      CacheBehind(c, e, r, cells[..n]);
      CountsBehind(c, e.WithCache(r, cells[..n]), top.reg);
      DiscardByteBehind(c, e.WithCache(r, cells[..n]).Release(top.reg), r);
    }
    hide Emitter.WithCache;
    hide Emitter.Release;
  }

  // ---- memory access and arithmetic ----

  lemma LoadToBehind(c: seq<Instr>, e: Emitter, reg: Reg, addr: Reg, wide: bool, short: bool)
    ensures Behind(c, e).LoadTo(reg, addr, wide, short) == Behind(c, e.LoadTo(reg, addr, wide, short))
  {
    SetMemBaseBehind(c, e, RAM_BASE);
    Emits(c);
    hide Emitter.Emit;
    hide Emitter.SetMemBase;
    hide Behind;
  }

  lemma StoreFromBehind(c: seq<Instr>, e: Emitter, reg: Reg, addr: Reg, wide: bool, short: bool)
    ensures Behind(c, e).StoreFrom(reg, addr, wide, short) == Behind(c, e.StoreFrom(reg, addr, wide, short))
  {
    SetMemBaseBehind(c, e, RAM_BASE);
    Emits(c);
    hide Emitter.Emit;
    hide Emitter.SetMemBase;
    hide Behind;
  }

  lemma LiteralToBehind(c: seq<Instr>, e: Emitter, reg: Reg, pc: nat, short: bool)
    ensures Behind(c, e).LiteralTo(reg, pc, short) == Behind(c, e.LiteralTo(reg, pc, short))
  {
    SetMemBaseBehind(c, e, RAM_BASE);
    Emits(c);
    hide Emitter.Emit;
    hide Emitter.SetMemBase;
    hide Behind;
  }

  lemma ImmediateBehind(c: seq<Instr>, e: Emitter, pc: nat, short: bool)
    ensures Behind(c, e).Immediate(pc, short) == Both(c, e.Immediate(pc, short))
  {
    AllocBehind(c, e);
    hide Emitter.Alloc;
    var (e1, reg) := e.Alloc();
    LiteralToBehind(c, e1, reg, pc, short);
    hide Emitter.LiteralTo;
    hide Behind;
  }

  lemma RelativeBehind(c: seq<Instr>, e: Emitter, reg: Reg, pc: nat)
    ensures Behind(c, e).Relative(reg, pc) == Behind(c, e.Relative(reg, pc))
  {
    CountsBehind(c, e, reg);
    Emits(c);
    hide Emitter.Emit;
    hide Emitter.Own;
    hide Behind;
  }

  lemma CalculateBehind(c: seq<Instr>, e: Emitter, op: Uxn.Op, d: Reg, a: Reg, b: Reg, short: bool)
    ensures Behind(c, e).Calculate(op, d, a, b, short) == Behind(c, e.Calculate(op, d, a, b, short))
  {
    Emits(c);
    hide Emitter.Emit;
    hide Behind;
    hide Mask;
  }

  // ---- opcodes ----

  lemma EnterKeepBehind(c: seq<Instr>, e: Emitter)
    ensures Behind(c, e).EnterKeep() == Behind(c, e.EnterKeep())
  {
    AllocBehind(c, e);
    hide Emitter.Alloc;
    var (e1, w) := e.Alloc();
    AllocBehind(c, e1);
    var (e2, r) := e1.Alloc();
    var i, j := Op1(MOV_U8, R(w), R(WSP)), Op1(MOV_U8, R(r), R(RSP));
    EmitBehind(c, e2, i);
    EmitBehind(c, e2.Emit(i), j);
    hide Emitter.Emit;
    FlushBehind(c, e2.Emit(i).Emit(j).(wspReg := w, rspReg := r), Uxn.FlagR(e.opcode), 0);
    hide Emitter.Flush;
  }

  lemma BeginBehind(c: seq<Instr>, e: Emitter, op: nat)
    ensures Behind(c, e).Begin(op) == Behind(c, e.Begin(op))
  {
    hide Emitter.RetainCache;
    hide Emitter.EnterKeep;
    var e0 := e.(refs := seq(NUM_OPS, i => 0));
    assert Behind(c, e).(refs := seq(NUM_OPS, i => 0)) == Behind(c, e0);
    RetainCacheBehind(c, e0, false);
    RetainCacheBehind(c, e0.RetainCache(false), true);
    EnterKeepBehind(c, e0.RetainCache(false).RetainCache(true).(opcode := op));
  }

  lemma Pop2Behind(c: seq<Instr>, e: Emitter, short1: bool, short2: bool, r: bool)
    ensures var (e1, b) := e.CachePop(short1, r); var (e2, a) := e1.CachePop(short2, r);
      Behind(c, e).CachePop(short1, r) == (Behind(c, e1), b) && Behind(c, e1).CachePop(short2, r) == (Behind(c, e2), a)
  {
    PopBehind(c, e, short1, r);
    PopBehind(c, e.CachePop(short1, r).0, short2, r);
    hide Emitter.CachePop;
    hide Behind;
  }

  lemma ComparisonBehind(c: seq<Instr>, e: Emitter, op: Uxn.Op, short: bool, r: bool)
    ensures Behind(c, e).Comparison(op, short, r) == Behind(c, e.Comparison(op, short, r))
  {
    Pop2Behind(c, e, short, short, r);
    hide Emitter.CachePop;
    hide Emitter.Alloc;
    hide Emitter.Push;
    var (e1, b) := e.CachePop(short, r);
    var (e2, a) := e1.CachePop(short, r);
    AllocBehind(c, e2);
    var (e3, d) := e2.Alloc();
    Emits(c);
    hide Emitter.Emit;
    PushBehind(c, e3.Emit(Compare(a, b)).Emit(SetFlag(d, e.Condition(op))), d, false, r);
    assert Behind(c, e).Condition(op) == e.Condition(op);
    hide Emitter.Condition;
    hide Behind;
  }

  lemma ArithmeticBehind(c: seq<Instr>, e: Emitter, op: Uxn.Op, short: bool, r: bool)
    ensures Behind(c, e).Arithmetic(op, short, r) == Behind(c, e.Arithmetic(op, short, r))
  {
    var short1 := short && op != Uxn.Sft;
    Pop2Behind(c, e, short1, short, r);
    hide Emitter.CachePop;
    hide Emitter.Alloc;
    hide Emitter.Push;
    hide Emitter.Calculate;
    var (e1, b) := e.CachePop(short1, r);
    var (e2, a) := e1.CachePop(short, r);
    AllocBehind(c, e2);
    var (e3, d) := e2.Alloc();
    CalculateBehind(c, e3, op, d, a, b, short);
    PushBehind(c, e3.Calculate(op, d, a, b, short), d, short, r);
    hide Behind;
  }

  lemma LoadOpBehind(c: seq<Instr>, e: Emitter, op: Uxn.Op, pc: nat, short: bool, r: bool)
    ensures Behind(c, e).LoadOp(op, pc, short, r) == Behind(c, e.LoadOp(op, pc, short, r))
  {
    hide Emitter.CachePop;
    hide Emitter.Relative;
    hide Emitter.Alloc;
    hide Emitter.Push;
    hide Emitter.LoadTo;
    PopBehind(c, e, op.Lda?, r);
    var (e1, addr) := e.CachePop(op.Lda?, r);
    RelativeBehind(c, e1, addr, pc);
    var e2 := if op.Ldr? then e1.Relative(addr, pc) else e1;
    AllocBehind(c, e2);
    var (e3, v) := e2.Alloc();
    LoadToBehind(c, e3, v, addr, !op.Ldz?, short);
    PushBehind(c, e3.LoadTo(v, addr, !op.Ldz?, short), v, short, r);
    hide Behind;
  }

  lemma StoreOpBehind(c: seq<Instr>, e: Emitter, op: Uxn.Op, pc: nat, short: bool, r: bool)
    ensures Behind(c, e).StoreOp(op, pc, short, r) == Behind(c, e.StoreOp(op, pc, short, r))
  {
    hide Emitter.CachePop;
    hide Emitter.Relative;
    hide Emitter.StoreFrom;
    Pop2Behind(c, e, op.Sta?, short, r);
    var (e1, addr) := e.CachePop(op.Sta?, r);
    var (e2, v) := e1.CachePop(short, r);
    RelativeBehind(c, e2, addr, pc);
    var e3 := if op.Str? then e2.Relative(addr, pc) else e2;
    StoreFromBehind(c, e3, v, addr, !op.Stz?, short);
    hide Behind;
  }

  lemma Push2Behind(c: seq<Instr>, e: Emitter, a: Reg, b: Reg, short: bool, r: bool)
    ensures Behind(c, e).Push(a, short, r) == Behind(c, e.Push(a, short, r))
    ensures Behind(c, e).Push(a, short, r).Push(b, short, r) == Behind(c, e.Push(a, short, r).Push(b, short, r))
  {
    PushBehind(c, e, a, short, r);
    hide Emitter.Push;
    PushBehind(c, e.Push(a, short, r), b, short, r);
    hide Behind;
  }

  /** The opcodes that do more than move operands around. */
  lemma WorkIs(e: Emitter, pc: nat)
    ensures var op, r, short := Uxn.OpOf(e.opcode), Uxn.FlagR(e.opcode), Uxn.Flag2(e.opcode);
      && (op.Ldz? || op.Ldr? || op.Lda? ==> e.Plain(pc) == e.LoadOp(op, pc, short, r))
      && (op.Stz? || op.Str? || op.Sta? ==> e.Plain(pc) == e.StoreOp(op, pc, short, r))
      && (op.Equ? || op.Neq? || op.Gth? || op.Lth? ==> e.Plain(pc) == e.Comparison(op, short, r))
      && (op.Add? || op.Sub? || op.Mul? || op.Div? || op.And? || op.Ora? || op.Eor? || op.Sft? ==>
            e.Plain(pc) == e.Arithmetic(op, short, r))
      && (!IsPlain(op) ==> e.Plain(pc) == e)
  {
    hide Uxn.OpOf;
    hide Uxn.FlagR;
    hide Uxn.FlagK;
    hide Uxn.Flag2;
    hide Emitter.CachePop;
    hide Emitter.Push;
    hide Emitter.Discard;
    hide Emitter.Immediate;
    hide Emitter.Own;
    hide Emitter.Emit;
    hide Emitter.Comparison;
    hide Emitter.Arithmetic;
    hide Emitter.LoadOp;
    hide Emitter.StoreOp;
  }

  lemma ShallowIs(e: Emitter, pc: nat)
    ensures var op, r, k, short := Uxn.OpOf(e.opcode), Uxn.FlagR(e.opcode), Uxn.FlagK(e.opcode), Uxn.Flag2(e.opcode);
      var (e1, a) := e.CachePop(short, r);
      && (op.Lit? ==> e.Plain(pc) == e.Immediate(pc, short).0.Push(e.Immediate(pc, short).1, short, r))
      && (op.Inc? ==>
            (e.Plain(pc) == e1.Own(a).Emit(Op2(Alu.ADD, a, R(a), Imm(1))).Emit(Op2(Alu.AND, a, R(a), Mask(short))).Push(a, short, r)))
      && (op.Pop? ==> e.Plain(pc) == if k then e else e.Discard(short, r))
      && (op.Nip? ==> e.Plain(pc) == (if k then e1 else e1.Discard(short, r)).Push(a, short, r))
      && (op.Dup? ==> e.Plain(pc) == e1.Push(a, short, r).Push(a, short, r))
      && (op.Sth? ==> e.Plain(pc) == e1.Push(a, short, !r))
  {
    hide Uxn.OpOf;
    hide Uxn.FlagR;
    hide Uxn.FlagK;
    hide Uxn.Flag2;
    hide Emitter.CachePop;
    hide Emitter.Push;
    hide Emitter.Discard;
    hide Emitter.Immediate;
    hide Emitter.Own;
    hide Emitter.Emit;
  }

  lemma DeepIs(e: Emitter, pc: nat)
    ensures var op, r, short := Uxn.OpOf(e.opcode), Uxn.FlagR(e.opcode), Uxn.Flag2(e.opcode);
      var (e1, x) := e.CachePop(short, r);
      var (e2, y) := e1.CachePop(short, r);
      var (e3, z) := e2.CachePop(short, r);
      && (op.Swp? ==> e.Plain(pc) == e2.Push(x, short, r).Push(y, short, r))
      && (op.Ovr? ==> e.Plain(pc) == e2.Push(y, short, r).Push(x, short, r).Push(y, short, r))
      && (op.Rot? ==> e.Plain(pc) == e3.Push(y, short, r).Push(x, short, r).Push(z, short, r))
  {
    hide Uxn.OpOf;
    hide Uxn.FlagR;
    hide Uxn.FlagK;
    hide Uxn.Flag2;
    hide Emitter.CachePop;
    hide Emitter.Push;
  }

  lemma DeepBehind(c: seq<Instr>, e: Emitter, pc: nat)
    requires var op := Uxn.OpOf(e.opcode); op.Swp? || op.Rot? || op.Ovr?
    ensures Behind(c, e).Plain(pc) == Behind(c, e.Plain(pc))
  {
    assert Behind(c, e).opcode == e.opcode;
    hide Emitter.Plain;
    hide Emitter.CachePop;
    hide Emitter.Push;
    hide Behind;
    hide Uxn.OpOf;
    hide Uxn.FlagR;
    hide Uxn.Flag2;
    var r, short := Uxn.FlagR(e.opcode), Uxn.Flag2(e.opcode);
    DeepIs(e, pc);
    DeepIs(Behind(c, e), pc);
    Pop2Behind(c, e, short, short, r);
    var (e1, x) := e.CachePop(short, r);
    var (e2, y) := e1.CachePop(short, r);
    PopBehind(c, e2, short, r);
    var (e3, z) := e2.CachePop(short, r);
    var op := Uxn.OpOf(e.opcode);
    if op.Swp? {
      Push2Behind(c, e2, x, y, short, r);
    } else if op.Ovr? {
      Push2Behind(c, e2, y, x, short, r);
      PushBehind(c, e2.Push(y, short, r).Push(x, short, r), y, short, r);
    } else {
      Push2Behind(c, e3, y, x, short, r);
      PushBehind(c, e3.Push(y, short, r).Push(x, short, r), z, short, r);
    }
  }

  lemma ShallowBehind(c: seq<Instr>, e: Emitter, pc: nat)
    requires var op := Uxn.OpOf(e.opcode); op.Lit? || op.Inc? || op.Pop? || op.Nip? || op.Dup? || op.Sth?
    ensures Behind(c, e).Plain(pc) == Behind(c, e.Plain(pc))
  {
    assert Behind(c, e).opcode == e.opcode;
    hide Emitter.Plain;
    hide Emitter.CachePop;
    hide Emitter.Push;
    hide Emitter.Discard;
    hide Emitter.Immediate;
    hide Emitter.Own;
    hide Emitter.Emit;
    hide Uxn.OpOf;
    hide Uxn.FlagR;
    hide Uxn.FlagK;
    hide Uxn.Flag2;
    hide Behind;
    var r, k, short := Uxn.FlagR(e.opcode), Uxn.FlagK(e.opcode), Uxn.Flag2(e.opcode);
    ShallowIs(e, pc);
    ShallowIs(Behind(c, e), pc);
    PopBehind(c, e, short, r);
    var (e1, a) := e.CachePop(short, r);
    var op := Uxn.OpOf(e.opcode);
    if op.Lit? {
      ImmediateBehind(c, e, pc, short);
      PushBehind(c, e.Immediate(pc, short).0, e.Immediate(pc, short).1, short, r);
    } else if op.Inc? {
      var i, j := Op2(Alu.ADD, a, R(a), Imm(1)), Op2(Alu.AND, a, R(a), Mask(short));
      CountsBehind(c, e1, a);
      EmitBehind(c, e1.Own(a), i);
      EmitBehind(c, e1.Own(a).Emit(i), j);
      PushBehind(c, e1.Own(a).Emit(i).Emit(j), a, short, r);
    } else if op.Pop? {
      DiscardBehind(c, e, short, r);
    } else if op.Nip? {
      DiscardBehind(c, e1, short, r);
      PushBehind(c, if k then e1 else e1.Discard(short, r), a, short, r);
    } else if op.Dup? {
      Push2Behind(c, e1, a, a, short, r);
    } else {
      PushBehind(c, e1, a, short, !r);
    }
  }

  lemma PlainBehind(c: seq<Instr>, e: Emitter, pc: nat)
    ensures Behind(c, e).Plain(pc) == Behind(c, e.Plain(pc))
  {
    assert Behind(c, e).opcode == e.opcode;
    hide Behind;
    hide Uxn.OpOf;
    hide Uxn.FlagR;
    hide Uxn.Flag2;
    hide Emitter.Plain;
    hide Emitter.Comparison;
    hide Emitter.Arithmetic;
    hide Emitter.LoadOp;
    hide Emitter.StoreOp;
    var op, r, short := Uxn.OpOf(e.opcode), Uxn.FlagR(e.opcode), Uxn.Flag2(e.opcode);
    if op.Swp? || op.Rot? || op.Ovr? {
      DeepBehind(c, e, pc);
    } else if op.Lit? || op.Inc? || op.Pop? || op.Nip? || op.Dup? || op.Sth? {
      ShallowBehind(c, e, pc);
    } else {
      WorkIs(e, pc);
      WorkIs(Behind(c, e), pc);
      if op.Ldz? || op.Ldr? || op.Lda? {
        LoadOpBehind(c, e, op, pc, short, r);
      } else if op.Stz? || op.Str? || op.Sta? {
        StoreOpBehind(c, e, op, pc, short, r);
      } else if op.Equ? || op.Neq? || op.Gth? || op.Lth? {
        ComparisonBehind(c, e, op, short, r);
      } else {
        ArithmeticBehind(c, e, op, short, r);
      }
    }
  }

  // ---- jumps ----

  lemma AppendBehind(c: seq<Instr>, e: Emitter, code: seq<Instr>)
    ensures Append(Behind(c, e), code) == Behind(c, Append(e, code))
  {
    assert (c + e.code) + code == c + (e.code + code);
  }

  lemma JumpToBehind(c: seq<Instr>, e: Emitter, t: Reg, short: bool, site: Calls.Site, pc: nat)
    ensures JumpTo(Behind(c, e), t, short, site, pc) == Behind(c, JumpTo(e, t, short, site, pc))
  {
    ClearBothBehind(c, e);
    hide Emitter.ClearBoth;
    AppendBehind(c, e.ClearBoth(), Tail(t, short, site, pc));
    hide Append;
    hide Tail;
  }

  lemma JumpUnlessZeroBehind(c: seq<Instr>, e: Emitter, x: Reg, t: Reg, short: bool, site: Calls.Site, pc: nat)
    ensures JumpUnlessZero(Behind(c, e), x, t, short, site, pc) == Behind(c, JumpUnlessZero(e, x, t, short, site, pc))
  {
    ClearBothBehind(c, e);
    hide Emitter.ClearBoth;
    EmitBehind(c, e.ClearBoth(), UnlessLowByteZero(x, Tail(t, short, site, pc)));
    hide Emitter.Emit;
    hide Tail;
    hide Behind;
  }

  lemma PushReturnBehind(c: seq<Instr>, e: Emitter, pc: nat, to: bool)
    ensures PushReturn(Behind(c, e), pc, to) == Behind(c, PushReturn(e, pc, to))
  {
    AllocBehind(c, e);
    hide Emitter.Alloc;
    var (e1, p) := e.Alloc();
    EmitBehind(c, e1, Op1(MOV_U16, R(p), Imm(pc)));
    hide Emitter.Emit;
    PushBehind(c, e1.Emit(Op1(MOV_U16, R(p), Imm(pc))), p, true, to);
    hide Emitter.Push;
    hide Behind;
  }

  lemma PoppedJumpIs(e: Emitter, pc: nat, site: Calls.Site, imm: nat)
    ensures var op, r, short := Uxn.OpOf(e.opcode), Uxn.FlagR(e.opcode), Uxn.Flag2(e.opcode);
      var (e1, t) := e.CachePop(short, r);
      var (e2, x) := e1.CachePop(false, r);
      && (op.Jmp? ==> JumpOp(e, pc, site, imm) == JumpTo(e1, t, short, site, pc))
      && (op.Jcn? ==> JumpOp(e, pc, site, imm) == JumpUnlessZero(e2, x, t, short, site, pc))
      && (op.Jsr? ==> JumpOp(e, pc, site, imm) == JumpTo(PushReturn(e1, pc, !r), t, short, site, pc))
  {
    hide Emitter.CachePop;
    hide JumpTo;
    hide JumpUnlessZero;
    hide PushReturn;
    hide Uxn.OpOf;
    hide Uxn.FlagR;
    hide Uxn.Flag2;
  }

  lemma PoppedJumpBehind(c: seq<Instr>, e: Emitter, pc: nat, site: Calls.Site, imm: nat)
    requires var op := Uxn.OpOf(e.opcode); op.Jmp? || op.Jcn? || op.Jsr?
    ensures JumpOp(Behind(c, e), pc, site, imm) == Behind(c, JumpOp(e, pc, site, imm))
  {
    assert Behind(c, e).opcode == e.opcode;
    hide JumpOp;
    hide Emitter.CachePop;
    hide Emitter.ClearBoth;
    hide Emitter.Emit;
    hide JumpTo;
    hide JumpUnlessZero;
    hide PushReturn;
    hide Append;
    hide Behind;
    hide Uxn.OpOf;
    hide Uxn.FlagR;
    hide Uxn.Flag2;
    var op, r, short := Uxn.OpOf(e.opcode), Uxn.FlagR(e.opcode), Uxn.Flag2(e.opcode);
    PoppedJumpIs(e, pc, site, imm);
    PoppedJumpIs(Behind(c, e), pc, site, imm);
    PopBehind(c, e, short, r);
    var (e1, t) := e.CachePop(short, r);
    if op.Jmp? {
      JumpToBehind(c, e1, t, short, site, pc);
    } else if op.Jcn? {
      PopBehind(c, e1, false, r);
      var (e2, x) := e1.CachePop(false, r);
      JumpUnlessZeroBehind(c, e2, x, t, short, site, pc);
    } else {
      PushReturnBehind(c, e1, pc, !r);
      JumpToBehind(c, PushReturn(e1, pc, !r), t, short, site, pc);
    }
  }

  lemma JumpOpBehind(c: seq<Instr>, e: Emitter, pc: nat, site: Calls.Site, imm: nat)
    ensures JumpOp(Behind(c, e), pc, site, imm) == Behind(c, JumpOp(e, pc, site, imm))
  {
    assert Behind(c, e).opcode == e.opcode;
    hide Exec;
    hide Emitter.Grows;
    hide Emitter.CachePop;
    hide Emitter.ClearBoth;
    hide Emitter.Emit;
    hide JumpTo;
    hide JumpUnlessZero;
    hide PushReturn;
    hide Append;
    hide Behind;
    hide Uxn.OpOf;
    hide Uxn.FlagR;
    hide Uxn.Flag2;
    var i := Op1(MOV_U16, R(TMP), Imm(imm));
    var op := Uxn.OpOf(e.opcode);
    if op.Jmp? || op.Jcn? || op.Jsr? {
      PoppedJumpBehind(c, e, pc, site, imm);
    } else if op.Jci? {
      PopBehind(c, e, false, false);
      var (e1, x) := e.CachePop(false, false);
      EmitBehind(c, e1, i);
      JumpUnlessZeroBehind(c, e1.Emit(i), x, TMP, true, site, pc);
    } else if op.Jmi? {
      EmitBehind(c, e, i);
      JumpToBehind(c, e.Emit(i), TMP, true, site, pc);
    } else if op.Jsi? {
      EmitBehind(c, e, i);
      PushReturnBehind(c, e.Emit(i), pc, true);
      JumpToBehind(c, PushReturn(e.Emit(i), pc, true), TMP, true, site, pc);
    } else if op.Brk? {
      ClearBothBehind(c, e);
      AppendBehind(c, e.ClearBoth(), [Leave(Imm(Calls.BREAK))]);
    }
  }

  // ---- the compile loop ----

  lemma ForgetBehind(c: seq<Instr>, e: Emitter)
    ensures Behind(c, e).(memBase := 0) == Behind(c, e.(memBase := 0))
  {
  }

  lemma AskingBehind(c: seq<Instr>, e: Emitter, isInput: bool, short: bool, port: Reg)
    ensures Asking(Behind(c, e), isInput, short, port) == Behind(c, Asking(e, isInput, short, port))
  {
    hide Emitter.ClearBoth;
    hide Emitter.Emit;
    ClearBothBehind(c, e);
    ForgetBehind(c, e.ClearBoth());
    Emits(c);
    hide Behind;
  }

  lemma ToPageBehind(c: seq<Instr>, e: Emitter, port: Reg, v: Reg, short: bool)
    ensures ToPage(Behind(c, e), port, v, short) == Behind(c, ToPage(e, port, v, short))
  {
    SetMemBaseBehind(c, e, DEV_BASE);
    Emits(c);
    hide Emitter.Emit;
    hide Emitter.SetMemBase;
    hide Behind;
  }

  lemma DeviceOpBehind(c: seq<Instr>, e: Emitter)
    ensures DeviceOp(Behind(c, e)) == Behind(c, DeviceOp(e))
  {
    assert Behind(c, e).opcode == e.opcode;
    hide Exec;
    hide Behind;
    hide Emitter.Grows;
    hide Emitter.CachePop;
    hide Emitter.Emit;
    hide Asking;
    hide ToPage;
    hide Emitter.Alloc;
    hide Emitter.Push;
    hide Uxn.OpOf;
    var r, short := Uxn.FlagR(e.opcode), Uxn.Flag2(e.opcode);
    hide Uxn.FlagR;
    hide Uxn.Flag2;
    Pop2Behind(c, e, false, short, r);
    var (e1, port) := e.CachePop(false, r);
    if Uxn.OpOf(e.opcode).Dei? {
      AllocBehind(c, e1);
      var (e2, result) := e1.Alloc();
      AskingBehind(c, e2, true, short, port);
      var e3 := Asking(e2, true, short, port);
      EmitBehind(c, e3, Op1(MOV, R(result), R(MEM_BASE)));
      PushBehind(c, e3.Emit(Op1(MOV, R(result), R(MEM_BASE))), result, short, r);
    } else {
      var (e2, v) := e1.CachePop(short, r);
      ToPageBehind(c, e2, port, v, short);
      AskingBehind(c, ToPage(e2, port, v, short), false, short, port);
    }
  }

  lemma EmitAtBehind(c: seq<Instr>, e: Emitter, t: Tracker, rom: Uxn.Bytes, pc: nat)
    ensures EmitAt(Behind(c, e), t, rom, pc) == Behind(c, EmitAt(e, t, rom, pc))
  {
    hide Behind;
    hide Emitter.Begin;
    hide Emitter.Plain;
    hide JumpOp;
    hide DeviceOp;
    hide Uxn.OpOf;
    hide PcAfter;
    hide SiteAt;
    hide ImmediateTarget;
    var code := Uxn.Peek(rom, pc);
    BeginBehind(c, e, code);
    JumpOpBehind(c, e.Begin(code), PcAfter(code, pc), SiteAt(t, rom, code, pc), ImmediateTarget(rom, code, pc));
    DeviceOpBehind(c, e.Begin(code));
    PlainBehind(c, e.Begin(code), (pc + 1) % 0x1_0000);
  }

  lemma TargetPoppedBehind(c: seq<Instr>, e: Emitter, pc: nat)
    ensures var (e', t, x) := TargetPopped(e, pc); TargetPopped(Behind(c, e), pc) == (Behind(c, e'), t, x)
  {
    assert Behind(c, e).opcode == e.opcode;
    hide Exec;
    hide Behind;
    hide Emitter.Grows;
    hide Emitter.CachePop;
    hide Emitter.ClearBoth;
    hide PushReturn;
    hide Uxn.OpOf;
    hide Uxn.FlagR;
    hide Uxn.Flag2;
    var op, r, short := Uxn.OpOf(e.opcode), Uxn.FlagR(e.opcode), Uxn.Flag2(e.opcode);
    PopBehind(c, e, short, r);
    var (e1, t) := e.CachePop(short, r);
    if op.Jcn? {
      PopBehind(c, e1, false, r);
      ClearBothBehind(c, e1.CachePop(false, r).0);
    } else if op.Jsr? {
      PushReturnBehind(c, e1, pc, !r);
      ClearBothBehind(c, PushReturn(e1, pc, !r));
    } else {
      ClearBothBehind(c, e1);
    }
  }

  lemma GuardedBehind(c: seq<Instr>, e: Emitter, inner: Emitter, t: Reg, x: Reg, conditional: bool)
    ensures Guarded(Behind(c, e), inner, t, x, conditional) == Behind(c, Guarded(e, inner, t, x, conditional))
  {
    hide Emitter.ClearBoth;
    var i := IfEqual(t, 0, inner.ClearBoth().code);
    var j := if conditional then UnlessLowByteZero(x, [i]) else i;
    assert (c + e.code) + [j] == c + (e.code + [j]);
  }

  function BehindCtx(c: seq<Instr>, x: Ctx): Ctx {
    x.(e := Behind(c, x.e))
  }

  lemma NextBehind(c: seq<Instr>, x: Ctx, rom: Uxn.Bytes)
    requires x.pc < 0x1_0000
    ensures NextOpcode(BehindCtx(c, x), rom) == BehindCtx(c, NextOpcode(x, rom))
  {
    hide Emitter.Begin;
    hide Emitter.ClearBoth;
    hide Append;
    hide EmitAt;
    hide TrackAt;
    hide PcAfter;
    hide TargetPopped;
    hide Guarded;
    hide Skips;
    hide Ends;
    hide Uxn.OpOf;
    if x.pc < 256 {
      ClearBothBehind(c, x.e);
      AppendBehind(c, x.e.ClearBoth(), [Leave(Imm(x.pc))]);
    } else {
      var code := Uxn.Peek(rom, x.pc);
      var after := PcAfter(code, x.pc);
      LeftAfter(code, x.pc);
      BeginBehind(c, x.e, code);
      TargetPoppedBehind(c, x.e.Begin(code), after);
      EmitAtBehind(c, x.e, x.t, rom, x.pc);
      var (e, t, condition) := TargetPopped(x.e.Begin(code), after);
      var inner := NextOpcode(Ctx(e.(code := []), TrackAt(x.t, rom, x.pc), after, false), rom);
      assert Behind(c, e).(code := []) == e.(code := []);
      GuardedBehind(c, e, inner.e, t, condition, Uxn.OpOf(code).Jcn?);
    }
  }

  /** Compiling behind a prefix. */
  lemma {:induction false} CompileBehind(c: seq<Instr>, x: Ctx, rom: Uxn.Bytes)
    requires x.pc < 0x1_0000
    ensures Compile(BehindCtx(c, x), rom) == BehindCtx(c, Compile(x, rom))
    decreases Left(x.pc), if x.done then 0 else if x.pc < 256 then 1 else 2
  {
    hide NextOpcode;
    hide Behind;
    if !x.done {
      NextBehind(c, x, rom);
      CompileBehind(c, NextOpcode(x, rom), rom);
    }
  }

  /** The code emitted from some point on does not depend on the code in front of it. */
  lemma EmissionRelocates(x: Ctx, rom: Uxn.Bytes)
    requires x.pc < 0x1_0000
    ensures var alone := x.(e := x.e.(code := []));
      && Compile(x, rom).e.code == x.e.code + Compile(alone, rom).e.code
      && Compile(x, rom) == Compile(alone, rom).(e := Compile(x, rom).e)
  {
    hide Compile;
    var alone := x.(e := x.e.(code := []));
    assert x.e.code + [] == x.e.code;
    assert BehindCtx(x.e.code, alone) == x;
    CompileBehind(x.e.code, alone, rom);
  }
}
