/** When no pop has to spill: the registers in use are at most the cached cells and the held
    operands, so with few enough of them a pop finds a free register.  Code that works on one
    stack only, without keep mode, always has enough. */
module SingleStack {
  import opened Words
  import opened Target
  import opened Emission
  import opened Allocator
  import opened Compiler
  import opened Sharing
  import opened NoSharing
  import Uxn

  ghost function Regs(cells: seq<Cell>): multiset<Reg> {
    if cells == [] then multiset{} else Regs(cells[..|cells| - 1]) + multiset{cells[|cells| - 1].reg}
  }

  lemma {:induction false} RegsCount(cells: seq<Cell>, x: Reg)
    ensures Regs(cells)[x] == Uses(cells, x) && |Regs(cells)| == |cells|
    decreases |cells|
  {
    if cells != [] {
      RegsCount(cells[..|cells| - 1], x);
    }
  }

  /** Registers the emitter may have in use. */
  function Load(e: Emitter, held: multiset<Reg>): nat {
    e.Cached() + |held|
  }

  lemma SixUsed(used: multiset<Reg>)
    requires forall x: Reg :: IsOp(x) ==> used[x] >= 1
    ensures |used| >= NUM_OPS
  {
    var all := multiset{3, 4, 5, 6, 7, 8};
    assert forall x :: x in all ==> IsOp(x);
    assert all <= used;
    assert used == all + (used - all);
    assert |used| == |all| + |used - all|;
  }

  lemma UsedCount(e: Emitter, held: multiset<Reg>, x: Reg)
    requires Inv(e, held) && IsOp(x)
    ensures (Regs(e.wcache) + Regs(e.rcache) + held)[x] == e.refs[x - OP_MIN]
    ensures |Regs(e.wcache) + Regs(e.rcache) + held| == Load(e, held)
  {
    RegsCount(e.wcache, x);
    RegsCount(e.rcache, x);
    hide Regs;
    hide Uses;
  }

  /** With fewer than six cells and operands some register is free. */
  lemma FreeIfFew(e: Emitter, held: multiset<Reg>)
    requires Inv(e, held) && Load(e, held) < NUM_OPS
    ensures FindFree(e.refs, 0) != 0
  {
    FindFreeFinds(e.refs, 0);
    if FindFree(e.refs, 0) == 0 {
      forall x: Reg | IsOp(x) ensures (Regs(e.wcache) + Regs(e.rcache) + held)[x] >= 1 {
        UsedCount(e, held, x);
      }
      UsedCount(e, held, OP_MIN);
      hide Inv;
      SixUsed(Regs(e.wcache) + Regs(e.rcache) + held);
    }
  }

  lemma AllocInPopRoom(e: Emitter, held: multiset<Reg>)
    requires Inv(e, held) && Load(e, held) < NUM_OPS
    ensures var (e', reg) := e.AllocInPop();
      && e'.wcache == e.wcache && e'.rcache == e.rcache && e'.lateSpill == e.lateSpill
  {
    FreeIfFew(e, held);
    hide Inv;
  }

  ghost predicate ByteOnTop(cells: seq<Cell>) {
    cells != [] && !cells[|cells| - 1].isShort
  }

  /** What a pop does to the caches and the load when a register is free. */
  ghost predicate Roomy(e: Emitter, e': Emitter, short: bool, r: bool) {
    && e'.lateSpill == e.lateSpill && e'.Cache(!r) == e.Cache(!r) && |e'.Cache(r)| <= |e.Cache(r)|
    && (e.Cache(r) == [] ==> e'.Cache(r) == [])
    && (short && e.Cache(r) != [] ==> |e'.Cache(r)| < |e.Cache(r)|)
    && (!short && e.Cache(r) != [] ==> |e'.Cache(r)| < |e.Cache(r)| || ByteOnTop(e'.Cache(r)))
    && (!short && ByteOnTop(e.Cache(r)) ==> |e'.Cache(r)| < |e.Cache(r)|)
  }

  lemma FromMemRoom(e: Emitter, held: multiset<Reg>, short: bool, r: bool)
    requires Inv(e, held) && Load(e, held) < NUM_OPS && e.Cache(r) == []
    ensures Roomy(e, e.PopFromMem(short, r).0, short, r)
  {
    var e0 := e.SetMemBase(StackBase(r));
    BooksInv(e, e0, held);
    AllocInPopRoom(e0, held);
    hide Inv;
    hide Emitter.AllocInPop;
  }

  lemma SplitRoom(e: Emitter, held: multiset<Reg>, r: bool)
    requires Inv(e, held) && Load(e, held) < NUM_OPS && e.Cache(r) != []
    ensures Roomy(e, e.Split(r).0, false, r) || ByteOnTop(e.Cache(r))
  {
    AllocInPopRoom(e, held);
    hide Inv;
    hide Emitter.AllocInPop;
    hide Emitter.PopFromMem;
  }

  lemma PopByteRoom(e: Emitter, held: multiset<Reg>, r: bool)
    requires Inv(e, held) && Load(e, held) < NUM_OPS
    ensures Roomy(e, e.PopByte(r).0, false, r)
  {
    hide Inv;
    hide Emitter.Split;
    hide Emitter.PopFromMem;
    hide Load;
    var cells := e.Cache(r);
    if cells == [] {
      FromMemRoom(e, held, false, r);
    } else if cells[|cells| - 1].isShort {
      SplitRoom(e, held, r);
    }
  }

  lemma JoinRoom(e: Emitter, r: bool, low: Reg)
    ensures var e1, e' := e.PopByte(r).0, e.JoinBelow(r, low).0;
      e'.lateSpill == e1.lateSpill && e'.wcache == e1.wcache && e'.rcache == e1.rcache
  {
    hide Emitter.PopByte;
  }

  lemma PopRoom(e: Emitter, held: multiset<Reg>, short: bool, r: bool)
    requires Inv(e, held) && Load(e, held) < NUM_OPS
    ensures Roomy(e, e.CachePop(short, r).0, short, r)
  {
    hide Inv;
    hide Emitter.PopByte;
    hide Emitter.PopFromMem;
    hide Emitter.JoinBelow;
    var cells := e.Cache(r);
    if !short {
      PopByteRoom(e, held, r);
    } else if cells == [] {
      FromMemRoom(e, held, true, r);
    } else {
      var e1, low := e.WithCache(r, cells[..|cells| - 1]), cells[|cells| - 1].reg;
      TakeInv(e, held, r);
      PopByteRoom(e1, held + multiset{low}, r);
      JoinRoom(e1, r, low);
    }
  }

  // ---- one stack only ----

  /** Nothing is cached of the return stack, and no pop has spilled in between. */
  ghost predicate Quiet(e: Emitter, e': Emitter) {
    e'.rcache == [] && e'.lateSpill == e.lateSpill
  }

  lemma SpillQuiet(e: Emitter, side: bool)
    requires e.rcache == []
    ensures Quiet(e, e.Spill(side))
  {
    if e.Cache(side) != [] {
      DoPushLate(e, e.Cache(side)[0], side);
      hide Emitter.DoPush;
    }
  }

  lemma DoPushLate(e: Emitter, cell: Cell, r: bool)
    ensures SameBooks(e, e.DoPush(cell, r)) && e.DoPush(cell, r).lateSpill == e.lateSpill
  {
    hide Exec;
  }

  lemma {:induction false} AllocQuiet(e: Emitter)
    requires e.rcache == []
    ensures Quiet(e, e.Alloc().0)
    decreases e.Cached()
  {
    if FindFree(e.refs, 0) == 0 && e.Cached() > 0 {
      var first := Uxn.FlagR(e.opcode);
      var side := if e.Cache(first) != [] then first else !first;
      SpillQuiet(e, side);
      hide Emitter.Spill;
      AllocQuiet(e.Spill(side));
    }
  }

  lemma PushQuiet(e: Emitter, a: Reg, short: bool)
    requires e.rcache == []
    ensures Quiet(e, e.Push(a, short, false))
  {
    SpillQuiet(e, false);
    hide Emitter.Spill;
  }

  lemma DiscardQuiet(e: Emitter, short: bool)
    requires e.rcache == []
    ensures Quiet(e, e.Discard(short, false))
  {
    hide Exec;
  }

  /** After "n" pops of an opcode on the working stack. */
  ghost predicate AfterPops(e0: Emitter, e: Emitter, held: multiset<Reg>, n: nat) {
    Quiet(e0, e) && Inv(e, held) && |held| == n && |e.wcache| <= CACHE_SIZE
  }

  lemma PopOnce(e0: Emitter, e: Emitter, held: multiset<Reg>, n: nat, short: bool)
    requires AfterPops(e0, e, held, n) && n <= 1
    ensures var (e', a) := e.CachePop(short, false);
      AfterPops(e0, e', held + multiset{a}, n + 1) && Roomy(e, e', short, false)
  {
    PopInv(e, held, short, false);
    PopRoom(e, held, short, false);
    assert GoodCache(e.CachePop(short, false).0.wcache);
    hide Inv;
    hide Emitter.CachePop;
  }

  /** The third pop of ROT: after two pops of the same width a cell is gone. */
  lemma PopThrice(e0: Emitter, e: Emitter, short: bool)
    requires AfterPops(e0, e, multiset{}, 0)
    ensures var (e1, a) := e.CachePop(short, false);
      var (e2, b) := e1.CachePop(short, false);
      var (e3, c) := e2.CachePop(short, false);
      AfterPops(e0, e3, multiset{} + multiset{a} + multiset{b} + multiset{c}, 3)
  {
    hide Inv;
    hide Emitter.CachePop;
    PopOnce(e0, e, multiset{}, 0, short);
    var (e1, a) := e.CachePop(short, false);
    PopOnce(e0, e1, multiset{} + multiset{a}, 1, short);
    var (e2, b) := e1.CachePop(short, false);
    var held := multiset{} + multiset{a} + multiset{b};
    assert |e2.wcache| <= 3;
    PopInv(e2, held, short, false);
    PopRoom(e2, held, short, false);
    Capped(e2.CachePop(short, false).0, held + multiset{e2.CachePop(short, false).1});
  }

  lemma Capped(e: Emitter, held: multiset<Reg>)
    requires Inv(e, held)
    ensures |e.wcache| <= CACHE_SIZE
  {
    assert GoodCache(e.wcache);
  }

  lemma QuietPush(e0: Emitter, e: Emitter, a: Reg, short: bool)
    requires Quiet(e0, e)
    ensures Quiet(e0, e.Push(a, short, false))
  {
    PushQuiet(e, a, short);
    hide Emitter.Push;
  }

  lemma QuietAlloc(e0: Emitter, e: Emitter)
    requires Quiet(e0, e)
    ensures Quiet(e0, e.Alloc().0)
  {
    AllocQuiet(e);
    hide Emitter.Alloc;
  }

  /** Opcodes on the working stack alone, without keep mode. */
  predicate OneStack(code: nat) {
    IsPlain(Uxn.OpOf(code)) && !Uxn.OpOf(code).Sth? && !Uxn.FlagR(code) && !Uxn.FlagK(code)
  }

  lemma ShufflesQuietly(e: Emitter, pc: nat)
    requires Inv(e, multiset{}) && e.rcache == [] && OneStack(e.opcode)
    requires var op := Uxn.OpOf(e.opcode);
      op.Lit? || op.Inc? || op.Pop? || op.Nip? || op.Swp? || op.Rot? || op.Dup? || op.Ovr?
    ensures Quiet(e, e.Plain(pc))
  {
    Capped(e, multiset{});
    hide Inv;
    hide Emitter.CachePop;
    hide Emitter.Push;
    hide Emitter.Discard;
    hide Emitter.Alloc;
    hide Emitter.LiteralTo;
    hide Quiet;
    hide Roomy;
    assert Quiet(e, e);
    var short := Uxn.Flag2(e.opcode);
    hide Uxn.Flag2;
    hide Uxn.FlagR;
    hide Uxn.FlagK;
    assert AfterPops(e, e, multiset{}, 0);
    var op := Uxn.OpOf(e.opcode);
    if op.Lit? {
      QuietAlloc(e, e);
      var (e1, a) := e.Alloc();
      QuietBooks(e, e1, e1.LiteralTo(a, pc, short), a, pc, short);
      QuietPush(e, e1.LiteralTo(a, pc, short), a, short);
    } else if op.Pop? {
      DiscardQuiet(e, short);
    } else if op.Rot? {
      PopThrice(e, e, short);
      var (e1, c) := e.CachePop(short, false);
      var (e2, b) := e1.CachePop(short, false);
      var (e3, a) := e2.CachePop(short, false);
      QuietPush(e, e3, b, short);
      QuietPush(e, e3.Push(b, short, false), c, short);
      QuietPush(e, e3.Push(b, short, false).Push(c, short, false), a, short);
    } else {
      PopOnce(e, e, multiset{}, 0, short);
      var (e1, b) := e.CachePop(short, false);
      PopOnce(e, e1, multiset{} + multiset{b}, 1, short);
      var (e2, a) := e1.CachePop(short, false);
      RestQuietly(e, pc, e1, e2, a, b, short);
    }
  }

  lemma QuietBooks(e0: Emitter, e: Emitter, e': Emitter, a: Reg, pc: nat, short: bool)
    requires Quiet(e0, e) && e' == e.LiteralTo(a, pc, short)
    ensures Quiet(e0, e')
  {
    hide Exec;
  }

  lemma RestQuietly(e: Emitter, pc: nat, e1: Emitter, e2: Emitter, a: Reg, b: Reg, short: bool)
    requires OneStack(e.opcode) && short == Uxn.Flag2(e.opcode)
    requires var op := Uxn.OpOf(e.opcode); op.Inc? || op.Nip? || op.Swp? || op.Dup? || op.Ovr?
    requires (e1, b) == e.CachePop(short, false) && (e2, a) == e1.CachePop(short, false) && Quiet(e, e1) && Quiet(e, e2)
    ensures Quiet(e, e.Plain(pc))
  {
    hide Emitter.CachePop;
    hide Emitter.Push;
    hide Emitter.Discard;
    hide Uxn.Flag2;
    hide Uxn.FlagR;
    hide Uxn.FlagK;
    match Uxn.OpOf(e.opcode)
    case Inc =>
      var e3 := e1.Own(b).Emit(Op2(Alu.ADD, b, R(b), Imm(1))).Emit(Op2(Alu.AND, b, R(b), Mask(short)));
      QuietPush(e, e3, b, short);
    case Nip =>
      DiscardQuiet(e1, short);
      QuietPush(e, e1.Discard(short, false), b, short);
    case Swp =>
      QuietPush(e, e2, b, short);
      QuietPush(e, e2.Push(b, short, false), a, short);
    case Dup =>
      QuietPush(e, e1, b, short);
      QuietPush(e, e1.Push(b, short, false), b, short);
    case Ovr =>
      QuietPush(e, e2, a, short);
      QuietPush(e, e2.Push(a, short, false), b, short);
      QuietPush(e, e2.Push(a, short, false).Push(b, short, false), a, short);
  }

  /** Emitting instructions that touch no cache and note no late spill. */
  lemma LoadQuiet(e0: Emitter, e: Emitter, reg: Reg, addr: Reg, wide: bool, short: bool)
    requires Quiet(e0, e)
    ensures Quiet(e0, e.LoadTo(reg, addr, wide, short))
  {
    hide Exec;
  }

  lemma StoreQuiet(e0: Emitter, e: Emitter, reg: Reg, addr: Reg, wide: bool, short: bool)
    requires Quiet(e0, e)
    ensures Quiet(e0, e.StoreFrom(reg, addr, wide, short))
  {
    hide Exec;
  }

  lemma CalculateQuiet(e0: Emitter, e: Emitter, op: Uxn.Op, c: Reg, a: Reg, b: Reg, short: bool)
    requires Quiet(e0, e)
    ensures Quiet(e0, e.Calculate(op, c, a, b, short))
  {
    hide Exec;
    hide Mask;
  }

  lemma RelativeQuiet(e0: Emitter, e: Emitter, reg: Reg, pc: nat)
    requires Quiet(e0, e)
    ensures Quiet(e0, e.Relative(reg, pc))
  {
    hide Exec;
  }

  lemma PopTwice(e: Emitter, short1: bool, short2: bool)
    requires AfterPops(e, e, multiset{}, 0)
    ensures var (e1, b) := e.CachePop(short1, false);
      var (e2, a) := e1.CachePop(short2, false);
      Quiet(e, e1) && Quiet(e, e2)
  {
    hide Inv;
    hide Emitter.CachePop;
    PopOnce(e, e, multiset{}, 0, short1);
    var (e1, b) := e.CachePop(short1, false);
    PopOnce(e, e1, multiset{} + multiset{b}, 1, short2);
  }

  lemma ComputesQuietly(e: Emitter, op: Uxn.Op, short: bool)
    requires AfterPops(e, e, multiset{}, 0)
    ensures Quiet(e, e.Comparison(op, short, false)) && Quiet(e, e.Arithmetic(op, short, false))
  {
    hide Emitter.CachePop;
    hide Emitter.Push;
    hide Emitter.Alloc;
    hide Emitter.Calculate;
    hide Inv;
    var short1 := short && op != Uxn.Sft;
    PopTwice(e, short, short);
    PopTwice(e, short1, short);
    hide AfterPops;
    var (e1, b) := e.CachePop(short, false);
    var (e2, a) := e1.CachePop(short, false);
    QuietAlloc(e, e2);
    var (e3, c) := e2.Alloc();
    QuietPush(e, e3.Emit(Compare(a, b)).Emit(SetFlag(c, e.Condition(op))), c, false);
    var (x1, y) := e.CachePop(short1, false);
    var (x2, x) := x1.CachePop(short, false);
    QuietAlloc(e, x2);
    var (x3, z) := x2.Alloc();
    CalculateQuiet(e, x3, op, z, x, y, short);
    QuietPush(e, x3.Calculate(op, z, x, y, short), z, short);
  }

  lemma LoadsQuietly(e: Emitter, op: Uxn.Op, pc: nat, short: bool)
    requires AfterPops(e, e, multiset{}, 0)
    ensures Quiet(e, e.LoadOp(op, pc, short, false))
  {
    hide Inv;
    hide Emitter.CachePop;
    hide Emitter.Push;
    hide Emitter.Alloc;
    hide Emitter.LoadTo;
    hide Emitter.Relative;
    PopOnce(e, e, multiset{}, 0, op.Lda?);
    var (e1, addr) := e.CachePop(op.Lda?, false);
    hide AfterPops;
    RelativeQuiet(e, e1, addr, pc);
    var e2 := if op.Ldr? then e1.Relative(addr, pc) else e1;
    QuietAlloc(e, e2);
    var (e3, v) := e2.Alloc();
    LoadQuiet(e, e3, v, addr, !op.Ldz?, short);
    QuietPush(e, e3.LoadTo(v, addr, !op.Ldz?, short), v, short);
  }

  lemma StoresQuietly(e: Emitter, op: Uxn.Op, pc: nat, short: bool)
    requires AfterPops(e, e, multiset{}, 0)
    ensures Quiet(e, e.StoreOp(op, pc, short, false))
  {
    hide Inv;
    hide Emitter.CachePop;
    hide Emitter.StoreFrom;
    hide Emitter.Relative;
    PopTwice(e, op.Sta?, short);
    var (e1, addr) := e.CachePop(op.Sta?, false);
    var (e2, v) := e1.CachePop(short, false);
    hide AfterPops;
    RelativeQuiet(e, e2, addr, pc);
    var e3 := if op.Str? then e2.Relative(addr, pc) else e2;
    StoreQuiet(e, e3, v, addr, !op.Stz?, short);
  }

  lemma MemoryQuiet(e: Emitter, pc: nat)
    requires AfterPops(e, e, multiset{}, 0) && OneStack(e.opcode)
    requires var op := Uxn.OpOf(e.opcode); op.Ldz? || op.Ldr? || op.Lda? || op.Stz? || op.Str? || op.Sta?
    ensures Quiet(e, e.Plain(pc))
  {
    hide Uxn.OpOf;
    hide Uxn.Flag2;
    hide Uxn.FlagR;
    hide Uxn.FlagK;
    hide AfterPops;
    hide Quiet;
    hide Emitter.LoadOp;
    hide Emitter.StoreOp;
    var op, short := Uxn.OpOf(e.opcode), Uxn.Flag2(e.opcode);
    if op.Ldz? || op.Ldr? || op.Lda? {
      LoadsQuietly(e, op, pc, short);
    } else {
      StoresQuietly(e, op, pc, short);
    }
  }

  /** A plain opcode on the working stack makes no pop spill, and caches nothing of the return
      stack. */
  lemma PlainQuiet(e: Emitter, pc: nat)
    requires Inv(e, multiset{}) && e.rcache == [] && OneStack(e.opcode)
    ensures Quiet(e, e.Plain(pc))
  {
    hide Uxn.OpOf;
    hide Uxn.Flag2;
    hide Uxn.FlagR;
    hide Uxn.FlagK;
    Capped(e, multiset{});
    hide Inv;
    hide Emitter.Comparison;
    hide Emitter.Arithmetic;
    assert AfterPops(e, e, multiset{}, 0);
    hide AfterPops;
    hide Quiet;
    var op := Uxn.OpOf(e.opcode);
    if op.Ldz? || op.Ldr? || op.Lda? || op.Stz? || op.Str? || op.Sta? {
      MemoryQuiet(e, pc);
    } else if op.Lit? || op.Inc? || op.Pop? || op.Nip? || op.Swp? || op.Rot? || op.Dup? || op.Ovr? {
      ShufflesQuietly(e, pc);
    } else {
      ComputesQuietly(e, op, Uxn.Flag2(e.opcode));
    }
  }

  lemma RebuiltQuiet(e: Emitter, op: nat, held: multiset<Reg>)
    requires Inv(e, held) && e.rcache == []
    ensures Quiet(e, Rebuilt(e, op))
  {
    var e0 := e.(refs := seq(NUM_OPS, i => 0));
    assert Zeroed(e0);
    RetainBothInv(e0);
  }

  /** One opcode, from its start. */
  lemma OpcodeQuiet(e: Emitter, held: multiset<Reg>, code: nat, pc: nat) returns (held': multiset<Reg>)
    requires Inv(e, held) && e.rcache == [] && OneStack(code)
    ensures Inv(EmitOpcode(e, code, pc), held') && Quiet(e, EmitOpcode(e, code, pc))
  {
    hide Emitter.Plain;
    hide Uxn.OpOf;
    RebuiltInv(e, code, held);
    RebuiltQuiet(e, code, held);
    var e1 := e.Begin(code);
    PointersInv(Rebuilt(e, code), e1, multiset{});
    hide Inv;
    PlainQuiet(e1, (pc + 1) % 0x1_0000);
    held' := PlainInv(e1, (pc + 1) % 0x1_0000, multiset{});
  }

  /** The next "n" opcodes from "pc" on work on the working stack alone. */
  predicate OnOneStack(rom: Uxn.Bytes, pc: nat, n: nat)
    decreases n
  {
    n == 0 || (OneStack(Uxn.Peek(rom, pc)) && OnOneStack(rom, NextPc(Uxn.Peek(rom, pc), pc), n - 1))
  }

  lemma {:induction false} SequenceQuiet(e: Emitter, held: multiset<Reg>, rom: Uxn.Bytes, pc: nat, n: nat)
    requires Inv(e, held) && e.rcache == [] && OnOneStack(rom, pc, n)
    ensures Quiet(e, Emitted(e, rom, pc, n))
    decreases n
  {
    hide Inv;
    hide EmitOpcode;
    hide NextPc;
    hide OneStack;
    if n > 0 {
      var code := Uxn.Peek(rom, pc);
      var held' := OpcodeQuiet(e, held, code, pc);
      SequenceQuiet(EmitOpcode(e, code, pc), held', rom, NextPc(code, pc), n - 1);
    }
  }

  lemma {:induction false} ClearQuiet(e: Emitter)
    requires e.rcache == []
    ensures Quiet(e, e.Clear(false))
    decreases |e.wcache|
  {
    if e.wcache != [] {
      SpillQuiet(e, false);
      hide Emitter.Spill;
      ClearQuiet(e.Spill(false));
    }
  }

  /** Code on the working stack alone never spills in a pop. */
  lemma OneStackNeverSpillsLate(rom: Uxn.Bytes, pc: nat, n: nat)
    requires OnOneStack(rom, pc, n)
    ensures !Emitted(EMPTY, rom, pc, n).ClearBoth().lateSpill
  {
    hide OnOneStack;
    hide Emitted;
    assert Inv(EMPTY, multiset{});
    hide Inv;
    SequenceQuiet(EMPTY, multiset{}, rom, pc, n);
    var e := Emitted(EMPTY, rom, pc, n);
    ClearQuiet(e);
    assert e.ClearBoth() == e.Clear(false);
  }

  /** Compiler correctness with nothing assumed of the emitter: straight-line code on the working
      stack alone, without keep mode, DUP or OVR, always does what the interpreter does. */
  lemma SingleStackCorrect(m: Machine, vm: Uxn.Vm, rom: Uxn.Bytes, n: nat)
    requires Compiler.Holds(m, vm) && Follows(vm, rom, n)
    requires Unshared(rom, vm.pc, n) && OnOneStack(rom, vm.pc, n)
    ensures var e := Emitted(EMPTY, rom, vm.pc, n).ClearBoth();
      var m', vm' := Exec(e.code, m), RunReference(vm, n);
      Compiler.Holds(m', vm') && PointersMatch(m, vm, m', vm') && !e.failed
  {
    hide Unshared;
    hide OnOneStack;
    hide Emitted;
    hide Follows;
    hide RunReference;
    hide Emitter.ClearBoth;
    hide Exec;
    OneStackNeverSpillsLate(rom, vm.pc, n);
    UnsharedCorrect(m, vm, rom, n);
  }
}
