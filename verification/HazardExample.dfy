/** A program the compiler gets wrong: an increment of a byte that has just been duplicated. */
module HazardExample {
  import opened Target
  import opened Emission
  import opened Allocator
  import opened CacheRuns
  import opened CacheSound
  import opened Compiler
  import opened Hazards
  import opened Rings
  import opened Words
  import OpStart
  import OpSound
  import PopSound
  import LateSpills
  import opened Popping
  import Values
  import Uxn

  // ---- INC after DUP, whatever the state ----

  lemma IncPlain(e: Emitter, pc: nat)
    requires Uxn.OpOf(e.opcode).Inc?
    ensures var r, short := Uxn.FlagR(e.opcode), Uxn.Flag2(e.opcode); var (e1, a) := e.CachePop(short, r);
      e.Plain(pc) == e1.Own(a).Emit(Op2(Alu.ADD, a, R(a), Imm(1))).Emit(Op2(Alu.AND, a, R(a), Mask(short))).Push(a, short, r)
  {
    hide Emitter.CachePop;
    hide Emitter.Push;
    hide Emitter.Own;
    hide Emitter.Emit;
    hide Uxn.OpOf;
    hide Uxn.FlagR;
    hide Uxn.FlagK;
    hide Uxn.Flag2;
  }

  /** The reference's INC, outside keep mode. */
  lemma IncStep(vm: Uxn.Vm, code: nat, pc: nat)
    requires Uxn.OpOf(code).Inc? && !Uxn.FlagK(code) && Uxn.Perform(vm, code, pc).Some?
    ensures var r, short := Uxn.FlagR(code), Uxn.Flag2(code);
      && Uxn.PopValue(vm.Stack(r), short).Some?
      && var (rest, v) := Uxn.PopValue(vm.Stack(r), short).value;
         Uxn.Perform(vm, code, pc).value == vm.With(r, rest + Uxn.BytesOf(Uxn.Wrap(v + 1, short), short), vm.Stack(!r)).(pc := pc)
  {
    var r, short := Uxn.FlagR(code), Uxn.Flag2(code);
    hide Uxn.OpOf;
    hide Uxn.FlagR;
    hide Uxn.FlagK;
    hide Uxn.Flag2;
    OpSound.PopOne(vm.Stack(r), short);
    assert vm.Stack(!r) + [] == vm.Stack(!r);
  }

  /** DUP, in any mode, then INC of the same width on the same stack, outside keep mode: whatever
      the state and the value, the two stacks of the reference are not what the caches and memory
      stand for afterwards. */
  lemma DupIncWrong(e: Emitter, m0: Machine, s: Snap, held: multiset<Reg>, dup: nat, inc: nat, vm: Uxn.Vm, vm1: Uxn.Vm, vm2: Uxn.Vm)
    requires Good(e, m0, s, held) && Mirrors(s, vm) && vm.pc < 0x1_0000 && dup < 256 && inc < 256
    requires Uxn.OpOf(dup).Dup? && Uxn.OpOf(inc).Inc? && !Uxn.FlagK(inc)
    requires Uxn.FlagR(dup) == Uxn.FlagR(inc) && Uxn.Flag2(dup) == Uxn.Flag2(inc)
    requires Uxn.Perform(vm, dup, (vm.pc + 1) % 0x1_0000) == Uxn.Some(vm1) && !EmitOpcode(e, dup, vm.pc).Hazard()
    requires Uxn.Perform(vm1, inc, (vm1.pc + 1) % 0x1_0000) == Uxn.Some(vm2)
    ensures var e2 := EmitOpcode(EmitOpcode(e, dup, vm.pc), inc, vm1.pc);
      !RealStacks(e2, Run(e2, m0), s.(w := vm2.wst, r := vm2.rst))
  {
    hide Exec;
    hide Good;
    hide Uxn.Perform;
    hide Uxn.OpOf;
    hide Uxn.FlagR;
    hide Uxn.FlagK;
    hide Uxn.Flag2;
    hide RealStacks;
    hide SharedTop;
    hide Emitter.Begin;
    hide Emitter.Plain;
    hide Emitter.CachePop;
    hide Emitter.Push;
    hide NextPc;
    hide EmitOpcode;
    hide IsPlain;
    var r, short := Uxn.FlagR(inc), Uxn.Flag2(inc);
    assert IsPlain(Uxn.OpOf(dup)) by { PlainDupInc(Uxn.OpOf(dup)); }
    EmitIs(e, dup, vm.pc);
    EmitIs(EmitOpcode(e, dup, vm.pc), inc, vm1.pc);
    var s1, held1 := OpcodeSound(e, m0, s, held, vm, dup);
    var e1 := EmitOpcode(e, dup, vm.pc);
    BooksAfterDup(e, m0, s, held, dup, (vm.pc + 1) % 0x1_0000);
    IncStep(vm1, inc, (vm1.pc + 1) % 0x1_0000);
    var (rest, v) := Uxn.PopValue(s1.Stack(r), short).value;
    InvOf(e1, m0, s1, held1);
    PoppedHazard(e1, inc, held1, r, short);
    IncAfterDupWrong(e1, inc, m0, s1, held1);
    IncPushed(e1, m0, s1, held1, inc, (vm1.pc + 1) % 0x1_0000, rest, Uxn.BytesOf(Uxn.Wrap(v + 1, short), short), s);
  }

  lemma EmitIs(e: Emitter, code: nat, pc: nat)
    ensures EmitOpcode(e, code, pc) == e.Begin(code).Plain((pc + 1) % 0x1_0000)
  {
  }

  lemma PlainDupInc(op: Uxn.Op)
    ensures op.Dup? || op.Inc? ==> IsPlain(op)
  {
  }

  lemma PushesCell(e: Emitter, a: Reg, short: bool, r: bool)
    requires e.Count(a) > 0 && |e.Cache(r)| < CACHE_SIZE
    ensures var e' := e.Push(a, short, r);
      e'.code == e.code && e'.Cache(r) == e.Cache(r) + [Cell(a, short, true)] && e'.Cache(!r) == e.Cache(!r)
  {
    hide Exec;
    hide Emitter.Spill;
  }

  /** The state INC leaves before its push, and after it. */
  lemma IncEnds(e: Emitter, held: multiset<Reg>, r: bool, short: bool, pc: nat)
    requires Inv(e, held) && |held| < NUM_OPS - 1 && SharedTop(e.Cache(r), short)
    requires Uxn.OpOf(e.opcode).Inc? && r == Uxn.FlagR(e.opcode) && short == Uxn.Flag2(e.opcode)
    ensures var (e1, a) := e.CachePop(short, r);
      var mid := e1.Emit(Op2(Alu.ADD, a, R(a), Imm(1))).Emit(Op2(Alu.AND, a, R(a), Mask(short)));
      var e' := e.Plain(pc);
      e'.code == mid.code && e'.Cache(r) == mid.Cache(r) + [Cell(a, short, true)] && e'.Cache(!r) == mid.Cache(!r)
  {
    hide Exec;
    hide Uxn.OpOf;
    hide Uxn.FlagR;
    hide Uxn.Flag2;
    hide Emitter.Plain;
    hide Emitter.CachePop;
    hide Emitter.Push;
    IncPlain(e, pc);
    PopInv(e, held, short, r);
    SharedTaken(e, short, r);
    var (e1, a) := e.CachePop(short, r);
    assert e1.Count(a) > 0 && |e1.Cache(r)| < CACHE_SIZE by { assert (held + multiset{a})[a] > 0; assert GoodCache(e.Cache(r)); }
    hide Inv;
    var owned := e1.Own(a).Emit(Op2(Alu.ADD, a, R(a), Imm(1))).Emit(Op2(Alu.AND, a, R(a), Mask(short)));
    assert owned.Count(a) > 0 && owned.Cache(r) == e1.Cache(r);
    PushesCell(owned, a, short, r);
  }

  /** With the result pushed, the stacks are not those of the reference if they were not before. */
  lemma IncPushed(e: Emitter, m0: Machine, s1: Snap, held: multiset<Reg>, inc: nat, pc: nat, rest: Uxn.Bytes, b: Uxn.Bytes,
                  s: Snap)
    requires Inv(e, held) && SharedTop(e.Cache(Uxn.FlagR(inc)), Uxn.Flag2(inc)) && Uxn.OpOf(inc).Inc? && !Uxn.FlagK(inc)
    requires SameOrigins(s, s1) && |b| == if Uxn.Flag2(inc) then 2 else 1
    requires var r, short := Uxn.FlagR(inc), Uxn.Flag2(inc);
      var (e1, a) := e.Begin(inc).CachePop(short, r);
      var mid := e1.Emit(Op2(Alu.ADD, a, R(a), Imm(1))).Emit(Op2(Alu.AND, a, R(a), Mask(short)));
      !RealStacks(mid, Run(mid, m0), s1.With(r, rest))
    ensures var r, e' := Uxn.FlagR(inc), e.Begin(inc).Plain(pc);
      !RealStacks(e', Run(e', m0), s.(w := if r then s1.w else rest + b, r := if r then rest + b else s1.r))
  {
    hide Exec;
    hide Inv;
    hide Stacked;
    hide SharedTop;
    hide RealStacks;
    hide Emitter.Begin;
    hide Emitter.Plain;
    hide Emitter.CachePop;
    hide Uxn.OpOf;
    hide Uxn.FlagK;
    var r, short := Uxn.FlagR(inc), Uxn.Flag2(inc);
    hide Uxn.FlagR;
    hide Uxn.Flag2;
    var held1 := BeginInv(e, inc, held);
    SharedAfterBegin(e, inc, held, r, short);
    IncEnds(e.Begin(inc), held1, r, short, pc);
    var (e1, a) := e.Begin(inc).CachePop(short, r);
    var mid := e1.Emit(Op2(Alu.ADD, a, R(a), Imm(1))).Emit(Op2(Alu.AND, a, R(a), Mask(short)));
    var e' := e.Begin(inc).Plain(pc);
    var m' := Run(e', m0);
    var ref := s.(w := if r then s1.w else rest + b, r := if r then rest + b else s1.r);
    assert Run(mid, m0) == m';
    SidesReal(mid, m', s1.With(r, rest), r);
    SidesReal(e', m', ref, r);
    if RealStacks(e', m', ref) {
      BelowTop(mid.Cache(r), Cell(a, short, true), Ring(m', r), Ptr(m', StackPtr(r)), m'.regs, rest, b, s1.Origin(r));
    }
  }

  lemma InvOf(e: Emitter, m0: Machine, s: Snap, held: multiset<Reg>)
    requires Good(e, m0, s, held)
    ensures Inv(e, held)
  {
  }

  lemma BooksAfterDup(e: Emitter, m0: Machine, s: Snap, held: multiset<Reg>, dup: nat, pc: nat)
    requires Good(e, m0, s, held) && Uxn.OpOf(dup).Dup?
    ensures SharedTop(e.Begin(dup).Plain(pc).Cache(Uxn.FlagR(dup)), Uxn.Flag2(dup))
  {
    hide Good;
    hide SharedTop;
    hide Emitter.Begin;
    hide Emitter.Plain;
    hide Uxn.OpOf;
    hide Uxn.FlagR;
    hide Uxn.Flag2;
    InvOf(e, m0, s, held);
    var held1 := BeginInv(e, dup, held);
    DupShares(e.Begin(dup), pc, held1);
  }

  const LIT: nat := 0x80
  const DUP: nat := 0x06
  const INC: nat := 0x01

  /** An emitter whose caches hold "n" byte cells of one register on the working stack only. */
  ghost predicate OneRegister(e: Emitter, n: nat) {
    && |e.wcache| == n && e.rcache == [] && (forall i :: 0 <= i < n ==> e.wcache[i] == Cell(3, false, true))
    && !e.Hazard()
  }

  lemma RetainSimple(e: Emitter, n: nat)
    requires OneRegister(e, n) && n <= 2 && e.refs == [0, 0, 0, 0, 0, 0]
    ensures e.RetainCache(false) == e.(refs := [n, 0, 0, 0, 0, 0])
    ensures e.RetainCache(true) == e
  {
    TopNotDropped(e.wcache, 0);
    assert e.wcache[0..] == e.wcache && e.rcache[0..] == [];
    assert e.RetainCache(false) == e.RetainFrom(false, 0);
    if n >= 1 {
      var e1 := e.Retain(3);
      assert e1 == e.(refs := [1, 0, 0, 0, 0, 0]);
      assert e.RetainFrom(false, 0) == e1.RetainFrom(false, 1);
      if n == 2 {
        assert e1.Retain(3) == e.(refs := [2, 0, 0, 0, 0, 0]);
        assert e1.RetainFrom(false, 1) == e1.Retain(3).RetainFrom(false, 2);
      }
    }
  }

  lemma BeginSimple(e: Emitter, n: nat, code: nat)
    requires OneRegister(e, n) && n <= 2 && (code == LIT || code == DUP || code == INC)
    ensures var e' := e.Begin(code);
      OneRegister(e', n) && e'.refs == [n, 0, 0, 0, 0, 0] && e'.opcode == code && e'.failed == e.failed
  {
    hide Exec;
    hide Emitter.EnterKeep;
    hide Emitter.Grows;
    var e0 := e.(refs := seq(NUM_OPS, i => 0));
    assert e0.refs == [0, 0, 0, 0, 0, 0];
    RetainSimple(e0, n);
    assert e0.RetainCache(false).RetainCache(true) == e0.RetainCache(false) by {
      assert NumFlushed([]) == 0 && e.rcache[0..] == [];
    }
    hide Emitter.RetainCache;
  }

  /** LIT, with nothing cached, caches the literal in the first register. */
  lemma LitEmits(e: Emitter, pc: nat)
    requires e.opcode == LIT
    ensures e.Plain(pc) == e.Immediate(pc, false).0.Push(e.Immediate(pc, false).1, false, false)
  {
    Opcodes();
    hide Uxn.OpOf;
    hide Uxn.FlagR;
    hide Uxn.FlagK;
    hide Uxn.Flag2;
    hide Emitter.Immediate;
    hide Emitter.Push;
  }

  lemma LitSimple(e: Emitter, pc: nat)
    requires OneRegister(e, 0) && e.refs == [0, 0, 0, 0, 0, 0] && e.opcode == LIT
    ensures OneRegister(e.Plain(pc), 1)
  {
    hide Emitter.Plain;
    hide Exec;
    LitEmits(e, pc);
    var (e1, reg) := e.Alloc();
    assert reg == 3 && e1 == e.(refs := [1, 0, 0, 0, 0, 0]);
    hide Emitter.Alloc;
    var e2 := e1.LiteralTo(3, pc, false);
    assert e2.refs == e1.refs && e2.wcache == [] && e2.rcache == [] && e2.Hazard() == e1.Hazard() && e2.opcode == LIT;
    hide Emitter.LiteralTo;
  }

  lemma PushSimple(e: Emitter, n: nat)
    requires OneRegister(e, n) && n < CACHE_SIZE && |e.refs| == NUM_OPS && e.refs[0] > 0
    ensures var e' := e.Push(3, false, false);
      OneRegister(e', n + 1) && |e'.refs| == NUM_OPS && e'.refs[0] > 0
  {
  }

  lemma PlainDup(e: Emitter, pc: nat)
    requires e.opcode == DUP
    ensures var (e1, a) := e.CachePop(false, false); e.Plain(pc) == e1.Push(a, false, false).Push(a, false, false)
  {
    hide Emitter.CachePop;
    hide Emitter.Push;
  }

  lemma DupSimple(e: Emitter, pc: nat)
    requires OneRegister(e, 1) && e.refs == [1, 0, 0, 0, 0, 0] && e.opcode == DUP
    ensures OneRegister(e.Plain(pc), 2)
  {
    PlainDup(e, pc);
    hide Emitter.Plain;
    var (e1, reg) := e.CachePop(false, false);
    assert reg == 3 && OneRegister(e1, 0) && e1.refs == e.refs;
    hide Emitter.CachePop;
    hide Emitter.Push;
    hide OneRegister;
    PushSimple(e1, 0);
    PushSimple(e1.Push(3, false, false), 1);
  }

  ghost predicate IsExample(vm: Uxn.Vm) {
    && vm.pc == 0x100 && |vm.ram| == 0x1_0000 && |vm.wst| <= 254
    && vm.ram[0x100] == LIT && vm.ram[0x101] == 0x01 && vm.ram[0x102] == DUP && vm.ram[0x103] == INC
  }

  lemma EmittedStep(e: Emitter, rom: Uxn.Bytes, pc: nat, n: nat)
    requires n > 0
    ensures Emitted(e, rom, pc, n) == Emitted(EmitOpcode(e, Uxn.Peek(rom, pc), pc), rom, NextPc(Uxn.Peek(rom, pc), pc), n - 1)
  {
    hide EmitOpcode;
    hide NextPc;
  }

  lemma FirstEmitted()
    ensures var e := EmitOpcode(EMPTY, LIT, 0x100); OneRegister(e, 1)
  {
    hide Emitter.Begin;
    hide Emitter.Plain;
    assert OneRegister(EMPTY, 0);
    hide OneRegister;
    BeginSimple(EMPTY, 0, LIT);
    LitSimple(EMPTY.Begin(LIT), 0x101);
  }

  lemma SecondEmitted(e: Emitter)
    requires OneRegister(e, 1)
    ensures OneRegister(EmitOpcode(e, DUP, 0x102), 2)
  {
    hide OneRegister;
    hide Emitter.Begin;
    hide Emitter.Plain;
    BeginSimple(e, 1, DUP);
    DupSimple(e.Begin(DUP), 0x103);
  }

  lemma ExampleEmitted(vm: Uxn.Vm)
    requires IsExample(vm)
    ensures OneRegister(Emitted(EMPTY, vm.ram, 0x100, 2), 2)
    ensures Emitted(EMPTY, vm.ram, 0x100, 3) == EmitOpcode(Emitted(EMPTY, vm.ram, 0x100, 2), INC, 0x103)
  {
    hide EmitOpcode;
    hide OneRegister;
    var e1 := EmitOpcode(EMPTY, LIT, 0x100);
    FirstEmitted();
    SecondEmitted(e1);
    assert NextPc(LIT, 0x100) == 0x102 && NextPc(DUP, 0x102) == 0x103 by { Opcodes(); hide Uxn.OpOf; }
    hide NextPc;
    EmittedStep(EMPTY, vm.ram, 0x100, 2);
    EmittedStep(e1, vm.ram, 0x102, 1);
    EmittedStep(EMPTY, vm.ram, 0x100, 3);
    EmittedStep(e1, vm.ram, 0x102, 2);
    EmittedStep(EmitOpcode(e1, DUP, 0x102), vm.ram, 0x103, 1);
  }

  lemma Opcodes()
    ensures Uxn.OpOf(LIT) == Uxn.Lit && !Uxn.FlagR(LIT) && !Uxn.Flag2(LIT) && !Uxn.FlagK(LIT)
    ensures Uxn.OpOf(DUP) == Uxn.Dup && !Uxn.FlagR(DUP) && !Uxn.Flag2(DUP) && !Uxn.FlagK(DUP)
    ensures Uxn.OpOf(INC) == Uxn.Inc && !Uxn.FlagR(INC) && !Uxn.Flag2(INC) && !Uxn.FlagK(INC)
  {
    hide Uxn.OpOf;
    Uxn.LiteralOp(LIT);
    Uxn.RegularOp(DUP);
    Uxn.RegularOp(INC);
  }

  lemma LitStep(vm: Uxn.Vm)
    requires IsExample(vm) && |vm.rst| <= 256
    ensures Uxn.Step(vm) == Uxn.Some(vm.(pc := 0x102, wst := vm.wst + [0x01]))
  {
    Opcodes();
    hide Uxn.OpOf;
    hide Uxn.FlagR;
    hide Uxn.Flag2;
    hide Uxn.FlagK;
    assert Uxn.PopAll(vm.wst, []) == Uxn.Some((vm.wst, []));
    assert Uxn.Fetch(vm.ram, 0x101, true, false) == 1 && Uxn.BytesOf(1, false) == [1];
    assert vm.rst + [] == vm.rst;
    assert Uxn.Act(Uxn.Lit, false, 0, 0, 0, vm.ram, 0x101) == Uxn.Effect([1], [], vm.ram, 0x102);
    hide Uxn.Act;
  }

  lemma PopTop(st: Uxn.Bytes, x: nat)
    ensures Uxn.PopAll(st + [x], [false]) == Uxn.Some((st, [x]))
  {
    assert [false][1..] == [] && (st + [x])[..|st|] == st;
    assert Uxn.PopAll(st, []) == Uxn.Some((st, []));
    assert [x] + [] == [x];
  }

  lemma IncActs(x: nat, ram: Uxn.Bytes, pc: nat)
    ensures Uxn.Shape(Uxn.Inc, false) == [false]
    ensures Uxn.Act(Uxn.Inc, false, x, 0, 0, ram, pc) == Uxn.Effect([(x + 1) % 256], [], ram, pc)
  {
  }

  /** The reference's INC of a byte. */
  lemma IncByte(vm: Uxn.Vm, st: Uxn.Bytes, x: nat, pc: nat)
    requires vm.wst == st + [x] && |st| < 256 && |vm.rst| <= 256
    ensures Uxn.Perform(vm, INC, pc) == Uxn.Some(vm.(pc := pc, wst := st + [(x + 1) % 256]))
  {
    hide Uxn.OpOf;
    hide Uxn.FlagR;
    hide Uxn.Flag2;
    hide Uxn.FlagK;
    hide Uxn.PopAll;
    hide Uxn.Shape;
    hide Uxn.Act;
    Opcodes();
    PopTop(st, x);
    IncActs(x, vm.ram, pc);
    assert vm.rst + [] == vm.rst;
  }

  lemma DupStep(vm: Uxn.Vm, st: Uxn.Bytes)
    requires vm.pc == 0x102 && |vm.ram| == 0x1_0000 && vm.ram[0x102] == DUP && vm.wst == st + [0x01] && |st| <= 254 && |vm.rst| <= 256
    ensures Uxn.Step(vm) == Uxn.Some(vm.(pc := 0x103, wst := st + [0x01, 0x01]))
  {
    Opcodes();
    PopTop(st, 1);
    assert Uxn.Shape(Uxn.Dup, false) == [false];
    assert Uxn.Act(Uxn.Dup, false, 1, 0, 0, vm.ram, 0x103) == Uxn.Effect([1, 1], [], vm.ram, 0x103);
    hide Uxn.OpOf;
    hide Uxn.FlagR;
    hide Uxn.Flag2;
    hide Uxn.FlagK;
    hide Uxn.PopAll;
    hide Uxn.Shape;
    hide Uxn.Act;
    assert vm.rst + [] == vm.rst;
  }

  lemma IncLast(vm: Uxn.Vm, st: Uxn.Bytes)
    requires vm.pc == 0x103 && |vm.ram| == 0x1_0000 && vm.ram[0x103] == INC && vm.wst == st + [0x01, 0x01] && |st| <= 254 && |vm.rst| <= 256
    ensures Uxn.Step(vm) == Uxn.Some(vm.(pc := 0x104, wst := st + [0x01, 0x02]))
  {
    hide Uxn.Perform;
    assert st + [0x01, 0x01] == (st + [0x01]) + [0x01] && st + [0x01, 0x02] == (st + [0x01]) + [0x02];
    IncByte(vm, st + [0x01], 0x01, 0x104);
  }

  lemma ExampleFollows(vm: Uxn.Vm)
    requires IsExample(vm) && |vm.rst| <= 256
    ensures Follows(vm, vm.ram, 2) && RunReference(vm, 2) == vm.(pc := 0x103, wst := vm.wst + [0x01, 0x01])
    ensures Follows(vm, vm.ram, 3) && RunReference(vm, 3) == vm.(pc := 0x104, wst := vm.wst + [0x01, 0x02])
  {
    Opcodes();
    LitStep(vm);
    var vm1 := vm.(pc := 0x102, wst := vm.wst + [0x01]);
    DupStep(vm1, vm.wst);
    var vm2 := vm.(pc := 0x103, wst := vm.wst + [0x01, 0x01]);
    IncLast(vm2, vm.wst);
    var vm3 := vm.(pc := 0x104, wst := vm.wst + [0x01, 0x02]);
    hide Uxn.Step;
    hide Uxn.OpOf;
    assert RunReference(vm2, 0) == vm2 && RunReference(vm3, 0) == vm3;
    assert RunReference(vm1, 1) == RunReference(vm2, 0) && RunReference(vm2, 1) == RunReference(vm3, 0);
    assert RunReference(vm1, 2) == RunReference(vm2, 1);
    assert Follows(vm2, vm.ram, 0) && Follows(vm3, vm.ram, 0);
    assert Follows(vm1, vm.ram, 1) && Follows(vm2, vm.ram, 1);
    assert Follows(vm1, vm.ram, 2);
  }

  /** The one register changed under its one cell. */
  lemma OneCellChanged(ring: seq<nat>, p: nat, regs: seq<nat>, regs': seq<nat>, st: Uxn.Bytes, origin: nat)
    requires Stacked([Cell(3, false, true)], ring, p, regs, st + [0x01], origin, false) && |regs'| > 3 && regs'[3] == 2
    ensures Stacked([Cell(3, false, true)], ring, p, regs', st + [0x02], origin, false)
  {
    var cells := [Cell(3, false, true)];
    assert cells[..0] == [] && Decoded([], regs, false) == [] && Decoded([], regs', false) == [];
    var d, d' := Decoded(cells, regs, false), Decoded(cells, regs', false);
    assert |d| == 1 && d' == [2];
    hide Decoded;
    hide Live;
    var live := Live(ring, p, |st|);
    SameParts(st, [1], live, d);
    hide Bottom;
  }

  lemma IncInPlace(e: Emitter, m0: Machine, s: Snap, held: multiset<Reg>, st: Uxn.Bytes)
    requires Good(e, m0, s, held) && OneRegister(e, 1) && s.w == st + [0x01] && s.vals == map[3 := 1]
    ensures var e' := e.Own(3).Emit(Op2(Alu.ADD, 3, R(3), Imm(1))).Emit(Op2(Alu.AND, 3, R(3), Mask(false)));
      Good(e', m0, s.(w := st + [0x02], vals := map[3 := 2]), held)
  {
    hide Exec;
    hide Step;
    hide Stacked;
    hide AreBytes;
    var e' := e.Own(3).Emit(Op2(Alu.ADD, 3, R(3), Imm(1))).Emit(Op2(Alu.AND, 3, R(3), Mask(false)));
    BooksInv(e, e', held);
    hide Inv;
    var m := Run(e, m0);
    assert e.wcache == [Cell(3, false, true)] && e'.wcache == e.wcache && e'.rcache == [];
    assert At(m.regs, 3) == 1;
    StepAluImm(Alu.ADD, 3, 3, 1, m);
    Values.MaskRuns(3, false, Step(Op2(Alu.ADD, 3, R(3), Imm(1)), m));
    var m' := Run(e', m0);
    assert m' == m.(regs := m.regs[3 := 2]) by { assert (1 + 1) % WORD == 2; }
    hide Mask;
    OneCellChanged(m.ws, Ptr(m, WSP), m.regs, m'.regs, st, s.wOrigin);
    assert SideRel(e.rcache, m, s, true);
    StackedFrame([], m.rs, Ptr(m, RSP), m.regs, m'.regs, s.r, s.rOrigin, false);
    PopSound.BaseFrame(e, e', m, m', {3});
  }

  /** The program LIT 01 DUP INC, from any state that leaves room for its results: the emitted code
      does not leave the machine holding the state of the reference, which has 01 below 02. */
  lemma DupIncExample(m: Machine, vm: Uxn.Vm)
    requires Compiler.Holds(m, vm) && IsExample(vm)
    ensures Follows(vm, vm.ram, 3)
    ensures !Compiler.Holds(Exec(Emitted(EMPTY, vm.ram, 0x100, 3).ClearBoth().code, m), RunReference(vm, 3))
  {
    hide Exec;
    hide Emitted;
    hide Follows;
    hide RunReference;
    hide Good;
    hide Compiler.Holds;
    hide Emitter.Begin;
    hide Emitter.Plain;
    hide Emitter.CachePop;
    hide Emitter.Push;
    hide Emitter.ClearBoth;
    var e := Emitted(EMPTY, vm.ram, 0x100, 2);
    var s, held := ExampleGood(m, vm);
    ExampleEmitted(vm);
    RoomLeft(m, vm);
    ExampleFollows(vm);
    var s', held' := IncGood(e, m, s, held, vm.wst);
    var e' := EmitOpcode(e, INC, 0x103);
    ClearBothGood(e', m, s', held');
    LateSpills.InOrder(e'.ClearBoth(), m, s', held');
    NotHeld(Exec(e'.ClearBoth().code, m), vm.(pc := 0x104, wst := vm.wst + [0x01, 0x02]), vm.wst);
  }

  lemma RoomLeft(m: Machine, vm: Uxn.Vm)
    requires Compiler.Holds(m, vm)
    ensures |vm.rst| <= 256
  {
    hide Live;
  }

  lemma NotHeld(m: Machine, vm: Uxn.Vm, st: Uxn.Bytes)
    requires |m.ws| == 256 && vm.wst == st + [0x01, 0x02] && Live(m.ws, Ptr(m, WSP), |st + [0x02, 0x02]|) == st + [0x02, 0x02]
    ensures !Compiler.Holds(m, vm)
  {
    assert (st + [0x01, 0x02])[|st|] == 1 && (st + [0x02, 0x02])[|st|] == 2;
    hide Live;
  }

  lemma IncGood(e: Emitter, m: Machine, s: Snap, held: multiset<Reg>, st: Uxn.Bytes) returns (s': Snap, held': multiset<Reg>)
    requires Good(e, m, s, held) && OneRegister(e, 2) && s.w == st + [0x01, 0x01] && |st| <= 254
    ensures Good(EmitOpcode(e, INC, 0x103), m, s', held') && s'.w == st + [0x02, 0x02]
  {
    hide Exec;
    hide Good;
    hide OneRegister;
    hide Emitter.Begin;
    hide Emitter.Plain;
    hide Emitter.CachePop;
    hide Emitter.Push;
    hide ViewMode;
    Opcodes();
    hide Uxn.OpOf;
    hide Uxn.FlagR;
    hide Uxn.FlagK;
    hide Uxn.Flag2;
    BeginSimple(e, 2, INC);
    var e0 := e.Begin(INC);
    held' := OpStart.BeginGood(e, INC, m, s, held);
    IncPlain(e0, 0x104);
    TopTaken(e0);
    Popping.PopGood(e0, false, false, false, m, s.(vals := map[]), held', s.w);
    var (e1, a) := e0.CachePop(false, false);
    assert Uxn.PopValue(s.w, false) == Uxn.Some((st + [0x01], 1)) by { assert (st + [0x01, 0x01])[..|st| + 1] == st + [0x01]; }
    held' := held' + multiset{a};
    var s1 := s.With(false, st + [0x01]).(vals := map[3 := 1]);
    IncInPlace(e1, m, s1, held', st);
    var e2 := e1.Own(3).Emit(Op2(Alu.ADD, 3, R(3), Imm(1))).Emit(Op2(Alu.AND, 3, R(3), Mask(false)));
    s' := s1.(w := st + [0x02], vals := map[3 := 2]);
    assert Uxn.BytesOf(2, false) == [2];
    PushGood(e2, 3, false, false, m, s', held');
    s' := s'.With(false, s'.w + [0x02]);
    assert (st + [0x02]) + [0x02] == st + [0x02, 0x02];
  }

  lemma ExampleGood(m: Machine, vm: Uxn.Vm) returns (s: Snap, held: multiset<Reg>)
    requires Compiler.Holds(m, vm) && IsExample(vm)
    ensures Good(Emitted(EMPTY, vm.ram, 0x100, 2), m, s, held)
    ensures s.w == vm.wst + [0x01, 0x01] && s.r == vm.rst && SameOrigins(StartSnap(m, vm), s)
  {
    hide Exec;
    hide Emitted;
    hide Follows;
    hide RunReference;
    hide Good;
    EmptyGood(m, vm);
    assert |vm.rst| <= 256;
    hide Compiler.Holds;
    ExampleEmitted(vm);
    assert !Emitted(EMPTY, vm.ram, 0x100, 2).Hazard();
    hide OneRegister;
    ExampleFollows(vm);
    s, held := SequenceSound(EMPTY, m, StartSnap(m, vm), multiset{}, vm, vm.ram, 2);
  }

  lemma TopTaken(e: Emitter)
    requires OneRegister(e, 2)
    ensures var (e1, a) := e.CachePop(false, false); a == 3 && OneRegister(e1, 1) && !e1.Hazard()
  {
  }
}
