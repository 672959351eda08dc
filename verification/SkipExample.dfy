/** A conditional jump by a truth value that goes the wrong way, for a concrete program: the jump
    is not taken, and the compiled code does not run the opcode that follows it. */
module SkipExample {
  import opened Words
  import opened Target
  import opened Emission
  import opened Allocator
  import opened CacheRuns
  import opened CacheSound
  import opened Rings
  import opened OpSound
  import opened Compiler
  import opened Facts
  import opened FactsSound
  import opened Jumps
  import opened Blocks
  import opened CompileLoop
  import opened Skipping
  import opened SingleStack
  import DeviceOps
  import HazardExample
  import NoSharing
  import Sharing
  import Calls
  import Uxn

  // ---- compiling along the reference ----

  /** The compiler and the reference, both in front of the same opcode; only the working stack is
      cached, in registers of their own. */
  ghost predicate Abreast(c: Ctx, m: Machine, s: Snap, held: multiset<Reg>, vm0: Uxn.Vm, vm: Uxn.Vm) {
    && Good(c.e, m, s, held) && Mirrors(s, vm) && SameOrigins(StartSnap(m, vm0), s) && Tracks(c.t, vm)
    && 256 <= c.pc == vm.pc < 0x1_0000 && !c.done && c.e.rcache == [] && Sharing.LoneCells(c.e) && !c.e.Hazard()
  }

  lemma PlainNext(c: Ctx, rom: Uxn.Bytes)
    requires 256 <= c.pc < 0x1_0000 && IsPlain(Uxn.OpOf(Uxn.Peek(rom, c.pc)))
    ensures var code := Uxn.Peek(rom, c.pc);
      NextOpcode(c, rom) == Ctx(EmitOpcode(c.e, code, c.pc), c.t.Track(code, LiteralAt(rom, code, c.pc)), NextPc(code, c.pc), false)
  {
    hide EmitOpcode;
    hide NextPc;
    hide LiteralAt;
    hide Tracker.Track;
  }

  /** One opcode further. */
  lemma Onward(c: Ctx, m: Machine, s: Snap, held: multiset<Reg>, vm0: Uxn.Vm, vm: Uxn.Vm, vm': Uxn.Vm)
    returns (s': Snap, held': multiset<Reg>)
    requires Abreast(c, m, s, held, vm0, vm) && Uxn.Peek(vm.ram, vm.pc) < 256
    requires var code := Uxn.Peek(vm.ram, vm.pc);
      && OneStack(code) && !NoSharing.Shares(Uxn.OpOf(code)) && Uxn.Perform(vm, code, (vm.pc + 1) % 0x1_0000) == Uxn.Some(vm')
    requires 256 <= vm'.pc < 0x1_0000
    ensures Abreast(NextOpcode(c, vm.ram), m, s', held', vm0, vm') && Compile(c, vm.ram) == Compile(NextOpcode(c, vm.ram), vm.ram)
  {
    hide Good;
    hide Tracks;
    hide Inv;
    hide Sharing.LoneCells;
    hide NextOpcode;
    hide EmitOpcode;
    hide NextPc;
    hide LiteralAt;
    hide Tracker.Track;
    hide Uxn.Perform;
    hide Uxn.OpOf;
    hide Uxn.Flag2;
    hide Uxn.FlagR;
    hide Uxn.FlagK;
    hide NoSharing.Shares;
    var code := Uxn.Peek(vm.ram, vm.pc);
    InvHeld(c.e, m, s, held);
    var h1 := OpcodeQuiet(c.e, held, code, vm.pc);
    var h2 := NoSharing.OpcodeKept(c.e, held, code, vm.pc);
    s', held' := OpcodeSound(c.e, m, s, held, vm, code);
    assert LiteralAt(vm.ram, code, vm.pc) == Uxn.Fetch(vm.ram, (vm.pc + 1) % 0x1_0000, true, Uxn.Flag2(code)) by { LiteralIs(vm.ram, code, vm.pc); }
    StepTracked(c.t, vm, code, LiteralAt(vm.ram, code, vm.pc), (vm.pc + 1) % 0x1_0000);
    PlainNext(c, vm.ram);
  }

  lemma InvHeld(e: Emitter, m: Machine, s: Snap, held: multiset<Reg>)
    requires Good(e, m, s, held)
    ensures Inv(e, held)
  {
  }

  // ---- the jump has its operands without a spill ----

  lemma TwoBytesCalm(e: Emitter)
    requires Inv(e, multiset{}) && e.rcache == [] && Sharing.Lone(e) && !e.Hazard()
    ensures !e.CachePop(false, false).0.CachePop(false, false).0.Hazard()
  {
    hide Inv;
    hide Sharing.Lone;
    hide Emitter.CachePop;
    Capped(e, multiset{});
    assert AfterPops(e, e, multiset{}, 0);
    PopOnce(e, e, multiset{}, 0, false);
    var (e1, a) := e.CachePop(false, false);
    PopOnce(e, e1, multiset{} + multiset{a}, 1, false);
    Sharing.PopLone(e, multiset{}, false, false);
    Sharing.PopLone(e1, multiset{} + multiset{a}, false, false);
  }

  lemma ClearsCalm(e: Emitter)
    ensures e.ClearBoth().Hazard() == e.Hazard()
  {
    hide Emitter.Clear;
    ClearHazard(e, false);
    ClearHazard(e.Clear(false), true);
  }

  lemma {:induction false} ClearHazard(e: Emitter, r: bool)
    ensures e.Clear(r).Hazard() == e.Hazard()
    decreases |e.Cache(r)|
  {
    if e.Cache(r) != [] {
      SpillHazard(e, r);
      hide Emitter.Spill;
      ClearHazard(e.Spill(r), r);
    }
  }

  lemma SpillHazard(e: Emitter, r: bool)
    requires e.Cache(r) != []
    ensures e.Spill(r).Hazard() == e.Hazard() && |e.Spill(r).Cache(r)| < |e.Cache(r)|
  {
    Sharing.DoPushShares(e, e.Cache(r)[0], r);
    DoPushLate(e, e.Cache(r)[0], r);
    hide Emitter.DoPush;
  }

  const LIT: nat := 0x80
  const EQU: nat := 0x08
  const JCN: nat := 0x0d
  const INC: nat := 0x01
  const BRK: nat := 0x00

  lemma Opcodes()
    ensures Uxn.OpOf(LIT) == Uxn.Lit && !Uxn.FlagR(LIT) && !Uxn.Flag2(LIT) && !Uxn.FlagK(LIT)
    ensures Uxn.OpOf(EQU) == Uxn.Equ && !Uxn.FlagR(EQU) && !Uxn.Flag2(EQU) && !Uxn.FlagK(EQU)
  {
    hide Uxn.OpOf;
    Uxn.LiteralOp(LIT);
    Uxn.RegularOp(EQU);
  }

  lemma IncCode()
    ensures Uxn.OpOf(INC) == Uxn.Inc && !Uxn.FlagR(INC) && !Uxn.Flag2(INC) && !Uxn.FlagK(INC)
  {
    hide Uxn.OpOf;
    Uxn.RegularOp(INC);
  }

  lemma JumpCodes()
    ensures Uxn.OpOf(JCN) == Uxn.Jcn && !Uxn.FlagR(JCN) && !Uxn.Flag2(JCN) && !Uxn.FlagK(JCN)
    ensures Uxn.OpOf(BRK) == Uxn.Brk && !Uxn.FlagR(BRK) && !Uxn.Flag2(BRK) && !Uxn.FlagK(BRK)
  {
    hide Uxn.OpOf;
    Uxn.ImmediateOp();
    Uxn.RegularOp(JCN);
  }

  lemma JumpCalm(e: Emitter, held: multiset<Reg>, pc: nat)
    requires Inv(e, held) && e.rcache == [] && Sharing.LoneCells(e) && !e.Hazard()
    ensures !TargetPopped(e.Begin(JCN), pc).0.Hazard()
  {
    JumpCodes();
    hide Uxn.OpOf;
    hide Uxn.FlagR;
    hide Uxn.FlagK;
    hide Uxn.Flag2;
    RebuiltQuiet(e, JCN, held);
    RebuiltInv(e, JCN, held);
    PointersInv(Rebuilt(e, JCN), e.Begin(JCN), multiset{});
    var h := NoSharing.BeginTidy(e, JCN, held);
    hide Inv;
    hide Emitter.Begin;
    hide Emitter.CachePop;
    hide Emitter.ClearBoth;
    var e0 := e.Begin(JCN);
    TwoBytesCalm(e0);
    ClearsCalm(e0.CachePop(false, false).0.CachePop(false, false).0);
  }

  // ---- the steps of the reference ----

  lemma LitByte(vm: Uxn.Vm)
    requires vm.pc < 0xfff0 && |vm.ram| == 0x1_0000 && vm.ram[vm.pc + 1] < 256 && |vm.wst| < 256 && |vm.rst| <= 256
    ensures Uxn.Perform(vm, LIT, (vm.pc + 1) % 0x1_0000) == Uxn.Some(vm.(pc := vm.pc + 2, wst := vm.wst + [vm.ram[vm.pc + 1]]))
  {
    Opcodes();
    hide Uxn.OpOf;
    hide Uxn.FlagR;
    hide Uxn.Flag2;
    hide Uxn.FlagK;
    var pc, b := vm.pc + 1, vm.ram[vm.pc + 1];
    assert Uxn.PopAll(vm.wst, []) == Uxn.Some((vm.wst, []));
    assert Uxn.Fetch(vm.ram, pc, true, false) == b && Uxn.BytesOf(b, false) == [b];
    assert vm.rst + [] == vm.rst;
    assert Uxn.Act(Uxn.Lit, false, 0, 0, 0, vm.ram, pc) == Uxn.Effect([b], [], vm.ram, pc + 1);
    hide Uxn.Act;
  }

  lemma TwoBytes(st: Uxn.Bytes, x: nat, y: nat)
    ensures Uxn.PopAll(st + [y, x], [false, false]) == Uxn.Some((st, [x, y]))
    ensures TopValue(st + [y, x], false) == x && TopValue(Below(st + [y, x], false), false) == y
  {
    var all := st + [y, x];
    assert all[..|all| - 1] == st + [y] && (st + [y])[..|st|] == st;
    assert [false, false][1..] == [false] && [false][1..] == [];
    assert Uxn.PopAll(st, []) == Uxn.Some((st, []));
    assert [y] + [] == [y] && [x] + [y] == [x, y];
    assert Uxn.PopAll(st + [y], [false]) == Uxn.Some((st, [y]));
  }

  lemma EquTrue(vm: Uxn.Vm, st: Uxn.Bytes)
    requires vm.pc < 0xfff0 && vm.wst == st + [1, 1] && |st| < 256 && |vm.rst| <= 256
    ensures Uxn.Perform(vm, EQU, (vm.pc + 1) % 0x1_0000) == Uxn.Some(vm.(pc := vm.pc + 1, wst := st + [1]))
  {
    hide Uxn.OpOf;
    hide Uxn.FlagR;
    hide Uxn.Flag2;
    hide Uxn.FlagK;
    hide Uxn.PopAll;
    hide Uxn.Shape;
    hide Uxn.Act;
    Opcodes();
    TwoBytes(st, 1, 1);
    EquActs(vm.ram, vm.pc + 1);
    assert vm.rst + [] == vm.rst;
  }

  lemma EquActs(ram: Uxn.Bytes, pc: nat)
    ensures Uxn.Shape(Uxn.Equ, false) == [false, false]
    ensures Uxn.Act(Uxn.Equ, false, 1, 1, 0, ram, pc) == Uxn.Effect([1], [], ram, pc)
  {
  }

  lemma JcnActs(ram: Uxn.Bytes, pc: nat)
    ensures Uxn.Shape(Uxn.Jcn, false) == [false, false]
    ensures Uxn.Act(Uxn.Jcn, false, 1, 0, 0, ram, pc) == Uxn.Effect([], [], ram, pc)
  {
  }

  lemma JcnFalls(vm: Uxn.Vm, st: Uxn.Bytes)
    requires vm.pc < 0xfff0 && vm.wst == st + [0, 1] && |st| <= 256 && |vm.rst| <= 256
    ensures Uxn.Perform(vm, JCN, (vm.pc + 1) % 0x1_0000) == Uxn.Some(vm.(pc := vm.pc + 1, wst := st))
    ensures TargetByte(vm, JCN) == 1 && ConditionByte(vm, JCN) == 0
  {
    hide Uxn.OpOf;
    hide Uxn.FlagR;
    hide Uxn.Flag2;
    hide Uxn.FlagK;
    hide Uxn.PopAll;
    hide Uxn.Shape;
    hide Uxn.Act;
    hide TopValue;
    hide Below;
    JumpCodes();
    TwoBytes(st, 1, 0);
    JcnActs(vm.ram, vm.pc + 1);
    assert vm.rst + [] == vm.rst && st + [] == st;
  }

  lemma BrkStops(vm: Uxn.Vm)
    requires vm.pc < 0xfff0 && |vm.wst| <= 256 && |vm.rst| <= 256
    ensures Uxn.Perform(vm, BRK, (vm.pc + 1) % 0x1_0000) == Uxn.Some(vm.(pc := Calls.BREAK))
  {
    JumpCodes();
    hide Uxn.OpOf;
    hide Uxn.FlagR;
    hide Uxn.Flag2;
    hide Uxn.FlagK;
    assert Uxn.PopAll(vm.wst, []) == Uxn.Some((vm.wst, []));
    assert Uxn.Act(Uxn.Brk, false, 0, 0, 0, vm.ram, vm.pc + 1) == Uxn.Effect([], [], vm.ram, Calls.BREAK);
    hide Uxn.Act;
    assert vm.rst + [] == vm.rst && vm.wst + [] == vm.wst;
  }

  // ---- what the compiler knows ----

  lemma EquKnown(t: Tracker, lit: nat)
    requires |t.wst| == RING && t.wsp < RING
    ensures Skips(t.Track(EQU, lit), JCN)
  {
    Opcodes();
    JumpCodes();
    hide Uxn.OpOf;
    hide Uxn.FlagR;
    hide Uxn.Flag2;
    hide Uxn.FlagK;
  }

  // ---- the program LIT 05, LIT 00, LIT 01, LIT 01, EQU, JCN, INC, BRK ----

  ghost predicate IsProgram(ram: Uxn.Bytes) {
    && |ram| == 0x1_0000
    && ram[0x100] == LIT && ram[0x101] == 5 && ram[0x102] == LIT && ram[0x103] == 0
    && ram[0x104] == LIT && ram[0x105] == 1 && ram[0x106] == LIT && ram[0x107] == 1
    && ram[0x108] == EQU && ram[0x109] == JCN && ram[0x10a] == INC && ram[0x10b] == BRK
  }

  ghost predicate IsExample(vm: Uxn.Vm) {
    vm.pc == 0x100 && IsProgram(vm.ram) && |vm.wst| <= 252
  }

  lemma StartAbreast(m: Machine, vm: Uxn.Vm)
    requires Compiler.Holds(m, vm) && 256 <= vm.pc < 0x1_0000
    ensures Abreast(Start(vm.pc), m, StartSnap(m, vm), multiset{}, vm, vm)
  {
    EmptyGood(m, vm);
    GoodBytes(EMPTY, m, StartSnap(m, vm), multiset{});
    hide Good;
    hide Live;
    hide AreBytes;
    hide Bottom;
  }

  lemma LitOnward(c: Ctx, m: Machine, s: Snap, held: multiset<Reg>, vm0: Uxn.Vm, vm: Uxn.Vm)
    returns (s': Snap, held': multiset<Reg>, vm': Uxn.Vm)
    requires Abreast(c, m, s, held, vm0, vm) && 256 <= vm.pc < 0xfff0 && |vm.ram| == 0x1_0000 && vm.ram[vm.pc] == LIT
    requires vm.ram[vm.pc + 1] < 256 && |vm.wst| < 256 && |vm.rst| <= 256
    ensures vm' == vm.(pc := vm.pc + 2, wst := vm.wst + [vm.ram[vm.pc + 1]]) && Uxn.Step(vm) == Uxn.Some(vm')
    ensures Abreast(NextOpcode(c, vm.ram), m, s', held', vm0, vm') && Compile(c, vm.ram) == Compile(NextOpcode(c, vm.ram), vm.ram)
  {
    hide Abreast;
    hide NextOpcode;
    hide Compile;
    LitByte(vm);
    vm' := vm.(pc := vm.pc + 2, wst := vm.wst + [vm.ram[vm.pc + 1]]);
    hide Uxn.Perform;
    Opcodes();
    hide Uxn.OpOf;
    hide Uxn.FlagR;
    hide Uxn.FlagK;
    s', held' := Onward(c, m, s, held, vm0, vm, vm');
  }

  lemma EquOnward(c: Ctx, m: Machine, s: Snap, held: multiset<Reg>, vm0: Uxn.Vm, vm: Uxn.Vm, st: Uxn.Bytes)
    returns (s': Snap, held': multiset<Reg>, vm': Uxn.Vm)
    requires Abreast(c, m, s, held, vm0, vm) && vm.pc < 0xfff0 && |vm.ram| == 0x1_0000 && vm.ram[vm.pc] == EQU
    requires vm.wst == st + [1, 1] && |st| < 256 && |vm.rst| <= 256
    ensures vm' == vm.(pc := vm.pc + 1, wst := st + [1]) && Uxn.Step(vm) == Uxn.Some(vm')
    ensures Abreast(NextOpcode(c, vm.ram), m, s', held', vm0, vm') && Compile(c, vm.ram) == Compile(NextOpcode(c, vm.ram), vm.ram)
    ensures Skips(NextOpcode(c, vm.ram).t, JCN)
  {
    hide NextOpcode;
    hide Compile;
    hide Skips;
    hide Good;
    hide Sharing.LoneCells;
    EquTrue(vm, st);
    vm' := vm.(pc := vm.pc + 1, wst := st + [1]);
    hide Uxn.Perform;
    Opcodes();
    hide Uxn.OpOf;
    hide Uxn.FlagR;
    hide Uxn.FlagK;
    s', held' := Onward(c, m, s, held, vm0, vm, vm');
    PlainNext(c, vm.ram);
    EquKnown(c.t, LiteralAt(vm.ram, EQU, c.pc));
  }

  /** Compiling and executing up to the jump. */
  lemma UpToJump(m: Machine, vm: Uxn.Vm) returns (c: Ctx, s: Snap, held: multiset<Reg>, vm5: Uxn.Vm)
    requires Compiler.Holds(m, vm) && IsExample(vm) && |vm.rst| <= 256
    ensures vm5 == vm.(pc := 0x109, wst := (vm.wst + [5]) + [0, 1]) && RunReference(vm, 8) == RunReference(vm5, 3)
    ensures Abreast(c, m, s, held, vm, vm5) && Skips(c.t, JCN) && Compile(Start(0x100), vm.ram) == Compile(c, vm.ram)
  {
    hide Abreast;
    hide NextOpcode;
    hide Compile;
    hide Skips;
    hide Start;
    hide Uxn.Step;
    StartAbreast(m, vm);
    hide Compiler.Holds;
    var c0 := Start(0x100);
    var s1, h1, vm1 := LitOnward(c0, m, StartSnap(m, vm), multiset{}, vm, vm);
    var c1 := NextOpcode(c0, vm.ram);
    var s2, h2, vm2 := LitOnward(c1, m, s1, h1, vm, vm1);
    var c2 := NextOpcode(c1, vm.ram);
    var s3, h3, vm3 := LitOnward(c2, m, s2, h2, vm, vm2);
    var c3 := NextOpcode(c2, vm.ram);
    var s4, h4, vm4 := LitOnward(c3, m, s3, h3, vm, vm3);
    var c4 := NextOpcode(c3, vm.ram);
    assert vm4.wst == ((vm.wst + [5]) + [0]) + [1, 1];
    var s5, h5, vm5' := EquOnward(c4, m, s4, h4, vm, vm4, (vm.wst + [5]) + [0]);
    assert ((vm.wst + [5]) + [0]) + [1] == (vm.wst + [5]) + [0, 1];
    c, s, held, vm5 := NextOpcode(c4, vm.ram), s5, h5, vm5';
    RunFive(vm, vm1, vm2, vm3, vm4, vm5);
  }

  lemma RunFive(vm: Uxn.Vm, vm1: Uxn.Vm, vm2: Uxn.Vm, vm3: Uxn.Vm, vm4: Uxn.Vm, vm5: Uxn.Vm)
    requires Uxn.Step(vm) == Uxn.Some(vm1) && Uxn.Step(vm1) == Uxn.Some(vm2) && Uxn.Step(vm2) == Uxn.Some(vm3)
    requires Uxn.Step(vm3) == Uxn.Some(vm4) && Uxn.Step(vm4) == Uxn.Some(vm5)
    ensures RunReference(vm, 8) == RunReference(vm5, 3)
  {
    hide Uxn.Step;
    assert RunReference(vm, 8) == RunReference(vm1, 7);
    assert RunReference(vm1, 7) == RunReference(vm2, 6);
    assert RunReference(vm2, 6) == RunReference(vm3, 5);
  }

  /** The last three steps of the reference. */
  lemma LastSteps(vm: Uxn.Vm, st: Uxn.Bytes)
    requires vm.pc == 0x109 && IsProgram(vm.ram) && vm.wst == (st + [5]) + [0, 1] && |st| <= 252 && |vm.rst| <= 256
    ensures Uxn.Perform(vm, JCN, 0x10a) == Uxn.Some(vm.(pc := 0x10a, wst := st + [5]))
    ensures RunReference(vm, 3) == vm.(pc := Calls.BREAK, wst := st + [6])
  {
    JcnFalls(vm, st + [5]);
    var vm1 := vm.(pc := 0x10a, wst := st + [5]);
    HazardExample.IncByte(vm1, st, 5, 0x10b);
    var vm2 := vm.(pc := 0x10b, wst := st + [6]);
    BrkStops(vm2);
    hide Uxn.Perform;
    hide TargetByte;
    hide ConditionByte;
    var vm3 := vm.(pc := Calls.BREAK, wst := st + [6]);
    assert Uxn.Step(vm) == Uxn.Some(vm1) && Uxn.Step(vm1) == Uxn.Some(vm2) && Uxn.Step(vm2) == Uxn.Some(vm3);
    hide Uxn.Step;
    assert RunReference(vm3, 0) == vm3;
    assert RunReference(vm2, 1) == RunReference(vm3, 0);
    assert RunReference(vm1, 2) == RunReference(vm2, 1);
  }

  /** INC compiled under the condition takes the compiler to BRK. */
  lemma InnerAtBrk(c: Ctx, rom: Uxn.Bytes)
    requires c.pc == 0x109 && IsProgram(rom)
    ensures InnerCtx(c, rom).pc == 0x10b
  {
    hide PoppedAt;
    hide TrackAt;
    hide EmitOpcode;
    hide LiteralAt;
    hide Tracker.Track;
    hide NextOpcode;
    hide NextPc;
    hide Uxn.OpOf;
    hide Uxn.Flag2;
    IncNext();
    PlainNext(Ctx(PoppedAt(c, JCN).0.(code := []), TrackAt(c.t, rom, c.pc), 0x10a, false), rom);
  }

  lemma IncNext()
    ensures Uxn.OpOf(INC) == Uxn.Inc && NextPc(INC, 0x10a) == 0x10b
  {
    IncCode();
    hide Uxn.OpOf;
  }

  lemma BrkBegins(e: Emitter)
    requires e.wcache == [] && e.rcache == []
    ensures e.Begin(BRK).ClearBoth().code == e.code
  {
    JumpCodes();
    hide Uxn.OpOf;
    hide Uxn.FlagR;
    hide Uxn.FlagK;
    hide Uxn.Flag2;
    hide Exec;
    hide Emitter.EnterKeep;
    assert NumFlushed([]) == 0;
    var none: seq<Cell> := [];
    assert none[0..] == none;
  }

  /** BRK with nothing cached: the code ends with the return to the trampoline. */
  lemma BrkEnds(c: Ctx, rom: Uxn.Bytes)
    requires c.pc == 0x10b && IsProgram(rom) && c.e.wcache == [] && c.e.rcache == [] && !c.done
    ensures Compile(c, rom).e.code == c.e.code + [Leave(Imm(Calls.BREAK))]
  {
    JumpCodes();
    BrkBegins(c.e);
    hide Uxn.OpOf;
    hide Uxn.FlagR;
    hide Uxn.FlagK;
    hide Uxn.Flag2;
    hide Emitter.Begin;
    hide Emitter.ClearBoth;
    hide TrackAt;
    hide PcAfter;
    hide SiteAt;
    hide ImmediateTarget;
    assert Compile(c, rom) == NextOpcode(c, rom);
  }

  lemma GuardedCaches(e: Emitter, inner: Emitter, t: Reg, cond: Reg, conditional: bool)
    ensures Guarded(e, inner, t, cond, conditional).wcache == [] && Guarded(e, inner, t, cond, conditional).rcache == []
  {
    hide Emitter.ClearBoth;
    DeviceOps.BothCleared(inner);
  }

  /** The program LIT 05, LIT 00, LIT 01, LIT 01, EQU, JCN, INC, BRK, from any state that leaves
      room for it.  The condition is zero, so the reference does not jump and increments the
      byte; the compiled block returns to the trampoline without having incremented it. */
  lemma ProgramWrong(m: Machine, vm: Uxn.Vm)
    requires Compiler.Holds(m, vm) && IsExample(vm)
    ensures RunReference(vm, 8) == vm.(pc := Calls.BREAK, wst := vm.wst + [6])
    ensures var m' := Exec(Compile(Start(0x100), vm.ram).e.code, m);
      && m'.exit == Returned(Calls.BREAK) && Compiler.Holds(m'.(exit := Running), vm.(wst := vm.wst + [5]))
      && !Compiler.Holds(m'.(exit := Running), RunReference(vm, 8))
  {
    hide Exec;
    hide Good;
    hide Inv;
    hide Tracks;
    hide Skips;
    hide Sharing.LoneCells;
    hide NextOpcode;
    hide InnerCtx;
    hide Guarded;
    hide Compile;
    hide RunReference;
    hide SkipAgrees;
    hide TargetPopped;
    hide PointersMatch;
    hide Uxn.Perform;
    hide Emitter.Begin;
    hide Emitter.ClearBoth;
    assert |vm.rst| <= 256 by { hide Live; }
    hide Compiler.Holds;
    var c, s, held, vm5 := UpToJump(m, vm);
    LastSteps(vm5, vm.wst);
    JcnFalls(vm5, vm.wst + [5]);
    hide TargetByte;
    hide ConditionByte;
    JumpCodes();
    hide Uxn.OpOf;
    hide Uxn.Flag2;
    var vm6 := vm5.(pc := 0x10a, wst := vm.wst + [5]);
    InvHeld(c.e, m, s, held);
    JumpCalm(c.e, held, 0x10a);
    SkipExact(c, vm.ram, m, s, held, vm, vm5, JCN, vm6);
    SkipEmits(c, vm.ram);
    InnerAtBrk(c, vm.ram);
    var (e, t, cond) := PoppedAt(c, JCN);
    GuardedCaches(e, InnerCtx(c, vm.ram).e, t, cond, true);
    var c' := NextOpcode(c, vm.ram);
    BrkEnds(c', vm.ram);
    assert Compile(c, vm.ram) == Compile(c', vm.ram) by { CompileOnce(c, vm.ram); }
    Ended(c'.e.code, m, Run(c'.e, m), vm6, vm.wst);
  }

  lemma CompileOnce(c: Ctx, rom: Uxn.Bytes)
    requires c.pc < 0x1_0000 && !c.done
    ensures Compile(c, rom) == Compile(NextOpcode(c, rom), rom)
  {
    hide NextOpcode;
  }

  lemma Ended(code: seq<Instr>, m: Machine, m1: Machine, vm6: Uxn.Vm, st: Uxn.Bytes)
    requires m1 == Exec(code, m) && Compiler.Holds(m1, vm6) && vm6.wst == st + [5]
    ensures var m' := Exec(code + [Leave(Imm(Calls.BREAK))], m);
      && m' == m1.(exit := Returned(Calls.BREAK)) && m'.(exit := Running) == m1
      && (forall vm: Uxn.Vm :: vm.wst == vm6.wst && vm.rst == vm6.rst && vm.ram == vm6.ram && vm.io == vm6.io ==> Compiler.Holds(m1, vm))
      && (forall vm: Uxn.Vm :: vm.wst == st + [6] ==> !Compiler.Holds(m1, vm))
  {
    hide Exec;
    hide Live;
    hide AreBytes;
    hide Calc;
    ExecSnoc(code, Leave(Imm(Calls.BREAK)), m);
    assert |st + [5]| == |st + [6]| && (st + [5])[|st|] != (st + [6])[|st|];
  }
}
