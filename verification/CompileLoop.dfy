/** The compile loop for one block, over any memory content: it terminates, also through the
    recursion that a jump by a truth value causes, and no assertion of the emitter fails. */
module CompileLoop {
  import opened Words
  import opened Target
  import opened Emission
  import opened Allocator
  import opened Compiler
  import opened Facts
  import opened FactsSound
  import opened Jumps
  import opened Blocks
  import opened DeviceOps
  import CacheRuns
  import Calls
  import Uxn

  /** The compiler of one block; "done" stands for the compiler handle being cleared. */
  datatype Ctx = Ctx(e: Emitter, t: Tracker, pc: nat, done: bool)

  /** How many opcodes can still follow. */
  function Left(pc: nat): nat {
    if pc < 256 || pc > 0xffff then 0 else 0x1_0000 - pc
  }

  lemma LeftAfter(code: nat, pc: nat)
    requires 256 <= pc < 0x1_0000
    ensures Left(PcAfter(code, pc)) < Left(pc) && PcAfter(code, pc) < 0x1_0000
  {
    hide Uxn.OpOf;
    hide Uxn.Flag2;
  }

  /** The registers of a jump to a popped target, ready for the jump: target and condition, if
      there is one.  JSR has its return address pushed, and the caches are cleared. */
  function TargetPopped(e: Emitter, pc: nat): (Emitter, Reg, Reg) {
    var r, short, op := Uxn.FlagR(e.opcode), Uxn.Flag2(e.opcode), Uxn.OpOf(e.opcode);
    var (e1, t) := e.CachePop(short, r);
    if op.Jcn? then var (e2, c) := e1.CachePop(false, r); (e2.ClearBoth(), t, c)
    else if op.Jsr? then (PushReturn(e1, pc, !r).ClearBoth(), t, 0)
    else (e1.ClearBoth(), t, 0)
  }

  /** The emitter after an opcode compiled into "inner", which starts with no code, has been put
      under the condition that the target is zero, and under that of the jump itself. */
  function Guarded(e: Emitter, inner: Emitter, target: Reg, condition: Reg, conditional: bool): Emitter {
    var cleared := inner.ClearBoth();
    var guarded := IfEqual(target, 0, cleared.code);
    cleared.(code := e.code + [if conditional then UnlessLowByteZero(condition, [guarded]) else guarded])
  }

  /** True for the opcodes after which the block ends. */
  predicate Ends(t: Tracker, code: nat) {
    var op := Uxn.OpOf(code);
    op.Brk? || op.Jmi? || (op.Jmp? && !Skips(t, code))
  }

  /** Compiles the opcode at the current address.  A jump by a truth value compiles the next
      opcode under a condition: finalising there does not end the block. */
  function NextOpcode(c: Ctx, rom: Uxn.Bytes): (c': Ctx)
    requires c.pc < 0x1_0000
    ensures c'.pc < 0x1_0000
    ensures c.pc >= 256 ==> Left(c'.pc) < Left(c.pc)
    ensures c.pc < 256 ==> c'.done && c'.pc == c.pc
    decreases Left(c.pc), if c.pc < 256 then 0 else 1
  {
    if c.pc < 256 then
      c.(e := Append(c.e.ClearBoth(), [Leave(Imm(c.pc))]), done := true)
    else
      var code := Uxn.Peek(rom, c.pc);
      var op, after := Uxn.OpOf(code), PcAfter(code, c.pc);
      LeftAfter(code, c.pc);
      var t := TrackAt(c.t, rom, c.pc);
      if Skips(c.t, code) then
        var (e, target, condition) := TargetPopped(c.e.Begin(code), after);
        var inner := NextOpcode(Ctx(e.(code := []), t, after, false), rom);
        Ctx(Guarded(e, inner.e, target, condition, op.Jcn?), inner.t, inner.pc, false)
      else Ctx(EmitAt(c.e, c.t, rom, c.pc), t, after, Ends(c.t, code))
  }

  /** Compiles until the block ends.  The address rises with every opcode, or wraps around to
      the zero page, where the next step ends the block. */
  function Compile(c: Ctx, rom: Uxn.Bytes): Ctx
    requires c.pc < 0x1_0000
    decreases Left(c.pc), if c.done then 0 else if c.pc < 256 then 1 else 2
  {
    if c.done then c else Compile(NextOpcode(c, rom), rom)
  }

  function Start(entry: nat): Ctx {
    Ctx(EMPTY, NoFacts(), entry, false)
  }

  /** However the block ends, compilation has ended. */
  lemma {:induction false} CompileEnds(c: Ctx, rom: Uxn.Bytes)
    requires c.pc < 0x1_0000
    ensures Compile(c, rom).done
    decreases Left(c.pc), if c.done then 0 else if c.pc < 256 then 1 else 2
  {
    hide NextOpcode;
    if !c.done {
      CompileEnds(NextOpcode(c, rom), rom);
    }
  }

  /** The block ends exactly where the interpreter can neither go on behind the opcode nor come
      back to behind it: at BRK, at jumps that are always taken, and at the zero page. */
  lemma EndsExactly(c: Ctx, rom: Uxn.Bytes)
    requires c.pc < 0x1_0000 && !c.done
    ensures var op := Uxn.OpOf(Uxn.Peek(rom, c.pc));
      NextOpcode(c, rom).done <==> c.pc < 256 || op.Brk? || op.Jmi? || (op.Jmp? && !Skips(c.t, Uxn.Peek(rom, c.pc)))
    ensures forall vm: Uxn.Vm :: 256 <= c.pc == vm.pc && Faithful(c.t, vm, rom) && NextOpcode(c, rom).done ==> !FallsThrough(vm, rom)
  {
    hide EmitAt;
    hide TrackAt;
    hide TargetPopped;
    hide Guarded;
    hide PcAfter;
    hide Inside;
    hide ImmediateTarget;
    hide TopValue;
    hide Below;
    hide Emitter.Begin;
    hide Emitter.ClearBoth;
    hide Uxn.OpOf;
    hide Uxn.Step;
  }

  // ---- no assertion fails ----

  lemma ClearBothInv(e: Emitter, held: multiset<Reg>)
    requires Inv(e, held)
    ensures Inv(e.ClearBoth(), held) && SameFrame(e, e.ClearBoth())
    ensures e.ClearBoth().wcache == [] && e.ClearBoth().rcache == []
  {
    hide Inv;
    hide Emitter.Clear;
    ClearInv(e, held, false);
    ClearInv(e.Clear(false), held, true);
  }

  lemma JumpToInv(e: Emitter, held: multiset<Reg>, c: Reg, t: Reg, short: bool, site: Calls.Site, pc: nat)
    requires Inv(e, held)
    ensures Inv(JumpTo(e, t, short, site, pc), held) && Inv(JumpUnlessZero(e, c, t, short, site, pc), held)
  {
    hide Inv;
    hide Emitter.ClearBoth;
    hide Tail;
    ClearBothInv(e, held);
    BooksInv(e.ClearBoth(), JumpTo(e, t, short, site, pc), held);
    BooksInv(e.ClearBoth(), JumpUnlessZero(e, c, t, short, site, pc), held);
  }

  lemma PushReturnInv(e: Emitter, held: multiset<Reg>, pc: nat, to: bool) returns (held': multiset<Reg>)
    requires Inv(e, held) && |held| < NUM_OPS
    ensures Inv(PushReturn(e, pc, to), held')
  {
    hide Inv;
    hide Emitter.Alloc;
    hide Emitter.Push;
    AllocInv(e, held);
    var (e1, p) := e.Alloc();
    held' := held + multiset{p};
    var e2 := e1.Emit(Op1(MOV_U16, R(p), Imm(pc)));
    BooksInv(e1, e2, held');
    PushInv(e2, held', p, true, to);
  }

  lemma TmpInv(e: Emitter, held: multiset<Reg>, imm: nat)
    requires Inv(e, held)
    ensures Inv(e.Emit(Op1(MOV_U16, R(TMP), Imm(imm))), held)
  {
    hide Inv;
    BooksInv(e, e.Emit(Op1(MOV_U16, R(TMP), Imm(imm))), held);
  }

  lemma JumpOpInv(e: Emitter, held: multiset<Reg>, pc: nat, site: Calls.Site, imm: nat) returns (held': multiset<Reg>)
    requires Inv(e, held) && |held| <= 2
    ensures Inv(JumpOp(e, pc, site, imm), held')
  {
    hide Inv;
    hide Emitter.ClearBoth;
    hide Emitter.CachePop;
    hide JumpTo;
    hide JumpUnlessZero;
    hide PushReturn;
    hide Uxn.OpOf;
    var r, short := Uxn.FlagR(e.opcode), Uxn.Flag2(e.opcode);
    hide Uxn.FlagR;
    hide Uxn.Flag2;
    var tmp := e.Emit(Op1(MOV_U16, R(TMP), Imm(imm)));
    TmpInv(e, held, imm);
    held' := held;
    match Uxn.OpOf(e.opcode)
    case Jmp =>
      PopInv(e, held, short, r);
      var (e1, t) := e.CachePop(short, r);
      held' := held + multiset{t};
      JumpToInv(e1, held', t, t, short, site, pc);
    case Jcn =>
      Pop2Inv(e, held, short, false, r);
      var (e1, t) := e.CachePop(short, r);
      var (e2, c) := e1.CachePop(false, r);
      held' := held + multiset{t} + multiset{c};
      JumpToInv(e2, held', c, t, short, site, pc);
    case Jsr =>
      PopInv(e, held, short, r);
      var (e1, t) := e.CachePop(short, r);
      held' := PushReturnInv(e1, held + multiset{t}, pc, !r);
      JumpToInv(PushReturn(e1, pc, !r), held', t, t, short, site, pc);
    case Jci =>
      PopInv(e, held, false, false);
      var (e1, c) := e.CachePop(false, false);
      held' := held + multiset{c};
      TmpInv(e1, held', imm);
      JumpToInv(e1.Emit(Op1(MOV_U16, R(TMP), Imm(imm))), held', c, TMP, true, site, pc);
    case Jmi => JumpToInv(tmp, held, TMP, TMP, true, site, pc);
    case Jsi =>
      held' := PushReturnInv(tmp, held, pc, true);
      JumpToInv(PushReturn(tmp, pc, true), held', TMP, TMP, true, site, pc);
    case Brk =>
      ClearBothInv(e, held);
      BooksInv(e.ClearBoth(), Append(e.ClearBoth(), [Leave(Imm(Calls.BREAK))]), held);
    case _ =>
  }

  lemma AskingInv(e: Emitter, held: multiset<Reg>, isInput: bool, short: bool, port: Reg)
    requires Inv(e, held)
    ensures Inv(Asking(e, isInput, short, port), held)
  {
    hide Inv;
    hide Emitter.ClearBoth;
    ClearBothInv(e, held);
    BooksInv(e.ClearBoth(), Asking(e, isInput, short, port), held);
  }

  lemma DeviceOpInv(e: Emitter, held: multiset<Reg>) returns (held': multiset<Reg>)
    requires Inv(e, held) && |held| <= 2
    ensures Inv(DeviceOp(e), held')
  {
    hide Inv;
    hide Asking;
    hide ToPage;
    hide Emitter.CachePop;
    hide Emitter.Alloc;
    hide Emitter.Push;
    hide Uxn.OpOf;
    var r, short := Uxn.FlagR(e.opcode), Uxn.Flag2(e.opcode);
    PopInv(e, held, false, r);
    var (e1, port) := e.CachePop(false, r);
    held' := held + multiset{port};
    if Uxn.OpOf(e.opcode).Dei? {
      AllocInv(e1, held');
      var (e2, result) := e1.Alloc();
      held' := held' + multiset{result};
      AskingInv(e2, held', true, short, port);
      var e3 := Asking(e2, true, short, port);
      BooksInv(e3, e3.Emit(Op1(MOV, R(result), R(MEM_BASE))), held');
      PushInv(e3.Emit(Op1(MOV, R(result), R(MEM_BASE))), held', result, short, r);
    } else {
      PopInv(e1, held', short, r);
      var (e2, v) := e1.CachePop(short, r);
      held' := held' + multiset{v};
      ToPageGrows(e2, port, v, short);
      BooksInv(e2, ToPage(e2, port, v, short), held');
      AskingInv(ToPage(e2, port, v, short), held', false, short, port);
    }
  }

  lemma TargetPoppedInv(e: Emitter, held: multiset<Reg>, pc: nat) returns (held': multiset<Reg>)
    requires Inv(e, held) && |held| <= 2
    ensures Inv(TargetPopped(e, pc).0, held')
  {
    hide Inv;
    hide Emitter.ClearBoth;
    hide Emitter.CachePop;
    hide PushReturn;
    hide Uxn.OpOf;
    var r, short, op := Uxn.FlagR(e.opcode), Uxn.Flag2(e.opcode), Uxn.OpOf(e.opcode);
    PopInv(e, held, short, r);
    var (e1, t) := e.CachePop(short, r);
    held' := held + multiset{t};
    if op.Jcn? {
      PopInv(e1, held', false, r);
      var (e2, c) := e1.CachePop(false, r);
      held' := held' + multiset{c};
      ClearBothInv(e2, held');
    } else if op.Jsr? {
      held' := PushReturnInv(e1, held', pc, !r);
      ClearBothInv(PushReturn(e1, pc, !r), held');
    } else {
      ClearBothInv(e1, held');
    }
  }

  lemma EmitAtInv(e: Emitter, held: multiset<Reg>, t: Tracker, rom: Uxn.Bytes, pc: nat) returns (held': multiset<Reg>)
    requires Inv(e, held)
    ensures Inv(EmitAt(e, t, rom, pc), held')
  {
    hide Inv;
    hide Emitter.Begin;
    hide Emitter.Plain;
    hide JumpOp;
    hide DeviceOp;
    hide Uxn.OpOf;
    var code := Uxn.Peek(rom, pc);
    held' := BeginInv(e, code, held);
    if IsJump(Uxn.OpOf(code)) {
      held' := JumpOpInv(e.Begin(code), held', PcAfter(code, pc), SiteAt(t, rom, code, pc), ImmediateTarget(rom, code, pc));
    } else if Uxn.IsDevice(Uxn.OpOf(code)) {
      held' := DeviceOpInv(e.Begin(code), held');
    } else {
      held' := PlainInv(e.Begin(code), (pc + 1) % 0x1_0000, held');
    }
  }

  lemma {:induction false} NextOpcodeInv(c: Ctx, rom: Uxn.Bytes, held: multiset<Reg>) returns (held': multiset<Reg>)
    requires c.pc < 0x1_0000 && Inv(c.e, held)
    ensures Inv(NextOpcode(c, rom).e, held')
    decreases Left(c.pc)
  {
    hide Inv;
    hide Emitter.Begin;
    hide Emitter.ClearBoth;
    hide EmitAt;
    hide TargetPopped;
    hide TrackAt;
    hide Skips;
    hide Uxn.OpOf;
    held' := held;
    if c.pc < 256 {
      ClearBothInv(c.e, held);
      BooksInv(c.e.ClearBoth(), Append(c.e.ClearBoth(), [Leave(Imm(c.pc))]), held);
    } else {
      var code := Uxn.Peek(rom, c.pc);
      var op, after := Uxn.OpOf(code), PcAfter(code, c.pc);
      LeftAfter(code, c.pc);
      hide PcAfter;
      if Skips(c.t, code) {
        held' := SkipInv(c, rom, held, code, after);
      } else {
        held' := EmitAtInv(c.e, held, c.t, rom, c.pc);
      }
    }
  }

  /** The opcode compiled under a condition. */
  lemma {:induction false} SkipInv(c: Ctx, rom: Uxn.Bytes, held: multiset<Reg>, code: nat, after: nat) returns (held': multiset<Reg>)
    requires 256 <= c.pc < 0x1_0000 && Inv(c.e, held) && after < 0x1_0000 && Left(after) < Left(c.pc)
    ensures var (e, target, condition) := TargetPopped(c.e.Begin(code), after);
      var inner := NextOpcode(Ctx(e.(code := []), TrackAt(c.t, rom, c.pc), after, false), rom);
      Inv(Guarded(e, inner.e, target, condition, Uxn.OpOf(code).Jcn?), held')
    decreases Left(c.pc), 0
  {
    hide Inv;
    hide Emitter.Begin;
    hide Emitter.ClearBoth;
    hide TargetPopped;
    hide TrackAt;
    hide NextOpcode;
    held' := BeginInv(c.e, code, held);
    held' := TargetPoppedInv(c.e.Begin(code), held', after);
    var (e, target, condition) := TargetPopped(c.e.Begin(code), after);
    BooksInv(e, e.(code := []), held');
    var inner := NextOpcode(Ctx(e.(code := []), TrackAt(c.t, rom, c.pc), after, false), rom);
    held' := NextOpcodeInv(Ctx(e.(code := []), TrackAt(c.t, rom, c.pc), after, false), rom, held');
    ClearBothInv(inner.e, held');
    BooksInv(inner.e.ClearBoth(), Guarded(e, inner.e, target, condition, Uxn.OpOf(code).Jcn?), held');
  }

  lemma {:induction false} CompileInv(c: Ctx, rom: Uxn.Bytes, held: multiset<Reg>)
    requires c.pc < 0x1_0000 && Inv(c.e, held)
    ensures !Compile(c, rom).e.failed
    decreases Left(c.pc), if c.done then 0 else if c.pc < 256 then 1 else 2
  {
    if !c.done {
      hide Inv;
      hide NextOpcode;
      var held' := NextOpcodeInv(c, rom, held);
      CompileInv(NextOpcode(c, rom), rom, held');
    }
  }

  /** Whatever the memory holds and wherever a block starts, compiling it comes to an end, and
      no assertion of the allocator or the caches fails on the way. */
  lemma EveryBlockCompiles(rom: Uxn.Bytes, entry: nat)
    requires entry < 0x1_0000
    ensures var c := Compile(Start(entry), rom); c.done && !c.e.failed
  {
    assert Inv(EMPTY, multiset{});
    CompileEnds(Start(entry), rom);
    CompileInv(Start(entry), rom, multiset{});
  }

  // ---- after a call ----

  lemma JumpToStarts(e: Emitter, held: multiset<Reg>, t: Reg, short: bool, site: Calls.Site, pc: nat)
    requires Inv(e, held) && site.Constant? && site.ret != 0
    ensures Starts(JumpTo(e, t, short, site, pc).(code := []), held)
  {
    hide Inv;
    hide Emitter.ClearBoth;
    hide Tail;
    ClearBothInv(e, held);
    BooksInv(e.ClearBoth(), JumpTo(e, t, short, site, pc).(code := []), held);
  }

  /** Where a native call returns, the emitter is as at the start of a block: the correctness of
      stretches applies to the code that follows a call, whatever the callee has done. */
  lemma CallResumes(e: Emitter, held: multiset<Reg>, t: Tracker, rom: Uxn.Bytes, pc: nat) returns (held': multiset<Reg>)
    requires Inv(e, held)
    requires var op := Uxn.OpOf(Uxn.Peek(rom, pc)); op.Jsr? || op.Jsi?
    requires ReturnAddress(SiteAt(t, rom, Uxn.Peek(rom, pc), pc)) != 0
    ensures Starts(EmitAt(e, t, rom, pc).(code := []), held')
  {
    hide Inv;
    hide Starts;
    hide Emitter.Begin;
    hide Emitter.CachePop;
    hide JumpTo;
    hide PushReturn;
    hide SiteAt;
    hide Uxn.OpOf;
    var code := Uxn.Peek(rom, pc);
    var after, site, imm := PcAfter(code, pc), SiteAt(t, rom, code, pc), ImmediateTarget(rom, code, pc);
    hide PcAfter;
    hide ImmediateTarget;
    var held1 := BeginInv(e, code, held);
    var e1 := e.Begin(code);
    var r, short := Uxn.FlagR(e1.opcode), Uxn.Flag2(e1.opcode);
    hide Uxn.FlagR;
    hide Uxn.Flag2;
    if Uxn.OpOf(code).Jsr? {
      PopInv(e1, held1, short, r);
      var (e2, x) := e1.CachePop(short, r);
      held' := PushReturnInv(e2, held1 + multiset{x}, after, !r);
      JumpToStarts(PushReturn(e2, after, !r), held', x, short, site, after);
    } else {
      TmpInv(e1, held1, imm);
      var e2 := e1.Emit(Op1(MOV_U16, R(TMP), Imm(imm)));
      held' := PushReturnInv(e2, held1, after, true);
      JumpToStarts(PushReturn(e2, after, true), held', TMP, true, site, after);
    }
  }

  // ---- stretches are what the loop emits ----

  /** "n" rounds of the compile loop. */
  function Rounds(c: Ctx, rom: Uxn.Bytes, n: nat): (c': Ctx)
    requires c.pc < 0x1_0000
    ensures c'.pc < 0x1_0000
    decreases n
  {
    if n == 0 || c.done then c else Rounds(NextOpcode(c, rom), rom, n - 1)
  }

  lemma {:induction false} CompileRounds(c: Ctx, rom: Uxn.Bytes, n: nat)
    requires c.pc < 0x1_0000
    ensures Compile(Rounds(c, rom, n), rom) == Compile(c, rom)
    decreases n
  {
    hide NextOpcode;
    if n > 0 && !c.done {
      CompileRounds(NextOpcode(c, rom), rom, n - 1);
    }
  }

  /** Where the reference goes when it falls through. */
  lemma FallsTo(t: Tracker, vm: Uxn.Vm, rom: Uxn.Bytes)
    requires Faithful(t, vm, rom) && FallsThrough(vm, rom)
    ensures Uxn.Step(vm).value.pc == PcAfter(Uxn.Peek(rom, vm.pc), vm.pc)
  {
    var code := Uxn.Peek(rom, vm.pc);
    var op, short, r := Uxn.OpOf(code), Uxn.Flag2(code), Uxn.FlagR(code);
    if IsPlain(op) {
      StepPc(vm, code);
    } else if Uxn.IsDevice(op) {
      DevicePc(vm, code);
    } else {
      hide NextPc;
      hide Uxn.Perform;
      hide Inside;
      NotTaken(vm, code);
    }
  }

  lemma DevicePc(vm: Uxn.Vm, code: nat)
    requires Uxn.IsDevice(Uxn.OpOf(code)) && Uxn.Perform(vm, code, (vm.pc + 1) % 0x1_0000).Some? && vm.pc < 0x1_0000
    ensures Uxn.Perform(vm, code, (vm.pc + 1) % 0x1_0000).value.pc == PcAfter(code, vm.pc)
  {
    hide Uxn.OpOf;
    hide Uxn.PopAll;
    hide Uxn.Exchanged;
  }

  lemma NotTaken(vm: Uxn.Vm, code: nat)
    requires Uxn.Perform(vm, code, (vm.pc + 1) % 0x1_0000).Some? && code < 256 && vm.pc < 0x1_0000
    requires var op := Uxn.OpOf(code);
      || (op.Jcn? && TopValue(Below(vm.Stack(Uxn.FlagR(code)), Uxn.Flag2(code)), false) == 0)
      || (op.Jci? && TopValue(vm.wst, false) == 0)
    ensures Uxn.Perform(vm, code, (vm.pc + 1) % 0x1_0000).value.pc == PcAfter(code, vm.pc)
  {
    var op, short, r := Uxn.OpOf(code), Uxn.Flag2(code), Uxn.FlagR(code);
    if op.Jci? {
      NoFlags(code);
    }
    hide Uxn.OpOf;
    hide Uxn.FlagR;
    hide Uxn.Flag2;
    hide Uxn.FlagK;
    hide TopValue;
    hide Below;
    hide Uxn.Fetch;
    hide Uxn.JumpTarget;
    var (rest, args) := Uxn.PopAll(vm.Stack(r), Uxn.Shape(op, short)).value;
    TopOperands(vm.Stack(r), short, rest, args);
    TopOperands(vm.Stack(r), false, rest, args);
    hide Uxn.PopAll;
    assert ((vm.pc + 1) % 0x1_0000 + 2) % 0x1_0000 == (vm.pc + 3) % 0x1_0000;
  }

  /** As long as the reference falls through, the loop emits the stretch opcode by opcode. */
  lemma {:induction false} RoundsEmitStretch(c: Ctx, vm: Uxn.Vm, rom: Uxn.Bytes, n: nat)
    requires !c.done && c.pc == vm.pc < 0x1_0000 && PassesThrough(c.t, vm, rom, n)
    ensures RunReference(vm, n).pc < 0x1_0000
    ensures Rounds(c, rom, n) ==
      Ctx(StretchEmitted(c.e, c.t, rom, vm.pc, n), TrackerAt(c.t, rom, vm.pc, n), RunReference(vm, n).pc, false)
    decreases n
  {
    hide EmitAt;
    hide TrackAt;
    hide PcAfter;
    hide NextOpcode;
    hide Uxn.Step;
    if n > 0 {
      FallsTo(c.t, vm, rom);
      LeftAfter(Uxn.Peek(rom, vm.pc), vm.pc);
      FallingRound(c, vm, rom);
      FaithfulNext(c.t, vm, rom);
      hide Faithful;
      hide FallsThrough;
      RoundsEmitStretch(NextOpcode(c, rom), Uxn.Step(vm).value, rom, n - 1);
    }
  }

  lemma FaithfulNext(t: Tracker, vm: Uxn.Vm, rom: Uxn.Bytes)
    requires Faithful(t, vm, rom)
    ensures Uxn.Step(vm).Some? && 256 <= vm.pc < 0x1_0000
  {
    hide Uxn.Step;
  }

  lemma FallingRound(c: Ctx, vm: Uxn.Vm, rom: Uxn.Bytes)
    requires !c.done && c.pc == vm.pc < 0x1_0000 && Faithful(c.t, vm, rom) && FallsThrough(vm, rom)
    ensures NextOpcode(c, rom) == Ctx(EmitAt(c.e, c.t, rom, vm.pc), TrackAt(c.t, rom, vm.pc), PcAfter(Uxn.Peek(rom, vm.pc), vm.pc), false)
  {
    hide EmitAt;
    hide TrackAt;
    hide PcAfter;
    hide Uxn.Step;
    hide Uxn.OpOf;
    hide Inside;
    hide Skips;
  }

  /** The code the loop has emitted when the reference leaves a block that starts at its address
      takes every machine that holds the reference's state to where the reference goes. */
  lemma CompiledBlockCorrect(m: Machine, vm: Uxn.Vm, rom: Uxn.Bytes, n: nat)
    requires Compiler.Holds(m, vm) && vm.pc < 0x1_0000 && PassesThrough(NoFacts(), vm, rom, n)
    requires var vmn := RunReference(vm, n); Faithful(TrackerAt(NoFacts(), rom, vm.pc, n), vmn, rom) && !FallsThrough(vmn, rom)
    requires !Rounds(Start(vm.pc), rom, n + 1).e.Hazard()
    ensures var c, vmn := Rounds(Start(vm.pc), rom, n), RunReference(vm, n);
      Arrives(m, vm, CacheRuns.Run(Rounds(Start(vm.pc), rom, n + 1).e, m), RunReference(vm, n + 1),
        SiteAt(c.t, rom, Uxn.Peek(rom, vmn.pc), vmn.pc))
  {
    EmptyStarts();
    hide Arrives;
    hide Faithful;
    hide FallsThrough;
    hide PassesThrough;
    hide Rounds;
    hide StretchEmitted;
    hide TrackerAt;
    hide Starts;
    hide Compiler.Holds;
    hide NoFacts;
    hide RunReference;
    hide SiteAt;
    hide CacheRuns.Run;
    RoundsEmitStretch(Start(vm.pc), vm, rom, n);
    LastRound(Start(vm.pc), vm, rom, n);
    StretchCorrect(EMPTY, multiset{}, NoFacts(), m, vm, rom, n);
  }

  lemma EmptyStarts()
    ensures Starts(EMPTY, multiset{})
  {
  }

  lemma {:induction false} LastRound(c: Ctx, vm: Uxn.Vm, rom: Uxn.Bytes, n: nat)
    requires !c.done && c.pc == vm.pc < 0x1_0000 && PassesThrough(c.t, vm, rom, n)
    requires Faithful(TrackerAt(c.t, rom, vm.pc, n), RunReference(vm, n), rom)
    ensures Rounds(c, rom, n + 1).e == StretchEmitted(c.e, c.t, rom, vm.pc, n + 1)
    decreases n
  {
    hide EmitAt;
    hide TrackAt;
    hide PcAfter;
    hide Uxn.Step;
    if n == 0 {
      assert Rounds(c, rom, 1) == Rounds(NextOpcode(c, rom), rom, 0);
    } else {
      hide NextOpcode;
      hide Faithful;
      hide FallsThrough;
      FallsTo(c.t, vm, rom);
      LeftAfter(Uxn.Peek(rom, vm.pc), vm.pc);
      FallingRound(c, vm, rom);
      FaithfulNext(c.t, vm, rom);
      LastRound(NextOpcode(c, rom), Uxn.Step(vm).value, rom, n - 1);
    }
  }
}
