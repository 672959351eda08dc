/** Jumps by a truth value, which skip the next opcode in the emitted code: where the reference
    goes, where the code goes, and exactly when they agree. */
module Skipping {
  import opened Words
  import opened Target
  import opened Emission
  import opened Allocator
  import opened CacheRuns
  import opened CacheSound
  import opened Popping
  import opened OpStart
  import opened OpSound
  import opened Compiler
  import opened Facts
  import opened FactsSound
  import opened Jumps
  import opened Blocks
  import opened CompileLoop
  import PopSound
  import opened Values
  import Uxn

  // ---- the next opcode under a condition ----

  /** True when the emitted code runs the opcode that follows. */
  predicate RunsNext(op: Uxn.Op, x: nat, y: nat) {
    x == 0 && (op.Jcn? ==> y != 0)
  }

  lemma IfEqualRuns(t: Reg, v: nat, body: seq<Instr>, m: Machine)
    requires m.exit == Running && t < |m.regs|
    ensures Step(IfEqual(t, v, body), m) == if m.regs[t] == v then Exec(body, m) else m
  {
    hide Exec;
  }

  lemma GuardedRuns(e: Emitter, inner: Emitter, t: Reg, c: Reg, conditional: bool, m: Machine)
    requires Run(e, m).exit == Running && t < |Run(e, m).regs| && c < |Run(e, m).regs|
    ensures var m1 := Run(e, m);
      Run(Guarded(e, inner, t, c, conditional), m) ==
        if m1.regs[t] == 0 && (conditional ==> m1.regs[c] % 256 != 0) then Exec(inner.ClearBoth().code, m1) else m1
  {
    hide Exec;
    hide Step;
    hide Emitter.ClearBoth;
    var m1, body := Run(e, m), inner.ClearBoth().code;
    var guarded := IfEqual(t, 0, body);
    IfEqualRuns(t, 0, body, m1);
    if conditional {
      ExecSnoc(e.code, UnlessLowByteZero(c, [guarded]), m);
      UnlessRuns(c, [guarded], m1);
      ExecOne(guarded, m1);
    } else {
      ExecSnoc(e.code, guarded, m);
    }
  }

  // ---- the state before the next opcode ----

  /** What JMP, JCN and JSR do by a byte: "pc" is the address after the opcode. */
  function ByteEffect(op: Uxn.Op, pc: nat, x: nat, y: nat, ram: Uxn.Bytes): Uxn.Effect {
    var to := Uxn.Displaced(pc, x);
    match op
    case Jcn => Uxn.Effect([], [], ram, if y != 0 then to else pc)
    case Jsr => Uxn.Effect([], Uxn.BytesOf(pc, true), ram, to)
    case _ => Uxn.Effect([], [], ram, to)
  }

  lemma ByteAct(op: Uxn.Op, pc: nat, args: seq<nat>, ram: Uxn.Bytes)
    requires PopsTarget(op) && |args| == |Uxn.Shape(op, false)|
    ensures Uxn.Act(op, false, Uxn.Nth(args, 0), Uxn.Nth(args, 1), Uxn.Nth(args, 2), ram, pc)
      == ByteEffect(op, pc, args[0], Uxn.Nth(args, 1), ram)
  {
    hide Uxn.Displaced;
    hide Uxn.Fetch;
    hide Uxn.BytesOf;
  }

  /** The emitter with the operands of the jump popped. */
  ghost predicate TargetHeld(e: Emitter, t: Reg, c: Reg, op: Uxn.Op, m: Machine, s: Snap, held: multiset<Reg>, vm0: Uxn.Vm, vm': Uxn.Vm, x: nat, y: nat) {
    && Good(e, m, s, held) && Mirrors(s, vm') && SameOrigins(StartSnap(m, vm0), s)
    && t in s.vals && s.vals[t] == x && (op.Jcn? ==> c in s.vals && s.vals[c] == y < 256)
  }

  /** The operands of TargetPopped before the caches are cleared. */
  function Operands(e: Emitter, pc: nat): (Emitter, Reg, Reg) {
    var r, op := Uxn.FlagR(e.opcode), Uxn.OpOf(e.opcode);
    var (e1, t) := e.CachePop(false, r);
    if op.Jcn? then var (e2, c) := e1.CachePop(false, r); (e2, t, c)
    else if op.Jsr? then (PushReturn(e1, pc, !r), t, 0)
    else (e1, t, 0)
  }

  lemma PoppedOperands(e: Emitter, pc: nat)
    requires !Uxn.Flag2(e.opcode)
    ensures var (e1, t, c) := Operands(e, pc); TargetPopped(e, pc) == (e1.ClearBoth(), t, c)
  {
    hide Emitter.CachePop;
    hide Emitter.ClearBoth;
    hide PushReturn;
    hide Uxn.OpOf;
  }

  lemma JmpHeld(e: Emitter, m: Machine, s: Snap, held: multiset<Reg>, r: bool, k: bool, rest: Uxn.Bytes, args: seq<nat>, pc: nat, vm0: Uxn.Vm, vm': Uxn.Vm)
    returns (s': Snap, held': multiset<Reg>)
    requires Started(e, m, s, held, r, k) && SameOrigins(StartSnap(m, vm0), s) && |args| == 1
    requires Applied(Uxn.Jmp, false, s, r, k, rest, args, vm', ByteEffect(Uxn.Jmp, pc, args[0], 0, s.ram))
    requires !e.CachePop(false, r).0.Hazard()
    ensures var (e1, t) := e.CachePop(false, r); TargetHeld(e1, t, 0, Uxn.Jmp, m, s', held', vm0, vm', args[0], 0)
  {
    hide Started;
    hide Good;
    hide InPops;
    hide Emitter.CachePop;
    hide Uxn.Displaced;
    PopOne(s.Stack(r), false);
    s', held' := PopStep1(e, m, s, held, false, r, k);
    RestMirrors(s, r, k, rest, vm', ByteEffect(Uxn.Jmp, pc, args[0], 0, s.ram));
  }

  lemma JcnHeld(e: Emitter, m: Machine, s: Snap, held: multiset<Reg>, r: bool, k: bool, rest: Uxn.Bytes, args: seq<nat>, pc: nat, vm0: Uxn.Vm, vm': Uxn.Vm)
    returns (s': Snap, held': multiset<Reg>)
    requires Started(e, m, s, held, r, k) && SameOrigins(StartSnap(m, vm0), s) && |args| == 2
    requires Applied(Uxn.Jcn, false, s, r, k, rest, args, vm', ByteEffect(Uxn.Jcn, pc, args[0], args[1], s.ram))
    requires !e.CachePop(false, r).0.CachePop(false, r).0.Hazard()
    ensures var (e1, t) := e.CachePop(false, r); var (e2, c) := e1.CachePop(false, r);
      TargetHeld(e2, t, c, Uxn.Jcn, m, s', held', vm0, vm', args[0], args[1])
  {
    hide Started;
    hide Good;
    hide InPops;
    hide Emitter.CachePop;
    hide Uxn.Displaced;
    PopTwo(s.Stack(r), false, false);
    s', held' := PopStep2(e, m, s, held, false, false, r, k);
    RestMirrors(s, r, k, rest, vm', ByteEffect(Uxn.Jcn, pc, args[0], args[1], s.ram));
  }

  lemma JsrHeld(e: Emitter, m: Machine, s: Snap, held: multiset<Reg>, r: bool, k: bool, rest: Uxn.Bytes, args: seq<nat>, pc: nat, vm0: Uxn.Vm, vm': Uxn.Vm)
    returns (s': Snap, held': multiset<Reg>)
    requires Started(e, m, s, held, r, k) && SameOrigins(StartSnap(m, vm0), s) && |args| == 1 && pc < 0x1_0000
    requires Applied(Uxn.Jsr, false, s, r, k, rest, args, vm', ByteEffect(Uxn.Jsr, pc, args[0], 0, s.ram))
    requires !PushReturn(e.CachePop(false, r).0, pc, !r).Hazard()
    ensures var (e1, t) := e.CachePop(false, r);
      TargetHeld(PushReturn(e1, pc, !r), t, 0, Uxn.Jsr, m, s', held', vm0, vm', args[0], 0)
  {
    hide Started;
    hide Good;
    hide InPops;
    hide Emitter.CachePop;
    hide Emitter.Alloc;
    hide Uxn.Displaced;
    PopOne(s.Stack(r), false);
    var (e1, t) := e.CachePop(false, r);
    PushReturnGrows(e1, pc, !r);
    hide PushReturn;
    var s1, held1 := PopStep1(e, m, s, held, false, r, k);
    assert |held1| < NUM_OPS by { HeldFew(e, m, s, held, r, k); }
    s', held' := PushReturnGood(e1, pc, !r, m, s1, held1);
    assert Mirrors(s', vm') by { ReturnMirrors(s, r, k, rest, pc, vm', s', Uxn.Displaced(pc, args[0])); }
  }

  /** What the jump finds on its stack. */
  function TargetByte(vm: Uxn.Vm, code: nat): nat {
    TopValue(vm.Stack(Uxn.FlagR(code)), false)
  }

  function ConditionByte(vm: Uxn.Vm, code: nat): nat {
    TopValue(Below(vm.Stack(Uxn.FlagR(code)), false), false)
  }

  /** JMP, JCN or JSR by a byte, about to be compiled and to be executed. */
  ghost predicate ByteJump(e: Emitter, m: Machine, s: Snap, held: multiset<Reg>, vm0: Uxn.Vm, vm: Uxn.Vm, code: nat, vm': Uxn.Vm) {
    && Good(e, m, s, held) && Mirrors(s, vm) && SameOrigins(StartSnap(m, vm0), s) && vm.pc < 0x1_0000
    && PopsTarget(Uxn.OpOf(code)) && !Uxn.Flag2(code)
    && Uxn.Perform(vm, code, (vm.pc + 1) % 0x1_0000) == Uxn.Some(vm')
  }

  lemma ByteApplied(vm: Uxn.Vm, code: nat, pc: nat, s: Snap) returns (rest: Uxn.Bytes, args: seq<nat>)
    requires Mirrors(s, vm) && Uxn.Perform(vm, code, pc).Some? && PopsTarget(Uxn.OpOf(code)) && !Uxn.Flag2(code)
    ensures var op, r, k := Uxn.OpOf(code), Uxn.FlagR(code), Uxn.FlagK(code);
      && |args| == (if op.Jcn? then 2 else 1) && args[0] == TargetByte(vm, code) && (op.Jcn? ==> args[1] == ConditionByte(vm, code))
      && Applied(op, false, s, r, k, rest, args, Uxn.Perform(vm, code, pc).value, ByteEffect(op, pc, args[0], Uxn.Nth(args, 1), s.ram))
  {
    hide Uxn.Perform;
    hide Uxn.Act;
    hide Uxn.OpOf;
    hide Uxn.Flag2;
    hide Uxn.FlagR;
    hide Uxn.FlagK;
    hide TopValue;
    hide Below;
    hide ByteEffect;
    var eff: Uxn.Effect;
    rest, args, eff := StepApplied(vm, code, pc, s);
    ByteAct(Uxn.OpOf(code), pc, args, vm.ram);
    TopOperands(vm.Stack(Uxn.FlagR(code)), false, rest, args);
    hide Uxn.PopAll;
  }

  lemma TargetGood(e: Emitter, m: Machine, s: Snap, held: multiset<Reg>, vm0: Uxn.Vm, vm: Uxn.Vm, code: nat, vm': Uxn.Vm)
    returns (s': Snap, held': multiset<Reg>)
    requires ByteJump(e, m, s, held, vm0, vm, code, vm') && !Operands(e.Begin(code), (vm.pc + 1) % 0x1_0000).0.Hazard()
    ensures var (e1, t, c) := Operands(e.Begin(code), (vm.pc + 1) % 0x1_0000);
      TargetHeld(e1, t, c, Uxn.OpOf(code), m, s', held', vm0, vm', TargetByte(vm, code), ConditionByte(vm, code))
  {
    hide Good;
    hide InPops;
    hide Applied;
    hide Emitter.Begin;
    hide Emitter.CachePop;
    hide PushReturn;
    hide Uxn.OpOf;
    hide Uxn.Flag2;
    hide Uxn.FlagR;
    hide Uxn.FlagK;
    hide Uxn.Perform;
    hide TargetByte;
    hide ConditionByte;
    hide ByteEffect;
    var pc, r, k := (vm.pc + 1) % 0x1_0000, Uxn.FlagR(code), Uxn.FlagK(code);
    var held1 := BeginGood(e, code, m, s, held);
    var s0 := s.(vals := map[]);
    var rest, args := ByteApplied(vm, code, pc, s0);
    match Uxn.OpOf(code)
    case Jmp => s', held' := JmpHeld(e.Begin(code), m, s0, held1, r, k, rest, args, pc, vm0, vm');
    case Jcn => s', held' := JcnHeld(e.Begin(code), m, s0, held1, r, k, rest, args, pc, vm0, vm');
    case Jsr => s', held' := JsrHeld(e.Begin(code), m, s0, held1, r, k, rest, args, pc, vm0, vm');
  }

  /** The machine in front of the condition: it holds the state the reference has reached, and
      the operands are in their registers. */
  ghost predicate AtCondition(m1: Machine, m: Machine, vm0: Uxn.Vm, vm': Uxn.Vm, t: Reg, c: Reg, op: Uxn.Op, x: nat, y: nat) {
    && Compiler.Holds(m1, vm') && PointersMatch(m, vm0, m1, vm')
    && t < |m1.regs| && m1.regs[t] == x && c < |m1.regs| && (op.Jcn? ==> m1.regs[c] == y < 256)
  }

  lemma HeldCleared(e: Emitter, t: Reg, c: Reg, op: Uxn.Op, m: Machine, s: Snap, held: multiset<Reg>, vm0: Uxn.Vm, vm': Uxn.Vm, x: nat, y: nat)
    requires TargetHeld(e, t, c, op, m, s, held, vm0, vm', x, y) && (!op.Jcn? ==> c == 0)
    ensures AtCondition(Run(e.ClearBoth(), m), m, vm0, vm', t, c, op, x, y) && BaseOk(e.ClearBoth(), Run(e.ClearBoth(), m))
  {
    hide Good;
    hide Exec;
    hide Emitter.ClearBoth;
    hide Compiler.Holds;
    hide PointersMatch;
    ClearedHolds(e, m, s, held, vm0, vm');
    ClearedValue(e, m, s, held, t);
    if op.Jcn? {
      ClearedValue(e, m, s, held, c);
    }
    ClearBothGood(e, m, s, held);
    HeldValue(e.ClearBoth(), m, s, held, t);
  }

  // ---- where compilation goes on ----

  predicate OneByte(code: nat) {
    !Uxn.OpOf(code).Lit? && !IsImmediate(Uxn.OpOf(code))
  }

  /** The opcode at "pc" is a single byte, and compiling it goes no further than that byte. */
  predicate EndsAfterByte(t: Tracker, rom: Uxn.Bytes, pc: nat) {
    var code := Uxn.Peek(rom, pc);
    pc >= 256 && OneByte(code) && (Skips(t, code) ==> pc == 0xffff)
  }

  lemma PcAfterByte(code: nat, pc: nat)
    requires pc < 0x1_0000
    ensures PcAfter(code, pc) == (pc + 1) % 0x1_0000 <==> OneByte(code)
  {
    hide Uxn.OpOf;
    hide Uxn.Flag2;
  }

  /** A nested skip takes compilation further than its byte, except at the end of memory. */
  lemma NestedEnds(c: Ctx, rom: Uxn.Bytes)
    requires 256 <= c.pc < 0x1_0000 && Skips(c.t, Uxn.Peek(rom, c.pc))
    ensures NextOpcode(c, rom).pc == (c.pc + 1) % 0x1_0000 <==> c.pc == 0xffff
  {
    hide NextOpcode;
    hide Guarded;
    hide TrackAt;
    hide PoppedAt;
    SkipEmits(c, rom);
    hide Skips;
  }

  /** How far the opcode under the condition takes compilation. */
  lemma NextOpcodeEnds(c: Ctx, rom: Uxn.Bytes)
    requires c.pc < 0x1_0000
    ensures NextOpcode(c, rom).pc == (c.pc + 1) % 0x1_0000 <==> EndsAfterByte(c.t, rom, c.pc)
    ensures NextOpcode(c, rom).pc == c.pc <==> c.pc < 256
  {
    hide NextOpcode;
    hide PcAfter;
    hide Skips;
    hide OneByte;
    var code := Uxn.Peek(rom, c.pc);
    if c.pc >= 256 {
      if Skips(c.t, code) {
        NestedEnds(c, rom);
        SkipsByte(c.t, code);
      } else {
        PcAfterByte(code, c.pc);
        NoSkipPc(c, rom);
      }
    }
  }

  lemma SkipsByte(t: Tracker, code: nat)
    requires Skips(t, code)
    ensures OneByte(code)
  {
  }

  lemma NoSkipPc(c: Ctx, rom: Uxn.Bytes)
    requires 256 <= c.pc < 0x1_0000 && !Skips(c.t, Uxn.Peek(rom, c.pc))
    ensures NextOpcode(c, rom).pc == PcAfter(Uxn.Peek(rom, c.pc), c.pc)
  {
    hide EmitAt;
    hide TrackAt;
    hide PcAfter;
    hide Skips;
    hide Emitter.Begin;
  }

  // ---- where the reference goes ----

  lemma DisplacedByTruth(pc: nat, x: nat)
    requires pc < 0x1_0000 && x <= 1
    ensures Uxn.Displaced(pc, x) == (pc + x) % 0x1_0000
  {
  }

  lemma BytePc(vm: Uxn.Vm, code: nat, s: Snap, vm': Uxn.Vm)
    requires Mirrors(s, vm) && vm.pc < 0x1_0000 && PopsTarget(Uxn.OpOf(code)) && !Uxn.Flag2(code)
    requires Uxn.Perform(vm, code, (vm.pc + 1) % 0x1_0000) == Uxn.Some(vm')
    ensures var pc := (vm.pc + 1) % 0x1_0000;
      vm'.pc == if Uxn.OpOf(code).Jcn? && ConditionByte(vm, code) == 0 then pc else Uxn.Displaced(pc, TargetByte(vm, code))
  {
    hide Uxn.Perform;
    hide Uxn.OpOf;
    hide Uxn.Flag2;
    hide Uxn.FlagR;
    hide Uxn.FlagK;
    hide Uxn.PopAll;
    hide Uxn.Displaced;
    hide Uxn.BytesOf;
    hide TargetByte;
    hide ConditionByte;
    var rest, args := ByteApplied(vm, code, (vm.pc + 1) % 0x1_0000, s);
  }

  /** A target that is known to be a truth value is one. */
  lemma TruthTarget(t: Tracker, vm: Uxn.Vm, code: nat, pc: nat, s: Snap)
    requires Mirrors(s, vm) && Tracks(t, vm) && Skips(t, code) && Uxn.Perform(vm, code, pc).Some?
    ensures TargetByte(vm, code) <= 1
  {
    hide Uxn.Act;
    hide Uxn.OpOf;
    hide Uxn.Flag2;
    hide Uxn.FlagR;
    hide Uxn.FlagK;
    hide Tracker.Pop;
    hide Sees;
    hide Has;
    var r := Uxn.FlagR(code);
    var st := vm.Stack(r);
    var rest, args := ByteApplied(vm, code, pc, s);
    if |args| == 1 { PopOne(st, false); } else { PopTwo(st, false, false); }
    BeginPopping(t, r, code, st, vm.Stack(!r));
    PopOperand(t.Begin(code), false, r, Uxn.FlagK(code), st, vm.Stack(!r), st);
  }

  /** True when the emitted code and the reference go on at the same address, or the opcode that
      follows is run where it should be. */
  predicate SkipAgrees(op: Uxn.Op, x: nat, y: nat, t: Tracker, rom: Uxn.Bytes, after: nat) {
    || RunsNext(op, x, y)
    || if op.Jcn? && y == 0 then after < 256 else EndsAfterByte(t, rom, after)
  }

  /** The emitter behind the pops of the jump at the compiler's address, and the registers. */
  function PoppedAt(c: Ctx, code: nat): (Emitter, Reg, Reg) {
    TargetPopped(c.e.Begin(code), (c.pc + 1) % 0x1_0000)
  }

  /** The compiler after the opcode under the condition. */
  function InnerCtx(c: Ctx, rom: Uxn.Bytes): Ctx
    requires c.pc < 0x1_0000
  {
    var after := (c.pc + 1) % 0x1_0000;
    NextOpcode(Ctx(PoppedAt(c, Uxn.Peek(rom, c.pc)).0.(code := []), TrackAt(c.t, rom, c.pc), after, false), rom)
  }

  lemma SkipEmits(c: Ctx, rom: Uxn.Bytes)
    requires 256 <= c.pc < 0x1_0000 && Skips(c.t, Uxn.Peek(rom, c.pc))
    ensures var code := Uxn.Peek(rom, c.pc); var (e, t, cond) := PoppedAt(c, code); var inner := InnerCtx(c, rom);
      NextOpcode(c, rom) == Ctx(Guarded(e, inner.e, t, cond, Uxn.OpOf(code).Jcn?), inner.t, inner.pc, false)
  {
    hide Emitter.Begin;
    hide TargetPopped;
    hide TrackAt;
    hide Guarded;
    hide Uxn.OpOf;
    hide PcAfter;
    var code := Uxn.Peek(rom, c.pc);
    PoppedSite(c.t, rom, code, c.pc);
    hide SiteAt;
  }

  /** JMP, JCN or JSR by a truth value, whatever the state: the code either runs the opcode that
      follows, exactly where the target is zero and the jump is taken, or leaves the state the
      reference has reached as it is and goes on behind that opcode.  The reference is at the
      same address only under the condition of SkipAgrees: a JCN that is not taken makes the
      code skip an opcode that the reference executes. */
  lemma SkipExact(c: Ctx, rom: Uxn.Bytes, m: Machine, s: Snap, held: multiset<Reg>, vm0: Uxn.Vm, vm: Uxn.Vm, code: nat, vm': Uxn.Vm)
    requires ByteJump(c.e, m, s, held, vm0, vm, code, vm') && 256 <= c.pc == vm.pc && code == Uxn.Peek(rom, c.pc)
    requires Tracks(c.t, vm) && Skips(c.t, code) && !PoppedAt(c, code).0.Hazard()
    ensures var op, x, y := Uxn.OpOf(code), TargetByte(vm, code), ConditionByte(vm, code);
      var m1, c' := Run(PoppedAt(c, code).0, m), NextOpcode(c, rom);
      && Compiler.Holds(m1, vm') && PointersMatch(m, vm0, m1, vm')
      && Run(c'.e, m) == (if RunsNext(op, x, y) then Exec(InnerCtx(c, rom).e.ClearBoth().code, m1) else m1)
      && (RunsNext(op, x, y) ==> vm'.pc == (vm.pc + 1) % 0x1_0000)
      && (RunsNext(op, x, y) || c'.pc == vm'.pc <==> SkipAgrees(op, x, y, TrackAt(c.t, rom, c.pc), rom, (vm.pc + 1) % 0x1_0000))
  {
    hide Good;
    hide Exec;
    hide Tracks;
    hide Skips;
    hide Guarded;
    hide NextOpcode;
    hide EndsAfterByte;
    hide TrackAt;
    hide TargetPopped;
    hide Operands;
    hide Emitter.Begin;
    hide Emitter.ClearBoth;
    hide Uxn.Perform;
    hide Uxn.OpOf;
    hide Uxn.Flag2;
    hide Uxn.Displaced;
    hide TargetByte;
    hide ConditionByte;
    hide Compiler.Holds;
    hide PointersMatch;
    var op, x, y, pc := Uxn.OpOf(code), TargetByte(vm, code), ConditionByte(vm, code), (vm.pc + 1) % 0x1_0000;
    BeginOpcode(c.e, m, s, held, code);
    PoppedOperands(c.e.Begin(code), pc);
    var (e, t, cond) := Operands(c.e.Begin(code), pc);
    ClearGrows(e);
    var s', held' := TargetGood(c.e, m, s, held, vm0, vm, code, vm');
    NoCondition(c.e.Begin(code), pc);
    HeldCleared(e, t, cond, op, m, s', held', vm0, vm', x, y);
    RunningOf(Run(e.ClearBoth(), m), vm');
    SkipEmits(c, rom);
    var inner := InnerCtx(c, rom);
    GuardedRuns(e.ClearBoth(), inner.e, t, cond, op.Jcn?, m);
    TruthTarget(c.t, vm, code, pc, s);
    BytePc(vm, code, s, vm');
    DisplacedByTruth(pc, x);
    NextOpcodeEnds(Ctx(PoppedAt(c, code).0.(code := []), TrackAt(c.t, rom, c.pc), pc, false), rom);
  }

  lemma ClearGrows(e: Emitter)
    ensures e.Grows(e.ClearBoth())
  {
    hide Exec;
  }

  lemma NoCondition(e: Emitter, pc: nat)
    ensures !Uxn.OpOf(e.opcode).Jcn? ==> Operands(e, pc).2 == 0
  {
    hide Uxn.OpOf;
    hide Emitter.CachePop;
    hide PushReturn;
  }

  lemma RunningOf(m: Machine, vm: Uxn.Vm)
    requires Compiler.Holds(m, vm)
    ensures m.exit == Running
  {
  }

  /** Where the following opcode is not run, the base register is what it was before: what the
      compiler believes of it afterwards is true only if compiling that opcode has left it
      unknown or the same. */
  lemma SkippedBase(e: Emitter, inner: Emitter, t: Reg, c: Reg, conditional: bool, m: Machine)
    requires BaseOk(e, Run(e, m)) && e.memBase != 0 && Run(Guarded(e, inner, t, c, conditional), m) == Run(e, m)
    ensures var e' := Guarded(e, inner, t, c, conditional);
      BaseOk(e', Run(e', m)) <==> e'.memBase == 0 || e'.memBase == e.memBase
  {
    hide Exec;
    hide Guarded;
    var m1, e' := Run(e, m), Guarded(e, inner, t, c, conditional);
    if IsBase(e'.memBase) && e'.memBase != e.memBase {
      BasesDiffer(m1.regs[VM], if e.memBase < e'.memBase then e.memBase else e'.memBase, if e.memBase < e'.memBase then e'.memBase else e.memBase);
    }
  }
}
