/** Whole stretches of compiled code: from the start of a block, or from the return of a call
    inside it, past opcodes that fall through, to the jump that leaves it. */
module Blocks {
  import opened Words
  import opened Target
  import opened Emission
  import opened Allocator
  import opened Rings
  import opened CacheRuns
  import opened CacheSound
  import opened Popping
  import opened OpStart
  import opened OpSound
  import opened Compiler
  import opened Facts
  import opened FactsSound
  import opened Jumps
  import opened DeviceOps
  import Calls
  import Uxn

  predicate IsJump(op: Uxn.Op) {
    op.Brk? || op.Jmp? || op.Jcn? || op.Jsr? || op.Jci? || op.Jmi? || op.Jsi?
  }

  predicate IsImmediate(op: Uxn.Op) {
    op.Jci? || op.Jmi? || op.Jsi?
  }

  /** The address after the opcode at "pc" and its literal or immediate operand. */
  function PcAfter(code: nat, pc: nat): nat {
    if IsImmediate(Uxn.OpOf(code)) then (pc + 3) % 0x1_0000 else NextPc(code, pc)
  }

  /** The target of the immediate jump at "pc". */
  function ImmediateTarget(mem: Uxn.Bytes, code: nat, pc: nat): nat {
    (PcAfter(code, pc) + Uxn.Fetch(mem, (pc + 1) % 0x1_0000, true, true)) % 0x1_0000
  }

  /** What the compiler takes the jump at "pc" for, knowing "t". */
  function SiteAt(t: Tracker, mem: Uxn.Bytes, code: nat, pc: nat): Calls.Site {
    var op, after := Uxn.OpOf(code), PcAfter(code, pc);
    var ret := if op.Jsr? || op.Jsi? then after else 0;
    if IsImmediate(op) then Calls.Constant(ImmediateTarget(mem, code, pc), true, ret)
    else if op.Brk? then Calls.Dynamic
    else SiteOf(t.Begin(code).Pop(Uxn.Flag2(code), Uxn.FlagR(code)).1, after, ret)
  }

  /** A one-byte target that is known to be a truth value makes the compiler skip an opcode. */
  predicate Skips(t: Tracker, code: nat) {
    var op := Uxn.OpOf(code);
    (op.Jmp? || op.Jcn? || op.Jsr?) && !Uxn.Flag2(code)
    && t.Begin(code).Pop(false, Uxn.FlagR(code)).1.boolean
  }

  /** Emits the opcode at "pc". */
  function EmitAt(e: Emitter, t: Tracker, rom: Uxn.Bytes, pc: nat): Emitter {
    var code := Uxn.Peek(rom, pc);
    if IsJump(Uxn.OpOf(code))
    then JumpOp(e.Begin(code), PcAfter(code, pc), SiteAt(t, rom, code, pc), ImmediateTarget(rom, code, pc))
    else if Uxn.IsDevice(Uxn.OpOf(code)) then DeviceOp(e.Begin(code))
    else EmitOpcode(e, code, pc)
  }

  function TrackAt(t: Tracker, rom: Uxn.Bytes, pc: nat): Tracker {
    var code := Uxn.Peek(rom, pc);
    t.Track(code, LiteralAt(rom, code, pc))
  }

  /** The reference step is one the emitted code is meant for: the opcode and an immediate
      target are those that were compiled, no opcode is skipped, and a relative jump stays inside
      the address space. */
  ghost predicate Faithful(t: Tracker, vm: Uxn.Vm, rom: Uxn.Bytes) {
    && 256 <= vm.pc < 0x1_0000 && Uxn.Peek(vm.ram, vm.pc) == Uxn.Peek(rom, vm.pc) < 256 && Uxn.Step(vm).Some?
    && (var code := Uxn.Peek(rom, vm.pc); var op := Uxn.OpOf(code);
        && !Skips(t, code)
        && (IsImmediate(op) ==> ImmediateTarget(vm.ram, code, vm.pc) == ImmediateTarget(rom, code, vm.pc))
        && (op.Jmp? || op.Jsr? || op.Jcn? ==>
              Inside(Uxn.Flag2(code), PcAfter(code, vm.pc), TopValue(vm.Stack(Uxn.FlagR(code)), Uxn.Flag2(code)))))
  }

  function TopValue(s: Uxn.Bytes, short: bool): nat {
    match Uxn.PopValue(s, short)
    case None => 0
    case Some(p) => p.1
  }

  /** The step goes on with the next opcode of the block. */
  ghost predicate FallsThrough(vm: Uxn.Vm, rom: Uxn.Bytes) {
    var code := Uxn.Peek(rom, vm.pc); var op := Uxn.OpOf(code);
    && vm.pc < |vm.ram|
    && (IsPlain(op) || Uxn.IsDevice(op)
        || (op.Jcn? && TopValue(Below(vm.Stack(Uxn.FlagR(code)), Uxn.Flag2(code)), false) == 0)
        || (op.Jci? && TopValue(vm.wst, false) == 0))
  }

  function Below(s: Uxn.Bytes, short: bool): Uxn.Bytes {
    match Uxn.PopValue(s, short)
    case None => []
    case Some(p) => p.0
  }

  // ---- one opcode that jumps ----

  /** The reference step, in the form the emitted code is compared with. */
  lemma StepApplied(vm: Uxn.Vm, code: nat, pc: nat, s: Snap) returns (rest: Uxn.Bytes, args: seq<nat>, eff: Uxn.Effect)
    requires Mirrors(s, vm) && Uxn.Perform(vm, code, pc).Some? && !Uxn.IsDevice(Uxn.OpOf(code))
    ensures var op, short, r, k := Uxn.OpOf(code), Uxn.Flag2(code), Uxn.FlagR(code), Uxn.FlagK(code);
      && Applied(op, short, s, r, k, rest, args, Uxn.Perform(vm, code, pc).value, eff)
      && |args| == |Uxn.Shape(op, short)|
      && eff == Uxn.Act(op, short, Uxn.Nth(args, 0), Uxn.Nth(args, 1), Uxn.Nth(args, 2), vm.ram, pc)
  {
    hide Uxn.Act;
    hide Uxn.OpOf;
    hide Uxn.Flag2;
    hide Uxn.FlagR;
    hide Uxn.FlagK;
    var op, short, r := Uxn.OpOf(code), Uxn.Flag2(code), Uxn.FlagR(code);
    RestIsPrefix(vm.Stack(r), Uxn.Shape(op, short));
    var p := Uxn.PopAll(vm.Stack(r), Uxn.Shape(op, short)).value;
    rest, args := p.0, p.1;
    eff := Uxn.Act(op, short, Uxn.Nth(args, 0), Uxn.Nth(args, 1), Uxn.Nth(args, 2), vm.ram, pc);
    hide Uxn.PopAll;
    hide Uxn.Shape;
  }

  lemma ReachedTarget(short: bool, pc: nat, x: nat)
    requires pc < 0x1_0000 && x < (if short then 0x1_0000 else 256) && Inside(short, pc, x)
    ensures Reached(short, pc, x) == Uxn.JumpTarget(pc, short, x)
  {
    ReachedExact(short, pc, x);
    hide Inside;
    hide Reached;
  }

  /** The operands a jump pops, and what the reference does with them. */
  lemma TopOperands(s: Uxn.Bytes, short: bool, rest: Uxn.Bytes, args: seq<nat>)
    ensures Uxn.PopAll(s, [short]) == Uxn.Some((rest, args)) ==> |args| == 1 && TopValue(s, short) == args[0]
    ensures Uxn.PopAll(s, [short, false]) == Uxn.Some((rest, args)) ==>
      |args| == 2 && TopValue(s, short) == args[0] && TopValue(Below(s, short), false) == args[1]
  {
    if Uxn.PopAll(s, [short]).Some? { PopOne(s, short); }
    if Uxn.PopAll(s, [short, false]).Some? { PopTwo(s, short, false); }
  }

  lemma ValueFits(s: Uxn.Bytes, short: bool)
    requires AreBytes(s)
    ensures TopValue(s, short) < if short then 0x1_0000 else 256
  {
  }

  /** The stacks hold bytes. */
  lemma GoodBytes(e: Emitter, m0: Machine, s: Snap, held: multiset<Reg>)
    requires Good(e, m0, s, held)
    ensures AreBytes(s.w) && AreBytes(s.r)
  {
    ClearBothGood(e, m0, s, held);
    hide Emitter.ClearBoth;
    hide Exec;
    var m := Run(e.ClearBoth(), m0);
    assert Calm(m) by { hide Inv; hide SideRel; }
    hide Good;
    LiveBytes(m.ws, Ptr(m, WSP), |s.w|);
    LiveBytes(m.rs, Ptr(m, RSP), |s.r|);
    hide Live;
  }

  function PoppedEffect(op: Uxn.Op, short: bool, pc: nat, x: nat, y: nat, ram: Uxn.Bytes): Uxn.Effect {
    var to := Reached(short, pc, x);
    match op
    case Jcn => Uxn.Effect([], [], ram, if y != 0 then to else pc)
    case Jsr => Uxn.Effect([], Uxn.BytesOf(pc, true), ram, to)
    case _ => Uxn.Effect([], [], ram, to)
  }

  predicate PopsTarget(op: Uxn.Op) {
    op.Jmp? || op.Jcn? || op.Jsr?
  }

  lemma PoppedAct(op: Uxn.Op, short: bool, pc: nat, args: seq<nat>, ram: Uxn.Bytes)
    requires PopsTarget(op) && |args| == |Uxn.Shape(op, short)|
    requires Reached(short, pc, args[0]) == Uxn.JumpTarget(pc, short, args[0])
    ensures Uxn.Act(op, short, Uxn.Nth(args, 0), Uxn.Nth(args, 1), Uxn.Nth(args, 2), ram, pc)
      == PoppedEffect(op, short, pc, args[0], Uxn.Nth(args, 1), ram)
  {
    hide Reached;
    hide Uxn.JumpTarget;
    hide Uxn.Fetch;
    hide Uxn.BytesOf;
  }

  /** The state in which the emitter of a jump to a popped target starts. */
  ghost predicate AtJump(e: Emitter, m: Machine, s: Snap, held: multiset<Reg>, vm: Uxn.Vm, vm': Uxn.Vm, code: nat, rest: Uxn.Bytes, args: seq<nat>) {
    var op, short, r, k, pc := Uxn.OpOf(code), Uxn.Flag2(code), Uxn.FlagR(code), Uxn.FlagK(code), (vm.pc + 1) % 0x1_0000;
    && Started(e.Begin(code), m, s, held, r, k) && |args| == |Uxn.Shape(op, short)| >= 1
    && Applied(op, short, s, r, k, rest, args, vm', PoppedEffect(op, short, pc, args[0], Uxn.Nth(args, 1), s.ram))
    && Inside(short, pc, args[0])
  }

  /** What a popped jump finds on the current stack. */
  ghost predicate JumpArgs(vm: Uxn.Vm, code: nat, args: seq<nat>) {
    var st, short := vm.Stack(Uxn.FlagR(code)), Uxn.Flag2(code);
    && |args| >= 1 && TopValue(st, short) == args[0]
    && (Uxn.OpOf(code).Jcn? ==> |args| == 2 && TopValue(Below(st, short), false) == args[1])
  }

  lemma JumpOperands(vm: Uxn.Vm, code: nat, rest: Uxn.Bytes, args: seq<nat>)
    requires PopsTarget(Uxn.OpOf(code))
    requires Uxn.PopAll(vm.Stack(Uxn.FlagR(code)), Uxn.Shape(Uxn.OpOf(code), Uxn.Flag2(code))) == Uxn.Some((rest, args))
    ensures JumpArgs(vm, code, args)
  {
    hide Uxn.OpOf;
    hide Uxn.Flag2;
    hide Uxn.FlagR;
    TopOperands(vm.Stack(Uxn.FlagR(code)), Uxn.Flag2(code), rest, args);
    hide Uxn.PopAll;
    hide TopValue;
    hide Below;
  }

  lemma JumpReady(e: Emitter, t: Tracker, m: Machine, s: Snap, held: multiset<Reg>, vm: Uxn.Vm, rom: Uxn.Bytes)
    returns (held1: multiset<Reg>, rest: Uxn.Bytes, args: seq<nat>)
    requires Good(e, m, s, held) && Mirrors(s, vm) && Faithful(t, vm, rom)
    requires PopsTarget(Uxn.OpOf(Uxn.Peek(rom, vm.pc)))
    ensures AtJump(e, m, s.(vals := map[]), held1, vm, Uxn.Step(vm).value, Uxn.Peek(rom, vm.pc), rest, args)
    ensures JumpArgs(vm, Uxn.Peek(rom, vm.pc), args)
  {
    hide Good;
    hide InPops;
    hide Emitter.Begin;
    hide Reached;
    hide Inside;
    hide TopValue;
    hide Below;
    hide Applied;
    hide Uxn.Act;
    var code := Uxn.Peek(rom, vm.pc);
    var op, short, r, pc := Uxn.OpOf(code), Uxn.Flag2(code), Uxn.FlagR(code), (vm.pc + 1) % 0x1_0000;
    GoodBytes(e, m, s, held);
    held1 := BeginGood(e, code, m, s, held);
    var eff: Uxn.Effect;
    rest, args, eff := StepApplied(vm, code, pc, s.(vals := map[]));
    hide Uxn.OpOf;
    hide Uxn.Flag2;
    hide Uxn.FlagR;
    hide Uxn.FlagK;
    AppliedPops(op, short, s.(vals := map[]), r, Uxn.FlagK(code), rest, args, Uxn.Step(vm).value, eff);
    JumpOperands(vm, code, rest, args);
    ValueFits(vm.Stack(r), short);
    ReachedTarget(short, pc, args[0]);
    PoppedAct(op, short, pc, args, vm.ram);
    hide Uxn.PopAll;
  }

  lemma AppliedPops(op: Uxn.Op, short: bool, s: Snap, r: bool, k: bool, rest: Uxn.Bytes, args: seq<nat>, vm': Uxn.Vm, eff: Uxn.Effect)
    requires Applied(op, short, s, r, k, rest, args, vm', eff)
    ensures Uxn.PopAll(s.Stack(r), Uxn.Shape(op, short)) == Uxn.Some((rest, args))
  {
  }

  /** What one opcode that jumps comes to: the machine has left for the reference's address, or
      the emitted code goes on and so does the reference. */
  ghost predicate JumpResult(e': Emitter, m: Machine, s: Snap, s': Snap, held': multiset<Reg>, vm0: Uxn.Vm, vm': Uxn.Vm, falls: bool, after: nat, site: Calls.Site) {
    if falls then Good(e', m, s', held') && Mirrors(s', vm') && SameOrigins(s, s') && vm'.pc == after
    else Arrives(m, vm0, Run(e', m), vm', site)
  }

  lemma JmpCase(e: Emitter, code: nat, site: Calls.Site, imm: nat, m: Machine, s: Snap, held: multiset<Reg>, rest: Uxn.Bytes, args: seq<nat>,
                vm0: Uxn.Vm, vm: Uxn.Vm, vm': Uxn.Vm)
    requires AtJump(e, m, s, held, vm, vm', code, rest, args) && SameOrigins(StartSnap(m, vm0), s)
    requires Uxn.OpOf(code).Jmp? && (site.Constant? ==> !site.immediate)
    requires !JumpOp(e.Begin(code), (vm.pc + 1) % 0x1_0000, site, imm).Hazard() && e.Begin(code).opcode == code
    ensures Arrives(m, vm0, Run(JumpOp(e.Begin(code), (vm.pc + 1) % 0x1_0000, site, imm), m), vm', site)
  {
    hide Started;
    hide Applied;
    hide Arrives;
    hide Emitter.Begin;
    hide Emitter.CachePop;
    hide JumpTo;
    hide Exec;
    hide Inside;
    hide Reached;
    var short, r, k := Uxn.Flag2(code), Uxn.FlagR(code), Uxn.FlagK(code);
    hide Uxn.Flag2;
    hide Uxn.FlagR;
    hide Uxn.FlagK;
    JmpSound(e.Begin(code), (vm.pc + 1) % 0x1_0000, site, m, s, held, short, r, k, rest, args, vm0, vm');
  }

  lemma JsrCase(e: Emitter, code: nat, site: Calls.Site, imm: nat, m: Machine, s: Snap, held: multiset<Reg>, rest: Uxn.Bytes, args: seq<nat>,
                vm0: Uxn.Vm, vm: Uxn.Vm, vm': Uxn.Vm)
    requires AtJump(e, m, s, held, vm, vm', code, rest, args) && SameOrigins(StartSnap(m, vm0), s)
    requires Uxn.OpOf(code).Jsr? && (site.Constant? ==> !site.immediate)
    requires !JumpOp(e.Begin(code), (vm.pc + 1) % 0x1_0000, site, imm).Hazard() && e.Begin(code).opcode == code
    ensures Arrives(m, vm0, Run(JumpOp(e.Begin(code), (vm.pc + 1) % 0x1_0000, site, imm), m), vm', site)
  {
    hide Started;
    hide Applied;
    hide Arrives;
    hide Emitter.Begin;
    hide Emitter.CachePop;
    hide JumpTo;
    hide PushReturn;
    hide Exec;
    hide Inside;
    hide Reached;
    var short, r, k := Uxn.Flag2(code), Uxn.FlagR(code), Uxn.FlagK(code);
    hide Uxn.Flag2;
    hide Uxn.FlagR;
    hide Uxn.FlagK;
    JsrSound(e.Begin(code), (vm.pc + 1) % 0x1_0000, site, m, s, held, short, r, k, rest, args, vm0, vm');
  }

  lemma JcnCase(e: Emitter, code: nat, site: Calls.Site, imm: nat, m: Machine, s: Snap, held: multiset<Reg>, rest: Uxn.Bytes, args: seq<nat>,
                vm0: Uxn.Vm, vm: Uxn.Vm, vm': Uxn.Vm) returns (s': Snap, held': multiset<Reg>)
    requires AtJump(e, m, s, held, vm, vm', code, rest, args) && SameOrigins(StartSnap(m, vm0), s) && |args| == 2
    requires Uxn.OpOf(code).Jcn? && (site.Constant? ==> !site.immediate)
    requires !JumpOp(e.Begin(code), (vm.pc + 1) % 0x1_0000, site, imm).Hazard() && e.Begin(code).opcode == code
    ensures JumpResult(JumpOp(e.Begin(code), (vm.pc + 1) % 0x1_0000, site, imm), m, s, s', held', vm0, vm', args[1] == 0, (vm.pc + 1) % 0x1_0000, site)
  {
    hide Started;
    hide Applied;
    hide Arrives;
    hide Good;
    hide Emitter.Begin;
    hide Emitter.CachePop;
    hide JumpUnlessZero;
    hide Exec;
    hide Inside;
    hide Reached;
    var short, r, k := Uxn.Flag2(code), Uxn.FlagR(code), Uxn.FlagK(code);
    hide Uxn.Flag2;
    hide Uxn.FlagR;
    hide Uxn.FlagK;
    s', held' := JcnSound(e.Begin(code), (vm.pc + 1) % 0x1_0000, site, m, s, held, short, r, k, rest, args, vm0, vm');
  }

  lemma BeginOpcode(e: Emitter, m: Machine, s: Snap, held: multiset<Reg>, code: nat)
    requires Good(e, m, s, held)
    ensures e.Begin(code).opcode == code
  {
    hide Emitter.Begin;
    var h := BeginGood(e, code, m, s, held);
    hide Good;
  }

  lemma PoppedSite(t: Tracker, mem: Uxn.Bytes, code: nat, pc: nat)
    requires PopsTarget(Uxn.OpOf(code))
    ensures PcAfter(code, pc) == (pc + 1) % 0x1_0000
    ensures SiteAt(t, mem, code, pc).Constant? ==> !SiteAt(t, mem, code, pc).immediate
  {
    hide Uxn.OpOf;
    hide Tracker.Begin;
    hide Tracker.Pop;
    hide SignExtend8;
  }

  /** JMP, JCN or JSR, whose target the opcode pops. */
  lemma PoppedJump(e: Emitter, t: Tracker, m: Machine, s: Snap, held: multiset<Reg>, vm0: Uxn.Vm, vm: Uxn.Vm, rom: Uxn.Bytes)
    returns (s': Snap, held': multiset<Reg>)
    requires Good(e, m, s, held) && Mirrors(s, vm) && SameOrigins(StartSnap(m, vm0), s) && Faithful(t, vm, rom)
    requires PopsTarget(Uxn.OpOf(Uxn.Peek(rom, vm.pc))) && !EmitAt(e, t, rom, vm.pc).Hazard()
    ensures var code := Uxn.Peek(rom, vm.pc);
      JumpResult(EmitAt(e, t, rom, vm.pc), m, s, s', held', vm0, Uxn.Step(vm).value, FallsThrough(vm, rom),
        PcAfter(code, vm.pc), SiteAt(t, rom, code, vm.pc))
  {
    hide Good;
    hide Arrives;
    hide AtJump;
    hide Emitter.Begin;
    hide JumpOp;
    hide SiteAt;
    hide TopValue;
    hide Below;
    hide Uxn.Flag2;
    hide Uxn.FlagR;
    hide Uxn.Perform;
    var code := Uxn.Peek(rom, vm.pc);
    var imm, site := ImmediateTarget(rom, code, vm.pc), SiteAt(t, rom, code, vm.pc);
    BeginOpcode(e, m, s, held, code);
    PoppedSite(t, rom, code, vm.pc);
    hide ImmediateTarget;
    hide PcAfter;
    var held1, rest, args := JumpReady(e, t, m, s, held, vm, rom);
    var s1 := s.(vals := map[]);
    var vm' := Uxn.Step(vm).value;
    s', held' := s, held;
    match Uxn.OpOf(code)
    case Jmp => JmpCase(e, code, site, imm, m, s1, held1, rest, args, vm0, vm, vm');
    case Jsr => JsrCase(e, code, site, imm, m, s1, held1, rest, args, vm0, vm, vm');
    case Jcn => s', held' := JcnCase(e, code, site, imm, m, s1, held1, rest, args, vm0, vm, vm');
  }

  lemma NoFlags(code: nat)
    requires code < 256 && (IsImmediate(Uxn.OpOf(code)) || Uxn.OpOf(code).Brk?)
    ensures !Uxn.Flag2(code) && !Uxn.FlagR(code) && !Uxn.FlagK(code)
  {
  }

  lemma ImmediateAct(code: nat, pc: nat, args: seq<nat>, ram: Uxn.Bytes)
    requires IsImmediate(Uxn.OpOf(code)) && |args| == |Uxn.Shape(Uxn.OpOf(code), false)|
    ensures var op, after, to := Uxn.OpOf(code), PcAfter(code, pc), ImmediateTarget(ram, code, pc);
      Uxn.Act(op, false, Uxn.Nth(args, 0), Uxn.Nth(args, 1), Uxn.Nth(args, 2), ram, (pc + 1) % 0x1_0000) ==
        Uxn.Effect([], if op.Jsi? then Uxn.BytesOf(after, true) else [], ram, if op.Jci? && args[0] == 0 then after else to)
  {
    hide Uxn.OpOf;
    hide Uxn.Fetch;
    hide Uxn.BytesOf;
    hide Uxn.JumpTarget;
    hide Uxn.Arith;
    assert ((pc + 1) % 0x1_0000 + 2) % 0x1_0000 == (pc + 3) % 0x1_0000;
  }

  lemma ImmediateSite(t: Tracker, mem: Uxn.Bytes, code: nat, pc: nat)
    requires IsImmediate(Uxn.OpOf(code))
    ensures SiteAt(t, mem, code, pc) ==
      Calls.Constant(ImmediateTarget(mem, code, pc), true, if Uxn.OpOf(code).Jsi? then PcAfter(code, pc) else 0)
  {
  }

  /** The state in which the emitter of an immediate jump or a BRK starts. */
  ghost predicate AtImmediate(e: Emitter, m: Machine, s: Snap, held: multiset<Reg>, vm': Uxn.Vm, code: nat, rest: Uxn.Bytes, args: seq<nat>, eff: Uxn.Effect) {
    && Started(e.Begin(code), m, s, held, false, false) && |args| == |Uxn.Shape(Uxn.OpOf(code), false)|
    && Applied(Uxn.OpOf(code), false, s, false, false, rest, args, vm', eff)
  }

  lemma ImmediateReady(e: Emitter, t: Tracker, m: Machine, s: Snap, held: multiset<Reg>, vm: Uxn.Vm, rom: Uxn.Bytes)
    returns (held1: multiset<Reg>, rest: Uxn.Bytes, args: seq<nat>, eff: Uxn.Effect)
    requires Good(e, m, s, held) && Mirrors(s, vm) && Faithful(t, vm, rom)
    requires var op := Uxn.OpOf(Uxn.Peek(rom, vm.pc)); IsImmediate(op) || op.Brk?
    ensures var code := Uxn.Peek(rom, vm.pc);
      && AtImmediate(e, m, s.(vals := map[]), held1, Uxn.Step(vm).value, code, rest, args, eff)
      && eff == Uxn.Act(Uxn.OpOf(code), false, Uxn.Nth(args, 0), Uxn.Nth(args, 1), Uxn.Nth(args, 2), vm.ram, (vm.pc + 1) % 0x1_0000)
  {
    hide Good;
    hide InPops;
    hide Emitter.Begin;
    hide Applied;
    hide Uxn.Act;
    hide Uxn.Perform;
    var code := Uxn.Peek(rom, vm.pc);
    NoFlags(code);
    held1 := BeginGood(e, code, m, s, held);
    rest, args, eff := StepApplied(vm, code, (vm.pc + 1) % 0x1_0000, s.(vals := map[]));
    hide Uxn.OpOf;
    hide Uxn.Shape;
  }

  lemma BothKept(s: Snap, rest: Uxn.Bytes, args: seq<nat>, vm': Uxn.Vm, op: Uxn.Op, eff: Uxn.Effect)
    requires Applied(op, false, s, false, false, rest, args, vm', eff) && Uxn.Shape(op, false) == [] && eff.cur == [] && eff.ram == s.ram
    ensures vm' == Uxn.Vm(eff.pc, s.w, s.r + eff.oth, s.ram, s.io) && |s.r + eff.oth| <= 256
  {
    assert rest == s.w && rest + [] == rest;
  }

  lemma ImmediateState(e: Emitter, m: Machine, s: Snap, held: multiset<Reg>, vm': Uxn.Vm, code: nat, rest: Uxn.Bytes, args: seq<nat>, eff: Uxn.Effect)
    requires AtImmediate(e, m, s, held, vm', code, rest, args, eff)
    ensures Good(e.Begin(code), m, s, held) && |held| <= 2
  {
    hide Good;
    hide ViewMode;
  }

  lemma JmiCase(e: Emitter, code: nat, site: Calls.Site, imm: nat, after: nat, m: Machine, s: Snap, held: multiset<Reg>, rest: Uxn.Bytes,
                args: seq<nat>, eff: Uxn.Effect, vm0: Uxn.Vm, vm': Uxn.Vm)
    requires AtImmediate(e, m, s, held, vm', code, rest, args, eff) && SameOrigins(StartSnap(m, vm0), s)
    requires Uxn.OpOf(code).Jmi? && site == Calls.Constant(vm'.pc, true, 0) && vm'.pc < 0x1_0000 && e.Begin(code).opcode == code
    requires eff == Uxn.Effect([], [], s.ram, vm'.pc)
    ensures Arrives(m, vm0, Run(JumpOp(e.Begin(code), after, site, imm), m), vm', site)
  {
    hide Good;
    hide Emitter.Begin;
    hide Exec;
    hide Arrives;
    hide Started;
    hide Applied;
    BothKept(s, rest, args, vm', Uxn.Jmi, eff);
    ImmediateState(e, m, s, held, vm', code, rest, args, eff);
    assert s.r + [] == s.r;
    hide AtImmediate;
    JmiSound(e.Begin(code), imm, after, site, m, s, held, vm0, vm');
    hide JumpTo;
  }

  lemma JsiCase(e: Emitter, code: nat, site: Calls.Site, imm: nat, after: nat, m: Machine, s: Snap, held: multiset<Reg>, rest: Uxn.Bytes,
                args: seq<nat>, eff: Uxn.Effect, vm0: Uxn.Vm, vm': Uxn.Vm)
    requires AtImmediate(e, m, s, held, vm', code, rest, args, eff) && SameOrigins(StartSnap(m, vm0), s)
    requires Uxn.OpOf(code).Jsi? && site == Calls.Constant(vm'.pc, true, after) && vm'.pc < 0x1_0000 && e.Begin(code).opcode == code && after < 0x1_0000
    requires eff == Uxn.Effect([], Uxn.BytesOf(after, true), s.ram, vm'.pc)
    ensures Arrives(m, vm0, Run(JumpOp(e.Begin(code), after, site, imm), m), vm', site)
  {
    hide Good;
    hide Emitter.Begin;
    hide Exec;
    hide Arrives;
    hide Uxn.BytesOf;
    hide JumpTo;
    hide PushReturn;
    hide Started;
    hide Applied;
    BothKept(s, rest, args, vm', Uxn.Jsi, eff);
    ImmediateState(e, m, s, held, vm', code, rest, args, eff);
    hide AtImmediate;
    JsiSound(e.Begin(code), imm, after, site, m, s, held, vm0, vm');
  }

  lemma JciCase(e: Emitter, code: nat, site: Calls.Site, imm: nat, after: nat, m: Machine, s: Snap, held: multiset<Reg>, rest: Uxn.Bytes,
                args: seq<nat>, eff: Uxn.Effect, vm0: Uxn.Vm, vm': Uxn.Vm) returns (s': Snap, held': multiset<Reg>)
    requires AtImmediate(e, m, s, held, vm', code, rest, args, eff) && SameOrigins(StartSnap(m, vm0), s)
    requires Uxn.OpOf(code).Jci? && site.Constant? && site.immediate && site.ret == 0 && site.target < 0x1_0000 && e.Begin(code).opcode == code
    requires eff == Uxn.Effect([], [], s.ram, if args[0] == 0 then after else site.target)
    requires !JumpOp(e.Begin(code), after, site, imm).Hazard()
    ensures JumpResult(JumpOp(e.Begin(code), after, site, imm), m, s, s', held', vm0, vm', args[0] == 0, after, site)
  {
    hide Started;
    hide Applied;
    hide Good;
    hide Emitter.Begin;
    hide Emitter.CachePop;
    hide Exec;
    hide Arrives;
    hide JumpUnlessZero;
    s', held' := JciSound(e.Begin(code), imm, after, site, m, s, held, rest, args, vm0, vm');
  }

  lemma BrkCase(e: Emitter, code: nat, site: Calls.Site, imm: nat, after: nat, m: Machine, s: Snap, held: multiset<Reg>, rest: Uxn.Bytes,
                args: seq<nat>, eff: Uxn.Effect, vm0: Uxn.Vm, vm': Uxn.Vm)
    requires AtImmediate(e, m, s, held, vm', code, rest, args, eff) && SameOrigins(StartSnap(m, vm0), s)
    requires Uxn.OpOf(code).Brk? && eff == Uxn.Effect([], [], s.ram, Calls.BREAK) && e.Begin(code).opcode == code
    ensures Arrives(m, vm0, Run(JumpOp(e.Begin(code), after, site, imm), m), vm', Calls.Dynamic)
  {
    BothKept(s, rest, args, vm', Uxn.Brk, eff);
    ImmediateState(e, m, s, held, vm', code, rest, args, eff);
    assert s.r + [] == s.r;
    hide AtImmediate;
    hide Good;
    hide Emitter.Begin;
    hide Emitter.ClearBoth;
    hide Exec;
    hide Arrives;
    BrkSound(e.Begin(code), m, s, held, vm0, vm');
  }

  /** An immediate jump or BRK. */
  lemma ImmediateJump(e: Emitter, t: Tracker, m: Machine, s: Snap, held: multiset<Reg>, vm0: Uxn.Vm, vm: Uxn.Vm, rom: Uxn.Bytes)
    returns (s': Snap, held': multiset<Reg>)
    requires Good(e, m, s, held) && Mirrors(s, vm) && SameOrigins(StartSnap(m, vm0), s) && Faithful(t, vm, rom)
    requires var op := Uxn.OpOf(Uxn.Peek(rom, vm.pc)); IsImmediate(op) || op.Brk?
    requires !EmitAt(e, t, rom, vm.pc).Hazard()
    ensures var code := Uxn.Peek(rom, vm.pc);
      JumpResult(EmitAt(e, t, rom, vm.pc), m, s, s', held', vm0, Uxn.Step(vm).value, FallsThrough(vm, rom),
        PcAfter(code, vm.pc), SiteAt(t, rom, code, vm.pc))
  {
    hide Arrives;
    hide Emitter.Begin;
    hide Uxn.Perform;
    hide InPops;
    hide JumpOp;
    hide Exec;
    hide Good;
    hide Applied;
    hide Uxn.BytesOf;
    var code := Uxn.Peek(rom, vm.pc);
    var op, after, to := Uxn.OpOf(code), PcAfter(code, vm.pc), ImmediateTarget(rom, code, vm.pc);
    BeginOpcode(e, m, s, held, code);
    var held1, rest, args, eff := ImmediateReady(e, t, m, s, held, vm, rom);
    var s1 := s.(vals := map[]);
    var vm', site := Uxn.Step(vm).value, SiteAt(t, rom, code, vm.pc);
    assert vm'.pc == eff.pc by { AppliedPc(op, s1, rest, args, vm', eff); }
    s', held' := s, held;
    if op.Brk? {
      hide Uxn.OpOf;
      BrkCase(e, code, site, to, after, m, s1, held1, rest, args, eff, vm0, vm');
    } else {
      ImmediateSite(t, rom, code, vm.pc);
      ImmediateAct(code, vm.pc, args, vm.ram);
      ImmediateTop(s1, rest, args, vm', op, eff);
      assert 0 <= after < 0x1_0000 && 0 <= to < 0x1_0000;
      hide SiteAt;
      hide Uxn.OpOf;
      hide Uxn.Act;
      hide PcAfter;
      hide ImmediateTarget;
      hide TopValue;
      match op
      case Jmi => JmiCase(e, code, site, to, after, m, s1, held1, rest, args, eff, vm0, vm');
      case Jsi => JsiCase(e, code, site, to, after, m, s1, held1, rest, args, eff, vm0, vm');
      case Jci => s', held' := JciCase(e, code, site, to, after, m, s1, held1, rest, args, eff, vm0, vm');
    }
  }

  lemma AppliedPc(op: Uxn.Op, s: Snap, rest: Uxn.Bytes, args: seq<nat>, vm': Uxn.Vm, eff: Uxn.Effect)
    requires Applied(op, false, s, false, false, rest, args, vm', eff)
    ensures vm'.pc == eff.pc
  {
  }

  lemma ImmediateTop(s: Snap, rest: Uxn.Bytes, args: seq<nat>, vm': Uxn.Vm, op: Uxn.Op, eff: Uxn.Effect)
    requires Applied(op, false, s, false, false, rest, args, vm', eff)
    ensures op.Jci? ==> |args| == 1 && TopValue(s.w, false) == args[0]
  {
    TopOperands(s.w, false, rest, args);
  }

  /** What a device opcode does in the reference, in the form the emitted code is compared with. */
  lemma DeviceApplied(vm: Uxn.Vm, code: nat, pc: nat, s: Snap, vm': Uxn.Vm) returns (rest: Uxn.Bytes, args: seq<nat>, x: Uxn.Exchange)
    requires Mirrors(s, vm) && Uxn.IsDevice(Uxn.OpOf(code)) && Uxn.Perform(vm, code, pc) == Uxn.Some(vm')
    ensures var op, short, r, k := Uxn.OpOf(code), Uxn.Flag2(code), Uxn.FlagR(code), Uxn.FlagK(code);
      && Uxn.PopAll(s.Stack(r), Uxn.Shape(op, short)) == Uxn.Some((rest, args))
      && Uxn.Exchanged(op, short, args, s.ram, s.io) == Uxn.Some(x) && |(if k then s.Stack(r) else rest) + x.cur| <= 256
      && vm' == Uxn.Vm(pc, [], [], x.ram, x.io).With(r, (if k then s.Stack(r) else rest) + x.cur, s.Stack(!r))
  {
    hide Uxn.OpOf;
    hide Uxn.FlagR;
    hide Uxn.FlagK;
    hide Uxn.Flag2;
    hide Uxn.PopAll;
    hide Uxn.Shape;
    hide Uxn.Exchanged;
    var op, short, r := Uxn.OpOf(code), Uxn.Flag2(code), Uxn.FlagR(code);
    var p := Uxn.PopAll(vm.Stack(r), Uxn.Shape(op, short)).value;
    rest, args := p.0, p.1;
    x := Uxn.Exchanged(op, short, args, vm.ram, vm.io).value;
  }

  /** A device opcode. */
  lemma DeviceResult(e: Emitter, m: Machine, s: Snap, held: multiset<Reg>, vm: Uxn.Vm, code: nat)
    returns (s': Snap, held': multiset<Reg>)
    requires Good(e, m, s, held) && Mirrors(s, vm) && vm.pc < 0x1_0000 && Uxn.IsDevice(Uxn.OpOf(code))
    requires Uxn.Perform(vm, code, (vm.pc + 1) % 0x1_0000).Some? && !DeviceOp(e.Begin(code)).Hazard()
    ensures var vm' := Uxn.Perform(vm, code, (vm.pc + 1) % 0x1_0000).value;
      && Good(DeviceOp(e.Begin(code)), m, s', held') && Mirrors(s', vm') && SameOrigins(s, s') && vm'.pc == PcAfter(code, vm.pc)
  {
    hide Good;
    hide InPops;
    hide DeviceOp;
    hide Emitter.Begin;
    hide Uxn.OpOf;
    hide Uxn.FlagR;
    hide Uxn.FlagK;
    hide Uxn.Flag2;
    hide Uxn.PopAll;
    hide Uxn.Shape;
    hide Uxn.Exchanged;
    var pc := (vm.pc + 1) % 0x1_0000;
    var held1 := BeginGood(e, code, m, s, held);
    var s0 := s.(vals := map[]);
    var vm' := Uxn.Perform(vm, code, pc).value;
    var rest, args, x := DeviceApplied(vm, code, pc, s0, vm');
    hide Uxn.Perform;
    s', held' := DeviceSound(e.Begin(code), m, s0, held1, rest, args, x);
  }

  /** One opcode of any kind. */
  lemma OpcodeResult(e: Emitter, t: Tracker, m: Machine, s: Snap, held: multiset<Reg>, vm0: Uxn.Vm, vm: Uxn.Vm, rom: Uxn.Bytes)
    returns (s': Snap, held': multiset<Reg>)
    requires Good(e, m, s, held) && Mirrors(s, vm) && SameOrigins(StartSnap(m, vm0), s) && Faithful(t, vm, rom)
    requires !EmitAt(e, t, rom, vm.pc).Hazard()
    ensures var code := Uxn.Peek(rom, vm.pc);
      JumpResult(EmitAt(e, t, rom, vm.pc), m, s, s', held', vm0, Uxn.Step(vm).value, FallsThrough(vm, rom),
        PcAfter(code, vm.pc), SiteAt(t, rom, code, vm.pc))
  {
    hide Good;
    hide Arrives;
    hide EmitOpcode;
    hide JumpOp;
    hide Exec;
    hide Uxn.Perform;
    hide Uxn.OpOf;
    var code := Uxn.Peek(rom, vm.pc);
    var op := Uxn.OpOf(code);
    if IsPlain(op) {
      hide SiteAt;
      s', held' := OpcodeSound(e, m, s, held, vm, code);
    } else if Uxn.IsDevice(op) {
      hide SiteAt;
      s', held' := DeviceResult(e, m, s, held, vm, code);
    } else if PopsTarget(op) {
      hide JumpResult;
      s', held' := PoppedJump(e, t, m, s, held, vm0, vm, rom);
    } else {
      hide JumpResult;
      s', held' := ImmediateJump(e, t, m, s, held, vm0, vm, rom);
    }
  }

  // ---- stretches ----

  /** Emits "n" opcodes, one after the other, from "pc" on. */
  function StretchEmitted(e: Emitter, t: Tracker, rom: Uxn.Bytes, pc: nat, n: nat): Emitter
    decreases n
  {
    if n == 0 then e
    else StretchEmitted(EmitAt(e, t, rom, pc), TrackAt(t, rom, pc), rom, PcAfter(Uxn.Peek(rom, pc), pc), n - 1)
  }

  lemma JumpToGrows(e: Emitter, c: Reg, t: Reg, short: bool, site: Calls.Site, pc: nat)
    ensures e.Grows(JumpTo(e, t, short, site, pc)) && e.Grows(JumpUnlessZero(e, c, t, short, site, pc))
  {
    hide Emitter.ClearBoth;
    hide Tail;
  }

  lemma GrowsAlong(a: Emitter, b: Emitter, c: Emitter)
    requires a.Grows(b) && b.Grows(c)
    ensures a.Grows(c)
  {
  }

  lemma JumpOpGrows(e: Emitter, pc: nat, site: Calls.Site, imm: nat)
    ensures e.Grows(JumpOp(e, pc, site, imm))
  {
    hide Exec;
    hide Emitter.ClearBoth;
    hide Emitter.CachePop;
    hide JumpTo;
    hide JumpUnlessZero;
    hide PushReturn;
    hide Uxn.OpOf;
    var r, short := Uxn.FlagR(e.opcode), Uxn.Flag2(e.opcode);
    hide Uxn.FlagR;
    hide Uxn.Flag2;
    var i := Op1(MOV_U16, R(TMP), Imm(imm));
    var tmp := e.Emit(i);
    var (e1, x) := e.CachePop(short, r);
    var (e2, y) := e1.CachePop(false, r);
    var (e3, z) := e.CachePop(false, false);
    assert e.Grows(tmp) && e3.Grows(e3.Emit(i)) && e.Grows(e);
    hide Emitter.Emit;
    hide Emitter.Grows;
    match Uxn.OpOf(e.opcode)
    case Jmp =>
      JumpToGrows(e1, x, x, short, site, pc);
      GrowsAlong(e, e1, JumpOp(e, pc, site, imm));
    case Jcn =>
      JumpToGrows(e2, y, x, short, site, pc);
      GrowsAlong(e, e1, e2);
      GrowsAlong(e, e2, JumpOp(e, pc, site, imm));
    case Jsr =>
      PushReturnGrows(e1, pc, !r);
      JumpToGrows(PushReturn(e1, pc, !r), x, x, short, site, pc);
      GrowsAlong(e, e1, PushReturn(e1, pc, !r));
      GrowsAlong(e, PushReturn(e1, pc, !r), JumpOp(e, pc, site, imm));
    case Jci =>
      JumpToGrows(e3.Emit(i), z, TMP, true, site, pc);
      GrowsAlong(e, e3, e3.Emit(i));
      GrowsAlong(e, e3.Emit(i), JumpOp(e, pc, site, imm));
    case Jmi =>
      JumpToGrows(tmp, TMP, TMP, true, site, pc);
      GrowsAlong(e, tmp, JumpOp(e, pc, site, imm));
    case Jsi =>
      PushReturnGrows(tmp, pc, true);
      JumpToGrows(PushReturn(tmp, pc, true), TMP, TMP, true, site, pc);
      GrowsAlong(e, tmp, PushReturn(tmp, pc, true));
      GrowsAlong(e, PushReturn(tmp, pc, true), JumpOp(e, pc, site, imm));
    case Brk => BreakGrows(e);
    case _ =>
  }

  lemma BreakGrows(e: Emitter)
    ensures e.Grows(Append(e.ClearBoth(), [Leave(Imm(Calls.BREAK))]))
  {
    hide Emitter.ClearBoth;
    hide Exec;
  }

  lemma EmitAtGrows(e: Emitter, t: Tracker, rom: Uxn.Bytes, pc: nat)
    ensures e.Grows(EmitAt(e, t, rom, pc))
  {
    hide JumpOp;
    hide DeviceOp;
    hide EmitOpcode;
    hide Emitter.Begin;
    var code := Uxn.Peek(rom, pc);
    DeviceOpGrows(e.Begin(code));
    JumpOpGrows(e.Begin(code), PcAfter(code, pc), SiteAt(t, rom, code, pc), ImmediateTarget(rom, code, pc));
  }

  lemma {:induction false} StretchGrows(e: Emitter, t: Tracker, rom: Uxn.Bytes, pc: nat, n: nat)
    ensures e.Grows(StretchEmitted(e, t, rom, pc, n))
    decreases n
  {
    hide EmitAt;
    if n > 0 {
      EmitAtGrows(e, t, rom, pc);
      StretchGrows(EmitAt(e, t, rom, pc), TrackAt(t, rom, pc), rom, PcAfter(Uxn.Peek(rom, pc), pc), n - 1);
    }
  }

  /** The reference goes through "n" opcodes of the stretch. */
  ghost predicate PassesThrough(t: Tracker, vm: Uxn.Vm, rom: Uxn.Bytes, n: nat)
    decreases n
  {
    n == 0 ||
    (Faithful(t, vm, rom) && FallsThrough(vm, rom)
     && PassesThrough(TrackAt(t, rom, vm.pc), Uxn.Step(vm).value, rom, n - 1))
  }

  /** The tracker after "n" opcodes. */
  function TrackerAt(t: Tracker, rom: Uxn.Bytes, pc: nat, n: nat): Tracker
    decreases n
  {
    if n == 0 then t else TrackerAt(TrackAt(t, rom, pc), rom, PcAfter(Uxn.Peek(rom, pc), pc), n - 1)
  }

  lemma OriginsChain(a: Snap, b: Snap, c: Snap)
    requires SameOrigins(a, b) && SameOrigins(b, c)
    ensures SameOrigins(a, c)
  {
  }

  /** The jump that ends a stretch of "n" opcodes. */
  lemma {:induction false} StretchExit(e: Emitter, t: Tracker, m: Machine, s: Snap, held: multiset<Reg>, vm0: Uxn.Vm, vm: Uxn.Vm, rom: Uxn.Bytes, n: nat)
    requires Good(e, m, s, held) && Mirrors(s, vm) && SameOrigins(StartSnap(m, vm0), s)
    requires PassesThrough(t, vm, rom, n)
    requires var vmn := RunReference(vm, n); Faithful(TrackerAt(t, rom, vm.pc, n), vmn, rom) && !FallsThrough(vmn, rom)
    requires !StretchEmitted(e, t, rom, vm.pc, n + 1).Hazard()
    ensures var vmn := RunReference(vm, n);
      Arrives(m, vm0, Run(StretchEmitted(e, t, rom, vm.pc, n + 1), m), RunReference(vm, n + 1),
        SiteAt(TrackerAt(t, rom, vm.pc, n), rom, Uxn.Peek(rom, vmn.pc), vmn.pc))
    decreases n
  {
    hide Good;
    hide Arrives;
    hide Faithful;
    hide FallsThrough;
    hide EmitAt;
    hide SiteAt;
    hide TrackAt;
    hide PcAfter;
    hide Uxn.Step;
    hide Exec;
    StretchGrows(EmitAt(e, t, rom, vm.pc), TrackAt(t, rom, vm.pc), rom, PcAfter(Uxn.Peek(rom, vm.pc), vm.pc), n);
    FaithfulSteps(TrackerAt(t, rom, vm.pc, n), RunReference(vm, n), rom);
    var s', held' := OpcodeResult(e, t, m, s, held, vm0, vm, rom);
    if n == 0 {
      assert RunReference(vm, 1) == RunReference(Uxn.Step(vm).value, 0);
    } else {
      FaithfulSteps(t, vm, rom);
      OriginsChain(StartSnap(m, vm0), s, s');
      StretchExit(EmitAt(e, t, rom, vm.pc), TrackAt(t, rom, vm.pc), m, s', held', vm0, Uxn.Step(vm).value, rom, n - 1);
    }
  }

  lemma FaithfulSteps(t: Tracker, vm: Uxn.Vm, rom: Uxn.Bytes)
    requires Faithful(t, vm, rom)
    ensures Uxn.Step(vm).Some?
  {
    hide Uxn.Step;
  }

  /** The emitter where a stretch begins: at the start of a block, or after a native call has
      returned, when nothing is cached and the memory base is unknown. */
  ghost predicate Starts(e: Emitter, held: multiset<Reg>) {
    Inv(e, held) && e.code == [] && e.memBase == 0 && e.wcache == [] && e.rcache == []
  }

  lemma StartGood(e: Emitter, held: multiset<Reg>, m: Machine, vm: Uxn.Vm)
    requires Starts(e, held) && Compiler.Holds(m, vm)
    ensures Good(e, m, StartSnap(m, vm), held)
  {
    EmptyGood(m, vm);
    assert Run(e, m) == m && Run(EMPTY, m) == m;
    hide Exec;
    hide Inv;
    hide SideRel;
  }

  /** From any machine that holds the state of the virtual machine, the code emitted for a
      stretch, through opcodes that fall through to the first that does not, leaves the machine
      holding the state the reference reaches, and control at the reference's address. */
  lemma StretchCorrect(e: Emitter, held: multiset<Reg>, t: Tracker, m: Machine, vm: Uxn.Vm, rom: Uxn.Bytes, n: nat)
    requires Starts(e, held) && Compiler.Holds(m, vm) && PassesThrough(t, vm, rom, n)
    requires var vmn := RunReference(vm, n); Faithful(TrackerAt(t, rom, vm.pc, n), vmn, rom) && !FallsThrough(vmn, rom)
    requires !StretchEmitted(e, t, rom, vm.pc, n + 1).Hazard()
    ensures var vmn := RunReference(vm, n);
      Arrives(m, vm, Run(StretchEmitted(e, t, rom, vm.pc, n + 1), m), RunReference(vm, n + 1),
        SiteAt(TrackerAt(t, rom, vm.pc, n), rom, Uxn.Peek(rom, vmn.pc), vmn.pc))
  {
    hide Arrives;
    hide Faithful;
    hide FallsThrough;
    hide Exec;
    hide StretchEmitted;
    hide PassesThrough;
    hide RunReference;
    StartGood(e, held, m, vm);
    hide Good;
    hide Compiler.Holds;
    StretchExit(e, t, m, StartSnap(m, vm), held, vm, vm, rom, n);
  }
}
