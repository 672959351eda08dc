/** The opcodes that jump: what is emitted for them, and where the emitted code goes. */
module Jumps {
  import opened Words
  import opened Target
  import opened Emission
  import opened Allocator
  import opened Rings
  import opened CacheRuns
  import opened CacheSound
  import opened PopSound
  import opened Popping
  import opened OpStart
  import opened Values
  import opened OpSound
  import opened Compiler
  import Calls
  import Facts
  import Uxn

  // ---- emission ----

  /** The jump to the target in a register: linked if the target was known, and checked again
      unless it is immediate; the return to the trampoline is always right. */
  function JumpAbs(reg: Reg, site: Calls.Site): seq<Instr> {
    match site
    case Dynamic => [Leave(R(reg))]
    case Constant(c, immediate, ret) =>
      if ret == 0 then [if immediate then JumpBody(c) else JumpBodyIfEqual(reg, c), Leave(R(reg))]
      else [if immediate then CallHead(c, ret) else IfEqual(reg, c, [CallHead(c, ret)]), Leave(R(reg))]
  }

  /** A jump to an absolute address, or to one relative to "pc". */
  function Tail(reg: Reg, short: bool, site: Calls.Site, pc: nat): seq<Instr> {
    (if short then [] else [Op1(MOV_S8, R(reg), R(reg)), Op2(Alu.ADD, reg, R(reg), Imm(pc))]) + JumpAbs(reg, site)
  }

  /** What the compiler takes a popped target for. */
  function SiteOf(k: Facts.Known, pc: nat, ret: nat): Calls.Site {
    if !k.constant then Calls.Dynamic
    else Calls.Constant(if k.short then k.value else (pc + SignExtend8(k.value)) % WORD % 0x1_0000, false, ret)
  }

  function Append(e: Emitter, code: seq<Instr>): Emitter {
    e.(code := e.code + code)
  }

  /** Native calls invalidate the cached memory base. */
  function Departed(e: Emitter, site: Calls.Site): Emitter {
    if site.Constant? && site.ret != 0 then e.(memBase := 0) else e
  }

  /** JMP and JSR to a popped target, after the pop of the target into "t". */
  function JumpTo(e: Emitter, t: Reg, short: bool, site: Calls.Site, pc: nat): Emitter {
    Departed(Append(e.ClearBoth(), Tail(t, short, site, pc)), site)
  }

  function JumpUnlessZero(e: Emitter, c: Reg, t: Reg, short: bool, site: Calls.Site, pc: nat): Emitter {
    e.ClearBoth().Emit(UnlessLowByteZero(c, Tail(t, short, site, pc)))
  }

  /** Pushes the return address of a call. */
  function PushReturn(e: Emitter, pc: nat, to: bool): Emitter {
    var (e1, p) := e.Alloc();
    e1.Emit(Op1(MOV_U16, R(p), Imm(pc))).Push(p, true, to)
  }

  /** The jumping opcodes, at address "pc" after the opcode and its immediate operand, which is
      "immediate" for the three immediate jumps. */
  function JumpOp(e: Emitter, pc: nat, site: Calls.Site, immediate: nat): Emitter {
    var r, short := Uxn.FlagR(e.opcode), Uxn.Flag2(e.opcode);
    match Uxn.OpOf(e.opcode)
    case Jmp => var (e1, t) := e.CachePop(short, r); JumpTo(e1, t, short, site, pc)
    case Jcn =>
      var (e1, t) := e.CachePop(short, r);
      var (e2, c) := e1.CachePop(false, r);
      JumpUnlessZero(e2, c, t, short, site, pc)
    case Jsr =>
      var (e1, t) := e.CachePop(short, r);
      JumpTo(PushReturn(e1, pc, !r), t, short, site, pc)
    case Jci =>
      var (e1, c) := e.CachePop(false, false);
      JumpUnlessZero(e1.Emit(Op1(MOV_U16, R(TMP), Imm(immediate))), c, TMP, true, site, pc)
    case Jmi => JumpTo(e.Emit(Op1(MOV_U16, R(TMP), Imm(immediate))), TMP, true, site, pc)
    case Jsi => JumpTo(PushReturn(e.Emit(Op1(MOV_U16, R(TMP), Imm(immediate))), pc, true), TMP, true, site, pc)
    case Brk => Append(e.ClearBoth(), [Leave(Imm(Calls.BREAK))])
    case _ => e
  }

  // ---- where the code goes ----

  /** The exit of the machine for an exit of the protocol; returned values are 32 bits wide. */
  function Outcome(exit: Calls.Exit): Exit {
    match exit
    case Return(t) => Returned(t % 0x1_0000_0000)
    case JumpBody(t) => Jumped(t)
    case CallHead(t, ret) => Called(t, ret)
  }

  /** The linked jump or call in front of the fallback. */
  function Linked(reg: Reg, c: nat, immediate: bool, ret: nat): Instr {
    if ret == 0 then (if immediate then JumpBody(c) else JumpBodyIfEqual(reg, c))
    else (if immediate then CallHead(c, ret) else IfEqual(reg, c, [CallHead(c, ret)]))
  }

  lemma LinkedRuns(reg: Reg, c: nat, immediate: bool, ret: nat, m: Machine)
    requires m.exit == Running && reg < |m.regs|
    ensures Step(Linked(reg, c, immediate, ret), m) ==
      if !immediate && m.regs[reg] != c then m
      else m.(exit := if ret == 0 then Jumped(c) else Called(c, ret))
  {
    hide Exec;
    hide Calc;
    ExecOne(CallHead(c, ret), m);
  }

  lemma LeaveRuns(reg: Reg, m: Machine)
    requires reg < |m.regs|
    ensures Step(Leave(R(reg)), m) == if m.exit == Running then m.(exit := Returned(m.regs[reg] % 0x1_0000_0000)) else m
  {
    hide Exec;
    hide Calc;
  }

  lemma JumpAbsRuns(reg: Reg, site: Calls.Site, m: Machine)
    requires m.exit == Running && reg < |m.regs|
    ensures Exec(JumpAbs(reg, site), m) == m.(exit := Outcome(Calls.Taken(site, m.regs[reg])))
  {
    hide Step;
    hide Exec;
    LeaveRuns(reg, m);
    match site
    case Dynamic => ExecOne(Leave(R(reg)), m);
    case Constant(c, immediate, ret) =>
      var first := Linked(reg, c, immediate, ret);
      assert JumpAbs(reg, site) == [first] + [Leave(R(reg))];
      ExecSnoc([first], Leave(R(reg)), m);
      ExecOne(first, m);
      LinkedRuns(reg, c, immediate, ret, m);
      LeaveRuns(reg, Step(first, m));
  }

  /** The address a jump goes to when its operand has value "x". */
  function Reached(short: bool, pc: nat, x: nat): nat {
    if short then x else (pc + SignExtend8(x)) % WORD
  }

  lemma TailRuns(reg: Reg, short: bool, site: Calls.Site, pc: nat, m: Machine)
    requires m.exit == Running && reg < |m.regs|
    ensures var v := Reached(short, pc, m.regs[reg]);
      Exec(Tail(reg, short, site, pc), m) ==
        m.(regs := m.regs[reg := v], exit := Outcome(Calls.Taken(site, v)))
  {
    hide Calc;
    hide Step;
    hide SignExtend8;
    var v := Reached(short, pc, m.regs[reg]);
    if short {
      assert Tail(reg, short, site, pc) == JumpAbs(reg, site);
      assert m.regs[reg := v] == m.regs;
      JumpAbsRuns(reg, site, m);
    } else {
      var i, j := Op1(MOV_S8, R(reg), R(reg)), Op2(Alu.ADD, reg, R(reg), Imm(pc));
      assert [i, j] == [i] + [j];
      ExecAppend([i, j], JumpAbs(reg, site), m);
      ExecSnoc([i], j, m);
      ExecOne(i, m);
      StepMov(MOV_S8, reg, reg, m);
      StepAluImm(Alu.ADD, reg, reg, pc, Step(i, m));
      assert Calc(Alu.ADD, SignExtend8(m.regs[reg]), pc) == v by { AddCommutes(m.regs[reg], pc); }
      var m2 := m.(regs := m.regs[reg := v]);
      assert Exec([i, j], m) == m2;
      JumpAbsRuns(reg, site, m2);
    }
  }

  lemma AddCommutes(x: nat, pc: nat)
    ensures Calc(Alu.ADD, SignExtend8(x), pc) == (pc + SignExtend8(x)) % WORD
  {
  }

  // ---- relative targets ----

  /** A relative jump whose displacement stays inside the address space. */
  predicate Inside(short: bool, pc: nat, x: nat) {
    short || 0 <= pc + (if x % 256 < 128 then x % 256 else x % 256 - 256) < 0x1_0000
  }

  /** The target register of a jump holds the reference's target exactly when the displacement
      stays inside the address space: it is never masked.  Past the end it reads as a BRK. */
  lemma ReachedExact(short: bool, pc: nat, x: nat)
    requires pc < 0x1_0000 && x < (if short then 0x1_0000 else 256)
    ensures Reached(short, pc, x) % 0x1_0000_0000 == Uxn.JumpTarget(pc, short, x) <==> Inside(short, pc, x)
    ensures Inside(short, pc, x) ==> Reached(short, pc, x) < 0x1_0000
    ensures !Inside(short, pc, x) ==> Reached(short, pc, x) % 0x1_0000_0000 >= Calls.BREAK
  {
  }

  // ---- arriving ----

  /** Control has left for "pc"; a call also carries the return address of its site, which is
      not 0.  Only a return can leave the address space. */
  predicate GoesTo(exit: Exit, pc: nat, ret: nat) {
    match exit
    case Returned(t) => t == pc
    case Jumped(t) => t == pc < 0x1_0000
    case Called(t, back) => t == pc < 0x1_0000 && back == ret != 0
    case Running => false
  }

  function ReturnAddress(site: Calls.Site): nat {
    if site.Constant? then site.ret else 0
  }

  /** The machine holds the state of the virtual machine and has left for its address. */
  ghost predicate ArrivesAt(m: Machine, vm: Uxn.Vm, m': Machine, vm': Uxn.Vm, ret: nat) {
    && Compiler.Holds(m'.(exit := Running), vm') && PointersMatch(m, vm, m', vm')
    && GoesTo(m'.exit, vm'.pc, ret)
  }

  /** It has left in the way the compiler has foreseen for a jump to that address: by the linked
      jump or call wherever the address is the one it knew. */
  ghost predicate Arrives(m: Machine, vm: Uxn.Vm, m': Machine, vm': Uxn.Vm, site: Calls.Site) {
    ArrivesAt(m, vm, m', vm', ReturnAddress(site)) && m'.exit == Outcome(Calls.Taken(site, vm'.pc))
  }

  /** Moving on from a machine that holds the state: one free register and the exit change. */
  lemma LeavesHolding(m: Machine, vm: Uxn.Vm, m1: Machine, vm': Uxn.Vm, reg: Reg, v: nat, site: Calls.Site)
    requires Compiler.Holds(m1, vm') && PointersMatch(m, vm, m1, vm') && reg < VM && GoesTo(Outcome(Calls.Taken(site, vm'.pc)), vm'.pc, ReturnAddress(site))
    ensures Arrives(m, vm, m1.(regs := m1.regs[reg := v], exit := Outcome(Calls.Taken(site, vm'.pc))), vm', site)
  {
    hide Live;
    hide Bottom;
    hide AreBytes;
  }

  /** A held register keeps its value while the caches are cleared. */
  lemma ClearedValue(e: Emitter, m0: Machine, s: Snap, held: multiset<Reg>, reg: Reg)
    requires Good(e, m0, s, held) && reg in s.vals
    ensures var m := Run(e.ClearBoth(), m0); m.exit == Running && reg < VM && |m.regs| == NUM_REGS && m.regs[reg] == s.vals[reg]
  {
    ClearBothGood(e, m0, s, held);
    HeldValue(e.ClearBoth(), m0, s, held, reg);
    hide Good;
    hide Exec;
  }

  lemma Exits(site: Calls.Site, v: nat, pc: nat)
    requires pc < 0x1_0000 && if site.Constant? && site.immediate then site.target == pc else v == pc
    ensures GoesTo(Outcome(Calls.Taken(site, v)), pc, ReturnAddress(site)) && Calls.Taken(site, v) == Calls.Taken(site, pc)
  {
  }

  /** The caches are cleared and the target held in "t" is reached. */
  lemma JumpToArrives(e: Emitter, t: Reg, short: bool, site: Calls.Site, pc: nat, m: Machine, s: Snap, held: multiset<Reg>,
                      vm: Uxn.Vm, vm': Uxn.Vm)
    requires Good(e, m, s, held) && Mirrors(s, vm') && SameOrigins(StartSnap(m, vm), s)
    requires t in s.vals && Reached(short, pc, s.vals[t]) == vm'.pc < 0x1_0000
    requires site.Constant? ==> !site.immediate
    ensures Arrives(m, vm, Run(JumpTo(e, t, short, site, pc), m), vm', site)
  {
    hide Good;
    hide Exec;
    hide Emitter.ClearBoth;
    hide Calls.Taken;
    hide Compiler.Holds;
    hide PointersMatch;
    ClearedHolds(e, m, s, held, vm, vm');
    ClearedValue(e, m, s, held, t);
    var m1 := Run(e.ClearBoth(), m);
    ExecAppend(e.ClearBoth().code, Tail(t, short, site, pc), m);
    TailRuns(t, short, site, pc, m1);
    Exits(site, vm'.pc, vm'.pc);
    LeavesHolding(m, vm, m1, vm', t, vm'.pc, site);
  }

  /** An immediate jump needs no register. */
  lemma ImmediateArrives(e: Emitter, site: Calls.Site, pc: nat, m: Machine, s: Snap, held: multiset<Reg>, vm: Uxn.Vm, vm': Uxn.Vm)
    requires Good(e, m, s, held) && Mirrors(s, vm') && SameOrigins(StartSnap(m, vm), s)
    requires site.Constant? && site.immediate && site.target == vm'.pc < 0x1_0000
    ensures Arrives(m, vm, Run(JumpTo(e, TMP, true, site, pc), m), vm', site)
  {
    hide Exec;
    hide Emitter.ClearBoth;
    hide Calls.Taken;
    ClearedHolds(e, m, s, held, vm, vm');
    hide Good;
    var m1 := Run(e.ClearBoth(), m);
    assert m1.exit == Running && |m1.regs| == NUM_REGS by { hide PointersMatch; }
    hide Compiler.Holds;
    hide PointersMatch;
    ExecAppend(e.ClearBoth().code, Tail(TMP, true, site, pc), m);
    TailRuns(TMP, true, site, pc, m1);
    Exits(site, m1.regs[TMP], vm'.pc);
    LeavesHolding(m, vm, m1, vm', TMP, m1.regs[TMP], site);
  }

  // ---- the opcodes ----

  /** An opcode that jumps, at the point after "Begin", and what the reference makes of it:
      "pc" is the address after the opcode and its immediate operand. */
  ghost predicate Applied(op: Uxn.Op, short: bool, s: Snap, r: bool, k: bool, rest: Uxn.Bytes, args: seq<nat>, vm': Uxn.Vm, eff: Uxn.Effect) {
    && Uxn.PopAll(s.Stack(r), Uxn.Shape(op, short)) == Uxn.Some((rest, args))
    && Fits(s, r, k, rest, eff)
    && vm' == Uxn.Vm(eff.pc, [], [], eff.ram, s.io).With(r, (if k then s.Stack(r) else rest) + eff.cur, s.Stack(!r) + eff.oth)
  }

  lemma RestMirrors(s: Snap, r: bool, k: bool, rest: Uxn.Bytes, vm': Uxn.Vm, eff: Uxn.Effect)
    requires vm' == Uxn.Vm(eff.pc, [], [], eff.ram, s.io).With(r, (if k then s.Stack(r) else rest) + eff.cur, s.Stack(!r) + eff.oth)
    requires eff.cur == [] && eff.oth == [] && eff.ram == s.ram
    ensures Mirrors(Rest(s, r, k, rest), vm')
  {
    assert rest + [] == rest && s.Stack(r) + [] == s.Stack(r) && s.Stack(!r) + [] == s.Stack(!r);
  }

  /** JMP: the popped target is reached, whether or not it was known. */
  lemma JmpSound(e: Emitter, pc: nat, site: Calls.Site, m: Machine, s: Snap, held: multiset<Reg>, short: bool, r: bool, k: bool,
                 rest: Uxn.Bytes, args: seq<nat>, vm: Uxn.Vm, vm': Uxn.Vm)
    requires Started(e, m, s, held, r, k) && SameOrigins(StartSnap(m, vm), s) && |args| == 1
    requires Applied(Uxn.Jmp, short, s, r, k, rest, args, vm', Uxn.Effect([], [], s.ram, Reached(short, pc, args[0])))
    requires site.Constant? ==> !site.immediate
    requires var (e1, t) := e.CachePop(short, r); !JumpTo(e1, t, short, site, pc).Hazard()
    requires Inside(short, pc, args[0]) && pc < 0x1_0000
    ensures var (e1, t) := e.CachePop(short, r);
      Arrives(m, vm, Run(JumpTo(e1, t, short, site, pc), m), vm', site)
  {
    hide Started;
    hide Good;
    hide InPops;
    hide Emitter.CachePop;
    hide Reached;
    hide Inside;
    hide Emitter.ClearBoth;
    PopOne(s.Stack(r), short);
    var s1, held1 := PopStep1(e, m, s, held, short, r, k);
    var (e1, t) := e.CachePop(short, r);
    RestMirrors(s, r, k, rest, vm', Uxn.Effect([], [], s.ram, Reached(short, pc, args[0])));
    ReachedExact(short, pc, args[0]);
    JumpToArrives(e1, t, short, site, pc, m, s1, held1, vm, vm');
  }

  // ---- conditional jumps ----

  /** A conditional jump that is not taken leaves the emitted code running. */
  lemma NotTakenGood(e: Emitter, c: Reg, t: Reg, short: bool, site: Calls.Site, pc: nat, m: Machine, s: Snap, held: multiset<Reg>)
    requires Good(e, m, s, held) && c in s.vals && s.vals[c] == 0
    ensures Good(JumpUnlessZero(e, c, t, short, site, pc), m, s, held)
  {
    ClearBothGood(e, m, s, held);
    HeldValue(e.ClearBoth(), m, s, held, c);
    var e1, e' := e.ClearBoth(), JumpUnlessZero(e, c, t, short, site, pc);
    BooksInv(e1, e', held);
    hide Emitter.ClearBoth;
    hide Exec;
    UnlessRuns(c, Tail(t, short, site, pc), Run(e1, m));
    hide Step;
    hide Inv;
    hide SideRel;
  }

  lemma UnlessRuns(c: Reg, body: seq<Instr>, m: Machine)
    requires m.exit == Running && c < |m.regs|
    ensures Step(UnlessLowByteZero(c, body), m) == if m.regs[c] % 256 == 0 then m else Exec(body, m)
  {
    AndByte(m.regs[c]);
    hide And;
    hide Exec;
  }

  lemma TakenArrives(e: Emitter, c: Reg, t: Reg, short: bool, site: Calls.Site, pc: nat, m: Machine, s: Snap, held: multiset<Reg>,
                     vm: Uxn.Vm, vm': Uxn.Vm)
    requires Good(e, m, s, held) && Mirrors(s, vm') && SameOrigins(StartSnap(m, vm), s)
    requires c in s.vals && 0 < s.vals[c] < 256
    requires if site.Constant? && site.immediate then short && t == TMP && site.target == vm'.pc < 0x1_0000
             else t in s.vals && Reached(short, pc, s.vals[t]) == vm'.pc < 0x1_0000
    ensures Arrives(m, vm, Run(JumpUnlessZero(e, c, t, short, site, pc), m), vm', site)
  {
    hide Exec;
    hide Good;
    hide Arrives;
    hide JumpTo;
    hide JumpUnlessZero;
    hide StartSnap;
    hide Reached;
    ClearedValue(e, m, s, held, c);
    TakenRuns(e, c, t, short, site, pc, m);
    if site.Constant? && site.immediate {
      ImmediateArrives(e, site, pc, m, s, held, vm, vm');
    } else {
      JumpToArrives(e, t, short, site, pc, m, s, held, vm, vm');
    }
  }

  lemma TakenRuns(e: Emitter, c: Reg, t: Reg, short: bool, site: Calls.Site, pc: nat, m: Machine)
    requires var m1 := Run(e.ClearBoth(), m); m1.exit == Running && c < |m1.regs| && m1.regs[c] % 256 != 0
    ensures Run(JumpUnlessZero(e, c, t, short, site, pc), m) == Run(JumpTo(e, t, short, site, pc), m)
  {
    hide Emitter.ClearBoth;
    hide Exec;
    hide Tail;
    UnlessRuns(c, Tail(t, short, site, pc), Run(e.ClearBoth(), m));
    ExecAppend(e.ClearBoth().code, Tail(t, short, site, pc), m);
    hide Step;
  }

  /** JCN: the target is reached if the condition is not zero; otherwise execution goes on. */
  lemma JcnSound(e: Emitter, pc: nat, site: Calls.Site, m: Machine, s: Snap, held: multiset<Reg>, short: bool, r: bool, k: bool,
                 rest: Uxn.Bytes, args: seq<nat>, vm: Uxn.Vm, vm': Uxn.Vm) returns (s': Snap, held': multiset<Reg>)
    requires Started(e, m, s, held, r, k) && SameOrigins(StartSnap(m, vm), s) && |args| == 2
    requires Applied(Uxn.Jcn, short, s, r, k, rest, args, vm',
      Uxn.Effect([], [], s.ram, if args[1] != 0 then Reached(short, pc, args[0]) else pc))
    requires site.Constant? ==> !site.immediate
    requires var (e1, t) := e.CachePop(short, r); var (e2, c) := e1.CachePop(false, r);
      !JumpUnlessZero(e2, c, t, short, site, pc).Hazard()
    requires Inside(short, pc, args[0]) && pc < 0x1_0000
    ensures var (e1, t) := e.CachePop(short, r); var (e2, c) := e1.CachePop(false, r);
      var e' := JumpUnlessZero(e2, c, t, short, site, pc);
      if args[1] != 0 then Arrives(m, vm, Run(e', m), vm', site)
      else Good(e', m, s', held') && Mirrors(s', vm') && SameOrigins(s, s') && vm'.pc == pc
  {
    hide Started;
    hide Good;
    hide InPops;
    hide Arrives;
    hide Emitter.CachePop;
    hide Reached;
    hide Inside;
    hide Emitter.ClearBoth;
    PopTwo(s.Stack(r), short, false);
    var (e1, t) := e.CachePop(short, r);
    var (e2, c) := e1.CachePop(false, r);
    assert !e2.Hazard();
    s', held' := PopStep2(e, m, s, held, short, false, r, k);
    RestMirrors(s, r, k, rest, vm', Uxn.Effect([], [], s.ram, if args[1] != 0 then Reached(short, pc, args[0]) else pc));
    ReachedExact(short, pc, args[0]);
    if args[1] != 0 {
      TakenArrives(e2, c, t, short, site, pc, m, s', held', vm, vm');
    } else {
      NotTakenGood(e2, c, t, short, site, pc, m, s', held');
    }
  }

  // ---- immediate jumps and calls ----

  /** The unused register of an immediate target. */
  lemma TmpGood(e: Emitter, v: nat, m: Machine, s: Snap, held: multiset<Reg>)
    requires Good(e, m, s, held)
    ensures Good(e.Emit(Op1(MOV_U16, R(TMP), Imm(v))), m, s, held)
    ensures SameFrame(e, e.Emit(Op1(MOV_U16, R(TMP), Imm(v))))
  {
    hide Exec;
    hide Step;
    var e' := e.Emit(Op1(MOV_U16, R(TMP), Imm(v)));
    assert Calm(Run(e, m)) && BaseOk(e, Run(e, m)) && GoodCache(e.wcache) && GoodCache(e.rcache);
    StepMovImm(MOV_U16, TMP, v, Run(e, m));
    BaseFrame(e, e', Run(e, m), Run(e', m), {TMP});
    RelFrame(e, Run(e, m), e', Run(e', m), s, {TMP});
    hide Rel;
    BooksInv(e, e', held);
  }

  /** JMI. */
  lemma JmiSound(e: Emitter, immediate: nat, pc: nat, site: Calls.Site, m: Machine, s: Snap, held: multiset<Reg>, vm: Uxn.Vm, vm': Uxn.Vm)
    requires Good(e, m, s, held) && Mirrors(s, vm') && SameOrigins(StartSnap(m, vm), s)
    requires site.Constant? && site.immediate && site.target == vm'.pc < 0x1_0000
    ensures Arrives(m, vm, Run(JumpTo(e.Emit(Op1(MOV_U16, R(TMP), Imm(immediate))), TMP, true, site, pc), m), vm', site)
  {
    hide Good;
    hide Arrives;
    TmpGood(e, immediate, m, s, held);
    ImmediateArrives(e.Emit(Op1(MOV_U16, R(TMP), Imm(immediate))), site, pc, m, s, held, vm, vm');
  }

  /** The return address is pushed on the other stack. */
  lemma PushReturnGood(e: Emitter, pc: nat, to: bool, m: Machine, s: Snap, held: multiset<Reg>) returns (s': Snap, held': multiset<Reg>)
    requires Good(e, m, s, held) && |held| < NUM_OPS && |s.Stack(to)| + 2 <= 256 && pc < 0x1_0000
    ensures Good(PushReturn(e, pc, to), m, s', held')
    ensures s' == s.With(to, s.Stack(to) + Uxn.BytesOf(pc, true)).(vals := s'.vals)
    ensures forall x :: x in s.vals ==> x in s'.vals && s'.vals[x] == s.vals[x]
  {
    hide Exec;
    hide Step;
    hide Emitter.Alloc;
    held' := NewReg(e, m, s, held);
    var (e1, p) := e.Alloc();
    var e2 := e1.Emit(Op1(MOV_U16, R(p), Imm(pc)));
    SoleGood(e1, m, s, held', p);
    assert Calm(Run(e1, m)) && BaseOk(e1, Run(e1, m)) by { hide Inv; hide SideRel; }
    hide Good;
    hide BaseOk;
    hide AreBytes;
    StepMovImm(MOV_U16, p, pc, Run(e1, m));
    BaseFrame(e1, e2, Run(e1, m), Run(e2, m), {p});
    ComputedGood(e1, e2, m, s, held', p, pc);
    s' := PushStep(e2, p, true, to, m, s.(vals := s.vals[p := pc]), held');
  }

  /** JSR: the return address is on the other stack when the popped target is reached. */
  lemma JsrSound(e: Emitter, pc: nat, site: Calls.Site, m: Machine, s: Snap, held: multiset<Reg>, short: bool, r: bool, k: bool,
                 rest: Uxn.Bytes, args: seq<nat>, vm: Uxn.Vm, vm': Uxn.Vm)
    requires Started(e, m, s, held, r, k) && SameOrigins(StartSnap(m, vm), s) && |args| == 1
    requires Applied(Uxn.Jsr, short, s, r, k, rest, args, vm',
      Uxn.Effect([], Uxn.BytesOf(pc, true), s.ram, Reached(short, pc, args[0])))
    requires site.Constant? ==> !site.immediate
    requires var (e1, t) := e.CachePop(short, r); !JumpTo(PushReturn(e1, pc, !r), t, short, site, pc).Hazard()
    requires Inside(short, pc, args[0]) && pc < 0x1_0000
    ensures var (e1, t) := e.CachePop(short, r);
      Arrives(m, vm, Run(JumpTo(PushReturn(e1, pc, !r), t, short, site, pc), m), vm', site)
  {
    hide Started;
    hide Good;
    hide InPops;
    hide Arrives;
    hide Emitter.CachePop;
    hide Reached;
    hide Inside;
    hide Emitter.ClearBoth;
    hide Emitter.Alloc;
    PopOne(s.Stack(r), short);
    var (e1, t) := e.CachePop(short, r);
    PushReturnGrows(e1, pc, !r);
    hide PushReturn;
    var s1, held1 := PopStep1(e, m, s, held, short, r, k);
    assert |held1| < NUM_OPS by { HeldFew(e, m, s, held, r, k); }
    var s2, held2 := PushReturnGood(e1, pc, !r, m, s1, held1);
    assert Mirrors(s2, vm') by { ReturnMirrors(s, r, k, rest, pc, vm', s2, Reached(short, pc, args[0])); }
    ReachedExact(short, pc, args[0]);
    JumpToArrives(PushReturn(e1, pc, !r), t, short, site, pc, m, s2, held2, vm, vm');
  }

  lemma PushReturnGrows(e: Emitter, pc: nat, to: bool)
    ensures e.Grows(PushReturn(e, pc, to))
  {
    hide Emitter.Alloc;
  }

  lemma HeldFew(e: Emitter, m: Machine, s: Snap, held: multiset<Reg>, r: bool, k: bool)
    requires Started(e, m, s, held, r, k)
    ensures |held| <= 2
  {
    hide InPops;
  }

  lemma ReturnMirrors(s: Snap, r: bool, k: bool, rest: Uxn.Bytes, pc: nat, vm': Uxn.Vm, s2: Snap, target: nat)
    requires vm' == Uxn.Vm(target, [], [], s.ram, s.io).With(r, (if k then s.Stack(r) else rest) + [], s.Stack(!r) + Uxn.BytesOf(pc, true))
    requires s2.(vals := map[]) ==
      Rest(s, r, k, rest).With(!r, Rest(s, r, k, rest).Stack(!r) + Uxn.BytesOf(pc, true)).(vals := map[])
    ensures Mirrors(s2, vm')
  {
    hide Uxn.BytesOf;
    assert rest + [] == rest && s.Stack(r) + [] == s.Stack(r);
  }

  /** JSI. */
  lemma JsiSound(e: Emitter, immediate: nat, pc: nat, site: Calls.Site, m: Machine, s: Snap, held: multiset<Reg>, vm: Uxn.Vm, vm': Uxn.Vm)
    requires Good(e, m, s, held) && SameOrigins(StartSnap(m, vm), s) && |held| < NUM_OPS && pc < 0x1_0000
    requires |s.r| + 2 <= 256
    requires vm' == Uxn.Vm(vm'.pc, s.w, s.r + Uxn.BytesOf(pc, true), s.ram, s.io)
    requires site.Constant? && site.immediate && site.target == vm'.pc < 0x1_0000
    ensures Arrives(m, vm, Run(JumpTo(PushReturn(e.Emit(Op1(MOV_U16, R(TMP), Imm(immediate))), pc, true), TMP, true, site, pc), m), vm', site)
  {
    hide Good;
    hide Arrives;
    hide Uxn.BytesOf;
    hide PushReturn;
    hide Exec;
    var e1 := e.Emit(Op1(MOV_U16, R(TMP), Imm(immediate)));
    TmpGood(e, immediate, m, s, held);
    var s2, held2 := PushReturnGood(e1, pc, true, m, s, held);
    ImmediateArrives(PushReturn(e1, pc, true), site, pc, m, s2, held2, vm, vm');
  }

  /** JCI: like JCN, with an immediate target. */
  lemma JciSound(e: Emitter, immediate: nat, pc: nat, site: Calls.Site, m: Machine, s: Snap, held: multiset<Reg>,
                 rest: Uxn.Bytes, args: seq<nat>, vm: Uxn.Vm, vm': Uxn.Vm) returns (s': Snap, held': multiset<Reg>)
    requires Started(e, m, s, held, false, false) && SameOrigins(StartSnap(m, vm), s) && |args| == 1
    requires site.Constant? && site.immediate && site.ret == 0 && site.target < 0x1_0000
    requires Applied(Uxn.Jci, false, s, false, false, rest, args, vm',
      Uxn.Effect([], [], s.ram, if args[0] != 0 then site.target else pc))
    requires var (e1, c) := e.CachePop(false, false);
      !JumpUnlessZero(e1.Emit(Op1(MOV_U16, R(TMP), Imm(immediate))), c, TMP, true, site, pc).Hazard()
    ensures var (e1, c) := e.CachePop(false, false);
      var e' := JumpUnlessZero(e1.Emit(Op1(MOV_U16, R(TMP), Imm(immediate))), c, TMP, true, site, pc);
      if args[0] != 0 then Arrives(m, vm, Run(e', m), vm', site)
      else Good(e', m, s', held') && Mirrors(s', vm') && SameOrigins(s, s') && vm'.pc == pc
  {
    hide Started;
    hide Good;
    hide InPops;
    hide Arrives;
    hide Emitter.CachePop;
    hide Emitter.ClearBoth;
    hide Exec;
    PopOne(s.Stack(false), false);
    var (e1, c) := e.CachePop(false, false);
    var e2 := e1.Emit(Op1(MOV_U16, R(TMP), Imm(immediate)));
    s', held' := PopStep1(e, m, s, held, false, false, false);
    TmpGood(e1, immediate, m, s', held');
    RestMirrors(s, false, false, rest, vm', Uxn.Effect([], [], s.ram, if args[0] != 0 then site.target else pc));
    if args[0] != 0 {
      TakenArrives(e2, c, TMP, true, site, pc, m, s', held', vm, vm');
    } else {
      NotTakenGood(e2, c, TMP, true, site, pc, m, s', held');
    }
  }

  /** BRK: the address past the end of memory is returned. */
  lemma BrkSound(e: Emitter, m: Machine, s: Snap, held: multiset<Reg>, vm: Uxn.Vm, vm': Uxn.Vm)
    requires Good(e, m, s, held) && Mirrors(s, vm') && SameOrigins(StartSnap(m, vm), s) && vm'.pc == Calls.BREAK
    ensures Arrives(m, vm, Run(Append(e.ClearBoth(), [Leave(Imm(Calls.BREAK))]), m), vm', Calls.Dynamic)
  {
    ReturnsConstant(e, Calls.BREAK, m, s, held, vm, vm');
  }

  /** Clearing the caches and returning a known address, as BRK and the zero page do. */
  lemma LeaveConstantRuns(e: Emitter, v: nat, m: Machine)
    requires Run(e, m).exit == Running && v < 0x1_0000_0000
    ensures Run(Append(e, [Leave(Imm(v))]), m) == Run(e, m).(exit := Returned(v))
  {
    hide Exec;
    ExecSnoc(e.code, Leave(Imm(v)), m);
    hide Calc;
  }

  lemma ReturnsConstant(e: Emitter, v: nat, m: Machine, s: Snap, held: multiset<Reg>, vm: Uxn.Vm, vm': Uxn.Vm)
    requires Good(e, m, s, held) && Mirrors(s, vm') && SameOrigins(StartSnap(m, vm), s) && vm'.pc == v < 0x1_0000_0000
    ensures Arrives(m, vm, Run(Append(e.ClearBoth(), [Leave(Imm(v))]), m), vm', Calls.Dynamic)
    ensures Run(Append(e.ClearBoth(), [Leave(Imm(v))]), m).exit == Returned(v)
  {
    hide Exec;
    hide Step;
    hide Good;
    hide Emitter.ClearBoth;
    hide Append;
    ClearedHolds(e, m, s, held, vm, vm');
    var m1 := Run(e.ClearBoth(), m);
    assert m1.exit == Running && |m1.regs| == NUM_REGS by { hide PointersMatch; hide Live; hide AreBytes; }
    hide Compiler.Holds;
    hide PointersMatch;
    hide StartSnap;
    LeaveConstantRuns(e.ClearBoth(), v, m);
    LeavesHolding(m, vm, m1, vm', TMP, m1.regs[TMP], Calls.Dynamic);
    assert m1.regs[TMP := m1.regs[TMP]] == m1.regs;
  }
}
