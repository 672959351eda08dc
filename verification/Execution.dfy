/** Compiled code under the trampoline.  Code is entered at the start of a block or where a
    native call returns; jumps enter other blocks, calls leave a native frame behind, returned
    targets unwind the frames.  Whatever the code does, the machine holds the state the
    interpreter has reached. */
module Execution {
  import opened Target
  import opened Emission
  import opened Allocator
  import opened Rings
  import opened CacheRuns
  import opened CacheSound
  import opened Compiler
  import opened Facts
  import opened FactsSound
  import opened Jumps
  import opened Blocks
  import opened CompileLoop
  import opened DeviceOps
  import opened Relocation
  import opened Frames
  import Calls
  import Uxn

  type Address = x: nat | x < 0x1_0000

  /** The memory that was found when the block of an address was compiled. */
  type Memories = Address -> Uxn.Bytes

  /** A place in the code of a block where it is entered: the address it was compiled for, and the
      emitter and the facts when the compiler got there.  "e.code" is what precedes it in its
      block. */
  datatype Point = Point(pc: Address, e: Emitter, t: Tracker, rom: Uxn.Bytes)

  /** The head or body of the block of an address. */
  function Fresh(pc: nat, roms: Memories): Point {
    Point(pc % 0x1_0000, EMPTY, NoFacts(), roms(pc % 0x1_0000))
  }

  /** The compile loop of the block when it gets to the point. */
  function Here(at: Point): Ctx {
    Ctx(at.e, at.t, at.pc, false)
  }

  /** The same without the code in front. */
  function Context(at: Point): Ctx {
    Ctx(at.e.(code := []), at.t, at.pc, false)
  }

  /** The code of the whole block. */
  function BlockCode(at: Point): seq<Instr> {
    Compile(Here(at), at.rom).e.code
  }

  /** What is left of it from the point on. */
  function CodeFrom(at: Point): seq<Instr> {
    CompileExtends(Here(at), at.rom);
    BlockCode(at)[|at.e.code|..]
  }

  /** The compile loop when it has come to "pc". */
  function ContextAt(c: Ctx, rom: Uxn.Bytes, pc: nat): (c': Ctx)
    requires c.pc < 0x1_0000
    ensures c'.pc < 0x1_0000
    decreases Left(c.pc), if c.done then 0 else if c.pc < 256 then 1 else 2
  {
    if c.done || c.pc == pc then c else ContextAt(NextOpcode(c, rom), rom, pc)
  }

  /** The point behind the call that returns to "ret". */
  function After(at: Point, ret: Address): Point {
    var c := ContextAt(Here(at), at.rom, ret);
    Point(ret, c.e, c.t, at.rom)
  }

  type Native = Frames.Native<Point, Machine>

  /** What follows when the code entered at "at" has left the machine in "m". */
  function Depart(n: Native, at: Point, m: Machine, roms: Memories): Native {
    var still := m.(exit := Exit.Running);
    match m.exit
    case Returned(t) => Native(Unwinding(t), n.frames, still)
    case Jumped(t) => Native(Entering(Fresh(t, roms)), n.frames, still)
    case Called(t, ret) => Native(Entering(Fresh(t, roms)), n.frames + [After(at, ret % 0x1_0000)], still)
    case Running => n.(state := m)
  }

  function NativeStep(n: Native, roms: Memories): Native {
    match n.mode
    case Entering(at) => Depart(n, at, Exec(CodeFrom(at), n.state), roms)
    case Unwinding(t) =>
      if n.frames == [] then n.(mode := if Calls.Compilable(t) then Entering(Fresh(t, roms)) else Halted(t))
      else
        var top := |n.frames| - 1;
        n.(mode := if t == n.frames[top].pc then Entering(n.frames[top]) else Unwinding(t), frames := n.frames[..top])
    case Halted(_) => n
  }

  function NativeRun(n: Native, roms: Memories, k: nat): Native
    decreases k
  {
    if k == 0 then n else NativeRun(NativeStep(n, roms), roms, k - 1)
  }

  // ---- how far the reference goes while the code runs ----

  /** How many opcodes the reference falls through from "vm" on. */
  ghost function Passes(t: Tracker, vm: Uxn.Vm, rom: Uxn.Bytes): nat
    requires vm.pc < 0x1_0000
    decreases Left(vm.pc)
  {
    if Faithful(t, vm, rom) && FallsThrough(vm, rom) then
      FallsTo(t, vm, rom);
      LeftAfter(Uxn.Peek(rom, vm.pc), vm.pc);
      FaithfulNext(t, vm, rom);
      1 + Passes(TrackAt(t, rom, vm.pc), Uxn.Step(vm).value, rom)
    else 0
  }

  /** The reference is one the code is meant for: it falls through to an opcode that jumps, or
      into the zero page, and the code that is run for it has no hazard. */
  ghost predicate Fair(at: Point, vm: Uxn.Vm)
    requires vm.pc < 0x1_0000
  {
    var n := Passes(at.t, vm, at.rom);
    var vm' := RunReference(vm, n);
    && !Rounds(Context(at), at.rom, n + 1).e.Hazard()
    && (vm'.pc < 256 || Faithful(TrackerAt(at.t, at.rom, vm.pc, n), vm', at.rom))
  }

  /** How many steps the reference takes while the code runs. */
  ghost function StepsTaken(at: Point, vm: Uxn.Vm): nat
    requires vm.pc < 0x1_0000
  {
    var n := Passes(at.t, vm, at.rom);
    if RunReference(vm, n).pc < 256 then n else n + 1
  }

  lemma {:induction false} PassesAll(t: Tracker, vm: Uxn.Vm, rom: Uxn.Bytes)
    requires vm.pc < 0x1_0000
    ensures var n := Passes(t, vm, rom); var vm' := RunReference(vm, n);
      PassesThrough(t, vm, rom, n) && !(Faithful(TrackerAt(t, rom, vm.pc, n), vm', rom) && FallsThrough(vm', rom))
    decreases Left(vm.pc)
  {
    hide TrackAt;
    hide PcAfter;
    hide Uxn.Step;
    hide Faithful;
    hide FallsThrough;
    if Faithful(t, vm, rom) && FallsThrough(vm, rom) {
      FallsTo(t, vm, rom);
      FaithfulNext(t, vm, rom);
      LeftAfter(Uxn.Peek(rom, vm.pc), vm.pc);
      PassesAll(TrackAt(t, rom, vm.pc), Uxn.Step(vm).value, rom);
    }
  }

  /** While the reference falls through, the emitted code keeps up with it. */
  lemma {:induction false} StretchGood(e: Emitter, t: Tracker, m: Machine, s: Snap, held: multiset<Reg>, vm0: Uxn.Vm, vm: Uxn.Vm, rom: Uxn.Bytes, n: nat)
    returns (s': Snap, held': multiset<Reg>)
    requires Good(e, m, s, held) && Mirrors(s, vm) && SameOrigins(StartSnap(m, vm0), s)
    requires PassesThrough(t, vm, rom, n) && !StretchEmitted(e, t, rom, vm.pc, n).Hazard()
    ensures Good(StretchEmitted(e, t, rom, vm.pc, n), m, s', held')
    ensures Mirrors(s', RunReference(vm, n)) && SameOrigins(StartSnap(m, vm0), s')
    decreases n
  {
    hide Good;
    hide EmitAt;
    hide SiteAt;
    hide TrackAt;
    hide PcAfter;
    hide Uxn.Step;
    hide Exec;
    hide ArrivesAt;
    s', held' := s, held;
    if n > 0 {
      StretchGrows(EmitAt(e, t, rom, vm.pc), TrackAt(t, rom, vm.pc), rom, PcAfter(Uxn.Peek(rom, vm.pc), vm.pc), n - 1);
      s', held' := OpcodeResult(e, t, m, s, held, vm0, vm, rom);
      FaithfulSteps(t, vm, rom);
      FallsTo(t, vm, rom);
      hide Faithful;
      hide FallsThrough;
      OriginsChain(StartSnap(m, vm0), s, s');
      s', held' := StretchGood(EmitAt(e, t, rom, vm.pc), TrackAt(t, rom, vm.pc), m, s', held', vm0, Uxn.Step(vm).value, rom, n - 1);
    }
  }

  // ---- the code of the whole block does what its first rounds do ----

  /** Once control has left, further code changes nothing. */
  lemma {:induction false} LeftForGood(code: seq<Instr>, m: Machine)
    requires m.exit != Exit.Running
    ensures Exec(code, m) == m
    decreases |code|
  {
    if code != [] {
      LeftForGood(code[..|code| - 1], m);
    }
  }

  lemma ExitKept(code: seq<Instr>, all: seq<Instr>, m: Machine)
    requires code <= all && Exec(code, m).exit != Exit.Running
    ensures Exec(all, m) == Exec(code, m)
  {
    ExecAppend(code, all[|code|..], m);
    assert code + all[|code|..] == all;
    LeftForGood(all[|code|..], Exec(code, m));
  }

  lemma NextExtends(c: Ctx, rom: Uxn.Bytes)
    requires c.pc < 0x1_0000
    ensures c.e.code <= NextOpcode(c, rom).e.code
  {
    hide Exec;
    hide Emitter.ClearBoth;
    hide Emitter.Begin;
    hide EmitAt;
    hide TrackAt;
    hide PcAfter;
    hide Skips;
    hide Ends;
    hide TargetPopped;
    var code := Uxn.Peek(rom, c.pc);
    EmitAtGrows(c.e, c.t, rom, c.pc);
    TargetExtends(c.e.Begin(code), PcAfter(code, c.pc));
  }

  lemma TargetExtends(e: Emitter, pc: nat)
    ensures e.code <= TargetPopped(e, pc).0.code
  {
    hide Exec;
    hide Emitter.CachePop;
    hide Emitter.ClearBoth;
    hide PushReturn;
    hide Uxn.OpOf;
    var r, short := Uxn.FlagR(e.opcode), Uxn.Flag2(e.opcode);
    hide Uxn.FlagR;
    hide Uxn.Flag2;
    PushReturnGrows(e.CachePop(short, r).0, pc, !r);
  }

  lemma {:induction false} CompileExtends(c: Ctx, rom: Uxn.Bytes)
    requires c.pc < 0x1_0000
    ensures c.e.code <= Compile(c, rom).e.code
    decreases Left(c.pc), if c.done then 0 else if c.pc < 256 then 1 else 2
  {
    hide NextOpcode;
    if !c.done {
      NextExtends(c, rom);
      CompileExtends(NextOpcode(c, rom), rom);
    }
  }

  // ---- the code in front does not matter ----

  lemma CodeFromAlone(at: Point)
    ensures CodeFrom(at) == Compile(Context(at), at.rom).e.code
  {
    hide Compile;
    CompileExtends(Here(at), at.rom);
    EmissionRelocates(Here(at), at.rom);
    assert Here(at).(e := Here(at).e.(code := [])) == Context(at);
  }

  lemma {:induction false} ContextAtBehind(c: seq<Instr>, x: Ctx, rom: Uxn.Bytes, pc: nat)
    requires x.pc < 0x1_0000
    ensures ContextAt(BehindCtx(c, x), rom, pc) == BehindCtx(c, ContextAt(x, rom, pc))
    decreases Left(x.pc), if x.done then 0 else if x.pc < 256 then 1 else 2
  {
    hide NextOpcode;
    hide Behind;
    if !x.done && x.pc != pc {
      NextBehind(c, x, rom);
      ContextAtBehind(c, NextOpcode(x, rom), rom, pc);
    }
  }

  lemma ContextBehind(at: Point, pc: nat)
    ensures ContextAt(Here(at), at.rom, pc) == BehindCtx(at.e.code, ContextAt(Context(at), at.rom, pc))
  {
    hide ContextAt;
    assert at.e.code + [] == at.e.code;
    assert BehindCtx(at.e.code, Context(at)) == Here(at);
    ContextAtBehind(at.e.code, Context(at), at.rom, pc);
  }

  lemma {:induction false} CompileFromThere(c: Ctx, rom: Uxn.Bytes, pc: nat)
    requires c.pc < 0x1_0000
    ensures Compile(ContextAt(c, rom, pc), rom) == Compile(c, rom)
    decreases Left(c.pc), if c.done then 0 else if c.pc < 256 then 1 else 2
  {
    hide NextOpcode;
    if !c.done && c.pc != pc {
      CompileFromThere(NextOpcode(c, rom), rom, pc);
    }
  }

  /** The code entered when a call returns is the rest of the code of the same block. */
  lemma RestOfBlock(at: Point, ret: Address)
    requires var c := ContextAt(Context(at), at.rom, ret); !c.done && c.pc == ret
    ensures BlockCode(After(at, ret)) == BlockCode(at)
    ensures CodeFrom(at) == ContextAt(Context(at), at.rom, ret).e.code + CodeFrom(After(at, ret))
  {
    hide Compile;
    ContextBehind(at, ret);
    hide ContextAt;
    var c := ContextAt(Here(at), at.rom, ret);
    assert c.pc == ret && !c.done;
    CompileFromThere(Here(at), at.rom, ret);
    assert Here(After(at, ret)) == c;
    CompileExtends(Here(at), at.rom);
    CompileExtends(c, at.rom);
  }

  /** If the code of the first rounds leaves, the code of the whole block does the same. */
  lemma WholeBlock(at: Point, n: nat, m: Machine)
    requires Run(Rounds(Context(at), at.rom, n).e, m).exit != Exit.Running
    ensures Exec(CodeFrom(at), m) == Run(Rounds(Context(at), at.rom, n).e, m)
  {
    hide Exec;
    hide Compile;
    hide Rounds;
    hide CodeFrom;
    CodeFromAlone(at);
    CompileRounds(Context(at), at.rom, n);
    CompileExtends(Rounds(Context(at), at.rom, n), at.rom);
    ExitKept(Rounds(Context(at), at.rom, n).e.code, CodeFrom(at), m);
  }

  // ---- one entry ----

  predicate IsCall(i: Instr, ret: nat) {
    match i
    case CallHead(_, r) => r == ret
    case IfEqual(_, _, body) => |body| == 1 && body[0].CallHead? && body[0].ret == ret
    case _ => false
  }

  /** The last instructions are a native call that returns to "ret", and the return taken when
      its target is not the one that was compiled. */
  predicate EndsInCall(code: seq<Instr>, ret: nat) {
    |code| >= 2 && IsCall(code[|code| - 2], ret) && code[|code| - 1].Leave?
  }

  lemma JumpToEnds(e: Emitter, t: Reg, short: bool, site: Calls.Site, pc: nat)
    requires ReturnAddress(site) != 0
    ensures EndsInCall(JumpTo(e, t, short, site, pc).code, ReturnAddress(site))
  {
    hide Exec;
    hide Emitter.ClearBoth;
    var jump := JumpAbs(t, site);
    var front := e.ClearBoth().code + if short then [] else [Op1(MOV_S8, R(t), R(t)), Op2(Alu.ADD, t, R(t), Imm(pc))];
    assert |jump| == 2 && EndsInCall(jump, ReturnAddress(site));
    assert JumpTo(e, t, short, site, pc).code == front + jump;
    hide JumpTo;
  }

  lemma CallEnds(e: Emitter, t: Tracker, rom: Uxn.Bytes, pc: nat)
    requires ReturnAddress(SiteAt(t, rom, Uxn.Peek(rom, pc), pc)) != 0 && e.Begin(Uxn.Peek(rom, pc)).opcode == Uxn.Peek(rom, pc)
    ensures EndsInCall(EmitAt(e, t, rom, pc).code, ReturnAddress(SiteAt(t, rom, Uxn.Peek(rom, pc), pc)))
  {
    hide Exec;
    hide Emitter.Begin;
    hide Emitter.Emit;
    hide Emitter.CachePop;
    hide JumpTo;
    hide PushReturn;
    hide SiteAt;
    hide PcAfter;
    hide ImmediateTarget;
    hide Uxn.OpOf;
    hide EndsInCall;
    hide ReturnAddress;
    var code := Uxn.Peek(rom, pc);
    var site, after := SiteAt(t, rom, code, pc), PcAfter(code, pc);
    CallSite(t, rom, code, pc);
    var e1 := e.Begin(code);
    var r, short := Uxn.FlagR(code), Uxn.Flag2(code);
    hide Uxn.FlagR;
    hide Uxn.Flag2;
    if Uxn.OpOf(code).Jsr? {
      var (e2, x) := e1.CachePop(short, r);
      JumpToEnds(PushReturn(e2, after, !r), x, short, site, after);
    } else {
      var e2 := e1.Emit(Op1(MOV_U16, R(TMP), Imm(ImmediateTarget(rom, code, pc))));
      JumpToEnds(PushReturn(e2, after, true), TMP, true, site, after);
    }
  }

  /** The code from a point is made of the code up to a native call that returns to "ret", and
      the code from the point behind that call. */
  ghost predicate FollowsCall(at: Point, ret: Address) {
    var front := ContextAt(Context(at), at.rom, ret).e.code;
    EndsInCall(front, ret) && CodeFrom(at) == front + CodeFrom(After(at, ret))
  }

  lemma {:induction false} OneMoreRound(c: Ctx, rom: Uxn.Bytes, n: nat)
    requires c.pc < 0x1_0000 && !Rounds(c, rom, n).done
    ensures Rounds(c, rom, n + 1) == NextOpcode(Rounds(c, rom, n), rom)
    decreases n
  {
    hide NextOpcode;
    if n == 0 {
      assert Rounds(c, rom, 1) == Rounds(NextOpcode(c, rom), rom, 0);
    } else if !c.done {
      OneMoreRound(NextOpcode(c, rom), rom, n - 1);
    }
  }

  lemma {:induction false} RoundsDescend(c: Ctx, rom: Uxn.Bytes, n: nat)
    requires 256 <= c.pc < 0x1_0000 && !c.done && n > 0
    ensures Left(Rounds(c, rom, n).pc) < Left(c.pc)
    decreases n
  {
    var c' := NextOpcode(c, rom);
    hide NextOpcode;
    assert Rounds(c, rom, n) == Rounds(c', rom, n - 1);
    if n > 1 && !c'.done && c'.pc >= 256 {
      RoundsDescend(c', rom, n - 1);
    } else if n > 1 && !c'.done {
      ZeroPageRounds(c', rom, n - 1);
    }
  }

  lemma ZeroPageRounds(c: Ctx, rom: Uxn.Bytes, n: nat)
    requires c.pc < 256 && n > 0
    ensures Rounds(c, rom, n).pc == c.pc
  {
    var c' := NextOpcode(c, rom);
    hide NextOpcode;
    if !c.done {
      assert Rounds(c', rom, n - 1) == c';
    }
  }

  /** The address of the loop determines its state, since addresses only move forward. */
  lemma {:induction false} ContextOfRound(c: Ctx, rom: Uxn.Bytes, n: nat)
    requires c.pc < 0x1_0000 && !Rounds(c, rom, n).done
    ensures ContextAt(c, rom, Rounds(c, rom, n).pc) == Rounds(c, rom, n)
    decreases n
  {
    hide NextOpcode;
    if n > 0 && !c.done {
      ContextOfRound(NextOpcode(c, rom), rom, n - 1);
      if c.pc >= 256 {
        RoundsDescend(c, rom, n);
      }
    }
  }

  /** A point where code may be entered. */
  ghost predicate Resumable(at: Point) {
    exists held: multiset<Reg> :: Starts(Context(at).e, held)
  }

  /** What the code entered at "at" does: the machine takes the state of the reference, and
      control leaves for its address; if that is a native call, the code behind it can be
      entered when the call returns. */
  ghost predicate Runs(at: Point, m: Machine, vm: Uxn.Vm, vm': Uxn.Vm, ret: nat) {
    && ArrivesAt(m, vm, Exec(CodeFrom(at), m), vm', ret)
    && (ret != 0 ==> ret < 0x1_0000 && Resumable(After(at, ret)) && FollowsCall(at, ret))
  }

  lemma StartMirrors(m: Machine, vm: Uxn.Vm)
    ensures Mirrors(StartSnap(m, vm), vm)
  {
  }

  /** Falling through into the zero page, or starting there: the address is returned. */
  lemma ZeroPageRuns(at: Point, m: Machine, vm: Uxn.Vm, held: multiset<Reg>)
    requires Starts(Context(at).e, held) && Compiler.Holds(m, vm) && at.pc == vm.pc && Fair(at, vm)
    requires RunReference(vm, Passes(at.t, vm, at.rom)).pc < 256
    ensures Runs(at, m, vm, RunReference(vm, StepsTaken(at, vm)), 0) && Exec(CodeFrom(at), m).exit.Returned?
  {
    hide Starts;
    hide Faithful;
    hide FallsThrough;
    hide Exec;
    hide ArrivesAt;
    hide CodeFrom;
    hide Emitter.ClearBoth;
    hide Compiler.Holds;
    hide NextOpcode;
    hide Rounds;
    hide PassesThrough;
    hide StretchEmitted;
    hide TrackerAt;
    hide RunReference;
    hide Good;
    hide StartSnap;
    hide Append;
    var n, c := Passes(at.t, vm, at.rom), Context(at);
    PassesAll(at.t, vm, at.rom);
    hide Passes;
    RoundsEmitStretch(c, vm, at.rom, n);
    OneMoreRound(c, at.rom, n);
    var cn := Rounds(c, at.rom, n);
    ZeroPageRound(cn, at.rom);
    AppendGrows(cn.e, [Leave(Imm(cn.pc))]);
    StartGood(Context(at).e, held, m, vm);
    StartMirrors(m, vm);
    var s, held' := StretchGood(Context(at).e, at.t, m, StartSnap(m, vm), held, vm, vm, at.rom, n);
    ReturnsConstant(cn.e, cn.pc, m, s, held', vm, RunReference(vm, n));
    ArrivesGone(m, vm, Run(Rounds(c, at.rom, n + 1).e, m), RunReference(vm, n), 0);
    WholeBlock(at, n + 1, m);
  }

  lemma ZeroPageRound(c: Ctx, rom: Uxn.Bytes)
    requires c.pc < 256
    ensures NextOpcode(c, rom).e == Append(c.e.ClearBoth(), [Leave(Imm(c.pc))])
  {
    hide Emitter.ClearBoth;
    hide Append;
  }

  lemma AppendGrows(e: Emitter, code: seq<Instr>)
    ensures e.Grows(Append(e.ClearBoth(), code))
  {
    hide Emitter.ClearBoth;
    hide Exec;
  }

  lemma ArrivesGone(m: Machine, vm: Uxn.Vm, m': Machine, vm': Uxn.Vm, ret: nat)
    requires ArrivesAt(m, vm, m', vm', ret)
    ensures m'.exit != Exit.Running
  {
    hide Compiler.Holds;
    hide PointersMatch;
  }

  lemma CallSite(t: Tracker, rom: Uxn.Bytes, code: nat, pc: nat)
    requires ReturnAddress(SiteAt(t, rom, code, pc)) != 0
    ensures Uxn.OpOf(code).Jsr? || Uxn.OpOf(code).Jsi?
    ensures ReturnAddress(SiteAt(t, rom, code, pc)) == PcAfter(code, pc)
  {
    hide PcAfter;
    hide ImmediateTarget;
    hide Tracker.Begin;
    hide Tracker.Pop;
    hide Uxn.OpOf;
    hide Uxn.Flag2;
    hide Uxn.FlagR;
  }

  lemma CallRound(c: Ctx, vm: Uxn.Vm, rom: Uxn.Bytes)
    requires !c.done && c.pc == vm.pc < 0x1_0000 && Faithful(c.t, vm, rom)
    requires var op := Uxn.OpOf(Uxn.Peek(rom, c.pc)); op.Jsr? || op.Jsi?
    ensures NextOpcode(c, rom) == Ctx(EmitAt(c.e, c.t, rom, c.pc), TrackAt(c.t, rom, c.pc), PcAfter(Uxn.Peek(rom, c.pc), c.pc), false)
  {
    hide EmitAt;
    hide TrackAt;
    hide PcAfter;
    hide Uxn.Step;
    hide Uxn.OpOf;
    hide Inside;
    hide Skips;
  }

  /** Behind a call that the reference has come to, code can be entered. */
  lemma AfterCall(at: Point, n: nat, vm: Uxn.Vm, held: multiset<Reg>)
    requires 256 <= vm.pc < 0x1_0000
    requires var c := Rounds(Context(at), at.rom, n);
      && !c.done && c.pc == vm.pc && Inv(c.e, held) && Faithful(c.t, vm, at.rom)
      && ReturnAddress(SiteAt(c.t, at.rom, Uxn.Peek(at.rom, vm.pc), vm.pc)) != 0
    ensures var ret := ReturnAddress(SiteAt(Rounds(Context(at), at.rom, n).t, at.rom, Uxn.Peek(at.rom, vm.pc), vm.pc));
      ret < 0x1_0000 && Resumable(After(at, ret)) && FollowsCall(at, ret)
  {
    hide Inv;
    hide Faithful;
    hide SiteAt;
    hide EmitAt;
    hide TrackAt;
    hide PcAfter;
    hide Rounds;
    hide Starts;
    hide NextOpcode;
    hide ContextAt;
    var c, code := Rounds(Context(at), at.rom, n), Uxn.Peek(at.rom, vm.pc);
    CallSite(c.t, at.rom, code, vm.pc);
    LeftAfter(code, vm.pc);
    CallRound(c, vm, at.rom);
    OneMoreRound(Context(at), at.rom, n);
    ContextOfRound(Context(at), at.rom, n + 1);
    var held' := CallResumes(c.e, held, c.t, at.rom, vm.pc);
    ContextBehind(at, PcAfter(code, vm.pc));
    RestOfBlock(at, PcAfter(code, vm.pc));
    var h := BeginInv(c.e, code, held);
    CallEnds(c.e, c.t, at.rom, vm.pc);
    hide CodeFrom;
    hide EndsInCall;
    assert Context(After(at, PcAfter(code, vm.pc))).e == EmitAt(c.e, c.t, at.rom, vm.pc).(code := []);
  }

  lemma GoodInv(e: Emitter, m: Machine, s: Snap, held: multiset<Reg>)
    requires Good(e, m, s, held)
    ensures Inv(e, held)
  {
  }

  lemma {:induction false} StretchLonger(e: Emitter, t: Tracker, rom: Uxn.Bytes, pc: nat, n: nat)
    ensures StretchEmitted(e, t, rom, pc, n).Grows(StretchEmitted(e, t, rom, pc, n + 1))
    decreases n
  {
    hide EmitAt;
    hide Emitter.Grows;
    hide TrackAt;
    hide PcAfter;
    if n == 0 {
      EmitAtGrows(e, t, rom, pc);
      assert StretchEmitted(e, t, rom, pc, 1) == StretchEmitted(EmitAt(e, t, rom, pc), TrackAt(t, rom, pc), rom, PcAfter(Uxn.Peek(rom, pc), pc), 0);
    } else {
      StretchLonger(EmitAt(e, t, rom, pc), TrackAt(t, rom, pc), rom, PcAfter(Uxn.Peek(rom, pc), pc), n - 1);
    }
  }

  /** The books are in order when the reference comes to the opcode that jumps. */
  lemma BooksAtJump(at: Point, m: Machine, vm: Uxn.Vm, held: multiset<Reg>, n: nat) returns (held': multiset<Reg>)
    requires Starts(Context(at).e, held) && Compiler.Holds(m, vm) && at.pc == vm.pc < 0x1_0000
    requires PassesThrough(at.t, vm, at.rom, n) && !StretchEmitted(Context(at).e, at.t, at.rom, vm.pc, n + 1).Hazard()
    ensures Inv(StretchEmitted(Context(at).e, at.t, at.rom, vm.pc, n), held')
  {
    hide Starts;
    hide Compiler.Holds;
    hide PassesThrough;
    StretchLonger(Context(at).e, at.t, at.rom, vm.pc, n);
    hide StretchEmitted;
    hide StartSnap;
    hide Good;
    StartGood(Context(at).e, held, m, vm);
    assert Mirrors(StartSnap(m, vm), vm) && SameOrigins(StartSnap(m, vm), StartSnap(m, vm)) by { StartMirrors(m, vm); }
    var s;
    s, held' := StretchGood(Context(at).e, at.t, m, StartSnap(m, vm), held, vm, vm, at.rom, n);
    GoodInv(StretchEmitted(Context(at).e, at.t, at.rom, vm.pc, n), m, s, held');
  }

  /** Coming to an opcode that jumps. */
  lemma JumpRuns(at: Point, m: Machine, vm: Uxn.Vm, held: multiset<Reg>) returns (ret: nat)
    requires Starts(Context(at).e, held) && Compiler.Holds(m, vm) && at.pc == vm.pc && Fair(at, vm)
    requires RunReference(vm, Passes(at.t, vm, at.rom)).pc >= 256
    ensures Runs(at, m, vm, RunReference(vm, StepsTaken(at, vm)), ret)
  {
    hide Starts;
    hide Faithful;
    hide FallsThrough;
    hide Exec;
    hide ArrivesAt;
    hide CodeFrom;
    hide SiteAt;
    hide NextOpcode;
    hide After;
    hide Compiler.Holds;
    hide ReturnAddress;
    hide Resumable;
    hide Rounds;
    hide PassesThrough;
    hide StretchEmitted;
    hide TrackerAt;
    hide RunReference;
    var n, c := Passes(at.t, vm, at.rom), Context(at);
    PassesAll(at.t, vm, at.rom);
    hide Passes;
    RoundsEmitStretch(c, vm, at.rom, n);
    LastRound(c, vm, at.rom, n);
    var cn, vmn := Rounds(c, at.rom, n), RunReference(vm, n);
    StretchCorrect(Context(at).e, held, at.t, m, vm, at.rom, n);
    ret := ReturnAddress(SiteAt(cn.t, at.rom, Uxn.Peek(at.rom, vmn.pc), vmn.pc));
    ArrivesGone(m, vm, Run(Rounds(c, at.rom, n + 1).e, m), RunReference(vm, n + 1), ret);
    WholeBlock(at, n + 1, m);
    if ret != 0 {
      var held' := BooksAtJump(at, m, vm, held, n);
      AfterCall(at, n, vmn, held');
    }
  }

  // ---- whole runs ----

  /** The machine holds the state of the reference, whose address is the one pending. */
  ghost predicate Simulates(n: Native, vm: Uxn.Vm) {
    && Compiler.Holds(n.state, vm)
    && (match n.mode
        case Entering(at) => at.pc == vm.pc && Resumable(at)
        case Unwinding(t) => t == vm.pc
        case Halted(t) => t == vm.pc && !Calls.Compilable(t))
    && forall i :: 0 <= i < |n.frames| ==> Resumable(n.frames[i])
  }

  /** Where the reference is after a step of the trampoline or of compiled code. */
  ghost function Advanced(n: Native, vm: Uxn.Vm): Uxn.Vm {
    RunReference(vm, Advance(n, vm))
  }

  ghost function Advance(n: Native, vm: Uxn.Vm): nat {
    if n.mode.Entering? && vm.pc < 0x1_0000 then StepsTaken(n.mode.at, vm) else 0
  }

  lemma FreshResumable(pc: nat, roms: Memories)
    ensures Resumable(Fresh(pc, roms))
  {
    EmptyStarts();
    assert Context(Fresh(pc, roms)).e == EMPTY;
  }

  lemma DepartSimulates(n: Native, at: Point, m': Machine, roms: Memories, vm: Uxn.Vm, vm': Uxn.Vm, ret: nat)
    requires n.mode == Entering(at) && (forall i :: 0 <= i < |n.frames| ==> Resumable(n.frames[i]))
    requires ArrivesAt(n.state, vm, m', vm', ret) && (ret != 0 ==> ret < 0x1_0000 && Resumable(After(at, ret)))
    ensures Simulates(Depart(n, at, m', roms), vm') && PointersMatch(n.state, vm, Depart(n, at, m', roms).state, vm')
  {
    hide Compiler.Holds;
    hide Resumable;
    hide After;
    FreshResumable(vm'.pc, roms);
    assert vm'.pc < 0x1_0000 ==> Fresh(vm'.pc, roms).pc == vm'.pc;
    hide Fresh;
  }

  /** When compiled code has made a native call, the frame it leaves behind resumes right after
      the call instruction. */
  lemma ResumesBehindCall(at: Point, m: Machine, vm: Uxn.Vm, callee: nat, ret: nat)
    requires Resumable(at) && Compiler.Holds(m, vm) && at.pc == vm.pc && Fair(at, vm)
    requires Exec(CodeFrom(at), m).exit == Called(callee, ret)
    ensures callee == RunReference(vm, StepsTaken(at, vm)).pc && ret < 0x1_0000 && FollowsCall(at, ret)
  {
    hide Compiler.Holds;
    hide Starts;
    hide CodeFrom;
    hide Exec;
    hide StepsTaken;
    hide After;
    hide Fair;
    hide FollowsCall;
    hide PointersMatch;
    var held: multiset<Reg> :| Starts(Context(at).e, held);
    var ret' := EntryRuns(at, m, vm, held);
  }

  /** Entering compiled code, or unwinding a frame. */
  lemma StepCorrect(n: Native, vm: Uxn.Vm, roms: Memories)
    requires Simulates(n, vm) && (n.mode.Entering? ==> Fair(n.mode.at, vm))
    ensures Simulates(NativeStep(n, roms), Advanced(n, vm))
    ensures PointersMatch(n.state, vm, NativeStep(n, roms).state, Advanced(n, vm))
  {
    hide Compiler.Holds;
    hide Starts;
    hide ArrivesAt;
    hide CodeFrom;
    hide Depart;
    hide Exec;
    hide StepsTaken;
    hide After;
    hide Fair;
    match n.mode
    case Entering(at) =>
      var held: multiset<Reg> :| Starts(Context(at).e, held);
      var ret := EntryRuns(at, n.state, vm, held);
      DepartSimulates(n, at, Exec(CodeFrom(at), n.state), roms, vm, RunReference(vm, StepsTaken(at, vm)), ret);
    case Unwinding(t) => FreshResumable(t, roms);
    case Halted(t) =>
  }

  lemma EntryRuns(at: Point, m: Machine, vm: Uxn.Vm, held: multiset<Reg>) returns (ret: nat)
    requires Starts(Context(at).e, held) && Compiler.Holds(m, vm) && at.pc == vm.pc && Fair(at, vm)
    ensures Runs(at, m, vm, RunReference(vm, StepsTaken(at, vm)), ret)
    ensures vm.pc < 256 ==> Exec(CodeFrom(at), m).exit.Returned?
  {
    if vm.pc < 256 { NothingPassed(at.t, vm, at.rom); }
    if RunReference(vm, Passes(at.t, vm, at.rom)).pc < 256 {
      ret := 0;
      ZeroPageRuns(at, m, vm, held);
    } else {
      ret := JumpRuns(at, m, vm, held);
    }
    hide Runs;
  }

  /** All code that a run of "k" steps enters is entered fairly. */
  ghost predicate FairRun(n: Native, vm: Uxn.Vm, roms: Memories, k: nat)
    decreases k
  {
    k == 0 ||
    ((n.mode.Entering? ==> vm.pc < 0x1_0000 && Fair(n.mode.at, vm)) && FairRun(NativeStep(n, roms), Advanced(n, vm), roms, k - 1))
  }

  /** How many steps the reference takes during "k" steps of the run. */
  ghost function Covered(n: Native, vm: Uxn.Vm, roms: Memories, k: nat): nat
    decreases k
  {
    if k == 0 then 0 else Advance(n, vm) + Covered(NativeStep(n, roms), Advanced(n, vm), roms, k - 1)
  }

  lemma {:induction false} ReferenceAdds(vm: Uxn.Vm, a: nat, b: nat)
    ensures RunReference(RunReference(vm, a), b) == RunReference(vm, a + b)
    decreases a
  {
    hide Uxn.Step;
    if a > 0 {
      if Uxn.Step(vm).Some? {
        ReferenceAdds(Uxn.Step(vm).value, a - 1, b);
      } else if b > 0 {
        assert RunReference(vm, b) == vm;
      }
    }
  }

  /** Compiled code under the trampoline does what the interpreter does: after any number of
      steps, through jumps, native calls, returns to frames that wait for the address and past
      those that wait for another, the machine holds the state the interpreter reaches, and the
      pending address is the interpreter's. */
  lemma {:induction false} RunCorrect(n: Native, vm: Uxn.Vm, roms: Memories, k: nat)
    requires Simulates(n, vm) && FairRun(n, vm, roms, k)
    ensures var n', vm' := NativeRun(n, roms, k), RunReference(vm, Covered(n, vm, roms, k));
      Simulates(n', vm') && PointersMatch(n.state, vm, n'.state, vm')
    decreases k
  {
    hide Simulates;
    hide NativeStep;
    hide Advance;
    hide RunReference;
    hide PointersMatch;
    hide Fair;
    if k > 0 {
      var n1, vm1 := NativeStep(n, roms), Advanced(n, vm);
      StepCorrect(n, vm, roms);
      RunCorrect(n1, vm1, roms, k - 1);
      ReferenceAdds(vm, Advance(n, vm), Covered(n1, vm1, roms, k - 1));
      var n', vm' := NativeRun(n, roms, k), RunReference(vm, Covered(n, vm, roms, k));
      PointersChain(n.state, vm, n1.state, vm1, n'.state, vm');
    } else {
      NoSteps(n.state, vm);
    }
  }

  lemma NoSteps(m: Machine, vm: Uxn.Vm)
    ensures RunReference(vm, 0) == vm && PointersMatch(m, vm, m, vm)
  {
  }

  lemma PointersChain(m: Machine, vm: Uxn.Vm, m1: Machine, vm1: Uxn.Vm, m2: Machine, vm2: Uxn.Vm)
    requires PointersMatch(m, vm, m1, vm1) && PointersMatch(m1, vm1, m2, vm2)
    ensures PointersMatch(m, vm, m2, vm2)
  {
    hide Bottom;
  }

  /** A call of the trampoline that comes back does so with the interpreter's state, at an
      address that is not compiled. */
  lemma ExecuteCorrect(m: Machine, vm: Uxn.Vm, roms: Memories, k: nat)
    requires Compiler.Holds(m, vm) && vm.pc < 0x1_0000
    requires var n := Launched(m, vm, roms); FairRun(n, vm, roms, k) && NativeRun(n, roms, k).mode.Halted?
    ensures var n := Launched(m, vm, roms);
      var n', vm' := NativeRun(n, roms, k), RunReference(vm, Covered(n, vm, roms, k));
      && Compiler.Holds(n'.state, vm') && PointersMatch(m, vm, n'.state, vm')
      && n'.mode.target == vm'.pc && (vm'.pc < 0x100 || vm'.pc >= 0x1_0000)
  {
    hide Compiler.Holds;
    hide Resumable;
    hide FairRun;
    hide NativeRun;
    hide PointersMatch;
    hide Covered;
    hide RunReference;
    FreshResumable(vm.pc, roms);
    RunCorrect(Launched(m, vm, roms), vm, roms, k);
  }

  /** The trampoline is called with a block's code to enter. */
  function Launched(m: Machine, vm: Uxn.Vm, roms: Memories): Native {
    Native(Entering(Fresh(vm.pc, roms)), [], m)
  }

  // ---- frames ----

  /** Where compiled code makes a native call it leaves one frame behind; whatever the callee does,
      when it returns to that frame's address, the code right behind the call goes on, and the
      frames are those from before the call.  A linked jump leaves the frames alone. */
  lemma CallReturns(n: Native, vm: Uxn.Vm, roms: Memories, m2: Machine)
    requires Simulates(n, vm) && n.mode.Entering? && Fair(n.mode.at, vm)
    ensures var at, n' := n.mode.at, NativeStep(n, roms);
      match Exec(CodeFrom(at), n.state).exit
      case Jumped(t) => n'.mode == Entering(Fresh(t, roms)) && n'.frames == n.frames
      case Returned(t) => n'.mode == Unwinding(t) && n'.frames == n.frames
      case Called(t, ret) =>
        && n'.mode == Entering(Fresh(t, roms)) && ret < 0x1_0000 && FollowsCall(at, ret)
        && NativeStep(n'.(mode := Unwinding(ret), state := m2), roms) == Native(Entering(After(at, ret)), n.frames, m2)
      case Running => false
  {
    hide Compiler.Holds;
    hide Starts;
    hide CodeFrom;
    hide Exec;
    hide StepsTaken;
    hide After;
    hide Fair;
    hide FollowsCall;
    hide PointersMatch;
    var at := n.mode.at;
    var held: multiset<Reg> :| Starts(Context(at).e, held);
    var ret := EntryRuns(at, n.state, vm, held);
    AfterPc(at, ret % 0x1_0000);
    var n' := NativeStep(n, roms);
    assert n'.frames != n.frames ==> n'.frames[..|n.frames|] == n.frames;
  }

  lemma AfterPc(at: Point, ret: Address)
    ensures After(at, ret).pc == ret
  {
  }

  lemma {:induction false} RunLast(n: Native, roms: Memories, k: nat)
    ensures NativeRun(n, roms, k + 1) == NativeStep(NativeRun(n, roms, k), roms)
    decreases k
  {
    hide NativeStep;
    if k > 0 {
      RunLast(NativeStep(n, roms), roms, k - 1);
    } else {
      assert NativeRun(n, roms, 1) == NativeRun(NativeStep(n, roms), roms, 0);
    }
  }

  lemma {:induction false} PassFrames(n: Native, roms: Memories, i: nat)
    requires n.mode.Unwinding? && i <= |n.frames| && forall j :: i <= j < |n.frames| ==> n.frames[j].pc != n.mode.target
    ensures NativeRun(n, roms, |n.frames| - i) == n.(frames := n.frames[..i])
    decreases |n.frames|
  {
    hide Fresh;
    hide Depart;
    if i < |n.frames| {
      var n' := NativeStep(n, roms);
      assert n' == n.(frames := n.frames[..|n.frames| - 1]);
      hide NativeStep;
      PassFrames(n', roms, i);
      assert n'.frames[..i] == n.frames[..i];
    } else {
      assert n.frames[..i] == n.frames;
    }
  }

  /** A return passes every frame that waits for another address, and resumes the innermost frame
      that waits for this one. */
  lemma ResumesInnermost(n: Native, roms: Memories, i: nat)
    requires n.mode.Unwinding? && i < |n.frames| && n.frames[i].pc == n.mode.target
    requires forall j :: i < j < |n.frames| ==> n.frames[j].pc != n.mode.target
    ensures NativeRun(n, roms, |n.frames| - i) == Native(Entering(n.frames[i]), n.frames[..i], n.state)
  {
    hide Fresh;
    hide Depart;
    hide NativeRun;
    PassFrames(n, roms, i + 1);
    RunLast(n, roms, |n.frames| - i - 1);
    assert n.frames[..i + 1][..i] == n.frames[..i];
  }

  /** If no frame waits for it, the trampoline enters the block of the address, or returns to its
      caller if that is BRK or in the zero page. */
  lemma ReachesTrampoline(n: Native, roms: Memories)
    requires n.mode.Unwinding? && forall j :: 0 <= j < |n.frames| ==> n.frames[j].pc != n.mode.target
    ensures var t := n.mode.target;
      NativeRun(n, roms, |n.frames| + 1) == Native(if 0x100 <= t < 0x1_0000 then Entering(Fresh(t, roms)) else Halted(t), [], n.state)
  {
    hide Fresh;
    hide Depart;
    hide NativeRun;
    PassFrames(n, roms, 0);
    RunLast(n, roms, |n.frames|);
  }

  // ---- halting ----

  /** The reference comes to the zero page or to BRK after "j" steps, and not before. */
  ghost predicate StopsAfter(vm: Uxn.Vm, j: nat) {
    && !(0x100 <= RunReference(vm, j).pc < 0x1_0000)
    && forall i: nat :: i < j ==> 0x100 <= RunReference(vm, i).pc < 0x1_0000
  }

  /** Steps that are left before code is entered again or the trampoline returns. */
  function Owed(n: Native): nat {
    2 * |n.frames| +
    match n.mode
    case Entering(at) => if Calls.Compilable(at.pc) then 0 else 2
    case Unwinding(_) => 1
    case Halted(_) => 0
  }

  lemma NothingPassed(t: Tracker, vm: Uxn.Vm, rom: Uxn.Bytes)
    requires vm.pc < 256
    ensures Passes(t, vm, rom) == 0 && RunReference(vm, 0) == vm
  {
  }

  lemma {:induction false} PassedCompilable(t: Tracker, vm: Uxn.Vm, rom: Uxn.Bytes, n: nat, i: nat)
    requires PassesThrough(t, vm, rom, n) && i < n
    ensures Calls.Compilable(RunReference(vm, i).pc)
    decreases n
  {
    hide TrackAt;
    hide Uxn.Step;
    hide FallsThrough;
    FaithfulNext(t, vm, rom);
    hide Faithful;
    if i > 0 {
      PassedCompilable(TrackAt(t, rom, vm.pc), Uxn.Step(vm).value, rom, n - 1, i - 1);
    }
  }

  /** Every step the reference takes while code runs starts at a compilable address. */
  lemma TakenCompilable(at: Point, vm: Uxn.Vm, i: nat)
    requires vm.pc < 0x1_0000 && Fair(at, vm) && i < StepsTaken(at, vm)
    ensures Calls.Compilable(RunReference(vm, i).pc)
  {
    hide Faithful;
    hide PassesThrough;
    hide TrackerAt;
    hide Rounds;
    hide FallsThrough;
    hide RunReference;
    hide Passes;
    hide Emitter.Hazard;
    PassesAll(at.t, vm, at.rom);
    var n := Passes(at.t, vm, at.rom);
    if i < n {
      PassedCompilable(at.t, vm, at.rom, n, i);
    } else {
      FaithfulNext(TrackerAt(at.t, at.rom, vm.pc, n), RunReference(vm, n), at.rom);
    }
  }

  lemma TakenBounded(at: Point, vm: Uxn.Vm, j: nat)
    requires vm.pc < 0x1_0000 && Fair(at, vm) && StopsAfter(vm, j)
    ensures StepsTaken(at, vm) <= j && StopsAfter(RunReference(vm, StepsTaken(at, vm)), j - StepsTaken(at, vm))
  {
    hide StepsTaken;
    hide Fair;
    hide RunReference;
    var a := StepsTaken(at, vm);
    if a > j {
      TakenCompilable(at, vm, j);
    }
    forall i: nat ensures RunReference(RunReference(vm, a), i) == RunReference(vm, a + i) {
      ReferenceAdds(vm, a, i);
    }
  }

  lemma StepPays(n: Native, vm: Uxn.Vm, roms: Memories)
    requires Simulates(n, vm) && !n.mode.Halted? && (n.mode.Entering? ==> Fair(n.mode.at, vm))
    ensures Owed(NativeStep(n, roms)) + 1 <= Owed(n) + 5 * Advance(n, vm)
  {
    hide Compiler.Holds;
    hide Starts;
    hide CodeFrom;
    hide Exec;
    hide PointersMatch;
    hide After;
    hide FollowsCall;
    hide StepsTaken;
    hide Fair;
    hide ArrivesAt;
    if n.mode.Entering? {
      var at := n.mode.at;
      var held: multiset<Reg> :| Starts(Context(at).e, held);
      var ret := EntryRuns(at, n.state, vm, held);
      ArrivesGone(n.state, vm, Exec(CodeFrom(at), n.state), RunReference(vm, StepsTaken(at, vm)), ret);
      hide RunReference;
      if Calls.Compilable(vm.pc) {
        StepsTakenSome(at, vm);
      }
    }
  }

  lemma StepsTakenSome(at: Point, vm: Uxn.Vm)
    requires Calls.Compilable(vm.pc)
    ensures StepsTaken(at, vm) >= 1
  {
    hide Passes;
    assert RunReference(vm, 0) == vm;
    hide RunReference;
  }

  /** When the reference leaves the compiled address space, so does the trampoline, a bounded
      number of steps later. */
  lemma {:induction false} Halts(n: Native, vm: Uxn.Vm, roms: Memories, j: nat, k: nat)
    requires Simulates(n, vm) && StopsAfter(vm, j) && FairRun(n, vm, roms, k) && k >= Owed(n) + 5 * j
    ensures NativeRun(n, roms, k).mode.Halted? && Covered(n, vm, roms, k) <= j
    decreases k
  {
    hide Fair;
    hide StepsTaken;
    hide Compiler.Holds;
    hide Resumable;
    hide RunReference;
    if n.mode.Halted? {
      HaltedStays(n, vm, roms, k);
    } else {
      NoSteps(n.state, vm);
      hide PointersMatch;
      assert k > 0;
      StepPays(n, vm, roms);
      StepCorrect(n, vm, roms);
      if n.mode.Entering? { TakenBounded(n.mode.at, vm, j); }
      hide NativeStep;
      hide StopsAfter;
      Halts(NativeStep(n, roms), Advanced(n, vm), roms, j - Advance(n, vm), k - 1);
    }
  }

  lemma {:induction false} HaltedStays(n: Native, vm: Uxn.Vm, roms: Memories, k: nat)
    requires n.mode.Halted?
    ensures NativeRun(n, roms, k) == n && Covered(n, vm, roms, k) == 0
    decreases k
  {
    if k > 0 {
      NoSteps(n.state, vm);
      HaltedStays(n, vm, roms, k - 1);
    }
  }

  /** If the interpreter comes to BRK or to the zero page, the trampoline returns with exactly
      its state there. */
  lemma ExecuteHalts(m: Machine, vm: Uxn.Vm, roms: Memories, j: nat)
    requires Compiler.Holds(m, vm) && vm.pc < 0x1_0000 && StopsAfter(vm, j)
    requires FairRun(Launched(m, vm, roms), vm, roms, 5 * j + 2)
    ensures var n', vm' := NativeRun(Launched(m, vm, roms), roms, 5 * j + 2), RunReference(vm, j);
      n'.mode == Halted(vm'.pc) && Compiler.Holds(n'.state, vm') && PointersMatch(m, vm, n'.state, vm')
  {
    hide Compiler.Holds;
    hide Resumable;
    hide FairRun;
    hide NativeRun;
    hide PointersMatch;
    hide Covered;
    hide RunReference;
    FreshResumable(vm.pc, roms);
    var n := Launched(m, vm, roms);
    Halts(n, vm, roms, j, 5 * j + 2);
    ExecuteCorrect(m, vm, roms, 5 * j + 2);
    assert Covered(n, vm, roms, 5 * j + 2) == j;
  }
}
