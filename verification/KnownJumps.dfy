/** What the compiler knows is true along whole stretches of code, over every kind of opcode; so
    the targets it takes for constants are where the interpreter jumps, and the jumps it links are
    the ones that are taken. */
module KnownJumps {
  import opened Words
  import opened Hashing
  import opened Target
  import opened Emission
  import opened CacheSound
  import opened OpSound
  import opened Compiler
  import opened Facts
  import opened FactsSound
  import opened Jumps
  import opened Blocks
  import opened CompileLoop
  import BlockLinks
  import Rings
  import CacheRuns
  import Calls
  import Devices
  import Execution
  import Uxn
  import Worklist

  // ---- facts over every kind of opcode ----

  /** Facts that are true before an opcode are true after it: plain, jumping, taken or not, or a
      device opcode with whatever answer. */
  lemma StepKeepsFacts(t: Tracker, vm: Uxn.Vm, code: nat, lit: nat, pc: nat)
    requires Tracks(t, vm) && vm.io.Shaped() && Uxn.Perform(vm, code, pc).Some?
    requires Uxn.OpOf(code).Lit? ==> lit == Uxn.Fetch(vm.ram, pc, true, Uxn.Flag2(code))
    ensures Tracks(t.Track(code, lit), Uxn.Perform(vm, code, pc).value)
  {
    hide Tracks;
    hide Tracker.Track;
    hide Uxn.Perform;
    hide Uxn.OpOf;
    hide Uxn.Flag2;
    hide Uxn.Fetch;
    var op := Uxn.OpOf(code);
    if IsPlain(op) {
      StepTracked(t, vm, code, lit, pc);
    } else if Uxn.IsDevice(op) {
      DeviceStepTracked(t, vm, code, lit, pc);
    } else {
      JumpStepTracked(t, vm, code, lit, pc);
    }
  }

  lemma ExchangeShaped(op: Uxn.Op, short: bool, args: seq<nat>, ram: Uxn.Bytes, io: Devices.Io, x: Uxn.Exchange)
    requires io.Shaped() && Uxn.IsDevice(op) && Uxn.Exchanged(op, short, args, ram, io) == Uxn.Some(x)
    ensures x.io.Shaped()
  {
    hide Devices.Ask;
    var port := Uxn.Nth(args, 0);
    var io0 := if op.Dei? then io else io.(page := Uxn.Paged(io.page, port, Uxn.Nth(args, 1), short));
    PageShaped(io, port, Uxn.Nth(args, 1), short);
    hide Uxn.Paged;
    Devices.AskShaped(io0, ram, op.Dei?, port % 256);
    var first := Devices.Ask(io0, ram, op.Dei?, port % 256);
    if short {
      Devices.AskShaped(first.io, first.ram, op.Dei?, (port + 1) % 256);
    }
    hide Devices.IsPage;
    hide Devices.IsMemory;
  }

  lemma PageShaped(io: Devices.Io, port: nat, v: nat, short: bool)
    requires io.Shaped()
    ensures io.(page := Uxn.Paged(io.page, port, v, short)).Shaped()
  {
  }

  lemma StepShaped(vm: Uxn.Vm, code: nat, pc: nat)
    requires vm.io.Shaped() && Uxn.Perform(vm, code, pc).Some?
    ensures Uxn.Perform(vm, code, pc).value.io.Shaped()
  {
    hide Uxn.OpOf;
    hide Uxn.Flag2;
    hide Uxn.FlagR;
    hide Uxn.FlagK;
    hide Uxn.PopAll;
    hide Uxn.Act;
    hide Uxn.Exchanged;
    hide Devices.IsPage;
    hide Devices.IsMemory;
    var op, short, r := Uxn.OpOf(code), Uxn.Flag2(code), Uxn.FlagR(code);
    if Uxn.IsDevice(op) {
      var args := Uxn.PopAll(vm.Stack(r), Uxn.Shape(op, short)).value.1;
      ExchangeShaped(op, short, args, vm.ram, vm.io, Uxn.Exchanged(op, short, args, vm.ram, vm.io).value);
    }
  }

  /** No step loses or rewrites a request, and every request has had an answer of its own. */
  lemma StepRecords(vm: Uxn.Vm, code: nat, pc: nat)
    requires Uxn.Perform(vm, code, pc).Some?
    ensures var vm' := Uxn.Perform(vm, code, pc).value;
      vm.io.log <= vm'.io.log && |vm'.io.log| + |vm'.io.answers| == |vm.io.log| + |vm.io.answers|
  {
    hide Uxn.OpOf;
    hide Uxn.Flag2;
    hide Uxn.FlagR;
    hide Uxn.FlagK;
    hide Uxn.PopAll;
    hide Uxn.Act;
    hide Uxn.Exchanged;
    var op, short, r := Uxn.OpOf(code), Uxn.Flag2(code), Uxn.FlagR(code);
    if Uxn.IsDevice(op) {
      var args := Uxn.PopAll(vm.Stack(r), Uxn.Shape(op, short)).value.1;
      ExchangeRecords(op, short, args, vm.ram, vm.io, Uxn.Exchanged(op, short, args, vm.ram, vm.io).value);
    }
  }

  lemma ExchangeRecords(op: Uxn.Op, short: bool, args: seq<nat>, ram: Uxn.Bytes, io: Devices.Io, x: Uxn.Exchange)
    requires Uxn.IsDevice(op) && Uxn.Exchanged(op, short, args, ram, io) == Uxn.Some(x)
    ensures io.log < x.io.log && |x.io.log| + |x.io.answers| == |io.log| + |io.answers|
    ensures |x.io.log| == |io.log| + if short then 2 else 1
  {
    hide Devices.Ask;
    var port := Uxn.Nth(args, 0);
    var io0 := if op.Dei? then io else io.(page := Uxn.Paged(io.page, port, Uxn.Nth(args, 1), short));
    hide Uxn.Paged;
    Devices.AskRecords(io0, ram, op.Dei?, port % 256);
    var first := Devices.Ask(io0, ram, op.Dei?, port % 256);
    if short {
      Devices.AskRecords(first.io, first.ram, op.Dei?, (port + 1) % 256);
    }
  }

  /** Along a stretch of a block, past untaken conditional jumps and device calls, that finds its
      literals: everything the compiler knows is true of the stacks. */
  lemma {:induction false} StretchKeepsFacts(t: Tracker, vm: Uxn.Vm, rom: Uxn.Bytes, n: nat)
    requires Tracks(t, vm) && vm.io.Shaped() && PassesThrough(t, vm, rom, n) && LiteralsKept(vm, rom, n)
    ensures Tracks(TrackerAt(t, rom, vm.pc, n), RunReference(vm, n)) && RunReference(vm, n).io.Shaped()
    decreases n
  {
    hide Tracks;
    hide Tracker.Track;
    hide Uxn.Perform;
    hide LiteralAt;
    hide PcAfter;
    hide FallsThrough;
    if n > 0 {
      var code := Uxn.Peek(rom, vm.pc);
      FallsTo(t, vm, rom);
      assert LiteralAt(vm.ram, code, vm.pc) == Uxn.Fetch(vm.ram, (vm.pc + 1) % 0x1_0000, true, Uxn.Flag2(code)) by { LiteralIs(vm.ram, code, vm.pc); }
      StepKeepsFacts(t, vm, code, LiteralAt(rom, code, vm.pc), (vm.pc + 1) % 0x1_0000);
      StepShaped(vm, code, (vm.pc + 1) % 0x1_0000);
      StretchKeepsFacts(TrackAt(t, rom, vm.pc), Uxn.Step(vm).value, rom, n - 1);
    }
  }

  // ---- constant targets ----

  /** A target known as a constant is compiled as the address the interpreter jumps to: the
      value itself, or that many bytes from "pc", forwards or backwards. */
  lemma ConstantTarget(k: Known, pc: nat, ret: nat, x: nat)
    requires k.constant && KnownHolds(k, x) && k.value < 0x1_0000 && x < 0x1_0000 && pc < 0x1_0000
    ensures SiteOf(k, pc, ret) == Calls.Constant(Uxn.JumpTarget(pc, k.short, x), false, ret)
    ensures k.short ==> Uxn.JumpTarget(pc, k.short, x) == x
    ensures !k.short ==> Uxn.JumpTarget(pc, k.short, x) == (pc + if x % 256 < 128 then x % 256 else x % 256 - 256) % 0x1_0000
  {
    if k.short {
      assert k.value / 256 == k.value / 256 % 256 && x / 256 == x / 256 % 256;
    } else {
      SignedByte(x);
      var signed: int := if x % 256 < 128 then x % 256 else x % 256 - 256;
      assert (pc + SignExtend8(x)) % WORD == (pc + signed) % WORD by {
        if signed < 0 { ModUnique(pc + SignExtend8(x), WORD, 1 + (pc + signed) / WORD, (pc + signed) % WORD); }
      }
      WordCut(pc + signed);
    }
  }

  /** A linked jump or call to where the program jumps is taken, and no return is needed. */
  lemma KnownTaken(site: Calls.Site, pc: nat)
    requires site.Constant? && site.target == pc
    ensures Outcome(Calls.Taken(site, pc)) == if site.ret == 0 then Jumped(pc) else Called(pc, site.ret)
  {
  }

  /** The target of a jump that is taken, as a function of its operand. */
  lemma TakenPc(vm: Uxn.Vm, code: nat, pc: nat)
    requires PopsTarget(Uxn.OpOf(code)) && Uxn.Perform(vm, code, pc).Some?
    requires Uxn.OpOf(code).Jcn? ==> TopValue(Below(vm.Stack(Uxn.FlagR(code)), Uxn.Flag2(code)), false) != 0
    ensures var r, short := Uxn.FlagR(code), Uxn.Flag2(code);
      && Uxn.PopValue(vm.Stack(r), short).Some? && Uxn.PopValue(vm.Stack(r), short).value.1 == TopValue(vm.Stack(r), short)
      && Uxn.Perform(vm, code, pc).value.pc == Uxn.JumpTarget(pc, short, TopValue(vm.Stack(r), short))
  {
    hide Uxn.OpOf;
    hide Uxn.FlagR;
    hide Uxn.FlagK;
    hide Uxn.Flag2;
    hide Uxn.JumpTarget;
    hide Uxn.Shape;
    hide Uxn.Act;
    hide Uxn.PopAll;
    hide Uxn.PopValue;
    hide TopValue;
    hide Below;
    var op, r, short := Uxn.OpOf(code), Uxn.FlagR(code), Uxn.Flag2(code);
    var (rest, args) := Uxn.PopAll(vm.Stack(r), Uxn.Shape(op, short)).value;
    TargetShape(op, short);
    TopOperands(vm.Stack(r), short, rest, args);
    TopPopped(vm.Stack(r), short);
    if op.Jcn? { PopTwo(vm.Stack(r), short, false); } else { PopOne(vm.Stack(r), short); }
    TakenAct(op, short, args[0], Uxn.Nth(args, 1), Uxn.Nth(args, 2), vm.ram, pc);
  }

  lemma TargetShape(op: Uxn.Op, short: bool)
    requires PopsTarget(op)
    ensures Uxn.Shape(op, short) == if op.Jcn? then [short, false] else [short]
  {
  }

  lemma TopPopped(s: Uxn.Bytes, short: bool)
    ensures Uxn.PopValue(s, short).Some? ==> Uxn.PopValue(s, short).value.1 == TopValue(s, short)
  {
  }

  lemma TakenAct(op: Uxn.Op, short: bool, x: nat, y: nat, z: nat, ram: Uxn.Bytes, pc: nat)
    requires PopsTarget(op) && (op.Jcn? ==> y != 0)
    ensures Uxn.Act(op, short, x, y, z, ram, pc).pc == Uxn.JumpTarget(pc, short, x)
  {
    hide Uxn.JumpTarget;
    hide Uxn.Fetch;
    hide Uxn.BytesOf;
  }

  /** True if the compiler knows where the jump goes. */
  predicate Knows(t: Tracker, code: nat) {
    IsImmediate(Uxn.OpOf(code))
    || (PopsTarget(Uxn.OpOf(code)) && t.Begin(code).Pop(Uxn.Flag2(code), Uxn.FlagR(code)).1.constant)
  }

  /** JMP, JCN or JSR whose target is known, taken from a state the facts are true of. */
  lemma PoppedKnown(t: Tracker, vm: Uxn.Vm, code: nat, pc: nat, ret: nat)
    requires Tracks(t, vm) && PopsTarget(Uxn.OpOf(code)) && Knows(t, code) && Uxn.Perform(vm, code, pc).Some? && pc < 0x1_0000
    requires Uxn.OpOf(code).Jcn? ==> TopValue(Below(vm.Stack(Uxn.FlagR(code)), Uxn.Flag2(code)), false) != 0
    ensures SiteOf(t.Begin(code).Pop(Uxn.Flag2(code), Uxn.FlagR(code)).1, pc, ret)
      == Calls.Constant(Uxn.Perform(vm, code, pc).value.pc, false, ret)
  {
    hide Uxn.OpOf;
    hide Uxn.FlagR;
    hide Uxn.FlagK;
    hide Uxn.Flag2;
    hide Uxn.JumpTarget;
    hide Uxn.Perform;
    hide Tracker.Pop;
    hide TopValue;
    hide Below;
    hide Sees;
    hide Has;
    hide SiteOf;
    var r, short := Uxn.FlagR(code), Uxn.Flag2(code);
    var st := vm.Stack(r);
    TakenPc(vm, code, pc);
    BeginPopping(t, r, code, st, vm.Stack(!r));
    PopOperand(t.Begin(code), short, r, Uxn.FlagK(code), st, vm.Stack(!r), st);
    var k := t.Begin(code).Pop(short, r).1;
    hide Uxn.PopValue;
    ConstantTarget(k, pc, ret, TopValue(st, short));
  }

  /** An immediate jump that is taken goes to the immediate target. */
  lemma ImmediateKnown(t: Tracker, vm: Uxn.Vm, rom: Uxn.Bytes)
    requires Faithful(t, vm, rom) && !FallsThrough(vm, rom) && IsImmediate(Uxn.OpOf(Uxn.Peek(rom, vm.pc)))
    ensures var code := Uxn.Peek(rom, vm.pc); SiteAt(t, rom, code, vm.pc).Constant? && SiteAt(t, rom, code, vm.pc).target == Uxn.Step(vm).value.pc
  {
    var code, pc := Uxn.Peek(rom, vm.pc), (vm.pc + 1) % 0x1_0000;
    var op := Uxn.OpOf(code);
    NoFlags(code);
    ImmediateSite(t, rom, code, vm.pc);
    hide SiteAt;
    hide ImmediateTarget;
    hide PcAfter;
    hide Skips;
    hide Uxn.OpOf;
    hide Uxn.FlagR;
    hide Uxn.FlagK;
    hide Uxn.Flag2;
    var (rest, args) := Uxn.PopAll(vm.wst, Uxn.Shape(op, false)).value;
    RestIsPrefix(vm.wst, Uxn.Shape(op, false));
    TopOperands(vm.wst, false, rest, args);
    ImmediateAct(code, vm.pc, args, vm.ram);
    hide Uxn.PopAll;
    hide TopValue;
    hide Below;
    hide Uxn.Act;
    hide Uxn.BytesOf;
  }

  lemma PoppedSiteOf(t: Tracker, mem: Uxn.Bytes, code: nat, pc: nat)
    requires PopsTarget(Uxn.OpOf(code)) && pc < 0x1_0000
    ensures var k, after := t.Begin(code).Pop(Uxn.Flag2(code), Uxn.FlagR(code)).1, (pc + 1) % 0x1_0000;
      && SiteAt(t, mem, code, pc) == SiteOf(k, after, if Uxn.OpOf(code).Jsr? then after else 0)
      && (SiteAt(t, mem, code, pc).Constant? <==> Knows(t, code))
  {
    hide Uxn.OpOf;
    hide Uxn.Flag2;
    hide Uxn.FlagR;
    hide Tracker.Pop;
    hide SignExtend8;
  }

  /** Wherever the compiler knows a target it is the interpreter's. */
  lemma SiteKnows(t: Tracker, vm: Uxn.Vm, rom: Uxn.Bytes)
    requires Tracks(t, vm) && Faithful(t, vm, rom) && !FallsThrough(vm, rom)
    ensures var code := Uxn.Peek(rom, vm.pc); var site := SiteAt(t, rom, code, vm.pc);
      && (site.Constant? <==> Knows(t, code))
      && (site.Constant? ==> site.target == Uxn.Step(vm).value.pc)
  {
    hide Uxn.Perform;
    hide Uxn.OpOf;
    hide Uxn.Flag2;
    hide Uxn.FlagR;
    hide Tracks;
    hide SiteOf;
    hide Skips;
    hide Inside;
    hide ImmediateTarget;
    hide Tracker.Pop;
    var code, pc := Uxn.Peek(rom, vm.pc), (vm.pc + 1) % 0x1_0000;
    if IsImmediate(Uxn.OpOf(code)) {
      hide SiteAt;
      ImmediateKnown(t, vm, rom);
    } else if PopsTarget(Uxn.OpOf(code)) {
      hide SiteAt;
      PoppedSiteOf(t, rom, code, vm.pc);
      if Knows(t, code) {
        PoppedKnown(t, vm, code, pc, if Uxn.OpOf(code).Jsr? then pc else 0);
      }
    }
  }

  // ---- known jumps of a block ----

  /** From the start of a block, through any stretch of it that finds its literals: if the compiler
      knows where the jump goes at which the interpreter leaves, the whole block's code leaves by
      that jump's link, for the interpreter's address. */
  lemma KnownJumpTaken(m: Machine, vm: Uxn.Vm, rom: Uxn.Bytes, n: nat, vmn: Uxn.Vm, t: Tracker)
    requires Compiler.Holds(m, vm) && vm.pc < 0x1_0000 && PassesThrough(NoFacts(), vm, rom, n) && LiteralsKept(vm, rom, n)
    requires vmn == RunReference(vm, n) && t == TrackerAt(NoFacts(), rom, vm.pc, n)
    requires Faithful(t, vmn, rom) && !FallsThrough(vmn, rom) && Knows(t, Uxn.Peek(rom, vmn.pc))
    requires !Rounds(Start(vm.pc), rom, n + 1).e.Hazard()
    ensures var pc', site := RunReference(vm, n + 1).pc, SiteAt(t, rom, Uxn.Peek(rom, vmn.pc), vmn.pc);
      && site.Constant? && pc' < 0x1_0000
      && Exec(BlockLinks.CodeAt(rom, vm.pc), m).exit == if site.ret != 0 then Called(pc', site.ret) else Jumped(pc')
  {
    hide Exec;
    hide Compiler.Holds;
    hide Faithful;
    hide FallsThrough;
    hide PassesThrough;
    hide LiteralsKept;
    hide Rounds;
    hide Tracks;
    hide TrackerAt;
    hide SiteAt;
    hide Knows;
    hide Arrives;
    hide RunReference;
    hide NoFacts;
    hide BlockLinks.CodeAt;
    hide Uxn.Step;
    hide CacheRuns.Run;
    StartTracks(m, vm);
    StretchKeepsFacts(NoFacts(), vm, rom, n);
    StartRounds(vm, rom, n);
    CompiledBlockCorrect(m, vm, rom, n);
    SiteKnows(t, vmn, rom);
    FaithfulSteps(t, vmn, rom);
    StepAfter(vm, n);
    var m' := CacheRuns.Run(Rounds(Start(vm.pc), rom, n + 1).e, m);
    KnownExit(m, vm, m', RunReference(vm, n + 1), SiteAt(t, rom, Uxn.Peek(rom, vmn.pc), vmn.pc));
    WholeCode(m, vm.pc, rom, n + 1);
  }

  lemma StartRounds(vm: Uxn.Vm, rom: Uxn.Bytes, n: nat)
    requires vm.pc < 0x1_0000 && PassesThrough(NoFacts(), vm, rom, n)
    ensures Rounds(Start(vm.pc), rom, n).t == TrackerAt(NoFacts(), rom, vm.pc, n)
  {
    hide Rounds;
    hide TrackerAt;
    hide PassesThrough;
    RoundsEmitStretch(Start(vm.pc), vm, rom, n);
  }

  lemma KnownExit(m: Machine, vm: Uxn.Vm, m': Machine, vm': Uxn.Vm, site: Calls.Site)
    requires Arrives(m, vm, m', vm', site) && site.Constant? && site.target == vm'.pc
    ensures vm'.pc < 0x1_0000 && m'.exit == if site.ret != 0 then Called(vm'.pc, site.ret) else Jumped(vm'.pc)
  {
    hide Compiler.Holds;
    hide PointersMatch;
    KnownTaken(site, vm'.pc);
  }

  lemma StartTracks(m: Machine, vm: Uxn.Vm)
    requires Compiler.Holds(m, vm)
    ensures Tracks(NoFacts(), vm) && vm.io.Shaped()
  {
    EmptyGood(m, vm);
    GoodBytes(EMPTY, m, StartSnap(m, vm), multiset{});
    hide CacheSound.Good;
    hide Rings.Live;
    hide AreBytes;
    hide Rings.Bottom;
  }

  lemma {:induction false} StepAfter(vm: Uxn.Vm, n: nat)
    requires Uxn.Step(RunReference(vm, n)).Some?
    ensures RunReference(vm, n + 1) == Uxn.Step(RunReference(vm, n)).value
    decreases n
  {
    hide Uxn.Step;
    if n > 0 && Uxn.Step(vm).Some? {
      StepAfter(Uxn.Step(vm).value, n - 1);
    }
  }

  lemma WholeCode(m: Machine, pc: Addr, rom: Uxn.Bytes, n: nat)
    requires CacheRuns.Run(Rounds(Start(pc), rom, n).e, m).exit != Running
    ensures Exec(BlockLinks.CodeAt(rom, pc), m) == CacheRuns.Run(Rounds(Start(pc), rom, n).e, m)
  {
    hide Exec;
    hide Rounds;
    hide Compile;
    var at := Execution.Point(pc, EMPTY, NoFacts(), rom);
    assert Execution.Context(at) == Start(pc);
    Execution.WholeBlock(at, n, m);
    assert Execution.CodeFrom(at) == BlockLinks.CodeAt(rom, pc);
  }

  /** And the block it leaves for has been compiled in the same call, and the jump is linked to it. */
  lemma KnownJumpLands(w: Worklist.Work, places: Addr -> BlockLinks.Place, m: Machine, vm: Uxn.Vm, rom: Uxn.Bytes, n: nat, vmn: Uxn.Vm, t: Tracker)
    requires w.Inv([]) && w.Idle() && BlockLinks.AllPlaced(places) && vm.pc < 0x1_0000 && vm.pc !in w.codes
    requires Compiler.Holds(m, vm) && PassesThrough(NoFacts(), vm, rom, n) && LiteralsKept(vm, rom, n)
    requires vmn == RunReference(vm, n) && t == TrackerAt(NoFacts(), rom, vm.pc, n)
    requires Faithful(t, vmn, rom) && !FallsThrough(vmn, rom) && Knows(t, Uxn.Peek(rom, vmn.pc))
    requires !Rounds(Start(vm.pc), rom, n + 1).e.Hazard()
    ensures Worklist.Generates(BlockLinks.CodeOf(rom, places)) && RunReference(vm, n + 1).pc < 0x1_0000
    ensures var w', site := Worklist.Compiled(w, vm.pc, BlockLinks.CodeOf(rom, places)), SiteAt(t, rom, Uxn.Peek(rom, vmn.pc), vmn.pc);
      site.Constant? && BlockLinks.LinkedTo(w', vm.pc, RunReference(vm, n + 1).pc, site.ret == 0)
  {
    hide Exec;
    hide Compiler.Holds;
    hide Faithful;
    hide FallsThrough;
    hide PassesThrough;
    hide LiteralsKept;
    hide Rounds;
    hide TrackerAt;
    hide SiteAt;
    hide RunReference;
    hide NoFacts;
    hide Tracks;
    hide BlockLinks.CodeAt;
    hide BlockLinks.CodeOf;
    hide BlockLinks.LinkedTo;
    hide BlockLinks.AllPlaced;
    hide Worklist.Compiled;
    hide Worklist.Work.Inv;
    KnownJumpTaken(m, vm, rom, n, vmn, t);
    RunningStart(m, vm);
    BlockLinks.NativeJumpsLand(w, vm.pc, rom, places, vm.pc, m);
  }

  lemma RunningStart(m: Machine, vm: Uxn.Vm)
    requires Compiler.Holds(m, vm)
    ensures m.exit == Running
  {
  }
}
