/** The static values outlive a native call, and what the callee does to the stacks is not known to
    them: a truth value it has popped is still taken for the top of the stack. */
module StaleFacts {
  import opened Words
  import opened Compiler
  import opened Facts
  import opened FactsSound
  import opened Blocks
  import HazardExample
  import SkipExample
  import Uxn

  const LIT: nat := 0x80
  const EQU: nat := 0x08
  const JSI: nat := 0x60
  const JMP: nat := 0x0c
  const POP: nat := 0x02
  const RETURN: nat := 0x6c

  /** LIT 04, LIT 07, LIT 08, EQU, JSI to 0110, JMP; and at 0110: POP, JMP2r. */
  ghost predicate IsProgram(ram: Uxn.Bytes) {
    && |ram| == 0x1_0000
    && ram[0x100] == LIT && ram[0x101] == 4 && ram[0x102] == LIT && ram[0x103] == 7 && ram[0x104] == LIT && ram[0x105] == 8
    && ram[0x106] == EQU && ram[0x107] == JSI && ram[0x108] == 0 && ram[0x109] == 6 && ram[0x10a] == JMP
    && ram[0x110] == POP && ram[0x111] == RETURN
  }

  lemma Codes()
    ensures Uxn.OpOf(EQU) == Uxn.Equ && !Uxn.FlagR(EQU) && !Uxn.Flag2(EQU) && !Uxn.FlagK(EQU)
    ensures Uxn.OpOf(JMP) == Uxn.Jmp && !Uxn.FlagR(JMP) && !Uxn.Flag2(JMP) && !Uxn.FlagK(JMP)
  {
    hide Uxn.OpOf;
    Uxn.RegularOp(EQU);
    Uxn.RegularOp(JMP);
  }

  lemma CalleeCodes()
    ensures Uxn.OpOf(POP) == Uxn.Pop && !Uxn.FlagR(POP) && !Uxn.Flag2(POP) && !Uxn.FlagK(POP)
    ensures Uxn.OpOf(RETURN) == Uxn.Jmp && Uxn.FlagR(RETURN) && Uxn.Flag2(RETURN) && !Uxn.FlagK(RETURN)
  {
    hide Uxn.OpOf;
    Uxn.RegularOp(POP);
    Uxn.RegularOp(RETURN);
  }

  lemma ImmediateCodes()
    ensures Uxn.OpOf(LIT) == Uxn.Lit && !Uxn.FlagR(LIT) && !Uxn.Flag2(LIT) && !Uxn.FlagK(LIT)
    ensures Uxn.OpOf(JSI) == Uxn.Jsi && !Uxn.FlagR(JSI) && !Uxn.Flag2(JSI) && !Uxn.FlagK(JSI)
  {
    hide Uxn.OpOf;
    Uxn.ImmediateOp();
    Uxn.LiteralOp(LIT);
  }

  // ---- the reference ----

  lemma EquFalse(vm: Uxn.Vm, st: Uxn.Bytes)
    requires vm.pc < 0xfff0 && vm.wst == st + [7, 8] && |st| < 256 && |vm.rst| <= 256
    ensures Uxn.Perform(vm, EQU, (vm.pc + 1) % 0x1_0000) == Uxn.Some(vm.(pc := vm.pc + 1, wst := st + [0]))
  {
    hide Uxn.OpOf;
    hide Uxn.FlagR;
    hide Uxn.Flag2;
    hide Uxn.FlagK;
    hide Uxn.PopAll;
    hide Uxn.Shape;
    hide Uxn.Act;
    Codes();
    SkipExample.TwoBytes(st, 8, 7);
    EquActs(vm.ram, vm.pc + 1);
    assert vm.rst + [] == vm.rst;
  }

  lemma EquActs(ram: Uxn.Bytes, pc: nat)
    ensures Uxn.Shape(Uxn.Equ, false) == [false, false]
    ensures Uxn.Act(Uxn.Equ, false, 8, 7, 0, ram, pc) == Uxn.Effect([0], [], ram, pc)
  {
  }

  lemma CallStep(vm: Uxn.Vm)
    requires vm.pc == 0x107 && IsProgram(vm.ram) && |vm.wst| <= 256 && |vm.rst| <= 254
    ensures Uxn.Perform(vm, JSI, 0x108) == Uxn.Some(vm.(pc := 0x110, rst := vm.rst + [0x01, 0x0a]))
  {
    hide Uxn.OpOf;
    hide Uxn.FlagR;
    hide Uxn.Flag2;
    hide Uxn.FlagK;
    ImmediateCodes();
    assert Uxn.PopAll(vm.wst, []) == Uxn.Some((vm.wst, []));
    assert Uxn.Fetch(vm.ram, 0x108, true, true) == 6 && Uxn.BytesOf(0x10a, true) == [0x01, 0x0a];
    assert Uxn.Act(Uxn.Jsi, false, 0, 0, 0, vm.ram, 0x108) == Uxn.Effect([], [0x01, 0x0a], vm.ram, 0x110);
    hide Uxn.Act;
    assert vm.wst + [] == vm.wst;
  }

  lemma PopStep(vm: Uxn.Vm, st: Uxn.Bytes)
    requires vm.pc == 0x110 && vm.wst == st + [0] && |st| < 256 && |vm.rst| <= 256
    ensures Uxn.Perform(vm, POP, 0x111) == Uxn.Some(vm.(pc := 0x111, wst := st))
  {
    hide Uxn.OpOf;
    hide Uxn.FlagR;
    hide Uxn.Flag2;
    hide Uxn.FlagK;
    CalleeCodes();
    HazardExample.PopTop(st, 0);
    assert Uxn.Shape(Uxn.Pop, false) == [false];
    assert Uxn.Act(Uxn.Pop, false, 0, 0, 0, vm.ram, 0x111) == Uxn.Effect([], [], vm.ram, 0x111);
    hide Uxn.PopAll;
    hide Uxn.Shape;
    hide Uxn.Act;
    assert vm.rst + [] == vm.rst && st + [] == st;
  }

  lemma ReturnStep(vm: Uxn.Vm, st: Uxn.Bytes)
    requires vm.pc == 0x111 && vm.rst == st + [0x01, 0x0a] && |st| <= 254 && |vm.wst| <= 256
    ensures Uxn.Perform(vm, RETURN, 0x112) == Uxn.Some(vm.(pc := 0x10a, rst := st))
  {
    hide Uxn.OpOf;
    hide Uxn.FlagR;
    hide Uxn.Flag2;
    hide Uxn.FlagK;
    CalleeCodes();
    ReturnPops(st);
    assert Uxn.Shape(Uxn.Jmp, true) == [true];
    assert Uxn.Act(Uxn.Jmp, true, 0x10a, 0, 0, vm.ram, 0x112) == Uxn.Effect([], [], vm.ram, 0x10a);
    hide Uxn.PopAll;
    hide Uxn.Shape;
    hide Uxn.Act;
    assert vm.wst + [] == vm.wst && st + [] == st;
  }

  lemma ReturnPops(st: Uxn.Bytes)
    ensures Uxn.PopAll(st + [0x01, 0x0a], [true]) == Uxn.Some((st, [0x10a]))
  {
    var all := st + [0x01, 0x0a];
    assert [true][1..] == [] && all[..|all| - 2] == st && all[|all| - 2] == 0x01 && all[|all| - 1] == 0x0a;
    assert Uxn.PopAll(st, []) == Uxn.Some((st, []));
    assert [0x10a] + [] == [0x10a];
  }

  lemma JumpStep(vm: Uxn.Vm, st: Uxn.Bytes)
    requires vm.pc == 0x10a && vm.wst == st + [4] && |st| < 256 && |vm.rst| <= 256
    ensures Uxn.Perform(vm, JMP, 0x10b) == Uxn.Some(vm.(pc := 0x10f, wst := st))
  {
    hide Uxn.OpOf;
    hide Uxn.FlagR;
    hide Uxn.Flag2;
    hide Uxn.FlagK;
    Codes();
    HazardExample.PopTop(st, 4);
    assert Uxn.Shape(Uxn.Jmp, false) == [false];
    assert Uxn.Act(Uxn.Jmp, false, 4, 0, 0, vm.ram, 0x10b) == Uxn.Effect([], [], vm.ram, 0x10f);
    hide Uxn.PopAll;
    hide Uxn.Shape;
    hide Uxn.Act;
    assert vm.rst + [] == vm.rst && st + [] == st;
  }

  lemma FirstThree(vm: Uxn.Vm)
    requires vm.pc == 0x100 && IsProgram(vm.ram) && |vm.wst| <= 252 && |vm.rst| <= 254
    ensures var st := vm.wst + [4]; RunReference(vm, 8) == RunReference(vm.(pc := 0x106, wst := st + [7, 8]), 5)
  {
    SkipExample.LitByte(vm);
    var vm1 := vm.(pc := 0x102, wst := vm.wst + [4]);
    SkipExample.LitByte(vm1);
    var vm2 := vm1.(pc := 0x104, wst := vm1.wst + [7]);
    SkipExample.LitByte(vm2);
    assert vm2.wst + [8] == vm.wst + [4] + [7, 8];
    hide Uxn.Perform;
    assert RunReference(vm, 8) == RunReference(vm1, 7);
    assert RunReference(vm1, 7) == RunReference(vm2, 6);
  }

  lemma LastFive(vm: Uxn.Vm, st: Uxn.Bytes)
    requires vm.pc == 0x106 && IsProgram(vm.ram) && vm.wst == st + [4] + [7, 8] && |st| <= 252 && |vm.rst| <= 254
    ensures RunReference(vm, 4) == vm.(pc := 0x10a, wst := st + [4])
    ensures RunReference(vm, 5) == vm.(pc := 0x10f, wst := st)
  {
    EquFalse(vm, st + [4]);
    var vm1 := vm.(pc := 0x107, wst := st + [4] + [0]);
    CallStep(vm1);
    var vm2 := vm1.(pc := 0x110, rst := vm.rst + [0x01, 0x0a]);
    PopStep(vm2, st + [4]);
    var vm3 := vm2.(pc := 0x111, wst := st + [4]);
    ReturnStep(vm3, vm.rst);
    var vm4 := vm3.(pc := 0x10a, rst := vm.rst);
    JumpStep(vm4, st);
    var vm5 := vm4.(pc := 0x10f, wst := st);
    hide Uxn.Perform;
    assert Uxn.Step(vm) == Uxn.Some(vm1) && Uxn.Step(vm1) == Uxn.Some(vm2) && Uxn.Step(vm2) == Uxn.Some(vm3);
    assert Uxn.Step(vm3) == Uxn.Some(vm4) && Uxn.Step(vm4) == Uxn.Some(vm5);
    hide Uxn.Step;
    RunFour(vm, vm1, vm2, vm3, vm4, vm5);
  }

  lemma RunFour(vm: Uxn.Vm, vm1: Uxn.Vm, vm2: Uxn.Vm, vm3: Uxn.Vm, vm4: Uxn.Vm, vm5: Uxn.Vm)
    requires Uxn.Step(vm) == Uxn.Some(vm1) && Uxn.Step(vm1) == Uxn.Some(vm2) && Uxn.Step(vm2) == Uxn.Some(vm3)
    requires Uxn.Step(vm3) == Uxn.Some(vm4) && Uxn.Step(vm4) == Uxn.Some(vm5)
    ensures RunReference(vm, 4) == vm4 && RunReference(vm, 5) == vm5
  {
    hide Uxn.Step;
    assert RunReference(vm4, 0) == vm4 && RunReference(vm5, 0) == vm5 && RunReference(vm4, 1) == RunReference(vm5, 0);
    assert RunReference(vm3, 1) == RunReference(vm4, 0) && RunReference(vm3, 2) == RunReference(vm4, 1);
    assert RunReference(vm2, 2) == RunReference(vm3, 1) && RunReference(vm2, 3) == RunReference(vm3, 2);
    assert RunReference(vm1, 3) == RunReference(vm2, 2) && RunReference(vm1, 4) == RunReference(vm2, 3);
    assert RunReference(vm, 4) == RunReference(vm1, 3) && RunReference(vm, 5) == RunReference(vm1, 4);
  }

  // ---- the compiler ----

  lemma TrackOnce(t: Tracker, rom: Uxn.Bytes, pc: nat, n: nat)
    ensures TrackerAt(t, rom, pc, n + 1) == TrackerAt(TrackAt(t, rom, pc), rom, PcAfter(Uxn.Peek(rom, pc), pc), n)
    ensures TrackerAt(t, rom, pc, 0) == t
  {
    hide TrackAt;
    hide PcAfter;
  }

  /** The tracker behind EQU and JSI takes the top of the working stack for a truth value. */
  lemma StillBoolean(t: Tracker, a: nat, b: nat)
    requires |t.wst| == RING && t.wsp < RING
    ensures Skips(t.Track(EQU, a).Track(JSI, b), JMP)
  {
    Codes();
    ImmediateCodes();
    hide Uxn.OpOf;
    hide Uxn.FlagR;
    hide Uxn.Flag2;
    hide Uxn.FlagK;
  }

  lemma LitShaped(t: Tracker, lit: nat)
    requires |t.wst| == RING && t.wsp < RING
    ensures |t.Track(LIT, lit).wst| == RING && t.Track(LIT, lit).wsp < RING
  {
    ImmediateCodes();
    hide Uxn.OpOf;
    hide Uxn.FlagR;
    hide Uxn.Flag2;
    hide Uxn.FlagK;
  }

  lemma Addresses()
    ensures PcAfter(LIT, 0x100) == 0x102 && PcAfter(LIT, 0x102) == 0x104 && PcAfter(LIT, 0x104) == 0x106
    ensures PcAfter(EQU, 0x106) == 0x107 && PcAfter(JSI, 0x107) == 0x10a
  {
    Codes();
    ImmediateCodes();
    hide Uxn.OpOf;
    hide Uxn.Flag2;
  }

  lemma TrackedToCall(rom: Uxn.Bytes)
    requires IsProgram(rom)
    ensures Skips(TrackerAt(NoFacts(), rom, 0x100, 5), JMP)
  {
    hide Tracker.Track;
    hide LiteralAt;
    hide Skips;
    hide PcAfter;
    hide TrackerAt;
    Addresses();
    var t0 := NoFacts();
    var t1 := TrackAt(t0, rom, 0x100);
    var t2 := TrackAt(t1, rom, 0x102);
    var t3 := TrackAt(t2, rom, 0x104);
    var t4 := TrackAt(t3, rom, 0x106);
    var t5 := TrackAt(t4, rom, 0x107);
    TrackOnce(t0, rom, 0x100, 4);
    TrackOnce(t1, rom, 0x102, 3);
    TrackOnce(t2, rom, 0x104, 2);
    TrackOnce(t3, rom, 0x106, 1);
    TrackOnce(t4, rom, 0x107, 0);
    TrackOnce(t5, rom, 0x10a, 0);
    LitShaped(t0, LiteralAt(rom, LIT, 0x100));
    LitShaped(t1, LiteralAt(rom, LIT, 0x102));
    LitShaped(t2, LiteralAt(rom, LIT, 0x104));
    StillBoolean(t3, LiteralAt(rom, EQU, 0x106), LiteralAt(rom, JSI, 0x107));
  }

  /** From any state with room for it: the call pops the truth value and returns, so the interpreter
      jumps by the 4 below it, to 010f; the compiler, whose facts are those from before the call,
      takes the target for a truth value, and compiles a skip. */
  lemma ProgramWrong(vm: Uxn.Vm)
    requires vm.pc == 0x100 && IsProgram(vm.ram) && |vm.wst| <= 252 && |vm.rst| <= 254
    ensures RunReference(vm, 8).pc == 0x10f
    ensures Skips(TrackerAt(NoFacts(), vm.ram, 0x100, 5), vm.ram[0x10a])
    ensures !Tracks(TrackerAt(NoFacts(), vm.ram, 0x100, 5), vm.(pc := 0x10a, wst := vm.wst + [4]))
  {
    hide Skips;
    hide TrackerAt;
    FirstThree(vm);
    LastFive(vm.(pc := 0x106, wst := vm.wst + [4] + [7, 8]), vm.wst);
    TrackedToCall(vm.ram);
    NotTrue(TrackerAt(NoFacts(), vm.ram, 0x100, 5), vm.(pc := 0x10a, wst := vm.wst + [4]));
  }

  /** The facts are not true of a stack with 4 on top. */
  lemma NotTrue(t: Tracker, vm: Uxn.Vm)
    requires Skips(t, JMP) && |vm.wst| >= 1 && vm.wst[|vm.wst| - 1] == 4
    ensures !Tracks(t, vm)
  {
    Codes();
    hide Uxn.OpOf;
    hide Uxn.FlagR;
    hide Uxn.Flag2;
    hide Uxn.FlagK;
    if Tracks(t, vm) {
      RingTop(t.Ring(false), t.Ptr(false), vm.wst, 1);
    }
  }
}
