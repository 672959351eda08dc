/** Compiler correctness for straight-line code. */
module Compiler {
  import opened Target
  import opened Emission
  import opened Allocator
  import opened Rings
  import opened CacheRuns
  import opened CacheSound
  import opened Popping
  import opened OpStart
  import opened OpSound
  import Uxn

  /** The emitter at the start of a block: nothing cached, no register in use. */
  const EMPTY: Emitter := Emitter([], 0, [0, 0, 0, 0, 0, 0], [], [], WSP, RSP, 0, false, false, false)

  /** Emits one opcode found at "pc". */
  function EmitOpcode(e: Emitter, code: nat, pc: nat): (e': Emitter)
    ensures e.Grows(e')
  {
    e.Begin(code).Plain((pc + 1) % 0x1_0000)
  }

  /** The address after the literal at "pc", if the opcode has one. */
  function PastLiteral(code: nat, pc: nat): nat {
    (pc + if Uxn.OpOf(code).Lit? then (if Uxn.Flag2(code) then 2 else 1) else 0) % 0x1_0000
  }

  /** The address after the opcode at "pc" and its literal. */
  function NextPc(code: nat, pc: nat): nat {
    PastLiteral(code, (pc + 1) % 0x1_0000)
  }

  /** Emits "n" opcodes from "pc" on. */
  function Emitted(e: Emitter, rom: Uxn.Bytes, pc: nat, n: nat): (e': Emitter)
    ensures e.Grows(e')
    decreases n
  {
    if n == 0 then e
    else
      var code := Uxn.Peek(rom, pc);
      Emitted(EmitOpcode(e, code, pc), rom, NextPc(code, pc), n - 1)
  }

  /** The reference run of "n" steps stays on plain opcodes outside the zero page, has the
      operands and the room it needs, and finds the opcode bytes that were compiled. */
  ghost predicate Follows(vm: Uxn.Vm, rom: Uxn.Bytes, n: nat)
    decreases n
  {
    n == 0 ||
    (&& 256 <= vm.pc < 0x1_0000 && Uxn.Peek(vm.ram, vm.pc) == Uxn.Peek(rom, vm.pc) < 256
     && IsPlain(Uxn.OpOf(Uxn.Peek(rom, vm.pc)))
     && Uxn.Step(vm).Some? && Follows(Uxn.Step(vm).value, rom, n - 1))
  }

  function RunReference(vm: Uxn.Vm, n: nat): Uxn.Vm
    decreases n
  {
    if n == 0 then vm
    else match Uxn.Step(vm)
      case None => vm
      case Some(vm') => RunReference(vm', n - 1)
  }

  ghost predicate Mirrors(s: Snap, vm: Uxn.Vm) {
    s.w == vm.wst && s.r == vm.rst && s.ram == vm.ram && s.io == vm.io
  }

  ghost predicate SameOrigins(s: Snap, s': Snap) {
    s'.wOrigin == s.wOrigin && s'.rOrigin == s.rOrigin
  }

  /** A plain opcode continues right after itself and its literal. */
  lemma PlainPc(code: nat, x: nat, y: nat, z: nat, ram: Uxn.Bytes, pc: nat)
    requires IsPlain(Uxn.OpOf(code)) && pc < 0x1_0000
    ensures Uxn.Act(Uxn.OpOf(code), Uxn.Flag2(code), x, y, z, ram, (pc + 1) % 0x1_0000).pc == NextPc(code, pc)
  {
    hide Uxn.Fetch;
    hide Uxn.Write;
    hide Uxn.Arith;
    hide Uxn.OpOf;
    hide Uxn.Flag2;
  }

  /** One opcode: the emitted code takes the machine where the reference step goes. */
  lemma OpcodeSound(e: Emitter, m0: Machine, s: Snap, held: multiset<Reg>, vm: Uxn.Vm, code: nat)
    returns (s': Snap, held': multiset<Reg>)
    requires Good(e, m0, s, held) && Mirrors(s, vm) && vm.pc < 0x1_0000 && code < 256 && IsPlain(Uxn.OpOf(code))
    requires Uxn.Perform(vm, code, (vm.pc + 1) % 0x1_0000).Some? && !EmitOpcode(e, code, vm.pc).Hazard()
    ensures var vm' := Uxn.Perform(vm, code, (vm.pc + 1) % 0x1_0000).value;
      && Good(EmitOpcode(e, code, vm.pc), m0, s', held') && Mirrors(s', vm') && SameOrigins(s, s')
      && vm'.pc == NextPc(code, vm.pc)
  {
    hide Good;
    hide Emitter.Begin;
    hide Emitter.Plain;
    hide Uxn.OpOf;
    hide Uxn.Flag2;
    hide Uxn.FlagR;
    hide Uxn.FlagK;
    hide Uxn.Act;
    hide ViewMode;
    var op, r, k, short := Uxn.OpOf(code), Uxn.FlagR(code), Uxn.FlagK(code), Uxn.Flag2(code);
    var pc := (vm.pc + 1) % 0x1_0000;
    var held1 := BeginGood(e, code, m0, s, held);
    var s1 := s.(vals := map[]);
    var (rest, args) := Uxn.PopAll(vm.Stack(r), Uxn.Shape(op, short)).value;
    PlainPc(code, Uxn.Nth(args, 0), Uxn.Nth(args, 1), Uxn.Nth(args, 2), vm.ram, vm.pc);
    assert Applies(op, short, s1, r, k, rest, args, pc);
    s', held' := PlainSound(e.Begin(code), pc, m0, s1, held1, rest, args);
  }

  lemma {:induction false} SequenceSound(e: Emitter, m0: Machine, s: Snap, held: multiset<Reg>, vm: Uxn.Vm, rom: Uxn.Bytes, n: nat)
    returns (s': Snap, held': multiset<Reg>)
    requires Good(e, m0, s, held) && Mirrors(s, vm) && Follows(vm, rom, n)
    requires !Emitted(e, rom, vm.pc, n).Hazard()
    ensures Good(Emitted(e, rom, vm.pc, n), m0, s', held')
    ensures Mirrors(s', RunReference(vm, n)) && SameOrigins(s, s')
    decreases n
  {
    hide Good;
    hide EmitOpcode;
    hide Uxn.Perform;
    hide NextPc;
    if n == 0 {
      s', held' := s, held;
    } else {
      var code := Uxn.Peek(rom, vm.pc);
      var s1, held1 := OpcodeSound(e, m0, s, held, vm, code);
      s', held' := SequenceSound(EmitOpcode(e, code, vm.pc), m0, s1, held1, Uxn.Step(vm).value, rom, n - 1);
    }
  }

  // ---- whole blocks ----

  /** The machine holds the state of the virtual machine, with nothing cached. */
  ghost predicate Holds(m: Machine, vm: Uxn.Vm) {
    && Calm(m) && m.ram == vm.ram && m.io == vm.io && |vm.wst| <= 256 && |vm.rst| <= 256
    && Live(m.ws, Ptr(m, WSP), |vm.wst|) == vm.wst && Live(m.rs, Ptr(m, RSP), |vm.rst|) == vm.rst
  }

  /** Both stack pointers have moved as far as the stacks have grown, mod 256. */
  ghost predicate PointersMatch(m: Machine, vm: Uxn.Vm, m': Machine, vm': Uxn.Vm) {
    && Bottom(Ptr(m', WSP), |vm'.wst|) == Bottom(Ptr(m, WSP), |vm.wst|)
    && Bottom(Ptr(m', RSP), |vm'.rst|) == Bottom(Ptr(m, RSP), |vm.rst|)
  }

  ghost function StartSnap(m: Machine, vm: Uxn.Vm): Snap {
    Snap(map[], vm.wst, vm.rst, vm.ram, vm.io, Bottom(Ptr(m, WSP), |vm.wst|), Bottom(Ptr(m, RSP), |vm.rst|))
  }

  lemma EmptyGood(m: Machine, vm: Uxn.Vm)
    requires Holds(m, vm)
    ensures Good(EMPTY, m, StartSnap(m, vm), multiset{})
  {
    assert Run(EMPTY, m) == m;
    hide Exec;
    hide AreBytes;
    assert Decoded([], m.regs, false) == [];
    hide Live;
  }

  /** Compiler correctness for straight-line code: from any machine that holds the state of the
      virtual machine, running the code emitted for "n" opcodes and for clearing the caches
      leaves the machine holding the state the reference interpreter reaches. */
  lemma StraightLineCorrect(m: Machine, vm: Uxn.Vm, rom: Uxn.Bytes, n: nat)
    requires Holds(m, vm) && Follows(vm, rom, n)
    requires !Emitted(EMPTY, rom, vm.pc, n).ClearBoth().Hazard()
    ensures var e := Emitted(EMPTY, rom, vm.pc, n).ClearBoth();
      var m', vm' := Exec(e.code, m), RunReference(vm, n);
      Holds(m', vm') && PointersMatch(m, vm, m', vm') && !e.failed
  {
    hide Good;
    hide Holds;
    hide Emitted;
    hide Follows;
    hide RunReference;
    hide Emitter.ClearBoth;
    EmptyGood(m, vm);
    var s', held' := SequenceSound(EMPTY, m, StartSnap(m, vm), multiset{}, vm, rom, n);
    ClearedHolds(Emitted(EMPTY, rom, vm.pc, n), m, s', held', vm, RunReference(vm, n));
  }

  lemma ClearedHolds(e: Emitter, m: Machine, s: Snap, held: multiset<Reg>, vm: Uxn.Vm, vm': Uxn.Vm)
    requires Good(e, m, s, held) && Mirrors(s, vm') && SameOrigins(StartSnap(m, vm), s)
    ensures var e' := e.ClearBoth(); var m' := Exec(e'.code, m);
      Holds(m', vm') && PointersMatch(m, vm, m', vm') && !e'.failed
  {
    hide Exec;
    hide Live;
    hide Emitter.ClearBoth;
    ClearBothGood(e, m, s, held);
    hide SideRel;
    hide AreBytes;
  }
}
