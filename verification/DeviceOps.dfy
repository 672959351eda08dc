/** The device opcodes: what is emitted for them, and that the code which follows a device call can
    rely on nothing the call may have changed. */
module DeviceOps {
  import opened Words
  import opened Target
  import opened Emission
  import opened Allocator
  import opened Rings
  import opened CacheRuns
  import opened CacheSound
  import opened PopSound
  import opened Popping
  import opened Values
  import opened OpSound
  import Devices
  import Sharing
  import Uxn

  // ---- emission ----

  /** The caches are cleared before the call, and the memory base is unknown behind it. */
  function Asking(e: Emitter, isInput: bool, short: bool, port: Reg): Emitter {
    e.ClearBoth().(memBase := 0)
     .Emit(Op1(MOV, R(MEM_BASE), R(VM))).Emit(Op1(MOV, R(MEM_OFFSET), R(port))).Emit(CallDevice(isInput, short))
  }

  /** Puts the operand of DEO into the device page. */
  function ToPage(e: Emitter, port: Reg, v: Reg, short: bool): Emitter {
    var e1 := e.SetMemBase(DEV_BASE).Emit(Op1(MOV_U8, R(MEM_OFFSET), R(port)));
    if !short then e1.Emit(Op1(MOV_U8, Mem, R(v)))
    else
      e1.Emit(Op2(Alu.LSHR, TMP, R(v), Imm(8)))
        .Emit(Op1(MOV_U8, Mem, R(TMP)))
        .Emit(Op2(Alu.ADD, MEM_OFFSET, R(MEM_OFFSET), Imm(1)))
        .Emit(Op2(Alu.AND, MEM_OFFSET, R(MEM_OFFSET), Imm(0xff)))
        .Emit(Op1(MOV_U8, Mem, R(v)))
  }

  /** DEI and DEO, after what happens before every opcode. */
  function DeviceOp(e: Emitter): Emitter {
    var r, short := Uxn.FlagR(e.opcode), Uxn.Flag2(e.opcode);
    var (e1, port) := e.CachePop(false, r);
    if Uxn.OpOf(e.opcode).Dei? then
      var (e2, result) := e1.Alloc();
      Asking(e2, true, short, port).Emit(Op1(MOV, R(result), R(MEM_BASE))).Push(result, short, r)
    else
      var (e2, v) := e1.CachePop(short, r);
      Asking(ToPage(e2, port, v, short), false, short, port)
  }

  lemma AskingGrows(e: Emitter, isInput: bool, short: bool, port: Reg)
    ensures e.Grows(Asking(e, isInput, short, port))
  {
    hide Exec;
  }

  lemma ToPageGrows(e: Emitter, port: Reg, v: Reg, short: bool)
    ensures e.Grows(ToPage(e, port, v, short)) && SameBooks(e, ToPage(e, port, v, short))
  {
    hide Exec;
  }

  lemma Along(a: Emitter, b: Emitter, c: Emitter)
    requires a.Grows(b) && b.Grows(c)
    ensures a.Grows(c)
  {
  }

  lemma EmitGrows(e: Emitter, i: Instr)
    ensures e.Grows(e.Emit(i))
  {
  }

  lemma DeviceOpGrows(e: Emitter)
    ensures e.Grows(DeviceOp(e))
  {
    hide Emitter.Grows;
    hide Emitter.CachePop;
    hide DeviceOp;
    PopsGrow(e);
    var r, short := Uxn.FlagR(e.opcode), Uxn.Flag2(e.opcode);
    var e1 := e.CachePop(false, r).0;
    var e2 := e1.CachePop(short, r).0;
    if Uxn.OpOf(e.opcode).Dei? {
      Along(e, e1, DeviceOp(e));
    } else {
      Along(e, e1, e2);
      Along(e, e2, DeviceOp(e));
    }
  }

  // ---- the device page ----

  lemma PagePokeRuns(src: Reg, v: nat, m: Machine)
    requires Calm(m) && Selected(m) == Dev && m.regs[MEM_OFFSET] < 256 && src < NUM_REGS && m.regs[src] % 256 == v % 256
    ensures var m' := Step(Op1(MOV_U8, Mem, R(src)), m);
      Calm(m') && Selected(m') == Dev && m' == m.(io := m.io.(page := Uxn.Poke(m.io.page, m.regs[MEM_OFFSET], v)))
  {
    hide Exec;
    hide Step;
    hide Selected;
    StepPut(src, m);
    SelectedFrame(m, Step(Op1(MOV_U8, Mem, R(src)), m));
  }

  lemma PageNextRuns(m: Machine)
    requires Calm(m) && Selected(m) == Dev && m.regs[MEM_OFFSET] < 256
    ensures var m1 := Step(Op2(Alu.ADD, MEM_OFFSET, R(MEM_OFFSET), Imm(1)), m);
      var m2 := Step(Op2(Alu.AND, MEM_OFFSET, R(MEM_OFFSET), Imm(0xff)), m1);
      && Calm(m2) && Selected(m2) == Dev && OnlyRegs(m, m2, {MEM_OFFSET}) && m2.regs[MEM_OFFSET] == (m.regs[MEM_OFFSET] + 1) % 256
  {
    hide Exec;
    hide Step;
    hide Selected;
    hide AreBytes;
    var at := m.regs[MEM_OFFSET];
    StepAluImm(Alu.ADD, MEM_OFFSET, MEM_OFFSET, 1, m);
    var m1 := Step(Op2(Alu.ADD, MEM_OFFSET, R(MEM_OFFSET), Imm(1)), m);
    assert m1.regs[MEM_OFFSET] == at + 1;
    StepAluImm(Alu.AND, MEM_OFFSET, MEM_OFFSET, 0xff, m1);
    AndByte(at + 1);
    SelectedFrame(m, Step(Op2(Alu.AND, MEM_OFFSET, R(MEM_OFFSET), Imm(0xff)), m1));
  }

  lemma PageShortRuns(v: Reg, m: Machine)
    requires Calm(m) && Selected(m) == Dev && m.regs[MEM_OFFSET] < 256 && IsOp(v)
    ensures var m1 := Step(Op2(Alu.LSHR, TMP, R(v), Imm(8)), m);
      var m2 := Step(Op1(MOV_U8, Mem, R(TMP)), m1);
      var m3 := Step(Op2(Alu.ADD, MEM_OFFSET, R(MEM_OFFSET), Imm(1)), m2);
      var m4 := Step(Op2(Alu.AND, MEM_OFFSET, R(MEM_OFFSET), Imm(0xff)), m3);
      var m5 := Step(Op1(MOV_U8, Mem, R(v)), m4);
      && Calm(m5) && Agree(m.regs, m5.regs, {MEM_OFFSET, TMP})
      && m5 == m.(regs := m5.regs, io := m.io.(page := Uxn.Paged(m.io.page, m.regs[MEM_OFFSET], m.regs[v], true)))
  {
    hide Exec;
    hide Step;
    hide Selected;
    hide AreBytes;
    hide Uxn.Poke;
    HalfRuns(m, v, true);
    var m1 := Step(Op2(Alu.LSHR, TMP, R(v), Imm(8)), m);
    SelectedFrame(m, m1);
    PagePokeRuns(TMP, m.regs[v] / 256, m1);
    var m2 := Step(Op1(MOV_U8, Mem, R(TMP)), m1);
    PageNextRuns(m2);
    PagePokeRuns(v, m.regs[v], Step(Op2(Alu.AND, MEM_OFFSET, R(MEM_OFFSET), Imm(0xff)), Step(Op2(Alu.ADD, MEM_OFFSET, R(MEM_OFFSET), Imm(1)), m2)));
  }

  lemma ToPageRuns(e: Emitter, port: Reg, v: Reg, short: bool, m0: Machine)
    requires Calm(Run(e, m0)) && BaseOk(e, Run(e, m0)) && IsOp(port) && IsOp(v) && Run(e, m0).regs[port] < 256
    ensures var e' := ToPage(e, port, v, short); var m, m' := Run(e, m0), Run(e', m0);
      && BaseOk(e', m') && Calm(m') && Agree(m.regs, m'.regs, {MEM_BASE, MEM_OFFSET, TMP})
      && m' == m.(regs := m'.regs, io := m.io.(page := Uxn.Paged(m.io.page, m.regs[port], m.regs[v], short)))
  {
    hide Exec;
    hide Step;
    hide Selected;
    hide AreBytes;
    hide Uxn.Poke;
    SetMemBaseRuns(e, DEV_BASE, m0);
    var e0 := e.SetMemBase(DEV_BASE);
    var e1 := e0.Emit(Op1(MOV_U8, R(MEM_OFFSET), R(port)));
    StepMov(MOV_U8, MEM_OFFSET, port, Run(e0, m0));
    var m1 := Run(e1, m0);
    SelectedFrame(Run(e0, m0), m1);
    BaseSame(e0, e1, Run(e0, m0), m1);
    var e' := ToPage(e, port, v, short);
    hide Emitter.SetMemBase;
    if short {
      PageShortRuns(v, m1);
    } else {
      PagePokeRuns(v, m1.regs[v], m1);
    }
    BaseSame(e1, e', m1, Run(e', m0));
    hide BaseOk;
  }

  /** DEO changes the device page exactly as the reference does. */
  lemma ToPageGood(e: Emitter, port: Reg, v: Reg, short: bool, m0: Machine, s: Snap, held: multiset<Reg>)
    requires Good(e, m0, s, held) && port in s.vals && v in s.vals && s.vals[port] < 256
    ensures var io := s.io.(page := Uxn.Paged(s.io.page, s.vals[port], s.vals[v], short));
      Good(ToPage(e, port, v, short), m0, s.(io := io), held)
  {
    hide Exec;
    hide ToPage;
    var m, e' := Run(e, m0), ToPage(e, port, v, short);
    assert IsOp(port) && IsOp(v) && m.regs[port] == s.vals[port] && m.regs[v] == s.vals[v];
    ToPageRuns(e, port, v, short, m0);
    ToPageGrows(e, port, v, short);
    BooksInv(e, e', held);
    assert GoodCache(e.wcache) && GoodCache(e.rcache);
    hide Inv;
    PagedRel(e, m, e', Run(e', m0), s);
    hide Rel;
  }

  lemma PagedRel(e: Emitter, m: Machine, e': Emitter, m': Machine, s: Snap)
    requires Rel(e, m, s) && GoodCache(e.wcache) && GoodCache(e.rcache)
    requires BaseOk(e', m') && Calm(m') && Agree(m.regs, m'.regs, {MEM_BASE, MEM_OFFSET, TMP})
    requires m' == m.(regs := m'.regs, io := m'.io)
    requires e'.wcache == e.wcache && e'.rcache == e.rcache
    ensures Rel(e', m', s.(io := m'.io))
  {
    hide AreBytes;
    hide BaseOk;
    hide Stacked;
    hide InRange;
    SideFrame(e.wcache, m, m', s, false);
    SideFrame(e.rcache, m, m', s, true);
    SideVals(e, m', s, s.(io := m'.io));
    hide SideRel;
  }

  // ---- the call ----

  /** What the helper does is what the reference's exchange does. */
  ghost predicate Replies(reply: Devices.Reply, x: Uxn.Exchange, isInput: bool, short: bool) {
    && reply.Reply? && reply.io == x.io && reply.ram == x.ram && x.io.Shaped() && Devices.IsMemory(x.ram)
    && if isInput then x.cur == Uxn.BytesOf(reply.value, short) && reply.value < (if short then 0x1_0000 else 256)
       else x.cur == []
  }

  lemma InputHelped(m: Machine, short: bool, port: nat, x: Uxn.Exchange)
    requires m.io.Shaped() && port < 256 && Uxn.Input(short, port, m.ram, m.io) == Uxn.Some(x)
    ensures Replies(Helped(m, true, port, short), x, true, short)
  {
    hide Devices.Ask;
    Devices.AskShaped(m.io, m.ram, true, port);
    var first := Devices.Ask(m.io, m.ram, true, port);
    if short {
      Devices.AskShaped(first.io, first.ram, true, (port + 1) % 256);
    }
    hide Devices.IsPage;
    hide Devices.IsMemory;
  }

  lemma OutputHelped(m: Machine, short: bool, port: nat, v: nat, io: Devices.Io, x: Uxn.Exchange)
    requires m.io.Shaped() && port < 256 && Uxn.Output(short, port, v, m.ram, io) == Uxn.Some(x)
    requires m.io == io.(page := Uxn.Paged(io.page, port, v, short))
    ensures Replies(Helped(m, false, port, short), x, false, short)
  {
    hide Devices.Ask;
    hide Uxn.Paged;
    Devices.AskShaped(m.io, m.ram, false, port);
    var first := Devices.Ask(m.io, m.ram, false, port);
    if short {
      Devices.AskShaped(first.io, first.ram, false, (port + 1) % 256);
    }
    hide Devices.IsPage;
    hide Devices.IsMemory;
  }

  /** Behind a device call: the stacks and the registers of the virtual machine are as before, the
      result is in the first register, and of the other registers nothing is known. */
  ghost predicate Called(m: Machine, m': Machine, reply: Devices.Reply)
    requires reply.Reply?
  {
    && |m'.regs| == |m.regs| == NUM_REGS && m' == m.(regs := m'.regs, io := reply.io, ram := reply.ram)
    && m'.regs[MEM_BASE] == reply.value
    && m'.regs[VM] == m.regs[VM] && m'.regs[WSP] == m.regs[WSP] && m'.regs[RSP] == m.regs[RSP]
  }

  lemma DeviceRuns(m: Machine, isInput: bool, short: bool)
    requires m.exit == Running && |m.regs| == NUM_REGS && m.regs[MEM_BASE] == m.regs[VM] && m.regs[MEM_OFFSET] < 256
    requires Helped(m, isInput, m.regs[MEM_OFFSET], short).Reply?
    ensures Called(m, Step(CallDevice(isInput, short), m), Helped(m, isInput, m.regs[MEM_OFFSET], short))
  {
    hide Exec;
    hide Helped;
    assert Step(CallDevice(isInput, short), m) == DeviceCall(m, isInput, short);
    hide Step;
  }

  /** The call does not depend on other registers than the port. */
  lemma HelpedFrame(m: Machine, m': Machine, isInput: bool, port: nat, short: bool)
    requires m'.io == m.io && m'.ram == m.ram
    ensures Helped(m', isInput, port, short) == Helped(m, isInput, port, short)
  {
  }

  lemma CallRuns(m: Machine, isInput: bool, short: bool, port: Reg)
    requires Calm(m) && IsOp(port) && m.regs[port] < 256 && Helped(m, isInput, m.regs[port], short).Reply?
    ensures var m1 := Step(Op1(MOV, R(MEM_BASE), R(VM)), m);
      var m2 := Step(Op1(MOV, R(MEM_OFFSET), R(port)), m1);
      Called(m, Step(CallDevice(isInput, short), m2), Helped(m, isInput, m.regs[port], short))
  {
    hide Exec;
    hide Step;
    hide AreBytes;
    hide Helped;
    StepMov(MOV, MEM_BASE, VM, m);
    var m1 := Step(Op1(MOV, R(MEM_BASE), R(VM)), m);
    StepMov(MOV, MEM_OFFSET, port, m1);
    var m2 := Step(Op1(MOV, R(MEM_OFFSET), R(port)), m1);
    HelpedFrame(m, m2, isInput, m.regs[port], short);
    DeviceRuns(m2, isInput, short);
  }

  /** What has to be shown of the state behind a device call, whatever the call has left in the
      registers: nothing is cached, no memory base is recorded, and the stacks are in memory. */
  lemma CalledRel(e: Emitter, e': Emitter, m: Machine, m': Machine, s: Snap, reply: Devices.Reply)
    requires Rel(e, m, s) && e.wcache == [] && e.rcache == [] && e'.wcache == [] && e'.rcache == [] && e'.memBase == 0
    requires reply.Reply? && Called(m, m', reply) && reply.io.Shaped() && Devices.IsMemory(reply.ram)
    ensures Rel(e', m', s.(vals := map[], ram := reply.ram, io := reply.io))
  {
    hide Live;
    hide Bottom;
    assert Decoded([], m.regs, false) == [] && Decoded([], m'.regs, false) == [];
  }

  /** Any machine in front of the call that has the memory and devices of "s" gets this exchange. */
  ghost predicate Determined(s: Snap, isInput: bool, port: nat, short: bool, x: Uxn.Exchange) {
    forall m: Machine :: m.io == s.io && m.ram == s.ram ==> Replies(Helped(m, isInput, port, short), x, isInput, short)
  }

  /** The state behind a device call: nothing is cached, and the reply is in the first register. */
  ghost predicate Replied(e: Emitter, m: Machine, reply: Devices.Reply) {
    e.wcache == [] && e.rcache == [] && |m.regs| == NUM_REGS && reply.Reply? && m.regs[MEM_BASE] == reply.value
  }

  lemma AskingGood(e: Emitter, isInput: bool, short: bool, port: Reg, m0: Machine, s: Snap, held: multiset<Reg>, x: Uxn.Exchange)
    returns (reply: Devices.Reply)
    requires Good(e, m0, s, held) && port in s.vals && s.vals[port] < 256
    requires Determined(s, isInput, s.vals[port], short, x)
    ensures var e' := Asking(e, isInput, short, port);
      Good(e', m0, s.(vals := map[], ram := x.ram, io := x.io), held) && Replied(e', Run(e', m0), reply)
    ensures Replies(reply, x, isInput, short)
  {
    hide Exec;
    hide Step;
    hide Good;
    hide Emitter.ClearBoth;
    hide Helped;
    var e1 := e.ClearBoth();
    ClearBothGood(e, m0, s, held);
    BothCleared(e);
    HeldValue(e1, m0, s, held, port);
    var m := Run(e1, m0);
    AskingRel(e1, m, m0, s, held);
    CallRuns(m, isInput, short, port);
    var e', s' := Asking(e, isInput, short, port), s.(vals := map[], ram := x.ram, io := x.io);
    reply := Helped(m, isInput, s.vals[port], short);
    CalledRel(e1, e', m, Run(e', m0), s, reply);
    BooksInv(e1, e', held);
    hide Inv;
    hide Rel;
    GoodFrom(e', m0, s', held);
  }

  lemma GoodFrom(e: Emitter, m0: Machine, s: Snap, held: multiset<Reg>)
    requires Inv(e, held) && Rel(e, Run(e, m0), s) && s.vals == map[]
    ensures Good(e, m0, s, held)
  {
  }

  lemma AskingRel(e: Emitter, m: Machine, m0: Machine, s: Snap, held: multiset<Reg>)
    requires Good(e, m0, s, held) && m == Run(e, m0)
    ensures Inv(e, held) && Rel(e, m, s) && m.io == s.io && m.ram == s.ram
  {
  }

  lemma BothCleared(e: Emitter)
    ensures e.ClearBoth().wcache == [] && e.ClearBoth().rcache == []
  {
    hide Emitter.Clear;
    SideCleared(e, false);
    SideCleared(e.Clear(false), true);
  }

  lemma {:induction false} SideCleared(e: Emitter, r: bool)
    ensures e.Clear(r).Cache(r) == [] && e.Clear(r).Cache(!r) == e.Cache(!r)
    decreases |e.Cache(r)|
  {
    if e.Cache(r) != [] {
      Sharing.SpillCaches(e, r);
      hide Emitter.Spill;
      SideCleared(e.Spill(r), r);
    }
  }

  // ---- the opcodes ----

  /** The state after a device opcode; "rest" is what the pops leave of the stack. */
  ghost predicate Answered(s: Snap, s': Snap, r: bool, k: bool, rest: Uxn.Bytes, x: Uxn.Exchange) {
    && s'.Stack(r) == (if k then s.Stack(r) else rest) + x.cur && s'.Stack(!r) == s.Stack(!r)
    && s'.ram == x.ram && s'.io == x.io && s'.wOrigin == s.wOrigin && s'.rOrigin == s.rOrigin
  }

  lemma IoShaped(e: Emitter, m0: Machine, s: Snap, held: multiset<Reg>)
    requires Good(e, m0, s, held)
    ensures s.io.Shaped()
  {
    hide Inv;
    hide SideRel;
  }

  lemma InputDetermined(s: Snap, short: bool, port: nat, x: Uxn.Exchange)
    requires s.io.Shaped() && port < 256 && Uxn.Input(short, port, s.ram, s.io) == Uxn.Some(x)
    ensures Determined(s, true, port, short, x)
  {
    hide Uxn.Input;
    hide Helped;
    forall m: Machine | m.io == s.io && m.ram == s.ram ensures Replies(Helped(m, true, port, short), x, true, short) {
      InputHelped(m, short, port, x);
    }
  }

  lemma OutputDetermined(s: Snap, short: bool, port: nat, v: nat, io: Devices.Io, x: Uxn.Exchange)
    requires s.io.Shaped() && port < 256 && Uxn.Output(short, port, v, s.ram, io) == Uxn.Some(x)
    requires s.io == io.(page := Uxn.Paged(io.page, port, v, short))
    ensures Determined(s, false, port, short, x)
  {
    hide Uxn.Output;
    hide Uxn.Paged;
    hide Helped;
    forall m: Machine | m.io == s.io && m.ram == s.ram ensures Replies(Helped(m, false, port, short), x, false, short) {
      OutputHelped(m, short, port, v, io, x);
    }
  }

  /** The result is moved out of the first register. */
  lemma ResultGood(e: Emitter, result: Reg, m0: Machine, s: Snap, held: multiset<Reg>, reply: Devices.Reply)
    requires Good(e, m0, s, held) && Replied(e, Run(e, m0), reply) && IsOp(result) && result in held
    ensures Good(e.Emit(Op1(MOV, R(result), R(MEM_BASE))), m0, s.(vals := s.vals[result := reply.value]), held)
  {
    hide Exec;
    hide Step;
    hide AreBytes;
    var e' := e.Emit(Op1(MOV, R(result), R(MEM_BASE)));
    assert Calm(Run(e, m0)) && BaseOk(e, Run(e, m0)) by { hide Inv; hide SideRel; }
    hide Good;
    StepMov(MOV, result, MEM_BASE, Run(e, m0));
    BaseFrame(e, e', Run(e, m0), Run(e', m0), {result});
    ComputedGood(e, e', m0, s, held, result, reply.value);
  }

  lemma DeiSound(e: Emitter, m0: Machine, s: Snap, held: multiset<Reg>, short: bool, r: bool, k: bool, rest: Uxn.Bytes, args: seq<nat>, x: Uxn.Exchange)
    returns (s': Snap, held': multiset<Reg>)
    requires Started(e, m0, s, held, r, k) && Uxn.PopAll(s.Stack(r), [false]) == Uxn.Some((rest, args)) && |args| == 1
    requires Uxn.Input(short, args[0], s.ram, s.io) == Uxn.Some(x) && |(if k then s.Stack(r) else rest) + x.cur| <= 256
    requires Uxn.OpOf(e.opcode).Dei? && r == Uxn.FlagR(e.opcode) && short == Uxn.Flag2(e.opcode) && !e.CachePop(false, r).0.Hazard()
    ensures Good(DeviceOp(e), m0, s', held') && Answered(s, s', r, k, rest, x)
  {
    hide Started;
    hide Good;
    hide InPops;
    hide Exec;
    hide Asking;
    hide Emitter.CachePop;
    hide Emitter.Alloc;
    hide Emitter.Push;
    hide Determined;
    hide Replied;
    hide Uxn.Input;
    hide Uxn.OpOf;
    hide Uxn.FlagR;
    hide Uxn.Flag2;
    PopOne(s.Stack(r), false);
    var s1, held1 := PopStep1(e, m0, s, held, false, r, k);
    var (e1, port) := e.CachePop(false, r);
    assert |held1| < NUM_OPS by { Few(e, m0, s, held, r, k); }
    held' := NewReg(e1, m0, s1, held1);
    var (e2, result) := e1.Alloc();
    IoShaped(e2, m0, s1, held');
    InputDetermined(s1, short, args[0], x);
    var reply := AskingGood(e2, true, short, port, m0, s1, held', x);
    var s2 := s1.(vals := map[], ram := x.ram, io := x.io);
    ResultGood(Asking(e2, true, short, port), result, m0, s2, held', reply);
    s' := PushStep(Asking(e2, true, short, port).Emit(Op1(MOV, R(result), R(MEM_BASE))), result, short, r, m0, s2.(vals := map[result := reply.value]), held');
  }

  lemma Few(e: Emitter, m0: Machine, s: Snap, held: multiset<Reg>, r: bool, k: bool)
    requires Started(e, m0, s, held, r, k)
    ensures |held| <= 2
  {
    hide InPops;
  }

  lemma DeoSound(e: Emitter, m0: Machine, s: Snap, held: multiset<Reg>, short: bool, r: bool, k: bool, rest: Uxn.Bytes, args: seq<nat>, x: Uxn.Exchange)
    returns (s': Snap, held': multiset<Reg>)
    requires Started(e, m0, s, held, r, k) && Uxn.PopAll(s.Stack(r), [false, short]) == Uxn.Some((rest, args)) && |args| == 2
    requires Uxn.Output(short, args[0], args[1], s.ram, s.io) == Uxn.Some(x)
    requires Uxn.OpOf(e.opcode).Deo? && r == Uxn.FlagR(e.opcode) && short == Uxn.Flag2(e.opcode)
    requires !e.CachePop(false, r).0.CachePop(short, r).0.Hazard()
    ensures Good(DeviceOp(e), m0, s', held') && Answered(s, s', r, k, rest, x)
  {
    hide Started;
    hide Good;
    hide InPops;
    hide Exec;
    hide Asking;
    hide ToPage;
    hide Emitter.CachePop;
    hide Determined;
    hide Replied;
    hide Uxn.Paged;
    hide Uxn.OpOf;
    hide Uxn.FlagR;
    hide Uxn.Flag2;
    assert x.cur == [] by { hide Devices.Ask; }
    hide Uxn.Output;
    PopTwo(s.Stack(r), false, short);
    var s1, held1 := PopStep2(e, m0, s, held, false, short, r, k);
    held' := held1;
    var (e1, port) := e.CachePop(false, r);
    var (e2, v) := e1.CachePop(short, r);
    ToPageGood(e2, port, v, short, m0, s1, held');
    var s2 := s1.(io := s1.io.(page := Uxn.Paged(s1.io.page, args[0], args[1], short)));
    var e3 := ToPage(e2, port, v, short);
    IoShaped(e3, m0, s2, held');
    OutputDetermined(s2, short, args[0], args[1], s1.io, x);
    var reply := AskingGood(e3, false, short, port, m0, s2, held', x);
    s' := s2.(vals := map[], ram := x.ram, io := x.io);
    assert (if k then s.Stack(r) else rest) + [] == (if k then s.Stack(r) else rest);
  }

  /** A device opcode, with whatever answers: the emitted code makes the reference's requests and
      arrives at the reference's state, also in keep mode. */
  lemma DeviceSound(e: Emitter, m0: Machine, s: Snap, held: multiset<Reg>, rest: Uxn.Bytes, args: seq<nat>, x: Uxn.Exchange)
    returns (s': Snap, held': multiset<Reg>)
    requires var op, r, k, short := Uxn.OpOf(e.opcode), Uxn.FlagR(e.opcode), Uxn.FlagK(e.opcode), Uxn.Flag2(e.opcode);
      && Uxn.IsDevice(op) && Started(e, m0, s, held, r, k) && Uxn.PopAll(s.Stack(r), Uxn.Shape(op, short)) == Uxn.Some((rest, args))
      && Uxn.Exchanged(op, short, args, s.ram, s.io) == Uxn.Some(x) && |(if k then s.Stack(r) else rest) + x.cur| <= 256
    requires !DeviceOp(e).Hazard()
    ensures Good(DeviceOp(e), m0, s', held') && Answered(s, s', Uxn.FlagR(e.opcode), Uxn.FlagK(e.opcode), rest, x)
  {
    hide Started;
    hide Good;
    hide Answered;
    hide Uxn.Input;
    hide Uxn.Output;
    hide Uxn.OpOf;
    hide Uxn.FlagR;
    hide Uxn.FlagK;
    hide Uxn.Flag2;
    hide Uxn.PopAll;
    hide DeviceOp;
    hide Emitter.CachePop;
    hide Emitter.Grows;
    hide Emitter.Hazard;
    var op, r, k, short := Uxn.OpOf(e.opcode), Uxn.FlagR(e.opcode), Uxn.FlagK(e.opcode), Uxn.Flag2(e.opcode);
    PopsGrow(e);
    var e1 := e.CachePop(false, r).0;
    Unharmed(e1, DeviceOp(e));
    Unharmed(e1.CachePop(short, r).0, DeviceOp(e));
    if op.Dei? {
      PopOne(s.Stack(r), false);
      s', held' := DeiSound(e, m0, s, held, short, r, k, rest, args, x);
    } else {
      PopTwo(s.Stack(r), false, short);
      s', held' := DeoSound(e, m0, s, held, short, r, k, rest, args, x);
    }
  }

  lemma Unharmed(a: Emitter, b: Emitter)
    ensures a.Grows(b) && !b.Hazard() ==> !a.Hazard()
  {
  }

  /** The pops of a device opcode meet no hazard if the opcode meets none. */
  lemma PopsGrow(e: Emitter)
    ensures var r, short := Uxn.FlagR(e.opcode), Uxn.Flag2(e.opcode); var e1 := e.CachePop(false, r).0;
      && (Uxn.OpOf(e.opcode).Dei? ==> e1.Grows(DeviceOp(e)))
      && (!Uxn.OpOf(e.opcode).Dei? ==> e1.CachePop(short, r).0.Grows(DeviceOp(e)))
  {
    hide Emitter.Grows;
    hide Emitter.CachePop;
    hide Emitter.Alloc;
    hide Emitter.Push;
    hide Emitter.Emit;
    hide Asking;
    hide ToPage;
    hide Uxn.OpOf;
    var r, short := Uxn.FlagR(e.opcode), Uxn.Flag2(e.opcode);
    hide Uxn.FlagR;
    hide Uxn.Flag2;
    var (e1, port) := e.CachePop(false, r);
    if Uxn.OpOf(e.opcode).Dei? {
      var (e2, result) := e1.Alloc();
      AskingGrows(e2, true, short, port);
      var e3 := Asking(e2, true, short, port);
      Along(e1, e2, e3);
      var e4 := e3.Emit(Op1(MOV, R(result), R(MEM_BASE)));
      EmitGrows(e3, Op1(MOV, R(result), R(MEM_BASE)));
      Along(e1, e3, e4);
      Along(e1, e4, e4.Push(result, short, r));
    } else {
      var (e2, v) := e1.CachePop(short, r);
      ToPageGrows(e2, port, v, short);
      AskingGrows(ToPage(e2, port, v, short), false, short, port);
      Along(e2, ToPage(e2, port, v, short), Asking(ToPage(e2, port, v, short), false, short, port));
    }
  }

  // ---- what holds at the call, and what is forgotten behind it ----

  /** When a device is called both stacks are in memory, up to their last byte, and memory and
      device page are the reference's. */
  lemma CallSees(e: Emitter, port: Reg, m0: Machine, s: Snap, held: multiset<Reg>)
    requires Good(e, m0, s, held) && port in s.vals
    ensures var m := Step(Op1(MOV, R(MEM_OFFSET), R(port)), Step(Op1(MOV, R(MEM_BASE), R(VM)), Run(e.ClearBoth(), m0)));
      && |m.regs| == NUM_REGS && Calm(m) && m.ram == s.ram && m.io == s.io
      && m.regs[MEM_BASE] == m.regs[VM] && m.regs[MEM_OFFSET] == s.vals[port]
      && |s.w| <= 256 && Live(m.ws, Ptr(m, WSP), |s.w|) == s.w && Bottom(Ptr(m, WSP), |s.w|) == s.wOrigin
      && |s.r| <= 256 && Live(m.rs, Ptr(m, RSP), |s.r|) == s.r && Bottom(Ptr(m, RSP), |s.r|) == s.rOrigin
  {
    hide Exec;
    hide Step;
    hide Live;
    hide Bottom;
    hide AreBytes;
    hide Emitter.ClearBoth;
    hide Good;
    ClearBothGood(e, m0, s, held);
    HeldValue(e.ClearBoth(), m0, s, held, port);
    AskingRel(e.ClearBoth(), Run(e.ClearBoth(), m0), m0, s, held);
    hide Inv;
    hide Rel;
    var m := Run(e.ClearBoth(), m0);
    StepMov(MOV, MEM_BASE, VM, m);
    StepMov(MOV, MEM_OFFSET, port, Step(Op1(MOV, R(MEM_BASE), R(VM)), m));
  }

  lemma AskingForgets(e: Emitter, isInput: bool, short: bool, port: Reg)
    ensures var e' := Asking(e, isInput, short, port); e'.wcache == [] && e'.rcache == [] && e'.memBase == 0
  {
    hide Emitter.ClearBoth;
    BothCleared(e);
  }

  lemma PushedAlone(e: Emitter, result: Reg, short: bool, r: bool)
    requires e.wcache == [] && e.rcache == [] && e.Count(result) > 0
    ensures var e' := e.Push(result, short, r);
      e'.Cache(r) == [Cell(result, short, true)] && e'.Cache(!r) == [] && e'.memBase == e.memBase
  {
    hide Exec;
  }

  lemma ClearKeepsCount(e: Emitter, held: multiset<Reg>, isInput: bool, short: bool, port: Reg, x: Reg)
    requires Inv(e, held) && x in held
    ensures Asking(e, isInput, short, port).Count(x) > 0
  {
    hide Emitter.Clear;
    ClearInv(e, held, false);
    ClearInv(e.Clear(false), held, true);
    var e' := Asking(e, isInput, short, port);
    assert e'.refs == e.ClearBoth().refs;
    assert held[x] > 0;
    hide Uses;
  }

  /** Behind a device opcode no memory base is recorded, whatever the device has left in the
      registers, and nothing is cached but the result of DEI. */
  lemma DeviceForgets(e: Emitter, held: multiset<Reg>)
    requires Inv(e, held) && |held| <= 2 && Uxn.IsDevice(Uxn.OpOf(e.opcode))
    ensures var e', r := DeviceOp(e), Uxn.FlagR(e.opcode);
      && e'.Cache(!r) == [] && (forall m: Machine :: |m.regs| == NUM_REGS ==> BaseOk(e', m))
      && (Uxn.OpOf(e.opcode).Dei? ==> |e'.Cache(r)| == 1 && e'.Cache(r)[0].isShort == Uxn.Flag2(e.opcode) && e'.Cache(r)[0].needFlush)
      && (Uxn.OpOf(e.opcode).Deo? ==> e'.Cache(r) == [])
  {
    hide Exec;
    hide Inv;
    hide Asking;
    hide ToPage;
    hide Emitter.CachePop;
    hide Emitter.Alloc;
    hide Emitter.Push;
    hide Uxn.OpOf;
    var r, short := Uxn.FlagR(e.opcode), Uxn.Flag2(e.opcode);
    hide Uxn.FlagR;
    hide Uxn.Flag2;
    PopInv(e, held, false, r);
    var (e1, port) := e.CachePop(false, r);
    if Uxn.OpOf(e.opcode).Dei? {
      AllocInv(e1, held + multiset{port});
      var (e2, result) := e1.Alloc();
      AskingForgets(e2, true, short, port);
      ClearKeepsCount(e2, held + multiset{port} + multiset{result}, true, short, port, result);
      PushedAlone(Asking(e2, true, short, port).Emit(Op1(MOV, R(result), R(MEM_BASE))), result, short, r);
    } else {
      var (e2, v) := e1.CachePop(short, r);
      AskingForgets(ToPage(e2, port, v, short), false, short, port);
    }
  }
}
