/** Straight-line code without DUP and OVR never shares a register, so the only side
    condition left for its correctness is that no pop has to spill. */
module NoSharing {
  import opened Words
  import opened Target
  import opened Emission
  import opened Allocator
  import opened Compiler
  import opened Sharing
  import Uxn

  /** What an opcode leaves behind: no shared write, no register in two cells. */
  ghost predicate StaysLone(e: Emitter, e': Emitter) {
    LoneCells(e') && e'.sharedWrite == e.sharedWrite
  }

  predicate Shares(op: Uxn.Op) {
    op.Dup? || op.Ovr?
  }

  lemma Push1(e: Emitter, held: multiset<Reg>, x: Reg, short: bool, r: bool)
    requires Tidy(e, held) && x in held
    ensures StaysLone(e, e.Push(x, short, r))
  {
    hide Inv;
    hide Lone;
    PopsDone(e, held);
    PushLone(e, held, x, short, r);
  }

  lemma Push2(e: Emitter, held: multiset<Reg>, x: Reg, y: Reg, short: bool, r: bool)
    requires Tidy(e, held) && multiset{x, y} <= held
    ensures StaysLone(e, e.Push(x, short, r).Push(y, short, r))
  {
    hide Inv;
    hide Lone;
    HeldApart(e, held, x, y);
    assert multiset{x, y}[x] <= held[x] && multiset{x, y}[y] <= held[y];
    PopsDone(e, held);
    PushLone(e, held, x, short, r);
    hide Emitter.Push;
    PushLone(e.Push(x, short, r), held, y, short, r);
  }

  lemma Push3(e: Emitter, held: multiset<Reg>, x: Reg, y: Reg, z: Reg, short: bool, r: bool)
    requires Tidy(e, held) && multiset{x, y, z} <= held
    ensures StaysLone(e, e.Push(x, short, r).Push(y, short, r).Push(z, short, r))
  {
    hide Inv;
    hide Lone;
    var all := multiset{x, y, z};
    assert multiset{x, y} <= all && multiset{x, z} <= all && multiset{y, z} <= all;
    HeldApart(e, held, x, y);
    HeldApart(e, held, x, z);
    HeldApart(e, held, y, z);
    assert all[x] <= held[x] && all[y] <= held[y] && all[z] <= held[z];
    PopsDone(e, held);
    hide Emitter.Push;
    PushLone(e, held, x, short, r);
    PushLone(e.Push(x, short, r), held, y, short, r);
    PushLone(e.Push(x, short, r).Push(y, short, r), held, z, short, r);
  }

  lemma DoneKept(e: Emitter, held: multiset<Reg>)
    requires Tidy(e, held)
    ensures LoneCells(e)
  {
    PopsDone(e, held);
  }

  lemma ImmediateTidy(e: Emitter, held: multiset<Reg>, pc: nat, short: bool)
    requires Tidy(e, held) && |held| < NUM_OPS
    ensures var (e', reg) := e.Immediate(pc, short);
      Tidy(e', held + multiset{reg}) && e'.sharedWrite == e.sharedWrite
  {
    AllocTidy(e, held);
    hide Inv;
    hide Lone;
    hide Emitter.Alloc;
    var (e1, reg) := e.Alloc();
    LiteralShares(e1, reg, pc, short);
    hide Emitter.LiteralTo;
    BooksTidy(e1, e1.LiteralTo(reg, pc, short), held + multiset{reg});
  }

  lemma LiteralShares(e: Emitter, reg: Reg, pc: nat, short: bool)
    ensures SameBooks(e, e.LiteralTo(reg, pc, short)) && e.LiteralTo(reg, pc, short).sharedWrite == e.sharedWrite
  {
    hide Exec;
  }

  lemma LoadShares(e: Emitter, reg: Reg, addr: Reg, wide: bool, short: bool)
    ensures SameBooks(e, e.LoadTo(reg, addr, wide, short)) && e.LoadTo(reg, addr, wide, short).sharedWrite == e.sharedWrite
  {
    hide Exec;
  }

  lemma StoreShares(e: Emitter, reg: Reg, addr: Reg, wide: bool, short: bool)
    ensures SameBooks(e, e.StoreFrom(reg, addr, wide, short)) && e.StoreFrom(reg, addr, wide, short).sharedWrite == e.sharedWrite
  {
    hide Exec;
  }

  lemma CalculateShares(e: Emitter, op: Uxn.Op, c: Reg, a: Reg, b: Reg, short: bool)
    ensures SameBooks(e, e.Calculate(op, c, a, b, short)) && e.Calculate(op, c, a, b, short).sharedWrite == e.sharedWrite
  {
    hide Exec;
    hide Mask;
    hide SameBooks;
    hide Emitter.Emit;
    CalculateBooks(e, op, c, a, b, short);
    EmitsUnshared();
  }

  lemma EmitsUnshared()
    ensures forall e: Emitter, i: Instr {:trigger e.Emit(i)} :: e.Emit(i).sharedWrite == e.sharedWrite
  {
  }

  lemma IncKept(e: Emitter, held: multiset<Reg>, a: Reg, short: bool, r: bool)
    requires Tidy(e, held) && a in held
    ensures StaysLone(e, e.Own(a).Emit(Op2(Alu.ADD, a, R(a), Imm(1))).Emit(Op2(Alu.AND, a, R(a), Mask(short))).Push(a, short, r))
  {
    HeldOnce(e, held, a);
    var e1 := e.Own(a).Emit(Op2(Alu.ADD, a, R(a), Imm(1))).Emit(Op2(Alu.AND, a, R(a), Mask(short)));
    assert SameBooks(e, e1) && e1.sharedWrite == e.sharedWrite by { hide Inv; hide Lone; hide Exec; }
    hide Inv;
    hide Lone;
    BooksTidy(e, e1, held);
    Push1(e1, held, a, short, r);
    hide Emitter.Push;
  }

  // ---- opcodes ----

  lemma {:induction false} Pop2Tidy(e: Emitter, held: multiset<Reg>, short1: bool, short2: bool, r: bool)
    requires Tidy(e, held) && |held| <= 2
    ensures var (e1, b) := e.CachePop(short1, r);
      var (e2, a) := e1.CachePop(short2, r);
      var held' := held + multiset{b} + multiset{a};
      Tidy(e2, held') && e2.sharedWrite == e.sharedWrite && |held'| <= 4 && multiset{a, b} <= held'
  {
    hide Inv;
    hide Lone;
    hide Emitter.CachePop;
    PopLone(e, held, short1, r);
    var (e1, b) := e.CachePop(short1, r);
    PopLone(e1, held + multiset{b}, short2, r);
    var (e2, a) := e1.CachePop(short2, r);
  }

  lemma StackKept(e: Emitter, pc: nat, held: multiset<Reg>)
    requires Tidy(e, held) && |held| <= 2
    requires var op := Uxn.OpOf(e.opcode); op.Lit? || op.Inc? || op.Pop? || op.Nip? || op.Sth?
    ensures StaysLone(e, e.Plain(pc))
  {
    hide Inv;
    hide Lone;
    hide Emitter.CachePop;
    hide Emitter.Push;
    hide Emitter.Discard;
    hide Emitter.Immediate;
    var r, k, short := Uxn.FlagR(e.opcode), Uxn.FlagK(e.opcode), Uxn.Flag2(e.opcode);
    hide Uxn.FlagR;
    hide Uxn.FlagK;
    hide Uxn.Flag2;
    match Uxn.OpOf(e.opcode)
    case Lit =>
      ImmediateTidy(e, held, pc, short);
      var (e1, a) := e.Immediate(pc, short);
      Push1(e1, held + multiset{a}, a, short, r);
    case Inc =>
      PopLone(e, held, short, r);
      var (e1, a) := e.CachePop(short, r);
      IncKept(e1, held + multiset{a}, a, short, r);
    case Pop =>
      DoneKept(e, held);
      DiscardLone(e, held, short, r);
      DoneKept(e.Discard(short, r), held);
    case Nip =>
      PopLone(e, held, short, r);
      var (e1, b) := e.CachePop(short, r);
      DiscardLone(e1, held + multiset{b}, short, r);
      Push1(if k then e1 else e1.Discard(short, r), held + multiset{b}, b, short, r);
    case Sth =>
      PopLone(e, held, short, r);
      var (e1, a) := e.CachePop(short, r);
      Push1(e1, held + multiset{a}, a, short, !r);
  }

  lemma SwapKept(e: Emitter, pc: nat, held: multiset<Reg>)
    requires Tidy(e, held) && |held| <= 2
    requires var op := Uxn.OpOf(e.opcode); op.Swp? || op.Rot?
    ensures StaysLone(e, e.Plain(pc))
  {
    hide Inv;
    hide Lone;
    hide Emitter.CachePop;
    hide Emitter.Push;
    var r, short := Uxn.FlagR(e.opcode), Uxn.Flag2(e.opcode);
    hide Uxn.FlagR;
    hide Uxn.Flag2;
    Pop2Tidy(e, held, short, short, r);
    var (e1, x) := e.CachePop(short, r);
    var (e2, y) := e1.CachePop(short, r);
    var held' := held + multiset{x} + multiset{y};
    if Uxn.OpOf(e.opcode).Swp? {
      assert multiset{x, y} == multiset{y, x};
      Push2(e2, held', x, y, short, r);
    } else {
      PopLone(e2, held', short, r);
      var (e3, z) := e2.CachePop(short, r);
      assert multiset{y, x, z} <= held' + multiset{z};
      Push3(e3, held' + multiset{z}, y, x, z, short, r);
    }
  }

  lemma ComparisonKept(e: Emitter, held: multiset<Reg>, op: Uxn.Op, short: bool, r: bool)
    requires Tidy(e, held) && |held| <= 2
    ensures StaysLone(e, e.Comparison(op, short, r))
  {
    hide Inv;
    hide Lone;
    hide Emitter.CachePop;
    hide Emitter.Push;
    hide Emitter.Alloc;
    Pop2Tidy(e, held, short, short, r);
    var (e1, b) := e.CachePop(short, r);
    var (e2, a) := e1.CachePop(short, r);
    var held' := held + multiset{b} + multiset{a};
    AllocTidy(e2, held');
    var (e3, c) := e2.Alloc();
    var e4 := e3.Emit(Compare(a, b)).Emit(SetFlag(c, e.Condition(op)));
    BooksTidy(e3, e4, held' + multiset{c});
    Push1(e4, held' + multiset{c}, c, false, r);
  }

  lemma ArithmeticKept(e: Emitter, held: multiset<Reg>, op: Uxn.Op, short: bool, r: bool)
    requires Tidy(e, held) && |held| <= 2
    ensures StaysLone(e, e.Arithmetic(op, short, r))
  {
    hide Inv;
    hide Lone;
    hide Emitter.CachePop;
    hide Emitter.Push;
    hide Emitter.Alloc;
    hide Emitter.Calculate;
    var short1 := short && op != Uxn.Sft;
    Pop2Tidy(e, held, short1, short, r);
    var (e1, b) := e.CachePop(short1, r);
    var (e2, a) := e1.CachePop(short, r);
    var held' := held + multiset{b} + multiset{a};
    AllocTidy(e2, held');
    var (e3, c) := e2.Alloc();
    CalculateShares(e3, op, c, a, b, short);
    BooksTidy(e3, e3.Calculate(op, c, a, b, short), held' + multiset{c});
    Push1(e3.Calculate(op, c, a, b, short), held' + multiset{c}, c, short, r);
  }

  lemma LoadKept(e: Emitter, held: multiset<Reg>, op: Uxn.Op, pc: nat, short: bool, r: bool)
    requires Tidy(e, held) && |held| <= 2
    ensures StaysLone(e, e.LoadOp(op, pc, short, r))
  {
    hide Inv;
    hide Lone;
    hide Emitter.CachePop;
    hide Emitter.Push;
    hide Emitter.Alloc;
    hide Emitter.LoadTo;
    hide Emitter.Relative;
    PopLone(e, held, op.Lda?, r);
    var (e1, addr) := e.CachePop(op.Lda?, r);
    RelativeTidy(e1, held + multiset{addr}, addr, pc);
    var e2 := if op.Ldr? then e1.Relative(addr, pc) else e1;
    AllocTidy(e2, held + multiset{addr});
    var (e3, v) := e2.Alloc();
    var held' := held + multiset{addr} + multiset{v};
    LoadShares(e3, v, addr, !op.Ldz?, short);
    BooksTidy(e3, e3.LoadTo(v, addr, !op.Ldz?, short), held');
    Push1(e3.LoadTo(v, addr, !op.Ldz?, short), held', v, short, r);
  }

  lemma StoreKept(e: Emitter, held: multiset<Reg>, op: Uxn.Op, pc: nat, short: bool, r: bool)
    requires Tidy(e, held) && |held| <= 2
    ensures StaysLone(e, e.StoreOp(op, pc, short, r))
  {
    hide Inv;
    hide Lone;
    hide Emitter.CachePop;
    hide Emitter.StoreFrom;
    hide Emitter.Relative;
    Pop2Tidy(e, held, op.Sta?, short, r);
    var (e1, addr) := e.CachePop(op.Sta?, r);
    var (e2, v) := e1.CachePop(short, r);
    var held' := held + multiset{addr} + multiset{v};
    RelativeTidy(e2, held', addr, pc);
    var e3 := if op.Str? then e2.Relative(addr, pc) else e2;
    StoreShares(e3, v, addr, !op.Stz?, short);
    BooksTidy(e3, e3.StoreFrom(v, addr, !op.Stz?, short), held');
    DoneKept(e3.StoreFrom(v, addr, !op.Stz?, short), held');
  }

  /** A plain opcode other than DUP and OVR neither changes a shared register nor leaves one. */
  lemma PlainKept(e: Emitter, pc: nat, held: multiset<Reg>)
    requires Tidy(e, held) && |held| <= 2 && IsPlain(Uxn.OpOf(e.opcode)) && !Shares(Uxn.OpOf(e.opcode))
    ensures StaysLone(e, e.Plain(pc))
  {
    hide Inv;
    hide Lone;
    hide Emitter.Comparison;
    hide Emitter.Arithmetic;
    hide Emitter.LoadOp;
    hide Emitter.StoreOp;
    var r, short := Uxn.FlagR(e.opcode), Uxn.Flag2(e.opcode);
    hide Uxn.FlagR;
    hide Uxn.Flag2;
    var op := Uxn.OpOf(e.opcode);
    match op
    case Ldz | Ldr | Lda => LoadKept(e, held, op, pc, short, r);
    case Stz | Str | Sta => StoreKept(e, held, op, pc, short, r);
    case Equ | Neq | Gth | Lth => ComparisonKept(e, held, op, short, r);
    case Add | Sub | Mul | Div | And | Ora | Eor | Sft => ArithmeticKept(e, held, op, short, r);
    case Swp | Rot => SwapKept(e, pc, held);
    case _ => StackKept(e, pc, held);
  }

  // ---- the start of an opcode ----

  lemma {:induction false} UsesSuffix(cells: seq<Cell>, n: nat, x: Reg)
    requires n <= |cells|
    ensures Uses(cells[n..], x) <= Uses(cells, x)
    decreases n
  {
    if n > 0 {
      UsesFirst(cells, x);
      UsesSuffix(cells[1..], n - 1, x);
      assert cells[1..][n - 1..] == cells[n..];
    }
  }

  lemma RebuiltTidy(e: Emitter, op: nat, held: multiset<Reg>)
    requires Inv(e, held) && LoneCells(e)
    ensures Tidy(Rebuilt(e, op), multiset{}) && Rebuilt(e, op).sharedWrite == e.sharedWrite
  {
    assert Zeroed(e.(refs := seq(NUM_OPS, i => 0)));
    hide Emitter.RetainCache;
    hide Uses;
    RebuiltInv(e, op, held);
    RetainBothInv(e.(refs := seq(NUM_OPS, i => 0)));
    hide Zeroed;
    var e' := Rebuilt(e, op);
    forall x: Reg | IsOp(x) ensures Uses(e'.wcache, x) + Uses(e'.rcache, x) <= 1 {
      UsesSuffix(e.wcache, NumFlushed(e.wcache), x);
      UsesSuffix(e.rcache, NumFlushed(e.rcache), x);
    }
    LoneIfCells(e');
  }

  lemma LoneIfCells(e: Emitter)
    requires Inv(e, multiset{}) && LoneCells(e)
    ensures Lone(e)
  {
    hide Uses;
    forall i | 0 <= i < |e.refs| ensures e.refs[i] <= 1 {
      var x := OP_MIN + i;
      assert e.refs[x - OP_MIN] == Uses(e.wcache, x) + Uses(e.rcache, x) + multiset{}[x];
    }
  }

  lemma {:induction false} FlushShares(e: Emitter, r: bool, from: nat)
    ensures e.Flush(r, from).refs == e.refs && e.Flush(r, from).sharedWrite == e.sharedWrite
    decreases |e.Cache(r)| - from
  {
    var cells := e.Cache(r);
    if from < |cells| {
      if cells[from].needFlush {
        DoPushShares(e, cells[from], r);
        hide Emitter.DoPush;
        FlushShares(e.DoPush(cells[from], r).WithCache(r, cells[from := cells[from].(needFlush := false)]), r, from + 1);
      } else {
        FlushShares(e, r, from + 1);
      }
    }
  }

  lemma EnterKeepTidy(e: Emitter) returns (held: multiset<Reg>)
    requires Tidy(e, multiset{})
    ensures Tidy(e.EnterKeep(), held) && |held| == 2 && e.EnterKeep().sharedWrite == e.sharedWrite
  {
    hide Inv;
    hide Emitter.Alloc;
    hide Emitter.Flush;
    AllocTidy(e, multiset{});
    var (e1, w) := e.Alloc();
    AllocTidy(e1, multiset{} + multiset{w});
    var (e2, r) := e1.Alloc();
    held := multiset{} + multiset{w} + multiset{r};
    var e3 := e2.Emit(Op1(MOV_U8, R(w), R(WSP))).Emit(Op1(MOV_U8, R(r), R(RSP))).(wspReg := w, rspReg := r);
    assert Inv(e3, held) by { PointersInv(e2, e3, held); }
    FlushInv(e3, held, Uxn.FlagR(e.opcode), 0);
    FlushShares(e3, Uxn.FlagR(e.opcode), 0);
    hide Uxn.FlagR;
  }

  lemma BeginTidy(e: Emitter, op: nat, held: multiset<Reg>) returns (held': multiset<Reg>)
    requires Inv(e, held) && LoneCells(e)
    ensures Tidy(e.Begin(op), held') && |held'| <= 2
    ensures e.Begin(op).opcode == op && e.Begin(op).sharedWrite == e.sharedWrite
  {
    hide Emitter.EnterKeep;
    hide Uxn.FlagK;
    var h := BeginInv(e, op, held);
    RebuiltTidy(e, op, held);
    var e1 := Rebuilt(e, op);
    if Uxn.FlagK(op) {
      held' := EnterKeepTidy(e1);
    } else {
      held' := multiset{};
      PointersInv(e1, e.Begin(op), held');
    }
    hide Inv;
  }

  // ---- sequences ----

  /** The next "n" opcodes from "pc" on are plain ones other than DUP and OVR. */
  predicate Unshared(rom: Uxn.Bytes, pc: nat, n: nat)
    decreases n
  {
    n == 0 ||
    (var op := Uxn.OpOf(Uxn.Peek(rom, pc));
     IsPlain(op) && !Shares(op) && Unshared(rom, NextPc(Uxn.Peek(rom, pc), pc), n - 1))
  }

  lemma OpcodeKept(e: Emitter, held: multiset<Reg>, code: nat, pc: nat) returns (held': multiset<Reg>)
    requires Inv(e, held) && LoneCells(e) && IsPlain(Uxn.OpOf(code)) && !Shares(Uxn.OpOf(code))
    ensures Inv(EmitOpcode(e, code, pc), held') && StaysLone(e, EmitOpcode(e, code, pc))
  {
    hide Emitter.Begin;
    hide Emitter.Plain;
    hide Uxn.OpOf;
    hide Inv;
    var h := BeginTidy(e, code, held);
    PlainKept(e.Begin(code), (pc + 1) % 0x1_0000, h);
    held' := PlainInv(e.Begin(code), (pc + 1) % 0x1_0000, h);
  }

  lemma {:induction false} SequenceKept(e: Emitter, held: multiset<Reg>, rom: Uxn.Bytes, pc: nat, n: nat)
    requires Inv(e, held) && LoneCells(e) && Unshared(rom, pc, n)
    ensures StaysLone(e, Emitted(e, rom, pc, n))
    decreases n
  {
    hide Inv;
    hide EmitOpcode;
    hide NextPc;
    if n > 0 {
      var code := Uxn.Peek(rom, pc);
      var held' := OpcodeKept(e, held, code, pc);
      SequenceKept(EmitOpcode(e, code, pc), held', rom, NextPc(code, pc), n - 1);
    }
  }

  lemma {:induction false} ClearShares(e: Emitter, r: bool)
    ensures e.Clear(r).sharedWrite == e.sharedWrite
    decreases |e.Cache(r)|
  {
    if e.Cache(r) != [] {
      SpillCaches(e, r);
      hide Emitter.Spill;
      ClearShares(e.Spill(r), r);
    }
  }

  /** Code without DUP and OVR changes no register that has a second holder. */
  lemma UnsharedNeverShares(rom: Uxn.Bytes, pc: nat, n: nat)
    requires Unshared(rom, pc, n)
    ensures !Emitted(EMPTY, rom, pc, n).ClearBoth().sharedWrite
  {
    hide Unshared;
    hide Emitted;
    assert Inv(EMPTY, multiset{}) && LoneCells(EMPTY);
    hide Inv;
    SequenceKept(EMPTY, multiset{}, rom, pc, n);
    hide Emitter.Clear;
    ClearShares(Emitted(EMPTY, rom, pc, n), false);
    ClearShares(Emitted(EMPTY, rom, pc, n).Clear(false), true);
  }

  /** Compiler correctness without DUP and OVR: it is enough that no pop has to spill. */
  lemma UnsharedCorrect(m: Machine, vm: Uxn.Vm, rom: Uxn.Bytes, n: nat)
    requires Compiler.Holds(m, vm) && Follows(vm, rom, n) && Unshared(rom, vm.pc, n)
    requires !Emitted(EMPTY, rom, vm.pc, n).ClearBoth().lateSpill
    ensures var e := Emitted(EMPTY, rom, vm.pc, n).ClearBoth();
      var m', vm' := Exec(e.code, m), RunReference(vm, n);
      Compiler.Holds(m', vm') && PointersMatch(m, vm, m', vm') && !e.failed
  {
    hide Unshared;
    hide Emitted;
    hide Follows;
    hide RunReference;
    hide Emitter.ClearBoth;
    hide Exec;
    UnsharedNeverShares(rom, vm.pc, n);
    StraightLineCorrect(m, vm, rom, n);
  }
}
