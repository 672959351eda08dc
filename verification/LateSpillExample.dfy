/** A pop that spills, for every state and for a concrete program: the stacks end up one byte too
    long. */
module LateSpillExample {
  import opened Words
  import opened Target
  import opened Emission
  import opened Allocator
  import opened Rings
  import opened CacheRuns
  import opened CacheSound
  import opened PopSound
  import opened Popping
  import opened Compiler
  import opened Hazards
  import opened LateSpills
  import HazardExample
  import NoSharing
  import OpStart
  import Sharing
  import SingleStack
  import Values
  import Uxn

  // ---- the state after a split whose allocation has dropped some cells ----

  lemma {:induction false} DecodedReset(cells: seq<Cell>, regs: seq<nat>, x: Reg, v: nat)
    requires cells != [] && x < |regs| && Unused(cells[..|cells| - 1], x)
    requires cells[|cells| - 1].reg == x && cells[|cells| - 1].isShort && cells[|cells| - 1].needFlush
    ensures Decoded(cells, regs[x := v], false) == Decoded(cells[..|cells| - 1], regs, false) + [v / 256 % 256, v % 256]
  {
    DecodedUnused(cells[..|cells| - 1], regs, x, v, false);
  }

  /** The short on top has lost its low byte and is still a short. */
  lemma HalfKept(cells: seq<Cell>, ring: seq<nat>, p: nat, regs: seq<nat>, st: Uxn.Bytes, origin: nat, reg: Reg, top: Reg)
    requires cells != [] && Stacked(cells, ring, p, regs, st, origin, false) && InRange(cells, regs) && |regs| == NUM_REGS
    requires Unused(cells, reg) && Unused(cells[..|cells| - 1], top) && IsOp(reg) && IsOp(top) && reg != top
    requires cells[|cells| - 1] == Cell(top, true, true)
    ensures var regs' := regs[reg := regs[top] % 256][top := regs[top] / 256];
      && |st| >= 2 && st[|st| - 1] == regs[top] % 256
      && Stacked(cells, ring, p, regs', st[..|st| - 2] + [0, st[|st| - 2]], origin, false) && InRange(cells, regs')
  {
    var n, v := |cells| - 1, regs[top];
    var regs1 := regs[reg := v % 256];
    assert v < 0x1_0000 && v / 256 < 256;
    DecodedUnused(cells, regs, reg, v % 256, false);
    DecodedReset(cells, regs1, top, v / 256);
    DecodedUnused(cells[..n], regs, reg, v % 256, false);
    var low := Decoded(cells[..n], regs, false);
    assert Decoded(cells, regs, false) == low + [v / 256, v % 256] && v / 256 % 256 == v / 256 && v / 256 / 256 % 256 == 0;
    hide Decoded;
    var live := Live(ring, p, |st| - |low| - 2);
    hide Live;
    hide Bottom;
    HalfBytes(st, live, low, v / 256, v % 256);
  }

  lemma HalfBytes(st: Uxn.Bytes, live: Uxn.Bytes, low: Uxn.Bytes, hi: nat, lo: nat)
    requires st == live + (low + [hi, lo])
    ensures st[|st| - 1] == lo && st[|st| - 2] == hi && st[..|st| - 2] + [0, hi] == live + (low + [0, hi])
  {
    assert st == (live + low) + [hi, lo];
    assert st[..|st| - 2] == live + low;
    assert (live + low) + [0, hi] == live + (low + [0, hi]);
  }

  /** The books after such a split. */
  lemma SplitSomeBooks(e: Emitter, r: bool, m0: Machine, s: Snap, held: multiset<Reg>)
    requires InPops(e, m0, s, held, r, false, s.Stack(r)) && |held| < NUM_OPS
    requires 0 < |CellsLeft(e, r)| < |e.Cache(r)| && e.Cache(r)[|e.Cache(r)| - 1].isShort
    requires e.Count(TopReg(e.Cache(r))) == 1
    ensures var top := TopReg(e.Cache(r)); var left := CellsLeft(e, r); var (e1, reg) := e.AllocInPop(); var e' := e.Split(r).0;
      && Inv(e', held + multiset{reg}) && e'.Count(reg) == 1
      && left[|left| - 1] == Cell(top, true, true) && Unused(left[..|left| - 1], top) && Unused(left, reg)
      && Unused(e1.Cache(!r), top) && Unused(e1.Cache(!r), reg) && top !in s.vals && reg !in s.vals && e'.memBase == e1.memBase
      && (forall x :: x in s.vals ==> x in held)
  {
    hide Exec;
    hide Good;
    hide Unused;
    hide AllMarked;
    hide Suffix;
    hide Untouched;
    hide Emitter.AllocInPop;
    hide Emitter.Split;
    hide GoodCache;
    hide InPops;
    hide Inv;
    hide Uses;
    GoodOf(e, r, m0, s, held);
    var top := TopReg(e.Cache(r));
    var (e1, reg) := e.AllocInPop();
    AllocForPop(e, r, m0, s, held);
    CellsLeftSuffix(e, r);
    MarkedTop(e, m0, s, held, r, false, s.Stack(r));
    GoodBooks(e, m0, s, held);
    SoleCell(e, held, r);
    SplitInv(e, held, r);
    AllocThins(e, r, top);
    TopLeft(e.Cache(r), e1.Cache(r), reg);
    SplitCount(e, r, reg);
  }

  lemma GoodOf(e: Emitter, r: bool, m0: Machine, s: Snap, held: multiset<Reg>)
    requires InPops(e, m0, s, held, r, false, s.Stack(r))
    ensures Good(e, m0, s, held)
  {
  }

  lemma AllocThins(e: Emitter, r: bool, x: Reg)
    requires Uses(e.Cache(!r), x) == 0
    ensures Unused(e.AllocInPop().0.Cache(!r), x)
  {
    hide Exec;
    hide Emitter.Alloc;
    UsesUnused(e.Cache(!r), x);
    OpStart.AllocKeeps(e, x);
    hide Uses;
    hide Unused;
  }

  /** What the split really leaves: the high byte with a zero below it, and the low byte popped. */
  lemma SplitSomeLeaves(e: Emitter, r: bool, m0: Machine, s: Snap, held: multiset<Reg>)
    requires InPops(e, m0, s, held, r, false, s.Stack(r)) && |held| < NUM_OPS
    requires 0 < |CellsLeft(e, r)| < |e.Cache(r)| && e.Cache(r)[|e.Cache(r)| - 1].isShort
    requires e.Count(TopReg(e.Cache(r))) == 1
    ensures |s.Stack(r)| >= 2
    ensures var st := s.Stack(r); var n := |st|; var (e', reg) := e.Split(r);
      && Good(e', m0, s.With(r, st[..n - 2] + [0, st[n - 2]]).(vals := s.vals[reg := st[n - 1]]), held + multiset{reg})
      && e'.Count(reg) == 1
  {
    hide Exec;
    hide Stacked;
    hide Known;
    hide Unused;
    hide InRange;
    hide Suffix;
    hide Rel;
    hide Calm;
    hide Inv;
    hide ViewMode;
    hide Emitter.AllocInPop;
    hide Emitter.Split;
    hide Halved;
    var st, top, left := s.Stack(r), TopReg(e.Cache(r)), CellsLeft(e, r);
    var (e1, reg) := e.AllocInPop();
    SplitSomeBooks(e, r, m0, s, held);
    SomeLeft(e, r, m0, s, held);
    var held1 := held + multiset{reg};
    var e' := e.Split(r).0;
    var m1, m' := Run(e1, m0), Run(e', m0);
    GoodSides(e1, m0, s, held1, r);
    RangesOf(e1, m0, s, held1, r);
    HalfKept(left, Ring(m1, r), Ptr(m1, StackPtr(r)), m1.regs, st, s.Origin(r), reg, top);
    var st' := st[..|st| - 2] + [0, st[|st| - 2]];
    HalvedRegs(m1, reg, top);
    SplitRel(e1, e', m1, m', s, r, reg, top, st');
  }

  lemma HalvedRegs(m: Machine, reg: Reg, top: Reg)
    requires |m.regs| == NUM_REGS && IsOp(reg) && IsOp(top)
    ensures var m' := Halved(m, reg, top);
      && m'.regs == m.regs[reg := m.regs[top] % 256][top := m.regs[top] / 256]
      && (forall r: bool :: Ring(m', r) == Ring(m, r) && Ptr(m', StackPtr(r)) == Ptr(m, StackPtr(r)))
  {
  }

  lemma RangesOf(e: Emitter, m0: Machine, s: Snap, held: multiset<Reg>, r: bool)
    requires Good(e, m0, s, held)
    ensures var m := Run(e, m0);
      InRange(e.Cache(r), m.regs) && InRange(e.Cache(!r), m.regs) && Rel(e, m, s) && Calm(m) && |m.regs| == NUM_REGS
  {
    hide Exec;
    hide Inv;
    hide Stacked;
    hide AreBytes;
    assert SideRel(e.Cache(r), Run(e, m0), s, r) && SideRel(e.Cache(!r), Run(e, m0), s, !r) by { hide SideRel; }
  }

  lemma TopLeft(cells: seq<Cell>, left: seq<Cell>, reg: Reg)
    requires Suffix(cells, left) && left != [] && AllMarked(cells, true) && cells[|cells| - 1].isShort
    requires Unused(cells[..|cells| - 1], TopReg(cells))
    ensures left[|left| - 1] == Cell(TopReg(cells), true, true) && Unused(left[..|left| - 1], TopReg(cells))
  {
    var d := |cells| - |left|;
    forall i | 0 <= i < |left| - 1 ensures left[i].reg != TopReg(cells) {
      assert left[i] == cells[..|cells| - 1][d + i];
    }
  }

  lemma SplitCount(e: Emitter, r: bool, reg: Reg)
    requires e.Cache(r) != [] && CellsLeft(e, r) != [] && e.AllocInPop().1 == reg
    ensures e.Split(r).0.Count(reg) == e.AllocInPop().0.Count(reg) && e.Split(r).0.memBase == e.AllocInPop().0.memBase
    ensures e.Split(r).1 == reg
  {
    hide Exec;
    hide Emitter.AllocInPop;
    hide Emitter.PopFromMem;
  }

  lemma SplitRel(e1: Emitter, e': Emitter, m1: Machine, m': Machine, s: Snap, r: bool, reg: Reg, top: Reg, st: Uxn.Bytes)
    requires Rel(e1, m1, s) && Calm(m1) && |m1.regs| == NUM_REGS && IsOp(reg) && IsOp(top) && reg != top && m' == Halved(m1, reg, top)
    requires e'.Cache(r) == e1.Cache(r) && e'.Cache(!r) == e1.Cache(!r) && e'.memBase == e1.memBase
    requires Unused(e1.Cache(!r), reg) && Unused(e1.Cache(!r), top) && reg !in s.vals && top !in s.vals
    requires Stacked(e1.Cache(r), Ring(m1, r), Ptr(m1, StackPtr(r)), m'.regs, st, s.Origin(r), false) && InRange(e1.Cache(r), m'.regs)
    ensures Rel(e', m', s.With(r, st).(vals := s.vals[reg := m1.regs[top] % 256]))
  {
    hide Stacked;
    hide InRange;
    hide AreBytes;
    assert SideRel(e1.Cache(!r), m1, s, !r) by { hide SideRel; }
    OtherRange(e1.Cache(!r), m1, m', s, !r, reg, top);
    BaseFrame(e1, e', m1, m', {reg, top});
    hide BaseOk;
    hide Unused;
  }

  lemma OtherRange(cells: seq<Cell>, m: Machine, m': Machine, s: Snap, side: bool, reg: Reg, top: Reg)
    requires SideRel(cells, m, s, side) && |m.regs| == NUM_REGS && IsOp(reg) && IsOp(top) && m' == Halved(m, reg, top)
    requires Unused(cells, reg) && Unused(cells, top)
    ensures SideRel(cells, m', s, side)
  {
    hide Stacked;
    SideFrame(cells, m, m', s, side);
  }

  // ---- INC of a byte whose pop has to spill, whatever the state ----

  /** The byte pop about to be made splits a short that nobody shares, and the allocation for it
      drops some cells of the stack, but not all. */
  ghost predicate SplitSpills(e: Emitter, r: bool) {
    && e.Cache(r) != [] && e.Cache(r)[|e.Cache(r)| - 1].isShort && e.Count(TopReg(e.Cache(r))) == 1
    && 0 < |CellsLeft(e, r)| < |e.Cache(r)|
  }

  /** The stack that such an INC leaves: a zero too many. */
  function OneZeroMore(st: Uxn.Bytes): Uxn.Bytes
    requires |st| >= 2
  {
    st[..|st| - 2] + [0, st[|st| - 2]] + [(st[|st| - 1] + 1) % 256]
  }

  lemma SplitIsPop(e: Emitter, r: bool)
    requires e.Cache(r) != [] && e.Cache(r)[|e.Cache(r)| - 1].isShort
    ensures e.CachePop(false, r) == e.Split(r)
  {
    hide Emitter.Split;
  }

  /** INC of a byte, outside keep mode, whose pop splits a short and has to spill: one byte too
      many is left, and the emitter's bookkeeping is in order all the same. */
  lemma IncSpills(e: Emitter, inc: nat, pc: nat, m0: Machine, s: Snap, held: multiset<Reg>) returns (s': Snap, held': multiset<Reg>)
    requires Good(e, m0, s, held) && Uxn.OpOf(inc).Inc? && !Uxn.Flag2(inc) && !Uxn.FlagK(inc)
    requires SplitSpills(e.Begin(inc), Uxn.FlagR(inc)) && |s.Stack(Uxn.FlagR(inc))| < 256
    ensures var r := Uxn.FlagR(inc); var st := s.Stack(r);
      && |st| >= 2 && Good(e.Begin(inc).Plain(pc), m0, s', held')
      && s'.Stack(r) == OneZeroMore(st) && s'.Stack(!r) == s.Stack(!r) && SameOrigins(s, s')
  {
    hide Exec;
    hide Good;
    hide ViewMode;
    hide CellsLeft;
    hide Emitter.Begin;
    hide Emitter.Plain;
    hide Emitter.Split;
    hide Emitter.CachePop;
    hide Emitter.Push;
    hide Uxn.OpOf;
    hide Uxn.FlagR;
    hide Uxn.FlagK;
    hide Uxn.Flag2;
    var r := Uxn.FlagR(inc);
    var e0, st := e.Begin(inc), s.Stack(r);
    held' := OpStart.BeginGood(e, inc, m0, s, held);
    var s0 := s.(vals := map[]);
    HazardExample.IncPlain(e0, pc);
    var (e1, reg) := e0.Split(r);
    assert e0.CachePop(false, r) == (e1, reg) by { SplitIsPop(e0, r); }
    SplitSomeLeaves(e0, r, m0, s0, held');
    var n := |st|;
    held' := held' + multiset{reg};
    var s1 := s0.With(r, st[..n - 2] + [0, st[n - 2]]).(vals := map[reg := st[n - 1]]);
    assert s0.vals[reg := st[n - 1]] == map[reg := st[n - 1]];
    Values.IncGood(e1, reg, false, m0, s1, held');
    var e2 := e1.Own(reg).Emit(Op2(Alu.ADD, reg, R(reg), Imm(1))).Emit(Op2(Alu.AND, reg, R(reg), Mask(false)));
    var v := Uxn.Wrap(st[n - 1] + 1, false);
    var s2 := s1.(vals := s1.vals[reg := v]);
    assert Uxn.BytesOf(v, false) == [(st[n - 1] + 1) % 256];
    PushGood(e2, reg, false, r, m0, s2, held');
    s' := s2.With(r, s2.Stack(r) + [(st[n - 1] + 1) % 256]);
  }

  /** The zero too many, seen without the byte at the bottom. */
  lemma ZeroBytes(st: Uxn.Bytes, c: nat)
    requires |st| >= 3
    ensures (st[..|st| - 2] + [0, st[|st| - 2]] + [c])[1..] == st[..|st| - 1] + [c] <==> AllZero(st[..|st| - 2])
  {
    var n := |st|;
    var low := st[1..n - 2];
    assert st[..n - 2] == [st[0]] + low;
    assert (st[..n - 2] + [0, st[n - 2]] + [c])[1..] == (low + [0]) + [st[n - 2], c];
    assert st[..n - 1] + [c] == ([st[0]] + low) + [st[n - 2], c];
    SameParts(low + [0], [st[n - 2], c], [st[0]] + low, [st[n - 2], c]);
    ShiftZeros(st[0], low);
    assert AllZero([st[0]] + low) <==> st[0] == 0 && AllZero(low) by {
      assert forall i :: 0 <= i < |low| ==> low[i] == ([st[0]] + low)[i + 1];
    }
  }

  /** What the machine holds of a stack once the caches are cleared is not a stack that is one byte
      shorter: the pointer is wrong, and the bytes are unless all below the short are zero. */
  lemma OneZeroWrong(ring: seq<nat>, p: nat, st: Uxn.Bytes, origin: nat)
    requires 3 <= |st| < 256 && |ring| == 256 && p < 256
    requires Live(ring, p, |st| + 1) == OneZeroMore(st) && Bottom(p, |st| + 1) == origin
    ensures var ref := st[..|st| - 1] + [(st[|st| - 1] + 1) % 256];
      Bottom(p, |ref|) != origin && (Live(ring, p, |ref|) == ref <==> AllZero(st[..|st| - 2]))
  {
    var n := |st|;
    BottomStep(p, n + 1);
    LiveSuffix(ring, p, n);
    ZeroBytes(st, (st[n - 1] + 1) % 256);
    hide Live;
    hide Bottom;
    hide AllZero;
  }

  /** The live bytes, seen with one byte less at the bottom. */
  lemma {:induction false} LiveSuffix(ring: seq<nat>, p: nat, k: nat)
    requires |ring| == 256 && p < 256
    ensures |Live(ring, p, k + 1)| == k + 1 && Live(ring, p, k) == Live(ring, p, k + 1)[1..]
    decreases k
  {
    LiveLength(ring, p, k + 1);
    if k > 0 {
      LiveSuffix(ring, Down(p), k - 1);
    }
  }

  // ---- six literals use up the registers ----

  lemma {:induction false} NoneFlushed(cells: seq<Cell>)
    requires AllMarked(cells, true)
    ensures NumFlushed(cells) == 0
    decreases |cells|
  {
    if cells != [] {
      NoneFlushed(cells[..|cells| - 1]);
    }
  }

  lemma BeginKeepsCells(e: Emitter, code: nat, held: multiset<Reg>)
    requires Inv(e, held) && !Uxn.FlagK(code) && AllMarked(e.wcache, true) && AllMarked(e.rcache, true)
    ensures e.Begin(code).wcache == e.wcache && e.Begin(code).rcache == e.rcache && e.Begin(code).opcode == code
    ensures Inv(e.Begin(code), multiset{}) && e.Begin(code).Hazard() == e.Hazard()
  {
    hide Emitter.Begin;
    hide Uxn.FlagK;
    BeginCache(e, code, held, false);
    BeginCache(e, code, held, true);
    NoneFlushed(e.wcache);
    NoneFlushed(e.rcache);
    assert e.wcache[0..] == e.wcache && e.rcache[0..] == e.rcache;
    hide NumFlushed;
    hide AllMarked;
    RebuiltFlags(e, code);
    RebuiltPlain(e, code, held);
  }

  lemma RebuiltPlain(e: Emitter, code: nat, held: multiset<Reg>)
    requires Inv(e, held) && !Uxn.FlagK(code)
    ensures Inv(e.Begin(code), multiset{}) && e.Begin(code).opcode == code
  {
    hide Uxn.FlagK;
    RebuiltInv(e, code, held);
    PointersInv(Rebuilt(e, code), e.Begin(code), multiset{});
    hide Inv;
    hide Emitter.RetainCache;
  }

  lemma LitPlain(e: Emitter, pc: nat)
    requires Uxn.OpOf(e.opcode).Lit?
    ensures var r, short := Uxn.FlagR(e.opcode), Uxn.Flag2(e.opcode); var (e1, reg) := e.Alloc();
      e.Plain(pc) == e1.LiteralTo(reg, pc, short).Push(reg, short, r)
  {
    hide Emitter.Alloc;
    hide Emitter.Push;
    hide Emitter.LiteralTo;
    hide Uxn.OpOf;
    hide Uxn.FlagR;
    hide Uxn.FlagK;
    hide Uxn.Flag2;
  }

  lemma LiteralFacts(e: Emitter, reg: Reg, pc: nat, short: bool)
    ensures SameBooks(e, e.LiteralTo(reg, pc, short)) && e.LiteralTo(reg, pc, short).Hazard() == e.Hazard()
  {
    hide Exec;
  }

  lemma PushFacts(e: Emitter, reg: Reg, short: bool, r: bool)
    requires e.Count(reg) > 0 && |e.Cache(r)| < CACHE_SIZE
    ensures var e' := e.Push(reg, short, r);
      e'.Cache(r) == e.Cache(r) + [Cell(reg, short, true)] && e'.Cache(!r) == e.Cache(!r) && e'.Hazard() == e.Hazard()
  {
    hide Exec;
    hide Emitter.Spill;
  }

  /** A literal, with room in its cache and a register free, adds a cell and disturbs nothing. */
  lemma LitAdds(e: Emitter, held: multiset<Reg>, code: nat, pc: nat) returns (reg: Reg)
    requires Inv(e, held) && AllMarked(e.wcache, true) && AllMarked(e.rcache, true) && e.Cached() < NUM_OPS
    requires Uxn.OpOf(code).Lit? && !Uxn.FlagK(code) && |e.Cache(Uxn.FlagR(code))| < CACHE_SIZE
    ensures var r, e' := Uxn.FlagR(code), EmitOpcode(e, code, pc);
      && e'.Cache(r) == e.Cache(r) + [Cell(reg, Uxn.Flag2(code), true)] && e'.Cache(!r) == e.Cache(!r)
      && e'.Hazard() == e.Hazard()
  {
    hide Exec;
    hide Inv;
    hide AllMarked;
    hide Emitter.Begin;
    hide Emitter.Plain;
    hide Emitter.Push;
    hide Emitter.LiteralTo;
    hide Uxn.OpOf;
    hide Uxn.FlagR;
    hide Uxn.FlagK;
    hide Uxn.Flag2;
    var e0, at, r, short := e.Begin(code), (pc + 1) % 0x1_0000, Uxn.FlagR(code), Uxn.Flag2(code);
    BeginKeepsCells(e, code, held);
    LitPlain(e0, at);
    SingleStack.FreeIfFew(e0, multiset{});
    AllocInv(e0, multiset{});
    var e1;
    e1, reg := e0.Alloc().0, e0.Alloc().1;
    assert e1.wcache == e0.wcache && e1.rcache == e0.rcache && e1.Hazard() == e0.Hazard();
    hide Emitter.Alloc;
    LiteralFacts(e1, reg, at, short);
    PushFacts(e1.LiteralTo(reg, at, short), reg, short, r);
  }

  /** "w" shorts and "r" bytes, all pending, in registers of their own. */
  ghost predicate Loaded(e: Emitter, held: multiset<Reg>, w: nat, r: nat) {
    && Inv(e, held) && Sharing.LoneCells(e) && AllMarked(e.wcache, true) && AllMarked(e.rcache, true) && !e.Hazard()
    && |e.wcache| == w && |e.rcache| == r && (forall i :: 0 <= i < w ==> e.wcache[i].isShort)
  }

  lemma MarkedPlus(cells: seq<Cell>, c: Cell)
    requires AllMarked(cells, true) && c.needFlush
    ensures AllMarked(cells + [c], true)
  {
  }

  lemma Fills(e: Emitter, held: multiset<Reg>, code: nat, pc: nat, w: nat, r: nat) returns (held': multiset<Reg>)
    requires Loaded(e, held, w, r) && w + r < NUM_OPS && (code == 0xa0 || code == 0xc0)
    requires code == 0xa0 ==> w < CACHE_SIZE
    requires code == 0xc0 ==> r < CACHE_SIZE
    ensures Loaded(EmitOpcode(e, code, pc), held', if code == 0xa0 then w + 1 else w, if code == 0xa0 then r else r + 1)
  {
    LitCodes();
    hide Exec;
    hide Uxn.OpOf;
    hide Uxn.FlagR;
    hide Uxn.FlagK;
    hide Uxn.Flag2;
    hide Inv;
    hide Sharing.LoneCells;
    hide AllMarked;
    hide EmitOpcode;
    var reg := LitAdds(e, held, code, pc);
    held' := NoSharing.OpcodeKept(e, held, code, pc);
    MarkedPlus(e.Cache(code == 0xc0), Cell(reg, code == 0xa0, true));
  }

  lemma LitCodes()
    ensures Uxn.OpOf(0xa0) == Uxn.Lit && !Uxn.FlagR(0xa0) && Uxn.Flag2(0xa0) && !Uxn.FlagK(0xa0)
    ensures Uxn.OpOf(0xc0) == Uxn.Lit && Uxn.FlagR(0xc0) && !Uxn.Flag2(0xc0) && !Uxn.FlagK(0xc0)
    ensures Uxn.OpOf(0x01) == Uxn.Inc && !Uxn.FlagR(0x01) && !Uxn.Flag2(0x01) && !Uxn.FlagK(0x01)
  {
    hide Uxn.OpOf;
    Uxn.LiteralOp(0xa0);
    Uxn.LiteralOp(0xc0);
    Uxn.RegularOp(0x01);
  }

  // ---- with six registers in use a pop of half a short spills ----

  lemma {:induction false} RegsAreOps(cells: seq<Cell>)
    requires forall i :: 0 <= i < |cells| ==> IsOp(cells[i].reg)
    ensures forall x :: x in SingleStack.Regs(cells) ==> IsOp(x)
    decreases |cells|
  {
    if cells != [] {
      RegsAreOps(cells[..|cells| - 1]);
    }
  }

  lemma AtMostFive(used: multiset<Reg>, x: Reg)
    requires IsOp(x) && used[x] == 0 && (forall y :: y in used ==> IsOp(y) && used[y] <= 1)
    ensures |used| < NUM_OPS
  {
    var all := multiset{3, 4, 5, 6, 7, 8};
    var others := all - multiset{x};
    assert used <= others;
    assert others == used + (others - used);
    assert |others| == |used| + |others - used| && |others| == 5;
  }

  /** Six cells in registers of their own leave none free. */
  lemma NoneFreeIfSix(e: Emitter)
    requires Inv(e, multiset{}) && Sharing.LoneCells(e) && e.Cached() == NUM_OPS
    ensures FindFree(e.refs, 0) == 0
  {
    var used := SingleStack.Regs(e.wcache) + SingleStack.Regs(e.rcache);
    FindFreeFinds(e.refs, 0);
    var x := FindFree(e.refs, 0);
    if x != 0 {
      assert GoodCache(e.wcache) && GoodCache(e.rcache);
      RegsAreOps(e.wcache);
      RegsAreOps(e.rcache);
      assert used + multiset{} == used;
      SingleStack.UsedCount(e, multiset{}, x);
      forall y | y in used ensures IsOp(y) && used[y] <= 1 {
        SingleStack.RegsCount(e.wcache, y);
        SingleStack.RegsCount(e.rcache, y);
      }
      AtMostFive(used, x);
    }
  }

  lemma SpillFrees(e: Emitter)
    requires e.wcache != [] && e.Count(e.wcache[0].reg) == 1
    ensures FindFree(e.Spill(false).refs, 0) != 0
    ensures e.Spill(false).wcache == e.wcache[1..] && e.Spill(false).rcache == e.rcache
  {
    hide Exec;
    var reg, e' := e.wcache[0].reg, e.Spill(false);
    DoPushBooks(e, e.wcache[0], false);
    hide Emitter.DoPush;
    assert e'.refs[reg - OP_MIN] == 0;
    FindFreeFinds(e'.refs, 0);
  }

  lemma SpillsOne(e: Emitter)
    requires FindFree(e.refs, 0) == 0 && e.wcache != [] && e.Count(e.wcache[0].reg) == 1 && !Uxn.FlagR(e.opcode)
    ensures CellsLeft(e, false) == e.wcache[1..]
  {
    hide Exec;
    hide Emitter.Spill;
    hide Uxn.FlagR;
    SpillFrees(e);
    var e1 := e.Spill(false);
    assert e.Alloc() == e1.Alloc();
    assert e1.Alloc().0 == e1.Retain(e1.Alloc().1);
  }

  lemma SoleCount(e: Emitter, i: nat)
    requires Inv(e, multiset{}) && Sharing.LoneCells(e) && i < |e.wcache|
    ensures e.Count(e.wcache[i].reg) == 1
  {
    var x := e.wcache[i].reg;
    assert GoodCache(e.wcache);
    UsesUnused(e.wcache, x);
    assert IsOp(x) && Uses(e.wcache, x) == 1;
    hide Uses;
  }

  /** With six literals cached, INC of a byte has to spill. */
  lemma IncWillSpill(e: Emitter, held: multiset<Reg>)
    requires Loaded(e, held, 4, 2)
    ensures SplitSpills(e.Begin(0x01), false)
  {
    hide Exec;
    LitCodes();
    hide Uxn.OpOf;
    hide Uxn.FlagR;
    hide Uxn.FlagK;
    hide Uxn.Flag2;
    BeginKeepsCells(e, 0x01, held);
    var e0 := e.Begin(0x01);
    hide Emitter.Begin;
    hide Inv;
    hide AllMarked;
    assert Sharing.LoneCells(e0);
    hide Sharing.LoneCells;
    NoneFreeIfSix(e0);
    SoleCount(e0, 0);
    SoleCount(e0, 3);
    SpillsOne(e0);
    hide CellsLeft;
  }

  // ---- the program LITr, LITr, four LIT2, INC ----

  ghost predicate IsExample(vm: Uxn.Vm) {
    && vm.pc == 0x100 && IsProgram(vm.ram) && |vm.wst| <= 247 && |vm.rst| <= 254
  }

  ghost predicate IsProgram(ram: Uxn.Bytes) {
    && |ram| == 0x1_0000 && ram[0x100] == 0xc0 && ram[0x102] == 0xc0 && ram[0x104] == 0xa0 && ram[0x107] == 0xa0
    && ram[0x10a] == 0xa0 && ram[0x10d] == 0xa0 && ram[0x110] == 0x01
    && (forall i :: 0 <= i < |ram| ==> ram[i] < 256)
  }

  lemma EmptyFilled()
    ensures Loaded(EMPTY, multiset{}, 0, 0)
  {
  }

  lemma LitNext(code: nat, pc: nat)
    requires (code == 0xa0 || code == 0xc0) && pc < 0xfff0
    ensures NextPc(code, pc) == if code == 0xa0 then pc + 3 else pc + 2
  {
    hide Uxn.OpOf;
    hide Uxn.Flag2;
    LitCodes();
  }

  lemma LitEmitted(e: Emitter, held: multiset<Reg>, rom: Uxn.Bytes, code: nat, pc: nat, w: nat, r: nat, n: nat)
    returns (e': Emitter, held': multiset<Reg>)
    requires Loaded(e, held, w, r) && w + r < NUM_OPS && w < CACHE_SIZE && r < CACHE_SIZE
    requires (code == 0xa0 || code == 0xc0) && pc < 0xfff0 && pc < |rom| && rom[pc] == code && n > 0
    ensures Loaded(e', held', if code == 0xa0 then w + 1 else w, if code == 0xa0 then r else r + 1)
    ensures Emitted(e, rom, pc, n) == Emitted(e', rom, if code == 0xa0 then pc + 3 else pc + 2, n - 1)
    ensures Emitted(e, rom, pc, n + 1) == Emitted(e', rom, if code == 0xa0 then pc + 3 else pc + 2, n)
  {
    hide Loaded;
    hide EmitOpcode;
    hide NextPc;
    hide Emitted;
    held' := Fills(e, held, code, pc, w, r);
    e' := EmitOpcode(e, code, pc);
    LitNext(code, pc);
    HazardExample.EmittedStep(e, rom, pc, n);
    HazardExample.EmittedStep(e, rom, pc, n + 1);
  }

  lemma SixEmitted(rom: Uxn.Bytes) returns (held: multiset<Reg>)
    requires IsProgram(rom)
    ensures var e := Emitted(EMPTY, rom, 0x100, 6);
      Loaded(e, held, 4, 2) && Emitted(EMPTY, rom, 0x100, 7) == EmitOpcode(e, 0x01, 0x110)
  {
    hide Loaded;
    hide EmitOpcode;
    hide Emitted;
    EmptyFilled();
    var e1, h1 := LitEmitted(EMPTY, multiset{}, rom, 0xc0, 0x100, 0, 0, 6);
    var e2, h2 := LitEmitted(e1, h1, rom, 0xc0, 0x102, 0, 1, 5);
    var e3, h3 := LitEmitted(e2, h2, rom, 0xa0, 0x104, 0, 2, 4);
    var e4, h4 := LitEmitted(e3, h3, rom, 0xa0, 0x107, 1, 2, 3);
    var e5, h5 := LitEmitted(e4, h4, rom, 0xa0, 0x10a, 2, 2, 2);
    var e6, h6 := LitEmitted(e5, h5, rom, 0xa0, 0x10d, 3, 2, 1);
    held := h6;
    OneEmitted(e6, rom, 0x110);
  }

  lemma OneEmitted(e: Emitter, rom: Uxn.Bytes, pc: nat)
    ensures Emitted(e, rom, pc, 0) == e
    ensures Emitted(e, rom, pc, 1) == EmitOpcode(e, Uxn.Peek(rom, pc), pc)
  {
    hide EmitOpcode;
    hide NextPc;
    var code := Uxn.Peek(rom, pc);
    assert Emitted(EmitOpcode(e, code, pc), rom, NextPc(code, pc), 0) == EmitOpcode(e, code, pc);
  }

  lemma LitPerforms(vm: Uxn.Vm, code: nat)
    requires code == 0xa0 || code == 0xc0
    requires 256 <= vm.pc < 0xfff0 && |vm.ram| == 0x1_0000 && (forall i :: 0 <= i < |vm.ram| ==> vm.ram[i] < 256)
    requires |vm.wst| <= 254 && |vm.rst| <= (if code == 0xa0 then 256 else 255) && vm.ram[vm.pc] == code
    ensures Uxn.Step(vm) == Uxn.Some(
      if code == 0xa0 then vm.(pc := vm.pc + 3, wst := vm.wst + [vm.ram[vm.pc + 1], vm.ram[vm.pc + 2]])
      else vm.(pc := vm.pc + 2, rst := vm.rst + [vm.ram[vm.pc + 1]]))
  {
    LitCodes();
    hide Uxn.OpOf;
    hide Uxn.FlagR;
    hide Uxn.FlagK;
    hide Uxn.Flag2;
    var pc, short := vm.pc + 1, code == 0xa0;
    assert forall st :: Uxn.PopAll(st, []) == Uxn.Some((st, []));
    var b := if short then [vm.ram[pc], vm.ram[pc + 1]] else [vm.ram[pc]];
    assert Uxn.BytesOf(Uxn.Fetch(vm.ram, pc, true, short), short) == b;
    assert Uxn.Act(Uxn.Lit, short, 0, 0, 0, vm.ram, pc) == Uxn.Effect(b, [], vm.ram, pc + if short then 2 else 1);
    hide Uxn.Act;
    assert vm.wst + [] == vm.wst && vm.rst + [] == vm.rst;
  }

  lemma OneFollows(vm: Uxn.Vm, vm1: Uxn.Vm, n: nat)
    requires 256 <= vm.pc < |vm.ram| == 0x1_0000 && vm.ram[vm.pc] < 256 && IsPlain(Uxn.OpOf(vm.ram[vm.pc]))
    requires Uxn.Step(vm) == Uxn.Some(vm1)
    ensures RunReference(vm, n + 1) == RunReference(vm1, n)
    ensures Follows(vm1, vm.ram, n) ==> Follows(vm, vm.ram, n + 1)
  {
    hide Uxn.Step;
    hide Uxn.OpOf;
  }

  lemma LitFollows(vm: Uxn.Vm, code: nat, n: nat) returns (vm1: Uxn.Vm)
    requires code == 0xa0 || code == 0xc0
    requires 256 <= vm.pc < 0xfff0 && |vm.ram| == 0x1_0000 && (forall i :: 0 <= i < |vm.ram| ==> vm.ram[i] < 256)
    requires |vm.wst| <= 254 && |vm.rst| <= (if code == 0xa0 then 256 else 255) && vm.ram[vm.pc] == code && n > 0
    ensures vm1 ==
      if code == 0xa0 then vm.(pc := vm.pc + 3, wst := vm.wst + [vm.ram[vm.pc + 1], vm.ram[vm.pc + 2]])
      else vm.(pc := vm.pc + 2, rst := vm.rst + [vm.ram[vm.pc + 1]])
    ensures RunReference(vm, n) == RunReference(vm1, n - 1) && RunReference(vm, n + 1) == RunReference(vm1, n)
    ensures Follows(vm1, vm.ram, n - 1) ==> Follows(vm, vm.ram, n)
    ensures Follows(vm1, vm.ram, n) ==> Follows(vm, vm.ram, n + 1)
  {
    hide Follows;
    hide RunReference;
    LitPerforms(vm, code);
    hide Uxn.Step;
    LitCodes();
    hide Uxn.OpOf;
    vm1 := Uxn.Step(vm).value;
    OneFollows(vm, vm1, n - 1);
    OneFollows(vm, vm1, n);
  }

  /** The reference after the literals, and after INC. */
  lemma SixFollow(vm: Uxn.Vm) returns (st: Uxn.Bytes, rst: Uxn.Bytes)
    requires IsExample(vm)
    ensures |st| == |vm.wst| + 8 && st[|st| - 3] == vm.ram[0x10c] && |rst| == |vm.rst| + 2
    ensures Follows(vm, vm.ram, 6) && RunReference(vm, 6) == vm.(pc := 0x110, wst := st, rst := rst)
    ensures Follows(vm, vm.ram, 7)
    ensures RunReference(vm, 7) == vm.(pc := 0x111, wst := st[..|st| - 1] + [(st[|st| - 1] + 1) % 256], rst := rst)
  {
    hide Follows;
    hide RunReference;
    var vm1 := LitFollows(vm, 0xc0, 6);
    var vm2 := LitFollows(vm1, 0xc0, 5);
    var vm3 := LitFollows(vm2, 0xa0, 4);
    var vm4 := LitFollows(vm3, 0xa0, 3);
    var vm5 := LitFollows(vm4, 0xa0, 2);
    var vm6 := LitFollows(vm5, 0xa0, 1);
    st, rst := vm6.wst, vm6.rst;
    IncFollows(vm6);
  }

  lemma IncFollows(vm: Uxn.Vm)
    requires vm.pc == 0x110 && |vm.ram| == 0x1_0000 && vm.ram[0x110] == 0x01 && 0 < |vm.wst| <= 256 && |vm.rst| <= 256
    ensures var st := vm.wst;
      && Follows(vm, vm.ram, 0) && RunReference(vm, 0) == vm && Follows(vm, vm.ram, 1)
      && RunReference(vm, 1) == vm.(pc := 0x111, wst := st[..|st| - 1] + [(st[|st| - 1] + 1) % 256])
  {
    hide Uxn.Perform;
    hide Uxn.OpOf;
    LitCodes();
    var st, n := vm.wst, |vm.wst| - 1;
    assert st == st[..n] + [st[n]];
    HazardExample.IncByte(vm, st[..n], st[n], 0x111);
    var vm1 := vm.(pc := 0x111, wst := st[..n] + [(st[n] + 1) % 256]);
    assert Uxn.Step(vm) == Uxn.Some(vm1);
    hide Uxn.Step;
    OneFollows(vm, vm1, 0);
    assert RunReference(vm1, 0) == vm1;
  }

  lemma SpilledWrong(m: Machine, vm: Uxn.Vm, m': Machine, vm': Uxn.Vm, st: Uxn.Bytes)
    requires |st| >= 3 && |st| < 256 && |m'.ws| == 256 && Ptr(m', WSP) < 256
    requires vm'.wst == st[..|st| - 1] + [(st[|st| - 1] + 1) % 256]
    requires Live(m'.ws, Ptr(m', WSP), |st| + 1) == OneZeroMore(st)
    requires Bottom(Ptr(m', WSP), |st| + 1) == Bottom(Ptr(m, WSP), |vm.wst|)
    ensures !PointersMatch(m, vm, m', vm') && (st[|st| - 3] != 0 ==> !Compiler.Holds(m', vm'))
  {
    OneZeroWrong(m'.ws, Ptr(m', WSP), st, Bottom(Ptr(m, WSP), |vm.wst|));
    assert AllZero(st[..|st| - 2]) ==> st[..|st| - 2][|st| - 3] == 0;
    hide Live;
    hide Bottom;
  }

  /** What the emitted code leaves on the working stack, with the literals' code before it. */
  lemma IncRuns(e: Emitter, held0: multiset<Reg>, m: Machine, s: Snap, held: multiset<Reg>)
    requires Loaded(e, held0, 4, 2) && Good(e, m, s, held) && |s.w| < 256
    ensures var m' := Exec(EmitOpcode(e, 0x01, 0x110).ClearBoth().code, m);
      && |s.w| >= 2 && |m'.ws| == 256 && Ptr(m', WSP) < 256
      && Live(m'.ws, Ptr(m', WSP), |s.w| + 1) == OneZeroMore(s.w) && Bottom(Ptr(m', WSP), |s.w| + 1) == s.wOrigin
  {
    hide Exec;
    hide Good;
    hide Loaded;
    hide SplitSpills;
    hide Emitter.ClearBoth;
    hide Emitter.Begin;
    hide Emitter.Plain;
    hide EmitOpcode;
    hide Live;
    hide Bottom;
    IncWillSpill(e, held0);
    LitCodes();
    hide Uxn.OpOf;
    hide Uxn.FlagR;
    hide Uxn.FlagK;
    hide Uxn.Flag2;
    IncEmitted(e);
    var s', held' := IncSpills(e, 0x01, 0x111, m, s, held);
    var e' := EmitOpcode(e, 0x01, 0x110);
    ClearBothGood(e', m, s', held');
    InOrder(e'.ClearBoth(), m, s', held');
  }

  /** The program LITr, LITr, four LIT2, INC, from any state that leaves room for it: what the
      emitted code leaves is a stack whose pointer is one too high, and whose bytes are wrong
      unless the low byte of the third short is zero. */
  lemma ProgramWrong(m: Machine, vm: Uxn.Vm)
    requires Compiler.Holds(m, vm) && IsExample(vm)
    ensures Follows(vm, vm.ram, 7)
    ensures var m' := Exec(Emitted(EMPTY, vm.ram, 0x100, 7).ClearBoth().code, m);
      && !PointersMatch(m, vm, m', RunReference(vm, 7))
      && (vm.ram[0x10c] != 0 ==> !Compiler.Holds(m', RunReference(vm, 7)))
  {
    hide Exec;
    hide Good;
    hide Emitted;
    hide Follows;
    hide RunReference;
    hide Compiler.Holds;
    hide PointersMatch;
    hide Loaded;
    hide EmitOpcode;
    hide Emitter.ClearBoth;
    hide OneZeroMore;
    hide Live;
    hide Bottom;
    var st, rst := SixFollow(vm);
    var e := Emitted(EMPTY, vm.ram, 0x100, 6);
    var held0 := SixEmitted(vm.ram);
    FilledCalm(e, held0, 4, 2);
    EmptyGood(m, vm);
    var s, held := SequenceSound(EMPTY, m, StartSnap(m, vm), multiset{}, vm, vm.ram, 6);
    IncRuns(e, held0, m, s, held);
    SpilledWrong(m, vm, Exec(EmitOpcode(e, 0x01, 0x110).ClearBoth().code, m), RunReference(vm, 7), st);
  }

  lemma IncEmitted(e: Emitter)
    ensures EmitOpcode(e, 0x01, 0x110) == e.Begin(0x01).Plain(0x111)
  {
    hide Emitter.Begin;
    hide Emitter.Plain;
  }

  lemma FilledCalm(e: Emitter, held: multiset<Reg>, w: nat, r: nat)
    requires Loaded(e, held, w, r)
    ensures !e.Hazard()
  {
  }
}
