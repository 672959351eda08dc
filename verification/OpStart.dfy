/** The start of an opcode: rebuilding the reference counts loses no pending write, and keep
    mode sets up a second, complete view of the current stack. */
module OpStart {
  import opened Target
  import opened Emission
  import opened Allocator
  import opened Rings
  import opened CacheRuns
  import opened CacheSound
  import opened PopSound
  import opened Popping
  import Uxn

  lemma {:induction false} DecodedAfterFlushed(cells: seq<Cell>, regs: seq<nat>, n: nat)
    requires Flushed(cells, n)
    ensures Decoded(cells, regs, false) == Decoded(cells[n..], regs, false)
    decreases n
  {
    if n == 0 {
      assert cells[0..] == cells;
    } else {
      DecodedFirst(cells, regs, false);
      DecodedAfterFlushed(cells[1..], regs, n - 1);
      assert cells[1..][n - 1..] == cells[n..];
    }
  }

  lemma StackedAfterFlushed(cells: seq<Cell>, ring: seq<nat>, p: nat, regs: seq<nat>, st: Uxn.Bytes, origin: nat, n: nat)
    requires Stacked(cells, ring, p, regs, st, origin, false) && Flushed(cells, n)
    ensures Stacked(cells[n..], ring, p, regs, st, origin, false)
  {
    DecodedAfterFlushed(cells, regs, n);
    hide Decoded;
    hide Live;
    hide Bottom;
  }

  lemma InRangeAfter(cells: seq<Cell>, regs: seq<nat>, n: nat)
    requires InRange(cells, regs) && n <= |cells|
    ensures InRange(cells[n..], regs)
  {
  }

  /** Dropping as many cells as are flushed drops exactly the flushed ones. */
  lemma DropFlushedSide(cells: seq<Cell>, m: Machine, s: Snap, r: bool)
    requires SideRel(cells, m, s, r) && FlushedFirst(cells)
    ensures SideRel(cells[NumFlushed(cells)..], m, s, r) && AllMarked(cells[NumFlushed(cells)..], true)
  {
    NumFlushedSplits(cells);
    hide Stacked;
    hide InRange;
    StackedAfterFlushed(cells, Ring(m, r), Ptr(m, StackPtr(r)), m.regs, s.Stack(r), s.Origin(r), NumFlushed(cells));
    InRangeAfter(cells, m.regs, NumFlushed(cells));
    hide NumFlushed;
  }

  lemma RebuiltRel(e: Emitter, e': Emitter, m: Machine, s: Snap)
    requires Rel(e, m, s) && GoodCache(e.wcache) && GoodCache(e.rcache)
    requires e'.wcache == e.wcache[NumFlushed(e.wcache)..] && e'.rcache == e.rcache[NumFlushed(e.rcache)..]
    requires e'.memBase == e.memBase
    ensures Rel(e', m, s.(vals := map[]))
    ensures AllMarked(e'.wcache, true) && AllMarked(e'.rcache, true)
  {
    hide AreBytes;
    hide Stacked;
    hide InRange;
    hide NumFlushed;
    var s' := s.(vals := map[]);
    assert SideRel(e.wcache, m, s', false) && SideRel(e.rcache, m, s', true);
    DropFlushedSide(e.wcache, m, s', false);
    DropFlushedSide(e.rcache, m, s', true);
    hide SideRel;
    hide AllMarked;
  }

  lemma RebuiltGood(e: Emitter, op: nat, m0: Machine, s: Snap, held: multiset<Reg>)
    requires Good(e, m0, s, held)
    ensures Good(Rebuilt(e, op), m0, s.(vals := map[]), multiset{})
    ensures AllMarked(Rebuilt(e, op).wcache, true) && AllMarked(Rebuilt(e, op).rcache, true)
    ensures Rebuilt(e, op).opcode == op
  {
    hide Exec;
    hide Rel;
    hide NumFlushed;
    RebuiltInv(e, op, held);
    var e0 := e.(refs := seq(NUM_OPS, i => 0));
    assert Zeroed(e0);
    RetainBothInv(e0);
    assert GoodCache(e.wcache) && GoodCache(e.rcache);
    hide Inv;
    hide Emitter.RetainCache;
    var e' := Rebuilt(e, op);
    assert Run(e', m0) == Run(e, m0);
    RebuiltRel(e, e', Run(e, m0), s);
  }

  // ---- writing the cells out while they stay visible ----

  lemma PointersApart(p: nat, k: nat, p0: nat, k0: nat)
    requires p < 256 && p0 < 256 && k0 <= k < 256 && Bottom(p, k) == Bottom(p0, k0)
    ensures (p - p0) % 256 == k - k0
  {
    var d := (p - k) - (p0 - k0);
    assert d % 256 == 0;
    assert p - p0 == d + (k - k0);
  }

  lemma UpApart(p: nat, p0: nat)
    requires p < 256 && p0 < 256 && (p - p0) % 256 < 255
    ensures (Up(p) - p0) % 256 == (p - p0) % 256 + 1
  {
  }

  lemma WrittenAbove(ring: seq<nat>, p0: nat, k0: nat, p: nat, k: nat, v: nat, short: bool)
    requires |ring| == 256 && p < 256 && p0 < 256 && k0 <= k && k + (if short then 2 else 1) <= 256
    requires Bottom(p, k) == Bottom(p0, k0)
    ensures Live(Written(ring, p, v, short), p0, k0) == Live(ring, p0, k0)
  {
    PointersApart(p, k, p0, k0);
    hide Bottom;
    hide Live;
    if short {
      LiveFrame(ring, p0, k0, p, v / 256 % 256);
      UpApart(p, p0);
      LiveFrame(ring[p := v / 256 % 256], p0, k0, Up(p), v % 256);
    } else {
      LiveFrame(ring, p0, k0, p, v % 256);
    }
  }

  lemma {:induction false} DecodedSame(a: seq<Cell>, b: seq<Cell>, regs: seq<nat>)
    requires |a| == |b| && forall i :: 0 <= i < |a| ==> a[i].reg == b[i].reg && a[i].isShort == b[i].isShort
    ensures Decoded(a, regs, true) == Decoded(b, regs, true)
    decreases |a|
  {
    if a != [] {
      DecodedSame(a[..|a| - 1], b[..|b| - 1], regs);
    }
  }

  lemma {:induction false} DecodedShorter(cells: seq<Cell>, regs: seq<nat>)
    ensures |Decoded(cells, regs, false)| <= |Decoded(cells, regs, true)|
    decreases |cells|
  {
    if cells != [] {
      DecodedShorter(cells[..|cells| - 1], regs);
    }
  }

  function FlushedAt(cells: seq<Cell>, i: nat): seq<Cell>
    requires i < |cells|
  {
    cells[i := cells[i].(needFlush := false)]
  }

  /** Writing out the first unflushed cell: the real stack, read through the moving pointer "p",
      and the view, read through the copy "p0", both stay what they are. */
  lemma FlushSide(cells: seq<Cell>, ring: seq<nat>, p: nat, regs: seq<nat>, st: Uxn.Bytes, origin: nat, i: nat)
    requires i < |cells| && Flushed(cells, i) && cells[i].needFlush
    requires Stacked(cells, ring, p, regs, st, origin, false)
    ensures var v := At(regs, cells[i].reg); var short := cells[i].isShort;
      Stacked(FlushedAt(cells, i), Written(ring, p, v, short), Above(p, short), regs, st, origin, false)
  {
    var cells' := FlushedAt(cells, i);
    DecodedAfterFlushed(cells, regs, i);
    DecodedAfterFlushed(cells', regs, i + 1);
    assert cells'[i + 1..] == cells[i..][1..];
    assert cells[i..][0] == cells[i];
    hide Decoded;
    hide Live;
    hide Bottom;
    assert Stacked(cells[i..], ring, p, regs, st, origin, false);
    StackedSpill(cells[i..], ring, p, regs, st, origin);
  }

  lemma FlushView(cells: seq<Cell>, ring: seq<nat>, p: nat, p0: nat, regs: seq<nat>, st: Uxn.Bytes, origin: nat, i: nat)
    requires i < |cells| && Flushed(cells, i) && cells[i].needFlush
    requires Stacked(cells, ring, p, regs, st, origin, false) && Stacked(cells, ring, p0, regs, st, origin, true)
    ensures Stacked(FlushedAt(cells, i), Written(ring, p, At(regs, cells[i].reg), cells[i].isShort), p0, regs, st, origin, true)
  {
    var v, short := At(regs, cells[i].reg), cells[i].isShort;
    DecodedSame(cells, FlushedAt(cells, i), regs);
    FlushBytes(cells, regs, i);
    hide Live;
    hide Bottom;
    hide Written;
    hide Decoded;
    hide Flushed;
    WrittenAbove(ring, p0, |st| - |Decoded(cells, regs, true)|, p, |st| - |Decoded(cells, regs, false)|, v, short);
  }

  lemma FlushBytes(cells: seq<Cell>, regs: seq<nat>, i: nat)
    requires i < |cells| && Flushed(cells, i) && cells[i].needFlush
    ensures (if cells[i].isShort then 2 else 1) <= |Decoded(cells, regs, false)| <= |Decoded(cells, regs, true)|
  {
    DecodedShorter(cells, regs);
    DecodedAfterFlushed(cells, regs, i);
    DecodedFirst(cells[i..], regs, false);
  }

  /** The relation, one side at a time. */
  lemma RelFromSides(e: Emitter, m: Machine, s: Snap, r: bool)
    requires Calm(m) && BaseOk(e, m) && m.ram == s.ram && m.io == s.io && Known(m.regs, s.vals)
    requires SideRel(e.Cache(r), m, s, r) && SideRel(e.Cache(!r), m, s, !r)
    ensures Rel(e, m, s)
  {
    hide SideRel;
    hide Calm;
    hide BaseOk;
    hide Known;
  }

  /** Writing out cell "i", with the view read through a register copy of the pointer. */
  lemma FlushStepGood(e: Emitter, r: bool, i: nat, m0: Machine, s: Snap, held: multiset<Reg>)
    requires Good(e, m0, s, held) && Flushed(e.Cache(r), i) && i < |e.Cache(r)| && e.Cache(r)[i].needFlush
    requires IsOp(e.SpReg(r)) && Viewing(e, Run(e, m0), r, s.Stack(r), s.Origin(r))
    ensures var e' := e.DoPush(e.Cache(r)[i], r).WithCache(r, FlushedAt(e.Cache(r), i));
      && Good(e', m0, s, held) && Viewing(e', Run(e', m0), r, s.Stack(r), s.Origin(r)) && SameFrame(e, e')
  {
    hide Exec;
    hide Emitter.DoPush;
    hide Viewing;
    hide CellWritten;
    hide Stacked;
    hide AreBytes;
    var cells := e.Cache(r);
    var e1 := e.DoPush(cells[i], r);
    DoPushBooks(e, cells[i], r);
    BooksInv(e, e1, held);
    FlushOneInv(e1, held, r, i);
    assert GoodCache(cells) && GoodCache(e.Cache(!r));
    hide Inv;
    DoPushRuns(e, cells[i], r, m0);
    var m, m1 := Run(e, m0), Run(e1, m0);
    var e' := e1.WithCache(r, FlushedAt(cells, i));
    assert Run(e', m0) == m1 && e'.memBase == e1.memBase;
    FlushedRel(e, e', m, m1, s, r, i);
    hide Rel;
  }

  lemma FlushedRel(e: Emitter, e': Emitter, m: Machine, m': Machine, s: Snap, r: bool, i: nat)
    requires Rel(e, m, s) && GoodCache(e.Cache(r)) && GoodCache(e.Cache(!r))
    requires Flushed(e.Cache(r), i) && i < |e.Cache(r)| && e.Cache(r)[i].needFlush
    requires IsOp(e.SpReg(r)) && Viewing(e, m, r, s.Stack(r), s.Origin(r))
    requires CellWritten(m, m', m.regs[e.Cache(r)[i].reg], e.Cache(r)[i].isShort, r) && BaseOk(e', m')
    requires e'.Cache(r) == FlushedAt(e.Cache(r), i) && e'.Cache(!r) == e.Cache(!r) && e'.SpReg(r) == e.SpReg(r)
    ensures Rel(e', m', s) && Viewing(e', m', r, s.Stack(r), s.Origin(r))
  {
    var cells := e.Cache(r);
    assert Calm(m) && SideRel(cells, m, s, r);
    WrittenOther(e, m, m', s, m.regs[cells[i].reg], cells[i].isShort, r);
    FlushRel(cells, m, m', s, e.SpReg(r), r, i);
    assert Calm(m');
    hide SideRel;
    hide Stacked;
    hide InRange;
    hide CellWritten;
    RelFromSides(e', m', s, r);
    hide Rel;
    hide AreBytes;
    hide BaseOk;
  }

  lemma FlushRel(cells: seq<Cell>, m: Machine, m': Machine, s: Snap, sp: Reg, r: bool, i: nat)
    requires GoodCache(cells) && Flushed(cells, i) && i < |cells| && cells[i].needFlush && m.Shaped() && IsOp(sp)
    requires SideRel(cells, m, s, r) && CellWritten(m, m', At(m.regs, cells[i].reg), cells[i].isShort, r)
    requires Stacked(cells, Ring(m, r), Ptr(m, sp), m.regs, s.Stack(r), s.Origin(r), true)
    ensures SideRel(FlushedAt(cells, i), m', s, r) && InRange(FlushedAt(cells, i), m'.regs)
    ensures Stacked(FlushedAt(cells, i), Ring(m', r), Ptr(m', sp), m'.regs, s.Stack(r), s.Origin(r), true)
  {
    hide AreBytes;
    var p := Ptr(m, StackPtr(r));
    FlushSide(cells, Ring(m, r), p, m.regs, s.Stack(r), s.Origin(r), i);
    FlushView(cells, Ring(m, r), p, Ptr(m, sp), m.regs, s.Stack(r), s.Origin(r), i);
    hide Stacked;
    hide Written;
    var cells' := FlushedAt(cells, i);
    assert forall j :: 0 <= j < |cells'| ==> cells'[j].reg == cells[j].reg && cells'[j].isShort == cells[j].isShort;
    StackedFrame(cells', Ring(m', r), Ptr(m', StackPtr(r)), m.regs, m'.regs, s.Stack(r), s.Origin(r), false);
    StackedFrame(cells', Ring(m', r), Ptr(m', sp), m.regs, m'.regs, s.Stack(r), s.Origin(r), true);
  }

  lemma {:induction false} FlushGood(e: Emitter, r: bool, from: nat, m0: Machine, s: Snap, held: multiset<Reg>)
    requires Good(e, m0, s, held) && Flushed(e.Cache(r), from)
    requires IsOp(e.SpReg(r)) && Viewing(e, Run(e, m0), r, s.Stack(r), s.Origin(r))
    ensures var e' := e.Flush(r, from);
      && Good(e', m0, s, held) && Viewing(e', Run(e', m0), r, s.Stack(r), s.Origin(r))
      && SameFrame(e, e') && e'.Cache(!r) == e.Cache(!r) && AllMarked(e'.Cache(r), false)
      && (forall x: Reg :: Unused(e.Cache(r), x) ==> Unused(e'.Cache(r), x))
    decreases |e.Cache(r)| - from
  {
    hide Exec;
    hide Good;
    hide Viewing;
    hide Emitter.DoPush;
    var cells := e.Cache(r);
    if from < |cells| {
      if !cells[from].needFlush {
        FlushGood(e, r, from + 1, m0, s, held);
      } else {
        DoPushBooks(e, cells[from], r);
        FlushStepGood(e, r, from, m0, s, held);
        FlushGood(e.DoPush(cells[from], r).WithCache(r, FlushedAt(cells, from)), r, from + 1, m0, s, held);
      }
    }
  }

  // ---- keep mode ----

  /** Fewer cells: what held of all of them still does. */
  ghost predicate Thinner(e: Emitter, e': Emitter, x: Reg) {
    && (Unused(e.wcache, x) ==> Unused(e'.wcache, x)) && (Unused(e.rcache, x) ==> Unused(e'.rcache, x))
    && (AllMarked(e.wcache, true) ==> AllMarked(e'.wcache, true))
    && (AllMarked(e.rcache, true) ==> AllMarked(e'.rcache, true))
  }

  lemma SpillKeeps(e: Emitter, side: bool, x: Reg)
    requires e.Cache(side) != []
    ensures Thinner(e, e.Spill(side), x)
  {
    hide Emitter.DoPush;
    DoPushBooks(e, e.Cache(side)[0], side);
    assert e.Spill(side).Cache(side) == e.Cache(side)[1..] && e.Spill(side).Cache(!side) == e.Cache(!side);
    hide Emitter.Spill;
  }

  lemma {:induction false} AllocKeeps(e: Emitter, x: Reg)
    ensures Thinner(e, e.Alloc().0, x)
    decreases e.Cached()
  {
    hide Emitter.Spill;
    hide Unused;
    hide AllMarked;
    if FindFree(e.refs, 0) == 0 && e.Cached() > 0 {
      var first := Uxn.FlagR(e.opcode);
      var side := if e.Cache(first) != [] then first else !first;
      SpillKeeps(e, side, x);
      AllocKeeps(e.Spill(side), x);
    }
  }

  /** Two registers that nothing else uses. */
  lemma TwoAllocsGood(e: Emitter, m0: Machine, s: Snap)
    requires Good(e, m0, s, multiset{}) && s.vals == map[]
    requires AllMarked(e.wcache, true) && AllMarked(e.rcache, true)
    ensures var (e1, w) := e.Alloc(); var (e2, r) := e1.Alloc(); var held := multiset{} + multiset{w} + multiset{r};
      && Good(e2, m0, s, held) && IsOp(w) && IsOp(r) && w != r && |held| == 2 && SameFrame(e, e2)
      && Unused(e2.wcache, w) && Unused(e2.rcache, w) && Unused(e2.wcache, r) && Unused(e2.rcache, r)
      && AllMarked(e2.wcache, true) && AllMarked(e2.rcache, true)
  {
    hide Exec;
    hide Rel;
    hide Emitter.Alloc;
    AllocGood(e, m0, s, multiset{});
    var (e1, w) := e.Alloc();
    SoleHolder(e1, multiset{} + multiset{w}, w);
    AllocGood(e1, m0, s, multiset{} + multiset{w});
    var (e2, r) := e1.Alloc();
    SoleHolder(e2, multiset{} + multiset{w} + multiset{r}, r);
    hide Inv;
    AllocKeeps(e, w);
    AllocKeeps(e1, w);
    assert (multiset{} + multiset{w} + multiset{r})[r] == 1;
  }

  lemma CopyRuns(e: Emitter, w: Reg, r: Reg, m0: Machine)
    requires Calm(Run(e, m0)) && IsOp(w) && IsOp(r) && w != r
    ensures var m := Run(e, m0);
      var e' := e.Emit(Op1(MOV_U8, R(w), R(WSP))).Emit(Op1(MOV_U8, R(r), R(RSP)));
      Run(e', m0) == m.(regs := m.regs[w := m.regs[WSP] % 256][r := m.regs[RSP] % 256])
  {
    hide Exec;
    hide Step;
    hide AreBytes;
    var m := Run(e, m0);
    StepMov(MOV_U8, w, WSP, m);
    StepMov(MOV_U8, r, RSP, Step(Op1(MOV_U8, R(w), R(WSP)), m));
  }

  /** The view right after the stack pointers have been copied. */
  lemma CopyView(e: Emitter, e': Emitter, m: Machine, m': Machine, s: Snap, w: Reg, r: Reg, cur: bool)
    requires Rel(e, m, s) && s.vals == map[] && IsOp(w) && IsOp(r) && w != r
    requires m' == m.(regs := m.regs[w := m.regs[WSP] % 256][r := m.regs[RSP] % 256])
    requires Unused(e.wcache, w) && Unused(e.rcache, w) && Unused(e.wcache, r) && Unused(e.rcache, r)
    requires GoodCache(e.wcache) && GoodCache(e.rcache) && AllMarked(e.Cache(cur), true)
    requires e'.wcache == e.wcache && e'.rcache == e.rcache && e'.memBase == e.memBase
    requires e'.wspReg == w && e'.rspReg == r
    ensures Rel(e', m', s) && Viewing(e', m', cur, s.Stack(cur), s.Origin(cur))
  {
    hide AreBytes;
    hide Stacked;
    BaseFrame(e, e', m, m', {w, r});
    RelFrame(e, m, e', m', s, {w, r});
    hide BaseOk;
    hide Unused;
    hide InRange;
    SeesAll(e.Cache(cur), Ring(m', cur), Ptr(m', StackPtr(cur)), m'.regs, s.Stack(cur), s.Origin(cur));
    assert Ptr(m', e'.SpReg(cur)) == Ptr(m', StackPtr(cur));
  }

  lemma SeesAll(cells: seq<Cell>, ring: seq<nat>, p: nat, regs: seq<nat>, st: Uxn.Bytes, origin: nat)
    requires Stacked(cells, ring, p, regs, st, origin, false) && AllMarked(cells, true)
    ensures Stacked(cells, ring, p, regs, st, origin, true)
  {
    DecodedUnflushed(cells, regs);
    hide Decoded;
    hide Live;
    hide Bottom;
  }

  lemma EnterKeepGood(e: Emitter, m0: Machine, s: Snap) returns (held: multiset<Reg>)
    requires Good(e, m0, s, multiset{}) && s.vals == map[]
    requires AllMarked(e.wcache, true) && AllMarked(e.rcache, true)
    ensures var e' := e.EnterKeep(); var r := Uxn.FlagR(e.opcode);
      |held| == 2 && e'.opcode == e.opcode && InPops(e', m0, s, held, r, true, s.Stack(r))
  {
    hide Exec;
    hide Emitter.Alloc;
    TwoAllocsGood(e, m0, s);
    var (e1, w) := e.Alloc();
    var (e2, r) := e1.Alloc();
    held := multiset{} + multiset{w} + multiset{r};
    var cur := Uxn.FlagR(e.opcode);
    CopyRuns(e2, w, r, m0);
    var e3 := e2.Emit(Op1(MOV_U8, R(w), R(WSP))).Emit(Op1(MOV_U8, R(r), R(RSP))).(wspReg := w, rspReg := r);
    PointersInv(e2, e3, held);
    assert GoodCache(e2.wcache) && GoodCache(e2.rcache);
    hide Inv;
    CopyView(e2, e3, Run(e2, m0), Run(e3, m0), s, w, r, cur);
    hide Rel;
    hide Viewing;
    hide Unused;
    hide Emitter.Flush;
    FlushGood(e3, cur, 0, m0, s, held);
    UsesUnused(e3.Cache(!cur), e3.SpReg(cur));
    hide AllMarked;
    assert held[e3.SpReg(cur)] > 0;
  }

  /** At the start of an opcode all pending writes are kept, and the pops it is about to make
      see the whole current stack. */
  lemma BeginGood(e: Emitter, op: nat, m0: Machine, s: Snap, held: multiset<Reg>) returns (held': multiset<Reg>)
    requires Good(e, m0, s, held)
    ensures var r := Uxn.FlagR(op); var s' := s.(vals := map[]);
      && |held'| <= 2 && e.Begin(op).opcode == op
      && InPops(e.Begin(op), m0, s', held', r, Uxn.FlagK(op), s.Stack(r))
  {
    hide Exec;
    hide Emitter.EnterKeep;
    hide Emitter.RetainCache;
    RebuiltGood(e, op, m0, s, held);
    var e1 := Rebuilt(e, op);
    var s' := s.(vals := map[]);
    if Uxn.FlagK(op) {
      held' := EnterKeepGood(e1, m0, s');
    } else {
      held' := multiset{};
      PointersInv(e1, e.Begin(op), held');
      hide Inv;
      hide SideRel;
    }
  }
}
