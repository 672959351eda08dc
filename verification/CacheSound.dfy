/** The stack caches refine the plain byte stacks: spilling, allocating, flushing and clearing
    leave the real stacks as they are, a push appends to one of them. */
module CacheSound {
  import opened Target
  import opened Emission
  import opened Allocator
  import opened Rings
  import opened CacheRuns
  import Devices
  import Uxn

  /** What the emitted code has to agree with: the values the opcode holds in registers, the
      two stacks, the memory, and where in its ring each stack starts. */
  datatype Snap = Snap(vals: map<Reg, nat>, w: Uxn.Bytes, r: Uxn.Bytes, ram: Uxn.Bytes, io: Devices.Io, wOrigin: nat, rOrigin: nat) {
    function Stack(side: bool): Uxn.Bytes {
      if side then r else w
    }

    function Origin(side: bool): nat {
      if side then rOrigin else wOrigin
    }

    function With(side: bool, st: Uxn.Bytes): Snap {
      if side then this.(r := st) else this.(w := st)
    }
  }

  /** One real stack: memory up to the pointer, then the cells still to be written. */
  ghost predicate SideRel(cells: seq<Cell>, m: Machine, s: Snap, r: bool) {
    && Stacked(cells, Ring(m, r), Ptr(m, StackPtr(r)), m.regs, s.Stack(r), s.Origin(r), false)
    && InRange(cells, m.regs)
  }

  ghost predicate Known(regs: seq<nat>, vals: map<Reg, nat>) {
    forall x :: x in vals ==> IsOp(x) && At(regs, x) == vals[x]
  }

  ghost predicate Rel(e: Emitter, m: Machine, s: Snap) {
    && Calm(m) && BaseOk(e, m) && m.ram == s.ram && m.io == s.io
    && SideRel(e.wcache, m, s, false) && SideRel(e.rcache, m, s, true)
    && Known(m.regs, s.vals)
  }

  /** The emitter is in order, and its code, started in "m0", has reached what "s" describes. */
  ghost predicate Good(e: Emitter, m0: Machine, s: Snap, held: multiset<Reg>) {
    && Inv(e, held) && Rel(e, Run(e, m0), s)
    && forall x :: x in s.vals ==> x in held
  }

  ghost predicate Unused(cells: seq<Cell>, x: Reg) {
    forall i :: 0 <= i < |cells| ==> cells[i].reg != x
  }

  // ---- frames ----

  lemma SideFrame(cells: seq<Cell>, m: Machine, m': Machine, s: Snap, r: bool)
    requires SideRel(cells, m, s, r) && Ring(m', r) == Ring(m, r)
    requires Ptr(m', StackPtr(r)) == Ptr(m, StackPtr(r))
    requires forall i :: 0 <= i < |cells| ==> At(m'.regs, cells[i].reg) == At(m.regs, cells[i].reg)
    ensures SideRel(cells, m', s, r)
  {
    hide Stacked;
    StackedFrame(cells, Ring(m, r), Ptr(m, StackPtr(r)), m.regs, m'.regs, s.Stack(r), s.Origin(r), false);
  }

  /** Registers that neither cache nor the held values mention may change freely. */
  lemma RelFrame(e: Emitter, m: Machine, e': Emitter, m': Machine, s: Snap, changed: set<Reg>)
    requires Rel(e, m, s) && OnlyRegs(m, m', changed) && BaseOk(e', m')
    requires e'.wcache == e.wcache && e'.rcache == e.rcache
    requires forall i :: 0 <= i < |e.wcache| ==> IsOp(e.wcache[i].reg)
    requires forall i :: 0 <= i < |e.rcache| ==> IsOp(e.rcache[i].reg)
    requires forall x :: x in changed ==> x <= TMP || (IsOp(x) && x !in s.vals && Unused(e.wcache, x) && Unused(e.rcache, x))
    ensures Rel(e', m', s)
  {
    hide Stacked;
    hide AreBytes;
    hide BaseOk;
    assert WSP !in changed && RSP !in changed;
    SideFrame(e.wcache, m, m', s, false);
    SideFrame(e.rcache, m, m', s, true);
  }

  lemma SetMemBaseGood(e: Emitter, base: nat, m0: Machine, s: Snap, held: multiset<Reg>)
    requires Good(e, m0, s, held) && IsBase(base)
    ensures Good(e.SetMemBase(base), m0, s, held)
  {
    hide Exec;
    hide Step;
    SetMemBaseRuns(e, base, m0);
    assert GoodCache(e.wcache) && GoodCache(e.rcache);
    RelFrame(e, Run(e, m0), e.SetMemBase(base), Run(e.SetMemBase(base), m0), s, {MEM_BASE});
    hide Rel;
    BooksInv(e, e.SetMemBase(base), held);
  }

  // ---- spilling ----

  /** One cell written out, the others and the other stack as before. */
  lemma WrittenOther(e: Emitter, m: Machine, m': Machine, s: Snap, v: nat, short: bool, r: bool)
    requires Rel(e, m, s) && CellWritten(m, m', v, short, r) && GoodCache(e.Cache(!r))
    ensures SideRel(e.Cache(!r), m', s, !r) && Known(m'.regs, s.vals) && m'.ram == s.ram && m'.io == s.io
  {
    hide Stacked;
    hide AreBytes;
    hide Written;
    hide BaseOk;
    SideFrame(e.Cache(!r), m, m', s, !r);
  }

  lemma WrittenSide(cells: seq<Cell>, m: Machine, m': Machine, s: Snap, r: bool)
    requires cells != [] && cells[0].needFlush && GoodCache(cells) && m.Shaped()
    requires SideRel(cells, m, s, r) && CellWritten(m, m', At(m.regs, cells[0].reg), cells[0].isShort, r)
    ensures SideRel(cells[1..], m', s, r)
  {
    hide AreBytes;
    var p := Ptr(m, StackPtr(r));
    StackedSpill(cells, Ring(m, r), p, m.regs, s.Stack(r), s.Origin(r));
    hide Stacked;
    hide Written;
    StackedFrame(cells[1..], Ring(m', r), Ptr(m', StackPtr(r)), m.regs, m'.regs, s.Stack(r), s.Origin(r), false);
  }

  lemma DropSide(cells: seq<Cell>, m: Machine, s: Snap, r: bool)
    requires cells != [] && !cells[0].needFlush && SideRel(cells, m, s, r)
    ensures SideRel(cells[1..], m, s, r)
  {
    StackedDropFlushed(cells, Ring(m, r), Ptr(m, StackPtr(r)), m.regs, s.Stack(r), s.Origin(r));
  }

  lemma SpillRel(e: Emitter, r: bool, m0: Machine, s: Snap)
    requires e.Cache(r) != [] && Rel(e, Run(e, m0), s) && GoodCache(e.Cache(r)) && GoodCache(e.Cache(!r))
    ensures Rel(e.Spill(r), Run(e.Spill(r), m0), s)
  {
    hide Exec;
    hide Step;
    hide Stacked;
    hide AreBytes;
    hide Emitter.DoPush;
    var cells := e.Cache(r);
    var m := Run(e, m0);
    var e1 := if cells[0].needFlush then e.DoPush(cells[0], r) else e;
    var m1 := Run(e1, m0);
    assert e.Spill(r).Cache(r) == cells[1..] && e.Spill(r).Cache(!r) == e.Cache(!r) by { DoPushBooks(e, cells[0], r); }
    assert Run(e.Spill(r), m0) == m1 && e.Spill(r).memBase == e1.memBase;
    hide Emitter.Spill;
    assert SideRel(cells, m, s, r);
    if cells[0].needFlush {
      DoPushRuns(e, cells[0], r, m0);
      hide BaseOk;
      WrittenSide(cells, m, m1, s, r);
      WrittenOther(e, m, m1, s, m.regs[cells[0].reg], cells[0].isShort, r);
    } else {
      hide BaseOk;
      DropSide(cells, m, s, r);
    }
  }

  lemma SpillGood(e: Emitter, r: bool, m0: Machine, s: Snap, held: multiset<Reg>)
    requires Good(e, m0, s, held)
    ensures Good(e.Spill(r), m0, s, held)
  {
    SpillInv(e, held, r);
    if e.Cache(r) != [] {
      assert GoodCache(e.Cache(r)) && GoodCache(e.Cache(!r));
      hide Inv;
      hide Rel;
      SpillRel(e, r, m0, s);
    }
  }

  lemma RetainRel(e: Emitter, reg: Reg, m0: Machine, s: Snap)
    requires Rel(e, Run(e, m0), s)
    ensures Rel(e.Retain(reg), Run(e.Retain(reg), m0), s) && Rel(e.Release(reg), Run(e.Release(reg), m0), s)
  {
    hide Exec;
    hide SideRel;
  }

  /** Whatever an allocation spills, the real stacks stay the same. */
  lemma {:induction false} AllocGood(e: Emitter, m0: Machine, s: Snap, held: multiset<Reg>)
    requires Good(e, m0, s, held) && |held| < NUM_OPS
    ensures var (e', reg) := e.Alloc();
      && Good(e', m0, s, held + multiset{reg}) && IsOp(reg) && e'.Count(reg) == 1 && SameFrame(e, e')
    decreases e.Cached()
  {
    AllocInv(e, held);
    hide Inv;
    hide Rel;
    FindFreeFinds(e.refs, 0);
    var reg := FindFree(e.refs, 0);
    if reg != 0 {
      RetainRel(e, reg, m0, s);
    } else if e.Cached() > 0 {
      var first := Uxn.FlagR(e.opcode);
      var side := if e.Cache(first) != [] then first else !first;
      SpillGood(e, side, m0, s, held);
      AllocGood(e.Spill(side), m0, s, held);
    }
  }

  lemma {:induction false} ClearGood(e: Emitter, r: bool, m0: Machine, s: Snap, held: multiset<Reg>)
    requires Good(e, m0, s, held)
    ensures Good(e.Clear(r), m0, s, held) && e.Clear(r).Cache(r) == [] && e.Clear(r).Cache(!r) == e.Cache(!r)
    decreases |e.Cache(r)|
  {
    hide Inv;
    hide Rel;
    hide Emitter.Spill;
    if e.Cache(r) != [] {
      SpillGood(e, r, m0, s, held);
      SpillInv(e, held, r);
      ClearGood(e.Spill(r), r, m0, s, held);
    }
  }

  lemma NothingCached(m: Machine, s: Snap, r: bool)
    requires SideRel([], m, s, r)
    ensures var st, p := s.Stack(r), Ptr(m, StackPtr(r));
      |Ring(m, r)| == 256 && |st| <= 256 && Live(Ring(m, r), p, |st|) == st && Bottom(p, |st|) == s.Origin(r)
  {
    assert Decoded([], m.regs, false) == [];
    hide Live;
    hide Bottom;
  }

  /** With both caches cleared, memory alone holds the real stacks. */
  lemma ClearBothGood(e: Emitter, m0: Machine, s: Snap, held: multiset<Reg>)
    requires Good(e, m0, s, held)
    ensures var m := Run(e.ClearBoth(), m0);
      && Good(e.ClearBoth(), m0, s, held)
      && |s.w| <= 256 && Live(m.ws, Ptr(m, WSP), |s.w|) == s.w && Bottom(Ptr(m, WSP), |s.w|) == s.wOrigin
      && |s.r| <= 256 && Live(m.rs, Ptr(m, RSP), |s.r|) == s.r && Bottom(Ptr(m, RSP), |s.r|) == s.rOrigin
  {
    hide Inv;
    hide Emitter.Clear;
    hide Exec;
    ClearGood(e, false, m0, s, held);
    ClearGood(e.Clear(false), true, m0, s, held);
    var m := Run(e.ClearBoth(), m0);
    assert SideRel([], m, s, false) && SideRel([], m, s, true);
    hide Rel;
    NothingCached(m, s, false);
    NothingCached(m, s, true);
    hide SideRel;
    hide Live;
    hide Bottom;
  }

  // ---- pushes ----

  lemma AppendSide(cells: seq<Cell>, m: Machine, s: Snap, r: bool, c: Cell)
    requires SideRel(cells, m, s, r) && c.needFlush
    requires At(m.regs, c.reg) < (if c.isShort then 0x1_0000 else 256)
    requires |s.Stack(r)| + (if c.isShort then 2 else 1) <= 256
    ensures SideRel(cells + [c], m, s.With(r, s.Stack(r) + Uxn.BytesOf(At(m.regs, c.reg), c.isShort)), r)
  {
    StackedPush(cells, c, Ring(m, r), Ptr(m, StackPtr(r)), m.regs, s.Stack(r), s.Origin(r));
    hide Stacked;
  }

  lemma RetainShape(e: Emitter, r: bool, cells: seq<Cell>, reg: Reg)
    ensures var e' := e.WithCache(r, cells).Retain(reg);
      e'.Cache(r) == cells && e'.Cache(!r) == e.Cache(!r) && e'.code == e.code && e'.memBase == e.memBase
  {
  }

  lemma AppendRel(e: Emitter, reg: Reg, short: bool, r: bool, m0: Machine, s: Snap)
    requires Rel(e, Run(e, m0), s)
    requires At(Run(e, m0).regs, reg) < (if short then 0x1_0000 else 256)
    requires |s.Stack(r)| + (if short then 2 else 1) <= 256
    ensures var e' := e.WithCache(r, e.Cache(r) + [Cell(reg, short, true)]).Retain(reg);
      && Rel(e', Run(e', m0), s.With(r, s.Stack(r) + Uxn.BytesOf(At(Run(e, m0).regs, reg), short)))
  {
    hide Exec;
    hide Stacked;
    hide InRange;
    hide AreBytes;
    hide Uxn.BytesOf;
    var m := Run(e, m0);
    var c := Cell(reg, short, true);
    var s' := s.With(r, s.Stack(r) + Uxn.BytesOf(At(m.regs, reg), short));
    AppendSide(e.Cache(r), m, s, r, c);
    assert SideRel(e.Cache(!r), m, s', !r);
    hide SideRel;
    RetainShape(e, r, e.Cache(r) + [c], reg);
    assert BaseOk(e.WithCache(r, e.Cache(r) + [c]).Retain(reg), m);
    hide BaseOk;
    hide Emitter.Retain;
    hide Emitter.WithCache;
  }

  /** A push extends the real stack by the bytes of the register, spill or no spill. */
  lemma PushGood(e: Emitter, reg: Reg, short: bool, r: bool, m0: Machine, s: Snap, held: multiset<Reg>)
    requires Good(e, m0, s, held) && reg in s.vals
    requires s.vals[reg] < (if short then 0x1_0000 else 256)
    requires |s.Stack(r)| + (if short then 2 else 1) <= 256
    ensures Good(e.Push(reg, short, r), m0, s.With(r, s.Stack(r) + Uxn.BytesOf(s.vals[reg], short)), held)
  {
    hide Exec;
    PushInv(e, held, reg, short, r);
    assert e.Count(reg) > 0 by { assert held[reg] > 0; }
    var e1 := if |e.Cache(r)| >= CACHE_SIZE then e.Spill(r) else e;
    SpillGood(e, r, m0, s, held);
    hide Inv;
    assert At(Run(e1, m0).regs, reg) == s.vals[reg];
    hide Rel;
    hide Emitter.Spill;
    AppendRel(e1, reg, short, r, m0, s);
  }
}
