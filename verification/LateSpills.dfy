/** Pops whose register allocation has to spill, exactly: when a value read back from memory is
    the right one, and when the split of a short leaves the right bytes behind. */
module LateSpills {
  import opened Words
  import opened Target
  import opened Emission
  import opened Allocator
  import opened Rings
  import opened CacheRuns
  import opened CacheSound
  import opened PopSound
  import opened Popping
  import opened Hazards
  import OpStart
  import Uxn

  predicate OnStack(base: nat) {
    base == WS_BASE || base == RS_BASE
  }

  // ---- what an allocation leaves alone ----

  lemma DoPushBase(e: Emitter, cell: Cell, r: bool)
    ensures e.DoPush(cell, r).memBase == StackBase(r)
  {
    hide Exec;
  }

  lemma SpillBase(e: Emitter, side: bool)
    requires e.Cache(side) != [] && AllMarked(e.Cache(side), true)
    ensures e.Spill(side).memBase == StackBase(side)
    ensures e.Spill(side).Cache(!side) == e.Cache(!side) && e.Spill(side).Cache(side) == e.Cache(side)[1..]
  {
    hide Exec;
    hide Emitter.DoPush;
    DoPushBooks(e, e.Cache(side)[0], side);
    DoPushBase(e, e.Cache(side)[0], side);
  }

  /** An allocation on behalf of a stack with an empty cache moves the memory base to the other
      stack exactly when no register is free. */
  lemma {:induction false} AllocBase(e: Emitter, r: bool)
    requires OnStack(e.memBase) && e.Cache(r) == [] && AllMarked(e.Cache(!r), true)
    ensures e.Alloc().0.Cache(r) == []
    ensures e.Alloc().0.memBase == if FindFree(e.refs, 0) != 0 || e.Cached() == 0 then e.memBase else StackBase(!r)
    decreases e.Cached()
  {
    if FindFree(e.refs, 0) == 0 && e.Cached() > 0 {
      SpillBase(e, !r);
      hide Emitter.Spill;
      AllocBase(e.Spill(!r), r);
    }
  }

  /** Everything pops from stack "r" depend on, besides the cells. */
  ghost predicate Untouched(m: Machine, m': Machine, r: bool) {
    && |m.regs| == |m'.regs| == NUM_REGS && Ring(m', r) == Ring(m, r)
    && m'.regs[StackPtr(r)] == m.regs[StackPtr(r)]
    && forall x: Reg :: IsOp(x) ==> m'.regs[x] == m.regs[x]
  }

  lemma SpillUntouched(e: Emitter, r: bool, side: bool, m0: Machine)
    requires Calm(Run(e, m0)) && BaseOk(e, Run(e, m0)) && e.Cache(side) != [] && IsOp(e.Cache(side)[0].reg)
    requires side == r ==> !e.Cache(side)[0].needFlush
    ensures Untouched(Run(e, m0), Run(e.Spill(side), m0), r)
    ensures e.Spill(side).Cache(!side) == e.Cache(!side) && e.Spill(side).Cache(side) == e.Cache(side)[1..]
  {
    hide Exec;
    hide AreBytes;
    hide Written;
    hide Emitter.DoPush;
    var cell := e.Cache(side)[0];
    DoPushBooks(e, cell, side);
    if cell.needFlush {
      DoPushRuns(e, cell, side, m0);
    }
  }

  /** The cells of a cache after the oldest "d" have gone. */
  ghost predicate Suffix(cells: seq<Cell>, cells': seq<Cell>) {
    |cells'| <= |cells| && cells' == cells[|cells| - |cells'|..]
  }

  lemma StillUntouched(a: Machine, b: Machine, c: Machine, r: bool)
    requires Untouched(a, b, r) && Untouched(b, c, r)
    ensures Untouched(a, c, r)
  {
  }

  lemma DropsMore(a: seq<Cell>, b: seq<Cell>, c: seq<Cell>)
    requires Suffix(a, b) && Suffix(b, c)
    ensures Suffix(a, c)
  {
    assert b[|b| - |c|..] == a[|a| - |c|..];
  }

  /** An allocation never disturbs a stack with no pending cells. */
  lemma {:induction false} AllocUntouched(e: Emitter, r: bool, m0: Machine, s: Snap, held: multiset<Reg>)
    requires Good(e, m0, s, held) && |held| < NUM_OPS && AllMarked(e.Cache(r), false)
    ensures Untouched(Run(e, m0), Run(e.Alloc().0, m0), r) && Suffix(e.Cache(r), e.Alloc().0.Cache(r))
    decreases e.Cached()
  {
    hide Exec;
    hide Emitter.Spill;
    hide Good;
    hide Untouched;
    hide Suffix;
    hide Uxn.FlagR;
    InOrder(e, m0, s, held);
    hide BaseOk;
    SameUntouched(Run(e, m0), r, e.Cache(r));
    var reg := FindFree(e.refs, 0);
    if reg == 0 && e.Cached() > 0 {
      var first := Uxn.FlagR(e.opcode);
      var side := if e.Cache(first) != [] then first else !first;
      var e1 := e.Spill(side);
      SpillGood(e, side, m0, s, held);
      SpillUntouched(e, r, side, m0);
      AllocUntouched(e1, r, m0, s, held);
      StillUntouched(Run(e, m0), Run(e1, m0), Run(e1.Alloc().0, m0), r);
      DroppedOne(e.Cache(r), e1.Cache(r));
      DropsMore(e.Cache(r), e1.Cache(r), e1.Alloc().0.Cache(r));
    }
  }

  lemma SameUntouched(m: Machine, r: bool, cells: seq<Cell>)
    requires |m.regs| == NUM_REGS
    ensures Untouched(m, m, r) && Suffix(cells, cells)
  {
  }

  lemma DroppedOne(cells: seq<Cell>, cells': seq<Cell>)
    requires cells' == cells || (cells != [] && cells' == cells[1..])
    ensures Suffix(cells, cells')
  {
  }

  lemma InOrder(e: Emitter, m0: Machine, s: Snap, held: multiset<Reg>)
    requires Good(e, m0, s, held)
    ensures Calm(Run(e, m0)) && BaseOk(e, Run(e, m0)) && |Run(e, m0).regs| == NUM_REGS
    ensures forall r: bool, i :: 0 <= i < |e.Cache(r)| ==> IsOp(e.Cache(r)[i].reg)
  {
    hide Exec;
    hide AreBytes;
    hide SideRel;
    assert GoodCache(e.wcache) && GoodCache(e.rcache);
  }

  // ---- values read back from memory ----

  lemma SetMemBaseFacts(e: Emitter, base: nat)
    ensures SameBooks(e, e.SetMemBase(base)) && e.SetMemBase(base).memBase == base
    ensures e.SetMemBase(base).opcode == e.opcode
  {
    hide Exec;
  }

  lemma SameButFlags(e: Emitter, e': Emitter, m0: Machine, s: Snap, held: multiset<Reg>)
    requires Good(e, m0, s, held) && e' == e.(lateSpill := e'.lateSpill)
    ensures Good(e', m0, s, held)
  {
    hide Exec;
    hide Inv;
    hide SideRel;
    BooksInv(e, e', held);
  }

  lemma NoneFree(e: Emitter, held: multiset<Reg>)
    requires Inv(e, held) && |held| < NUM_OPS && FindFree(e.refs, 0) == 0
    ensures e.Cached() > 0
  {
    if e.Cached() == 0 {
      SixHeld(e, held);
    }
  }

  lemma BaseSelects(m: Machine, base: nat, side: bool)
    requires |m.regs| == NUM_REGS && base == StackBase(side) && m.regs[MEM_BASE] == Address(m.regs[VM], base)
    ensures Selected(m) == if side then Rs else Ws
  {
    SelectedAt(m, base);
    hide Selected;
  }

  /** Both rings hold the same bytes below a position. */
  ghost predicate SameBelow(a: seq<nat>, b: seq<nat>, p: nat, short: bool)
    requires |a| == 256 && |b| == 256 && p < 256
  {
    a[Down(p)] == b[Down(p)] && (short ==> a[Down(Down(p))] == b[Down(Down(p))])
  }

  lemma WordParts(a: nat, b: nat, c: nat, d: nat)
    requires b < 256 && d < 256
    ensures a * 256 + b == c * 256 + d <==> a == c && b == d
  {
  }

  lemma ViewBelow(ring: seq<nat>, p: nat, regs: seq<nat>, short: bool, view: Uxn.Bytes, origin: nat)
    requires Stacked([], ring, p, regs, view, origin, true) && Uxn.PopValue(view, short).Some?
    ensures var (view', v) := Uxn.PopValue(view, short).value; var q := Down(p);
      && |ring| == 256 && p < 256 && Stacked([], ring, if short then Down(q) else q, regs, view', origin, true)
      && v == if short then ring[Down(q)] * 256 + ring[q] else ring[q]
  {
    var n := |view|;
    StackedFromMemory(ring, p, regs, view, origin, true);
    if short {
      StackedFromMemory(ring, Down(p), regs, view[..n - 1], origin, true);
      assert view[..n - 1][..n - 2] == view[..n - 2];
      hide Live;
      hide Decoded;
    }
  }

  /** The value read from ring "side" is that of ring "r" exactly when the bytes agree. */
  lemma ReadExact(m: Machine, m': Machine, sp: Reg, reg: Reg, short: bool, r: bool, side: bool, view: Uxn.Bytes, origin: nat)
    requires ReadFrom(m, m', sp, reg, short, side)
    requires Stacked([], Ring(m, r), Ptr(m, sp), m.regs, view, origin, true) && Uxn.PopValue(view, short).Some?
    ensures var (view', v) := Uxn.PopValue(view, short).value;
      && Stacked([], Ring(m', r), Ptr(m', sp), m'.regs, view', origin, true)
      && Ptr(m, sp) < 256 && |Ring(m, r)| == 256 && |Ring(m, side)| == 256
      && (At(m'.regs, reg) == v <==> SameBelow(Ring(m, side), Ring(m, r), Ptr(m, sp), short))
  {
    var p := Ptr(m, sp);
    var q := Down(p);
    ViewBelow(Ring(m, r), p, m.regs, short, view, origin);
    var (view', v) := Uxn.PopValue(view, short).value;
    StackedFrame([], Ring(m, r), if short then Down(q) else q, m.regs, m'.regs, view', origin, true);
    hide Stacked;
    assert Ring(m, side)[q] < 256 && Ring(m, r)[q] < 256;
    hide AreBytes;
    WordParts(Ring(m, side)[Down(q)], Ring(m, side)[q], Ring(m, r)[Down(q)], Ring(m, r)[q]);
  }

  /** A pop came out right: both real stacks are what they should be, what else the opcode holds
      is unchanged, the result has its value, and in keep mode the view has shrunk. */
  ghost predicate PoppedRight(e: Emitter, m: Machine, s: Snap, r: bool, k: bool, reg: Reg, v: nat, view: Uxn.Bytes) {
    && RealStacks(e, m, Rest(s, r, k, view)) && Known(m.regs, s.vals) && At(m.regs, reg) == v
    && (k ==> Stacked(e.Cache(r), Ring(m, r), Ptr(m, e.SpReg(r)), m.regs, view, s.Origin(r), true))
  }

  /** The pointer pops from stack "r" go through. */
  ghost predicate Pointing(e: Emitter, s: Snap, r: bool, k: bool) {
    if k then IsOp(e.SpReg(r)) && e.SpReg(r) !in s.vals && Unused(e.Cache(!r), e.SpReg(r)) else e.SpReg(r) == StackPtr(r)
  }

  lemma ReadKeeps(e1: Emitter, e': Emitter, m1: Machine, m': Machine, s: Snap, r: bool, k: bool, reg: Reg, short: bool, side: bool,
                  view': Uxn.Bytes)
    requires Rel(e1, m1, s) && ReadFrom(m1, m', e1.SpReg(r), reg, short, side) && Pointing(e1, s, r, k)
    requires e1.Cache(r) == [] && e'.wcache == e1.wcache && e'.rcache == e1.rcache && e'.SpReg(r) == e1.SpReg(r)
    requires IsOp(reg) && Unused(e1.Cache(!r), reg) && reg !in s.vals && GoodCache(e1.Cache(!r))
    requires Stacked([], Ring(m', r), Ptr(m', e1.SpReg(r)), m'.regs, view', s.Origin(r), true)
    ensures RealStacks(e', m', Rest(s, r, k, view')) && Known(m'.regs, s.vals)
    ensures k ==> Stacked(e'.Cache(r), Ring(m', r), Ptr(m', e'.SpReg(r)), m'.regs, view', s.Origin(r), true)
  {
    hide AreBytes;
    hide BaseOk;
    hide Stacked;
    hide InRange;
    assert SideRel(e1.Cache(r), m1, s, r) && SideRel(e1.Cache(!r), m1, s, !r) by { hide SideRel; }
    NothingMarked(Ring(m', r), Ptr(m', e1.SpReg(r)), m'.regs, view', s.Origin(r));
    SideFrame(e1.Cache(!r), m1, m', s, !r);
    if k { SideFrame(e1.Cache(r), m1, m', s, r); }
    SidesReal(e', m', Rest(s, r, k, view'), r);
    hide RealStacks;
  }

  lemma NothingMarked(ring: seq<nat>, p: nat, regs: seq<nat>, st: Uxn.Bytes, origin: nat)
    ensures Stacked([], ring, p, regs, st, origin, true) <==> Stacked([], ring, p, regs, st, origin, false)
  {
    assert Decoded([], regs, true) == Decoded([], regs, false);
    hide Decoded;
    hide Live;
    hide Bottom;
  }

  /** What the allocation before a read leaves: the books, the base, and the view in memory. */
  ghost predicate MayRead(e1: Emitter, m1: Machine, s: Snap, held: multiset<Reg>, r: bool, k: bool, reg: Reg, base: nat, view: Uxn.Bytes) {
    && Calm(m1) && BaseOk(e1, m1) && Rel(e1, m1, s) && Pointing(e1, s, r, k)
    && e1.Cache(r) == [] && e1.memBase == base && GoodCache(e1.Cache(!r))
    && IsOp(reg) && reg != e1.SpReg(r) && Unused(e1.Cache(!r), reg) && reg !in s.vals
    && Stacked([], Ring(m1, r), Ptr(m1, e1.SpReg(r)), m1.regs, view, s.Origin(r), true)
  }

  lemma AllocForRead(e: Emitter, r: bool, m0: Machine, s: Snap, held: multiset<Reg>, sp: Reg)
    requires Good(e, m0, s, held) && |held| < NUM_OPS && e.Cache(r) == [] && AllMarked(e.Cache(!r), true)
    ensures var (e1, reg) := e.SetMemBase(StackBase(r)).AllocInPop();
      && Good(e1, m0, s, held + multiset{reg}) && SameFrame(e, e1) && e1.Cache(r) == [] && IsOp(reg)
      && e1.memBase == StackBase(if FindFree(e.refs, 0) != 0 then r else !r)
      && Untouched(Run(e, m0), Run(e1, m0), r)
      && (Unused(e.Cache(!r), sp) ==> Unused(e1.Cache(!r), sp))
      && (held + multiset{reg})[reg] == 1 && Unused(e1.Cache(!r), reg)
  {
    hide Exec;
    hide Good;
    hide Inv;
    hide BaseOk;
    hide Calm;
    hide Emitter.Alloc;
    hide Emitter.SetMemBase;
    hide Untouched;
    var e0 := e.SetMemBase(StackBase(r));
    InOrder(e, m0, s, held);
    SetMemBaseGood(e, StackBase(r), m0, s, held);
    SetMemBaseFacts(e, StackBase(r));
    assert FindFree(e.refs, 0) != 0 || e.Cached() > 0 by { if FindFree(e.refs, 0) == 0 { GoodBooks(e, m0, s, held); NoneFree(e, held); } }
    AllocGood(e0, m0, s, held);
    AllocBase(e0, r);
    AllocUntouched(e0, r, m0, s, held);
    BaseUntouched(e, StackBase(r), r, m0);
    OpStart.AllocKeeps(e0, sp);
    var (e1, reg) := e0.AllocInPop();
    var held1 := held + multiset{reg};
    SameButFlags(e0.Alloc().0, e1, m0, s, held1);
    GoodBooks(e1, m0, s, held1);
    SoleHolder(e1, held1, reg);
    StillUntouched(Run(e, m0), Run(e0, m0), Run(e1, m0), r);
  }

  /** An allocation for a read from memory, with the base set: the base stays where it was set
      exactly when a register is free. */
  lemma ReadyToRead(e: Emitter, r: bool, k: bool, m0: Machine, s: Snap, held: multiset<Reg>, view: Uxn.Bytes)
    requires InPops(e, m0, s, held, r, k, view) && |held| < NUM_OPS && e.Cache(r) == [] && AllMarked(e.Cache(!r), true)
    ensures var (e1, reg) := e.SetMemBase(StackBase(r)).AllocInPop();
      && MayRead(e1, Run(e1, m0), s, held + multiset{reg}, r, k, reg,
           StackBase(if FindFree(e.refs, 0) != 0 then r else !r), view)
      && Good(e1, m0, s, held + multiset{reg}) && e1.SpReg(r) == e.SpReg(r)
  {
    hide Exec;
    hide Good;
    hide ViewMode;
    hide Stacked;
    hide Untouched;
    hide Unused;
    hide Emitter.SetMemBase;
    hide Emitter.AllocInPop;
    var sp := e.SpReg(r);
    ViewHere(e, m0, s, held, r, k, view);
    AllocForRead(e, r, m0, s, held, sp);
    var (e1, reg) := e.SetMemBase(StackBase(r)).AllocInPop();
    var held1 := held + multiset{reg};
    SameView(Run(e, m0), Run(e1, m0), r, sp, view, s.Origin(r));
    InOrder(e1, m0, s, held1);
    GoodBooks(e1, m0, s, held1);
    GoodBooks(e, m0, s, held);
    hide Inv;
    hide Calm;
    hide BaseOk;
    hide Rel;
    hide GoodCache;
  }

  lemma BaseUntouched(e: Emitter, base: nat, r: bool, m0: Machine)
    requires Calm(Run(e, m0)) && BaseOk(e, Run(e, m0)) && IsBase(base)
    ensures Untouched(Run(e, m0), Run(e.SetMemBase(base), m0), r)
  {
    hide AreBytes;
    hide Exec;
    hide Step;
    hide Address;
    hide Emitter.SetMemBase;
    SetMemBaseRuns(e, base, m0);
    hide Selected;
  }

  lemma SameView(m: Machine, m': Machine, r: bool, sp: Reg, view: Uxn.Bytes, origin: nat)
    requires Untouched(m, m', r) && (IsOp(sp) || sp == StackPtr(r))
    requires Stacked([], Ring(m, r), Ptr(m, sp), m.regs, view, origin, true)
    ensures Stacked([], Ring(m', r), Ptr(m', sp), m'.regs, view, origin, true)
  {
    assert Decoded([], m.regs, true) == Decoded([], m'.regs, true);
    hide Live;
    hide Bottom;
    hide Decoded;
  }

  /** With nothing cached, the view is memory below the pointer. */
  lemma ViewHere(e: Emitter, m0: Machine, s: Snap, held: multiset<Reg>, r: bool, k: bool, view: Uxn.Bytes)
    requires InPops(e, m0, s, held, r, k, view) && e.Cache(r) == []
    ensures var m := Run(e, m0);
      && Stacked([], Ring(m, r), Ptr(m, e.SpReg(r)), m.regs, view, s.Origin(r), true)
      && Pointing(e, s, r, k) && (held[e.SpReg(r)] > 0 || e.SpReg(r) == StackPtr(r))
  {
    hide Exec;
    hide Stacked;
    hide Inv;
    hide AreBytes;
    var m := Run(e, m0);
    assert SideRel(e.Cache(r), m, s, r);
    hide Rel;
    NothingMarked(Ring(m, r), Ptr(m, e.SpReg(r)), m.regs, view, s.Origin(r));
    UsesUnused(e.Cache(!r), e.SpReg(r));
  }

  lemma GoodBooks(e: Emitter, m0: Machine, s: Snap, held: multiset<Reg>)
    requires Good(e, m0, s, held)
    ensures Inv(e, held) && GoodCache(e.wcache) && GoodCache(e.rcache) && Rel(e, Run(e, m0), s)
    ensures forall x :: x in s.vals ==> x in held
  {
  }

  /** A byte or short popped from memory, in keep mode or not, comes out right exactly when a
      register is free, or both rings hold the same bytes at that place: without a free register
      a cell of the other stack is written out after the memory base was set. */
  lemma FromMemExact(e: Emitter, short: bool, r: bool, k: bool, m0: Machine, s: Snap, held: multiset<Reg>, view: Uxn.Bytes)
    requires InPops(e, m0, s, held, r, k, view) && |held| < NUM_OPS && e.Cache(r) == [] && AllMarked(e.Cache(!r), true)
    requires Uxn.PopValue(view, short).Some?
    ensures var (e', reg) := e.PopFromMem(short, r);
      var m1 := Run(e.SetMemBase(StackBase(r)).AllocInPop().0, m0);
      var (view', v) := Uxn.PopValue(view, short).value;
      && |Ring(m1, r)| == |Ring(m1, !r)| == 256 && Ptr(m1, e.SpReg(r)) < 256
      && (PoppedRight(e', Run(e', m0), s, r, k, reg, v, view') <==>
           FindFree(e.refs, 0) != 0 || SameBelow(Ring(m1, !r), Ring(m1, r), Ptr(m1, e.SpReg(r)), short))
  {
    hide Exec;
    hide Good;
    hide InPops;
    hide Stacked;
    hide RealStacks;
    hide Known;
    hide Unused;
    hide GoodCache;
    hide Inv;
    hide AreBytes;
    hide Emitter.SetMemBase;
    hide Emitter.AllocInPop;
    hide Emitter.ReadBack;
    var (e1, reg) := e.SetMemBase(StackBase(r)).AllocInPop();
    var side := if FindFree(e.refs, 0) != 0 then r else !r;
    ReadyToRead(e, r, k, m0, s, held, view);
    var m1 := Run(e1, m0);
    var e' := e1.ReadBack(reg, short, r);
    var m' := Run(e', m0);
    assert |Ring(m1, !r)| == 256;
    BaseSelects(m1, e1.memBase, side);
    FromMemRuns(e1, reg, short, r, side, m0);
    ReadBackBooks(e1, reg, short, r);
    hide Calm;
    hide BaseOk;
    hide Rel;
    hide ReadFrom;
    ReadExact(m1, m', e1.SpReg(r), reg, short, r, side, view, s.Origin(r));
    var (view', v) := Uxn.PopValue(view, short).value;
    ReadKeeps(e1, e', m1, m', s, r, k, reg, short, side, view');
  }

  // ---- the split of a short ----

  /** The machine after a split: the low byte in "reg", the high byte left in "top". */
  function Halved(m: Machine, reg: Reg, top: Reg): Machine
    requires reg < |m.regs| && top < |m.regs|
  {
    m.(regs := m.regs[reg := m.regs[top] % 256][top := m.regs[top] / 256])
  }

  /** Nothing but the popped operand can tell that "top" holds only its high byte now. */
  ghost predicate Unseen(below: seq<Cell>, other: seq<Cell>, s: Snap, top: Reg, v: nat, all: bool) {
    && Invisible(below, top, v, v / 256, all) && Invisible(other, top, v, v / 256, false)
    && (top in s.vals ==> v / 256 == v)
  }

  lemma {:induction false} DecodedUnused(cells: seq<Cell>, regs: seq<nat>, x: Reg, v: nat, all: bool)
    requires Unused(cells, x) && x < |regs|
    ensures Decoded(cells, regs[x := v], all) == Decoded(cells, regs, all)
  {
    DecodedFrame(cells, regs, regs[x := v], all);
  }

  lemma HalvedBytes(st: Uxn.Bytes, live: Uxn.Bytes, low: Uxn.Bytes, low': Uxn.Bytes, hi: nat, lo: nat)
    requires st == live + (low + [hi, lo]) && |low'| == |low|
    ensures st[|st| - 1] == lo && (st[..|st| - 1] == live + (low' + [hi]) <==> low' == low)
  {
    var front := live + (low + [hi]);
    assert st == front + [lo];
    assert st[..|st| - 1] == front;
    SameParts(low, [hi], low', [hi]);
    SameParts(live, low + [hi], live, low' + [hi]);
  }

  /** The cells below the top one and the high byte of the short on top: exactly what is left of
      the stack, if and only if the cells below cannot tell. */
  lemma HalvedStack(cells: seq<Cell>, ring: seq<nat>, p: nat, regs: seq<nat>, st: Uxn.Bytes, origin: nat, reg: Reg, all: bool)
    requires cells != [] && Stacked(cells, ring, p, regs, st, origin, all) && InRange(cells, regs)
    requires var n := |cells| - 1; var top := cells[n].reg;
      && cells[n].isShort && (all || cells[n].needFlush)
      && reg < |regs| && top < |regs| && reg != top && Unused(cells, reg)
    ensures var n := |cells| - 1; var top := cells[n].reg; var v := regs[top];
      var halved := Stacked(cells[n := cells[n].(isShort := false)], ring, p, regs[reg := v % 256][top := v / 256],
        st[..|st| - 1], origin, all);
      && |st| >= 2 && st[|st| - 1] == v % 256 && (halved <==> Invisible(cells[..n], top, v, v / 256, all))
  {
    hide Decoded;
    hide Live;
    hide Bottom;
    hide Invisible;
    hide Unused;
    hide Stacked;
    var n := |cells| - 1;
    var top := cells[n].reg;
    var v := regs[top];
    var regs1 := regs[reg := v % 256];
    var regs' := regs1[top := v / 256];
    var cells' := cells[n := cells[n].(isShort := false)];
    assert At(regs, top) == v < 0x1_0000 && At(regs', top) == v / 256 < 256;
    hide InRange;
    assert Unused(cells[..n], reg) by { UnusedPart(cells, reg); }
    DecodedUnused(cells[..n], regs, reg, v % 256, all);
    DecodedExact(cells[..n], regs1, top, v / 256, all);
    DecodedLength(cells[..n], regs1, regs', all);
    assert cells'[..n] == cells[..n];
    DecodedTop(cells, regs, all);
    DecodedTop(cells', regs', all);
    HalvedSides(cells, cells', ring, p, regs, regs', st, origin, all, Decoded(cells[..n], regs, all), Decoded(cells[..n], regs', all), v / 256, v % 256);
  }

  lemma UnusedPart(cells: seq<Cell>, x: Reg)
    requires cells != [] && Unused(cells, x)
    ensures Unused(cells[..|cells| - 1], x)
  {
  }

  lemma DecodedTop(cells: seq<Cell>, regs: seq<nat>, all: bool)
    requires cells != [] && (all || cells[|cells| - 1].needFlush)
    ensures var n := |cells| - 1;
      Decoded(cells, regs, all) == Decoded(cells[..n], regs, all) + Uxn.BytesOf(At(regs, cells[n].reg), cells[n].isShort)
  {
  }

  lemma HalvedSides(cells: seq<Cell>, cells': seq<Cell>, ring: seq<nat>, p: nat, regs: seq<nat>, regs': seq<nat>, st: Uxn.Bytes,
                    origin: nat, all: bool, low: Uxn.Bytes, low': Uxn.Bytes, hi: nat, lo: nat)
    requires Stacked(cells, ring, p, regs, st, origin, all) && |low'| == |low|
    requires Decoded(cells, regs, all) == low + [hi, lo] && Decoded(cells', regs', all) == low' + [hi]
    ensures |st| >= 2 && st[|st| - 1] == lo
    ensures Stacked(cells', ring, p, regs', st[..|st| - 1], origin, all) <==> low' == low
  {
    hide Decoded;
    hide Live;
    hide Bottom;
    HalvedBytes(st, Live(ring, p, |st| - |low| - 2), low, low', hi, lo);
  }

  /** The other stack after a split. */
  lemma OtherHalved(cells: seq<Cell>, ring: seq<nat>, p: nat, regs: seq<nat>, st: Uxn.Bytes, origin: nat, reg: Reg, top: Reg)
    requires Stacked(cells, ring, p, regs, st, origin, false) && Unused(cells, reg) && reg < |regs| && top < |regs| && reg != top
    ensures Stacked(cells, ring, p, regs[reg := regs[top] % 256][top := regs[top] / 256], st, origin, false)
      <==> Invisible(cells, top, regs[top], regs[top] / 256, false)
  {
    var regs1 := regs[reg := regs[top] % 256];
    hide Stacked;
    hide Invisible;
    StackedFrame(cells, ring, p, regs, regs1, st, origin, false);
    StackedExact(cells, ring, p, regs1, st, origin, top, regs[top] / 256, false);
  }

  lemma KnownHalved(regs: seq<nat>, vals: map<Reg, nat>, reg: Reg, top: Reg)
    requires Known(regs, vals) && reg !in vals && reg < |regs| && top < |regs| && reg != top
    ensures Known(regs[reg := regs[top] % 256][top := regs[top] / 256], vals) <==> (top in vals ==> regs[top] / 256 == regs[top])
  {
    var regs' := regs[reg := regs[top] % 256][top := regs[top] / 256];
    if top in vals && regs[top] / 256 != regs[top] {
      assert At(regs', top) != vals[top];
    }
  }

  /** What an allocation on behalf of a pop gives, whatever it spills. */
  lemma AllocForPop(e: Emitter, r: bool, m0: Machine, s: Snap, held: multiset<Reg>)
    requires Good(e, m0, s, held) && |held| < NUM_OPS
    ensures var (e1, reg) := e.AllocInPop();
      && Good(e1, m0, s, held + multiset{reg}) && SameFrame(e, e1) && IsOp(reg) && e1.Count(reg) == 1
      && reg !in s.vals && Unused(e1.wcache, reg) && Unused(e1.rcache, reg) && held[reg] == 0
      && (AllMarked(e.Cache(r), true) ==> AllMarked(e1.Cache(r), true))
      && (AllMarked(e.Cache(!r), true) ==> AllMarked(e1.Cache(!r), true))
      && (AllMarked(e.Cache(r), false) ==>
            Untouched(Run(e, m0), Run(e1, m0), r) && Suffix(e.Cache(r), e1.Cache(r)))
  {
    hide Exec;
    hide Good;
    hide Emitter.Alloc;
    hide Untouched;
    hide Suffix;
    AllocGood(e, m0, s, held);
    OpStart.AllocKeeps(e, 0);
    if AllMarked(e.Cache(r), false) {
      AllocUntouched(e, r, m0, s, held);
    }
    hide AllMarked;
    var (e1, reg) := e.AllocInPop();
    SameButFlags(e.Alloc().0, e1, m0, s, held + multiset{reg});
    GoodBooks(e, m0, s, held);
    GoodBooks(e1, m0, s, held + multiset{reg});
    SoleHolder(e1, held + multiset{reg}, reg);
    hide Inv;
  }

  /** The stack pops see, after such an allocation that has left the cells of the stack alone. */
  lemma StillThere(e: Emitter, e1: Emitter, r: bool, k: bool, m0: Machine, s: Snap, held: multiset<Reg>, held1: multiset<Reg>, view: Uxn.Bytes)
    requires InPops(e, m0, s, held, r, k, view) && Good(e1, m0, s, held1) && SameFrame(e, e1) && e1.Cache(r) == e.Cache(r)
    requires AllMarked(e.Cache(r), false) ==> Untouched(Run(e, m0), Run(e1, m0), r)
    ensures var m1 := Run(e1, m0);
      && Stacked(e1.Cache(r), Ring(m1, r), Ptr(m1, e1.SpReg(r)), m1.regs, view, s.Origin(r), k) && InRange(e1.Cache(r), m1.regs)
  {
    hide Exec;
    hide Inv;
    hide Stacked;
    hide AreBytes;
    var m, m1, cells := Run(e, m0), Run(e1, m0), e.Cache(r);
    assert SideRel(e1.Cache(r), m1, s, r);
    hide Rel;
    if k {
      assert GoodCache(cells) by { GoodBooks(e, m0, s, held); }
      assert forall i :: 0 <= i < |cells| ==> At(m1.regs, cells[i].reg) == At(m.regs, cells[i].reg);
      StackedFrame(cells, Ring(m, r), Ptr(m, e.SpReg(r)), m.regs, m1.regs, view, s.Origin(r), true);
    }
  }

  /** The machine after the split itself, however the allocation before it went. */
  lemma SplitHalves(e: Emitter, e1: Emitter, reg: Reg, top: Reg, r: bool, m0: Machine, s: Snap, held1: multiset<Reg>)
    requires e.Cache(r) != [] && (e1, reg) == e.AllocInPop() && top == TopReg(e.Cache(r))
    requires e1.Cache(r) != [] && Good(e1, m0, s, held1) && IsOp(reg) && IsOp(top) && reg != top
    ensures |Run(e1, m0).regs| == NUM_REGS && e.Split(r).1 == reg && Run(e.Split(r).0, m0) == Halved(Run(e1, m0), reg, top)
    ensures var n, e' := |e.Cache(r)| - 1, e.Split(r).0;
      && e'.Cache(!r) == e1.Cache(!r) && SameFrame(e1, e')
      && e'.Cache(r) == (if |e1.Cache(r)| == n + 1 then e1.Cache(r)[n := e1.Cache(r)[n].(isShort := false)] else e1.Cache(r))
  {
    hide Exec;
    hide Step;
    hide Good;
    hide Emitter.AllocInPop;
    hide Emitter.PopFromMem;
    InOrder(e1, m0, s, held1);
    hide BaseOk;
    SplitRuns(e1.Own(top), reg, top, m0);
  }

  lemma UnusedTop(cells: seq<Cell>, x: Reg)
    requires cells != [] && Unused(cells, x)
    ensures cells[|cells| - 1].reg != x
  {
  }

  lemma MarkedTop(e: Emitter, m0: Machine, s: Snap, held: multiset<Reg>, r: bool, k: bool, view: Uxn.Bytes)
    requires InPops(e, m0, s, held, r, k, view) && e.Cache(r) != []
    ensures k || e.Cache(r)[|e.Cache(r)| - 1].needFlush
    ensures k ==> AllMarked(e.Cache(r), false)
    ensures !k ==> view == s.Stack(r) && e.SpReg(r) == StackPtr(r) && AllMarked(e.Cache(r), true)
  {
    hide Good;
    hide Viewing;
  }

  lemma GoodSides(e: Emitter, m0: Machine, s: Snap, held: multiset<Reg>, r: bool)
    requires Good(e, m0, s, held)
    ensures var m := Run(e, m0);
      && Stacked(e.Cache(r), Ring(m, r), Ptr(m, StackPtr(r)), m.regs, s.Stack(r), s.Origin(r), false)
      && Stacked(e.Cache(!r), Ring(m, !r), Ptr(m, StackPtr(!r)), m.regs, s.Stack(!r), s.Origin(!r), false)
      && Known(m.regs, s.vals)
  {
    hide Exec;
    hide Inv;
    hide Stacked;
    hide Known;
    hide AreBytes;
    assert SideRel(e.Cache(r), Run(e, m0), s, r) && SideRel(e.Cache(!r), Run(e, m0), s, !r) by { hide SideRel; }
  }

  /** The pointer of the pops is neither the new register nor the top cell's. */
  lemma PointerApart(e: Emitter, m0: Machine, s: Snap, held: multiset<Reg>, r: bool, k: bool, view: Uxn.Bytes, reg: Reg)
    requires InPops(e, m0, s, held, r, k, view) && e.Cache(r) != [] && IsOp(reg) && held[reg] == 0
    ensures e.SpReg(r) != reg && e.SpReg(r) != e.Cache(r)[|e.Cache(r)| - 1].reg
  {
    hide Exec;
    hide Viewing;
    InOrder(e, m0, s, held);
    hide Good;
  }

  lemma HalvedMarked(cells: seq<Cell>)
    requires cells != [] && AllMarked(cells, false)
    ensures AllMarked(cells[|cells| - 1 := cells[|cells| - 1].(isShort := false)], false)
  {
  }

  lemma FlushedKeeps(cells: seq<Cell>, cells': seq<Cell>, ring: seq<nat>, p: nat, regs: seq<nat>, regs': seq<nat>, st: Uxn.Bytes, origin: nat)
    requires Stacked(cells, ring, p, regs, st, origin, false) && AllMarked(cells, false)
    requires AllMarked(cells', false)
    ensures Stacked(cells', ring, p, regs', st, origin, false)
  {
    hide Stacked;
    KeptWhole(cells, cells', ring, p, regs, regs', st, origin);
  }

  /** Splitting the short on top pops the right byte and leaves the right stack. */
  ghost predicate SplitRight(e: Emitter, r: bool, k: bool, m0: Machine, s: Snap, view: Uxn.Bytes)
    requires e.Cache(r) != [] && |view| >= 1
  {
    var (e', reg) := e.Split(r);
    PoppedRight(e', Run(e', m0), s, r, k, reg, view[|view| - 1], view[..|view| - 1])
  }

  /** The register of the cell on top. */
  function TopReg(cells: seq<Cell>): Reg
    requires cells != []
  {
    cells[|cells| - 1].reg
  }

  /** The cells that are left after the split stand for what the cells before stood for, without
      the last byte. */
  ghost predicate Coincides(e: Emitter, r: bool, m0: Machine)
    requires e.Cache(r) != []
  {
    var e' := e.Split(r).0;
    var d := Decoded(e.Cache(r), Run(e, m0).regs, true);
    |d| >= 1 && Decoded(e'.Cache(r), Run(e', m0).regs, true) == d[..|d| - 1]
  }

  /** The cells of the stack after the allocation that a split makes. */
  function CellsLeft(e: Emitter, r: bool): seq<Cell> {
    e.AllocInPop().0.Cache(r)
  }

  /** The value of the short on top when it is split. */
  ghost function TopAt(e1: Emitter, top: Reg, m0: Machine): nat {
    At(Run(e1, m0).regs, top)
  }

  /** If the allocation has left the cells of the stack alone, the split is right exactly when
      nothing else can tell. */
  lemma SplitWhole(e: Emitter, r: bool, k: bool, m0: Machine, s: Snap, held: multiset<Reg>, view: Uxn.Bytes)
    requires InPops(e, m0, s, held, r, k, view) && |held| < NUM_OPS && e.Cache(r) != []
    requires e.Cache(r)[|e.Cache(r)| - 1].isShort && CellsLeft(e, r) == e.Cache(r)
    ensures var top := TopReg(e.Cache(r)); var e1 := e.AllocInPop().0;
      && |view| >= 2
      && (SplitRight(e, r, k, m0, s, view) <==>
           Unseen(e.Cache(r)[..|e.Cache(r)| - 1], e1.Cache(!r), s, top, TopAt(e1, top, m0), k))
  {
    hide Exec;
    hide Good;
    hide Stacked;
    hide Known;
    hide Invisible;
    hide Unused;
    hide Untouched;
    hide Suffix;
    hide InRange;
    hide AllMarked;
    hide Emitter.AllocInPop;
    hide Emitter.Split;
    var cells := e.Cache(r);
    var n := |cells| - 1;
    var top := cells[n].reg;
    var (e1, reg) := e.AllocInPop();
    var held1 := held + multiset{reg};
    AllocForPop(e, r, m0, s, held);
    StillThere(e, e1, r, k, m0, s, held, held1, view);
    InOrder(e, m0, s, held);
    UnusedTop(cells, reg);
    SplitHalves(e, e1, reg, TopReg(e.Cache(r)), r, m0, s, held1);
    var m1 := Run(e1, m0);
    var e' := e.Split(r).0;
    var m' := Run(e', m0);
    assert m' == Halved(m1, reg, top);
    MarkedTop(e, m0, s, held, r, k, view);
    HalvedStack(cells, Ring(m1, r), Ptr(m1, e1.SpReg(r)), m1.regs, view, s.Origin(r), reg, k);
    GoodSides(e1, m0, s, held1, r);
    OtherHalved(e1.Cache(!r), Ring(m1, !r), Ptr(m1, StackPtr(!r)), m1.regs, s.Stack(!r), s.Origin(!r), reg, top);
    KnownHalved(m1.regs, s.vals, reg, top);
    PointerApart(e, m0, s, held, r, k, view, reg);
    if k {
      HalvedMarked(cells);
      FlushedKeeps(cells, e'.Cache(r), Ring(m1, r), Ptr(m1, StackPtr(r)), m1.regs, m'.regs, s.Stack(r), s.Origin(r));
    }
    SidesReal(e', m', Rest(s, r, k, view[..|view| - 1]), r);
    hide RealStacks;
  }

  lemma {:induction false} DecodedBounds(cells: seq<Cell>, regs: seq<nat>)
    ensures |cells| <= |Decoded(cells, regs, true)| <= 2 * |cells|
    decreases |cells|
  {
    if cells != [] {
      DecodedBounds(cells[..|cells| - 1], regs);
    }
  }

  lemma BottomsDiffer(p: nat, a: nat, b: nat)
    requires Bottom(p, a) == Bottom(p, b) && -256 < a - b < 256
    ensures a == b
  {
    assert (p - a) % 256 == (p - b) % 256;
    ModApart(p - a, p - b);
  }

  lemma ModApart(x: int, y: int)
    requires x % 256 == y % 256 && -256 < x - y < 256
    ensures x == y
  {
  }

  /** Cells that stand for one byte less above the same pointer: right exactly when they decode to
      what the cells before stood for, without the last byte. */
  lemma ViewShift(cells: seq<Cell>, cells': seq<Cell>, ring: seq<nat>, p: nat, regs: seq<nat>, regs': seq<nat>, view: Uxn.Bytes, origin: nat)
    requires Stacked(cells, ring, p, regs, view, origin, true) && cells != [] && |cells| <= CACHE_SIZE && |cells'| <= CACHE_SIZE
    ensures var d := Decoded(cells, regs, true);
      && 1 <= |d| <= |view|
      && (Stacked(cells', ring, p, regs', view[..|view| - 1], origin, true) <==> Decoded(cells', regs', true) == d[..|d| - 1])
  {
    DecodedBounds(cells, regs);
    DecodedBounds(cells', regs');
    var d, d' := Decoded(cells, regs, true), Decoded(cells', regs', true);
    hide Decoded;
    hide Live;
    var live := Live(ring, p, |view| - |d|);
    assert view[..|view| - 1] == live + d[..|d| - 1];
    if |d'| <= |view| - 1 && Bottom(p, |view| - 1 - |d'|) == Bottom(p, |view| - |d|) {
      BottomsDiffer(p, |view| - 1 - |d'|, |view| - |d|);
      SameParts(live, d', live, d[..|d| - 1]);
    }
    hide Bottom;
  }

  /** A stack cannot be one byte shorter than what memory and cells hold. */
  lemma OneTooLong(cells: seq<Cell>, ring: seq<nat>, p: nat, regs: seq<nat>, ring': seq<nat>, regs': seq<nat>, st: Uxn.Bytes, origin: nat)
    requires Stacked(cells, ring, p, regs, st, origin, false) && st != []
    ensures !Stacked(cells, ring', p, regs', st[..|st| - 1], origin, false)
  {
    DecodedLength(cells, regs, regs', false);
    hide Decoded;
    hide Live;
    var k := |Decoded(cells, regs, false)|;
    if |st| > k {
      BottomStep(p, |st| - k);
    }
  }

  lemma BottomStep(p: nat, k: int)
    requires k >= 1
    ensures Bottom(p, k - 1) != Bottom(p, k)
  {
  }

  /** The cells after a split whose allocation has dropped some, and the machine. */
  lemma SomeLeft(e: Emitter, r: bool, m0: Machine, s: Snap, held: multiset<Reg>)
    requires Good(e, m0, s, held) && |held| < NUM_OPS && 0 < |e.AllocInPop().0.Cache(r)| < |e.Cache(r)|
    ensures var (e1, reg) := e.AllocInPop(); var top := e.Cache(r)[|e.Cache(r)| - 1].reg; var (e', reg') := e.Split(r);
      && reg' == reg && IsOp(reg) && IsOp(top) && reg != top && reg !in s.vals && held[reg] == 0 && Unused(e1.Cache(!r), reg)
      && Good(e1, m0, s, held + multiset{reg}) && |Run(e1, m0).regs| == NUM_REGS
      && Run(e', m0) == Halved(Run(e1, m0), reg, top)
      && e'.Cache(!r) == e1.Cache(!r) && e'.Cache(r) == e1.Cache(r) && SameFrame(e, e') && Suffix(e.Cache(r), e1.Cache(r))
  {
    hide Exec;
    hide Good;
    hide Unused;
    hide Suffix;
    hide Untouched;
    hide AllMarked;
    hide Emitter.Alloc;
    hide Emitter.Split;
    var (e1, reg) := e.AllocInPop();
    AllocForPop(e, r, m0, s, held);
    AllocDrops(e, r);
    InOrder(e, m0, s, held);
    hide BaseOk;
    SameTop(e.Cache(r), e1.Cache(r), reg);
    SplitHalves(e, e1, reg, TopReg(e.Cache(r)), r, m0, s, held + multiset{reg});
    hide Halved;
  }

  /** Outside keep mode, if the allocation has dropped some cells but not all, the short on top
      stays a short and the stack is one byte too long. */
  lemma SplitSome(e: Emitter, r: bool, m0: Machine, s: Snap, held: multiset<Reg>, view: Uxn.Bytes)
    requires InPops(e, m0, s, held, r, false, view) && |held| < NUM_OPS
    requires 0 < |CellsLeft(e, r)| < |e.Cache(r)| && |view| >= 1
    ensures !SplitRight(e, r, false, m0, s, view)
  {
    hide Exec;
    hide Good;
    hide Stacked;
    hide Known;
    hide Emitter.AllocInPop;
    hide Emitter.Split;
    var (e1, reg) := e.AllocInPop();
    SomeLeft(e, r, m0, s, held);
    MarkedTop(e, m0, s, held, r, false, view);
    GoodSides(e1, m0, s, held + multiset{reg}, r);
    var e' := e.Split(r).0;
    var m1, m' := Run(e1, m0), Run(e', m0);
    OneTooLong(e1.Cache(r), Ring(m1, r), Ptr(m1, StackPtr(r)), m1.regs, Ring(m', r), m'.regs, s.Stack(r), s.Origin(r));
    SidesReal(e', m', Rest(s, r, false, view[..|view| - 1]), r);
    hide RealStacks;
  }

  /** In keep mode, if the allocation has dropped some cells but not all, those that are left are
      read through a pointer that has not moved: they must happen to stand for what the cells
      before stood for, without the last byte. */
  lemma SplitSomeKeep(e: Emitter, r: bool, m0: Machine, s: Snap, held: multiset<Reg>, view: Uxn.Bytes)
    requires InPops(e, m0, s, held, r, true, view) && |held| < NUM_OPS
    requires 0 < |CellsLeft(e, r)| < |e.Cache(r)| && e.Cache(r)[|e.Cache(r)| - 1].isShort
    ensures var top := TopReg(e.Cache(r)); var e1 := e.AllocInPop().0;
      && |view| >= 2
      && (SplitRight(e, r, true, m0, s, view) <==>
           Coincides(e, r, m0) && Unseen([], e1.Cache(!r), s, top, TopAt(e1, top, m0), true))
  {
    hide Exec;
    hide Good;
    hide Stacked;
    hide Known;
    hide Invisible;
    hide Unused;
    hide Suffix;
    hide InRange;
    hide AllMarked;
    hide Decoded;
    hide GoodCache;
    hide Emitter.AllocInPop;
    hide Emitter.Split;
    var cells := e.Cache(r);
    var top := cells[|cells| - 1].reg;
    var (e1, reg) := e.AllocInPop();
    var held1 := held + multiset{reg};
    var e' := e.Split(r).0;
    var m, m1, m' := Run(e, m0), Run(e1, m0), Run(e', m0);
    MarkedTop(e, m0, s, held, r, true, view);
    ReadyView(e, m0, s, held, r, true, view);
    SomeLeft(e, r, m0, s, held);
    AllocForPop(e, r, m0, s, held);
    PointerApart(e, m0, s, held, r, true, view, reg);
    PointerIsOp(e, m0, s, held, r, view);
    hide InPops;
    TopOfView(cells, Ring(m, r), Ptr(m, e.SpReg(r)), m.regs, view, s.Origin(r));
    ViewShift(cells, e'.Cache(r), Ring(m, r), Ptr(m, e.SpReg(r)), m.regs, m'.regs, view, s.Origin(r));
    GoodSides(e1, m0, s, held1, r);
    OtherHalved(e1.Cache(!r), Ring(m1, !r), Ptr(m1, StackPtr(!r)), m1.regs, s.Stack(!r), s.Origin(!r), reg, top);
    KnownHalved(m1.regs, s.vals, reg, top);
    DroppedMarked(cells, e1.Cache(r));
    FlushedKeeps(e1.Cache(r), e'.Cache(r), Ring(m1, r), Ptr(m1, StackPtr(r)), m1.regs, m'.regs, s.Stack(r), s.Origin(r));
    NobodyBelow(top, TopAt(e1, top, m0), true);
    SidesReal(e', m', s, r);
    hide RealStacks;
  }

  lemma PointerIsOp(e: Emitter, m0: Machine, s: Snap, held: multiset<Reg>, r: bool, view: Uxn.Bytes)
    requires InPops(e, m0, s, held, r, true, view)
    ensures IsOp(e.SpReg(r))
  {
    hide Good;
  }

  lemma NobodyBelow(x: Reg, v: nat, all: bool)
    ensures Invisible([], x, v, v / 256, all)
  {
  }

  lemma DroppedMarked(cells: seq<Cell>, cells': seq<Cell>)
    requires Suffix(cells, cells') && AllMarked(cells, false)
    ensures AllMarked(cells', false)
  {
  }

  lemma TopOfView(cells: seq<Cell>, ring: seq<nat>, p: nat, regs: seq<nat>, view: Uxn.Bytes, origin: nat)
    requires Stacked(cells, ring, p, regs, view, origin, true) && InRange(cells, regs) && cells != [] && cells[|cells| - 1].isShort
    ensures |view| >= 2 && view[|view| - 1] == At(regs, cells[|cells| - 1].reg) % 256 && |Decoded(cells, regs, true)| >= 2
  {
    StackedFromCell(cells, ring, p, regs, view, origin);
    hide Stacked;
    var b := view[|view| - 2..];
    assert b[1] == view[|view| - 1];
  }

  /** Allocation drops the oldest cells only. */
  lemma {:induction false} AllocDrops(e: Emitter, r: bool)
    ensures Suffix(e.Cache(r), e.Alloc().0.Cache(r))
    decreases e.Cached()
  {
    hide Exec;
    hide Emitter.Grows;
    hide Emitter.Spill;
    hide Uxn.FlagR;
    assert Suffix(e.Cache(r), e.Cache(r));
    hide Suffix;
    if FindFree(e.refs, 0) == 0 && e.Cached() > 0 {
      var first := Uxn.FlagR(e.opcode);
      var side := if e.Cache(first) != [] then first else !first;
      var e1 := e.Spill(side);
      SpillCells(e, side);
      DroppedOne(e.Cache(r), e1.Cache(r));
      AllocDrops(e1, r);
      DropsMore(e.Cache(r), e1.Cache(r), e1.Alloc().0.Cache(r));
    }
  }

  lemma SpillCells(e: Emitter, side: bool)
    requires e.Cache(side) != []
    ensures e.Spill(side).Cache(!side) == e.Cache(!side) && e.Spill(side).Cache(side) == e.Cache(side)[1..]
  {
    hide Exec;
    hide Emitter.DoPush;
    DoPushBooks(e, e.Cache(side)[0], side);
  }

  lemma SameTop(cells: seq<Cell>, cells': seq<Cell>, x: Reg)
    requires Suffix(cells, cells') && cells' != [] && Unused(cells', x)
    ensures cells[|cells| - 1] == cells'[|cells'| - 1] && cells[|cells| - 1].reg != x
  {
  }

  /** The view before a pop, in cells and memory. */
  lemma ReadyView(e: Emitter, m0: Machine, s: Snap, held: multiset<Reg>, r: bool, k: bool, view: Uxn.Bytes)
    requires InPops(e, m0, s, held, r, k, view) && |held| < NUM_OPS
    ensures var m := Run(e, m0);
      && Stacked(e.Cache(r), Ring(m, r), Ptr(m, e.SpReg(r)), m.regs, view, s.Origin(r), true) && InRange(e.Cache(r), m.regs)
      && |e.Cache(r)| <= CACHE_SIZE && GoodCache(e.Cache(r)) && |m.regs| == NUM_REGS
  {
    hide Exec;
    hide Stacked;
    IsReady(e, m0, s, held, r, k, view);
    hide InPops;
    assert GoodCache(e.Cache(r));
  }

  /** If the allocation has dropped all cells, the new register is given back and the byte is read
      from memory. */
  lemma Emptied(e: Emitter, r: bool, k: bool, m0: Machine, s: Snap, held: multiset<Reg>, view: Uxn.Bytes)
    requires InPops(e, m0, s, held, r, k, view) && |held| < NUM_OPS && e.Cache(r) != [] && AllMarked(e.Cache(!r), true)
    requires CellsLeft(e, r) == []
    ensures var (e1, reg) := e.AllocInPop(); var e2 := e1.Release(reg);
      && e.Split(r) == e2.PopFromMem(false, r) && Good(e2, m0, s, held) && SameFrame(e, e2)
      && e2.Cache(r) == [] && AllMarked(e2.Cache(!r), true) && FindFree(e2.refs, 0) != 0 && Run(e2, m0) == Run(e1, m0)
      && (Unused(e.Cache(!r), e.SpReg(r)) ==> Unused(e2.Cache(!r), e.SpReg(r)))
  {
    hide Exec;
    hide Good;
    hide Emitter.Alloc;
    hide Emitter.PopFromMem;
    hide ViewMode;
    var (e1, reg) := e.AllocInPop();
    var e2 := e1.Release(reg);
    AllocForPop(e, r, m0, s, held);
    OpStart.AllocKeeps(e, e.SpReg(r));
    ReleasedGood(e1, reg, m0, s, held);
    hide AllMarked;
    hide Unused;
    GoodBooks(e1, m0, s, held + multiset{reg});
    FreedFound(e1, held, reg);
  }

  lemma ReleasedGood(e: Emitter, reg: Reg, m0: Machine, s: Snap, held: multiset<Reg>)
    requires Good(e, m0, s, held + multiset{reg}) && IsOp(reg) && reg !in s.vals
    ensures Good(e.Release(reg), m0, s, held)
  {
    hide Exec;
    hide Rel;
    RetainRel(e, reg, m0, s);
    ReleaseInv(e, held, reg);
    hide Inv;
  }

  lemma FreedFound(e: Emitter, held: multiset<Reg>, reg: Reg)
    requires Inv(e, held + multiset{reg}) && IsOp(reg) && e.Count(reg) == 1
    ensures FindFree(e.Release(reg).refs, 0) != 0
  {
    var refs := e.Release(reg).refs;
    assert refs[reg - OP_MIN] == 0;
    FindFreeFinds(refs, 0);
  }

  /** Outside keep mode the byte read from memory is the right one: everything has been written. */
  lemma SplitEmptied(e: Emitter, r: bool, m0: Machine, s: Snap, held: multiset<Reg>, view: Uxn.Bytes)
    requires InPops(e, m0, s, held, r, false, view) && |held| < NUM_OPS && e.Cache(r) != [] && AllMarked(e.Cache(!r), true)
    requires CellsLeft(e, r) == [] && |view| >= 1
    ensures SplitRight(e, r, false, m0, s, view)
  {
    hide Exec;
    hide Good;
    hide Emitter.AllocInPop;
    hide Emitter.PopFromMem;
    hide Emitter.Split;
    hide PoppedRight;
    var (e1, reg) := e.AllocInPop();
    var e2 := e1.Release(reg);
    Emptied(e, r, false, m0, s, held, view);
    assert InPops(e2, m0, s, held, r, false, view);
    FromMemExact(e2, false, r, false, m0, s, held, view);
    hide Emitter.Release;
  }

  /** In keep mode the pointer has not moved down past the cells that were dropped, and the byte
      comes from below them. */
  lemma SplitEmptiedKeep(e: Emitter, r: bool, m0: Machine, s: Snap, held: multiset<Reg>, view: Uxn.Bytes)
    requires InPops(e, m0, s, held, r, true, view) && |held| < NUM_OPS && e.Cache(r) != [] && AllMarked(e.Cache(!r), true)
    requires CellsLeft(e, r) == [] && |view| >= 1
    ensures !SplitRight(e, r, true, m0, s, view)
  {
    hide Exec;
    hide Good;
    hide Stacked;
    hide Emitter.AllocInPop;
    hide Emitter.Split;
    hide RealStacks;
    hide Known;
    hide Untouched;
    hide AllMarked;
    var (e1, reg) := e.AllocInPop();
    var e2 := e1.Release(reg);
    var cells, m, m1 := e.Cache(r), Run(e, m0), Run(e1, m0);
    Emptied(e, r, true, m0, s, held, view);
    MarkedTop(e, m0, s, held, r, true, view);
    AllocForPop(e, r, m0, s, held);
    ReadyView(e, m0, s, held, r, true, view);
    PointerIsOp(e, m0, s, held, r, view);
    PointerHeld(e, m0, s, held, r, view);
    hide Decoded;
    hide Unused;
    hide Uses;
    MemoryPart(cells, Ring(m, r), Ptr(m, e.SpReg(r)), m.regs, view, s.Origin(r));
    var below := view[..|view| - |Decoded(cells, m.regs, true)|];
    SameView(m, m1, r, e.SpReg(r), below, s.Origin(r));
    InOrder(e2, m0, s, held);
    EmptyView(e2, m0, s, held, r, below);
    ReadyToRead(e2, r, true, m0, s, held, below);
    DecodedBounds(cells, m.regs);
    LostPointer(e2, r, m0, s, held, view, below);
  }

  lemma PointerHeld(e: Emitter, m0: Machine, s: Snap, held: multiset<Reg>, r: bool, view: Uxn.Bytes)
    requires InPops(e, m0, s, held, r, true, view)
    ensures held[e.SpReg(r)] > 0 && e.SpReg(r) !in s.vals && Unused(e.Cache(!r), e.SpReg(r))
  {
    hide Good;
    hide Viewing;
    UsesUnused(e.Cache(!r), e.SpReg(r));
  }

  lemma EmptyView(e: Emitter, m0: Machine, s: Snap, held: multiset<Reg>, r: bool, view: Uxn.Bytes)
    requires Good(e, m0, s, held) && e.Cache(r) == [] && IsOp(e.SpReg(r)) && held[e.SpReg(r)] > 0 && e.SpReg(r) !in s.vals
    requires Unused(e.Cache(!r), e.SpReg(r)) && |Run(e, m0).regs| == NUM_REGS
    requires var m := Run(e, m0); Stacked([], Ring(m, r), Ptr(m, e.SpReg(r)), m.regs, view, s.Origin(r), true)
    ensures InPops(e, m0, s, held, r, true, view)
  {
    hide Exec;
    hide Good;
    hide Stacked;
    UsesUnused(e.Cache(!r), e.SpReg(r));
  }

  /** After a read through a pointer that stands "n" bytes too low, the view is not the one that
      is one byte shorter. */
  lemma LostPointer(e: Emitter, r: bool, m0: Machine, s: Snap, held: multiset<Reg>, view: Uxn.Bytes, below: Uxn.Bytes)
    requires var (e1, reg) := e.SetMemBase(StackBase(r)).AllocInPop();
      MayRead(e1, Run(e1, m0), s, held + multiset{reg}, r, true, reg, StackBase(if FindFree(e.refs, 0) != 0 then r else !r), below)
      && e1.SpReg(r) == e.SpReg(r)
    requires |below| < |view| <= |below| + 8
    ensures var (e', reg) := e.PopFromMem(false, r);
      !PoppedRight(e', Run(e', m0), s, r, true, reg, view[|view| - 1], view[..|view| - 1])
  {
    hide Exec;
    hide AreBytes;
    hide Emitter.SetMemBase;
    hide Emitter.AllocInPop;
    hide Emitter.ReadBack;
    hide RealStacks;
    hide Known;
    hide Unused;
    hide GoodCache;
    hide Rel;
    var (e1, reg) := e.SetMemBase(StackBase(r)).AllocInPop();
    var side := if FindFree(e.refs, 0) != 0 then r else !r;
    var e' := e1.ReadBack(reg, false, r);
    BaseSelects(Run(e1, m0), e1.memBase, side);
    FromMemRuns(e1, reg, false, r, side, m0);
    ReadBackBooks(e1, reg, false, r);
    hide BaseOk;
    hide Calm;
    var p := Ptr(Run(e1, m0), e1.SpReg(r));
    TooLow(Ring(Run(e1, m0), r), p, Run(e1, m0).regs, below, s.Origin(r), Ring(Run(e', m0), r), Run(e', m0).regs, view);
    hide Stacked;
  }

  lemma TooLow(ring: seq<nat>, p: nat, regs: seq<nat>, below: Uxn.Bytes, origin: nat,
               ring': seq<nat>, regs': seq<nat>, view: Uxn.Bytes)
    requires Stacked([], ring, p, regs, below, origin, true) && |below| < |view| <= |below| + 8
    ensures !Stacked([], ring', Down(p), regs', view[..|view| - 1], origin, true)
  {
    assert Decoded([], regs, true) == [] && Decoded([], regs', true) == [];
    hide Decoded;
    hide Live;
    if Bottom(Down(p), |view| - 1) == origin {
      DownBottom(p, |view|);
      BottomsDiffer(p, |view|, |below|);
    }
    hide Bottom;
  }

  lemma DownBottom(p: nat, n: nat)
    requires p < 256 && n >= 1
    ensures Bottom(Down(p), n - 1) == Bottom(p, n)
  {
  }

  /** What is left of a view without its cells. */
  lemma MemoryPart(cells: seq<Cell>, ring: seq<nat>, p: nat, regs: seq<nat>, view: Uxn.Bytes, origin: nat)
    requires Stacked(cells, ring, p, regs, view, origin, true)
    ensures var d := Decoded(cells, regs, true);
      |d| <= |view| && Stacked([], ring, p, regs, view[..|view| - |d|], origin, true)
  {
    var d := Decoded(cells, regs, true);
    assert Decoded([], regs, true) == [];
    hide Decoded;
    LiveLength(ring, p, |view| - |d|);
    hide Live;
    hide Bottom;
    assert view[..|view| - |d|] == Live(ring, p, |view| - |d|);
  }

  /** What decides whether a split is right: if the allocation leaves the cells of the stack alone,
      nobody else may see the top register change; if it drops all of them, keep mode is lost; if
      it drops some, all but keep mode is lost, and that is saved only by a coincidence. */
  ghost predicate SplitFits(e: Emitter, r: bool, k: bool, m0: Machine, s: Snap)
    requires e.Cache(r) != []
  {
    var cells, left, top, other := e.Cache(r), CellsLeft(e, r), TopReg(e.Cache(r)), e.AllocInPop().0.Cache(!r);
    var v := TopAt(e.AllocInPop().0, top, m0);
    if left == cells then Unseen(cells[..|cells| - 1], other, s, top, v, k)
    else if left == [] then !k
    else k && Coincides(e, r, m0) && Unseen([], other, s, top, v, true)
  }

  /** The split of a short, in keep mode or not, whatever the allocation spills. */
  lemma SplitExact(e: Emitter, r: bool, k: bool, m0: Machine, s: Snap, held: multiset<Reg>, view: Uxn.Bytes)
    requires InPops(e, m0, s, held, r, k, view) && |held| < NUM_OPS && AllMarked(e.Cache(!r), true)
    requires e.Cache(r) != [] && e.Cache(r)[|e.Cache(r)| - 1].isShort
    ensures |view| >= 2 && (SplitRight(e, r, k, m0, s, view) <==> SplitFits(e, r, k, m0, s))
  {
    hide InPops;
    hide Unseen;
    hide Coincides;
    hide SplitRight;
    hide Emitter.AllocInPop;
    var m := Run(e, m0);
    ReadyView(e, m0, s, held, r, k, view);
    hide Stacked;
    hide InRange;
    hide GoodCache;
    hide Exec;
    TopOfView(e.Cache(r), Ring(m, r), Ptr(m, e.SpReg(r)), m.regs, view, s.Origin(r));
    var cells, left := e.Cache(r), CellsLeft(e, r);
    CellsLeftSuffix(e, r);
    if left == cells {
      SplitWhole(e, r, k, m0, s, held, view);
    } else if left == [] {
      if k { SplitEmptiedKeep(e, r, m0, s, held, view); } else { SplitEmptied(e, r, m0, s, held, view); }
    } else if k {
      SplitSomeKeep(e, r, m0, s, held, view);
    } else {
      SplitSome(e, r, m0, s, held, view);
    }
  }

  lemma CellsLeftSuffix(e: Emitter, r: bool)
    ensures Suffix(e.Cache(r), CellsLeft(e, r))
    ensures |CellsLeft(e, r)| == |e.Cache(r)| ==> CellsLeft(e, r) == e.Cache(r)
  {
    hide Exec;
    hide Emitter.Alloc;
    AllocDrops(e, r);
    assert e.Cache(r)[0..] == e.Cache(r);
  }

  // ---- the coincidence ----

  ghost predicate AllZero(b: Uxn.Bytes) {
    forall i :: 0 <= i < |b| ==> b[i] == 0
  }

  lemma {:induction false} ShiftZeros(x: nat, b: Uxn.Bytes)
    ensures b + [0] == [x] + b <==> x == 0 && AllZero(b)
    decreases |b|
  {
    if b != [] {
      ShiftZeros(b[0], b[1..]);
      assert b == [b[0]] + b[1..] && b + [0] == [b[0]] + (b[1..] + [0]);
      assert AllZero(b) <==> b[0] == 0 && AllZero(b[1..]) by {
        assert forall i :: 0 < i < |b| ==> b[i] == b[1..][i - 1];
      }
      if b + [0] == [x] + b {
        assert b[0] == (b + [0])[0] == ([x] + b)[0] == x;
        assert b[1..] + [0] == (b + [0])[1..] == ([x] + b)[1..] == b;
      }
      if x == 0 && AllZero(b) {
        assert b + [0] == [b[0]] + b;
      }
    } else {
      assert (b + [0])[0] == 0 && ([x] + b)[0] == x;
    }
  }

  lemma {:induction false} DecodedParts(cells: seq<Cell>, regs: seq<nat>, d: nat)
    requires d <= |cells|
    ensures Decoded(cells, regs, true) == Decoded(cells[..d], regs, true) + Decoded(cells[d..], regs, true)
    decreases |cells| - d
  {
    if d == |cells| {
      assert cells[..d] == cells && cells[d..] == [];
    } else {
      DecodedParts(cells, regs, d + 1);
      DecodedFirst(cells[d..], regs, true);
      assert cells[d..][1..] == cells[d + 1..] && cells[..d + 1][..d] == cells[..d];
    }
  }

  /** Where one byte less is asked for, and some of the oldest cells are gone: only a single byte
      can be, and all bytes below the split short must be zero. */
  lemma CoincidenceBytes(gone: Uxn.Bytes, left: Uxn.Bytes, hi: nat, lo: nat)
    requires gone != []
    ensures var d := gone + left + [hi, lo];
      left + [0, hi] == d[..|d| - 1] <==> |gone| == 1 && AllZero(gone + left)
  {
    var d := gone + left + [hi, lo];
    assert d[..|d| - 1] == (gone + left) + [hi];
    assert left + [0, hi] == (left + [0]) + [hi];
    if |left + [0]| == |gone + left| {
      SameParts(left + [0], [hi], gone + left, [hi]);
      assert gone == [gone[0]];
      ShiftZeros(gone[0], left);
      assert AllZero(gone + left) <==> gone[0] == 0 && AllZero(left) by {
        assert (gone + left)[0] == gone[0];
        assert forall i :: 0 <= i < |left| ==> left[i] == (gone + left)[i + 1];
      }
    }
  }

  lemma DecodedShort(c: Cell, cells: seq<Cell>, regs: seq<nat>)
    requires cells != [] && cells[|cells| - 1] == c && c.isShort
    ensures var v := At(regs, c.reg);
      Decoded(cells, regs, true) == Decoded(cells[..|cells| - 1], regs, true) + [v / 256 % 256, v % 256]
  {
  }

  /** With the top register held by nobody else, the coincidence is that the one cell dropped is a
      byte, and that this byte and all bytes cached below the short are zero. */
  lemma CoincidesExact(e: Emitter, r: bool, m0: Machine, s: Snap, held: multiset<Reg>, view: Uxn.Bytes)
    requires InPops(e, m0, s, held, r, true, view) && |held| < NUM_OPS
    requires 0 < |CellsLeft(e, r)| < |e.Cache(r)| && e.Cache(r)[|e.Cache(r)| - 1].isShort
    requires e.Count(TopReg(e.Cache(r))) == 1
    ensures var cells := e.Cache(r);
      Coincides(e, r, m0) <==>
        |CellsLeft(e, r)| == |cells| - 1 && !cells[0].isShort && AllZero(Decoded(cells[..|cells| - 1], Run(e, m0).regs, true))
  {
    hide Exec;
    hide InPops;
    hide Inv;
    hide Uses;
    hide Halved;
    hide Decoded;
    hide AllZero;
    hide Untouched;
    hide InRange;
    hide Unused;
    hide Suffix;
    hide Emitter.AllocInPop;
    hide Emitter.Split;
    var (e1, reg) := e.AllocInPop();
    PartlyLeft(e, e1, reg, r, m0, s, held, view);
    LeftCoincide(e.Cache(r), CellsLeft(e, r), Run(e, m0), Run(e1, m0), Run(e.Split(r).0, m0), r, reg, TopReg(e.Cache(r)));
  }

  /** A short in keep mode, held by nobody else, whose split has dropped some cells. */
  lemma PartlyLeft(e: Emitter, e1: Emitter, reg: Reg, r: bool, m0: Machine, s: Snap, held: multiset<Reg>, view: Uxn.Bytes)
    requires InPops(e, m0, s, held, r, true, view) && |held| < NUM_OPS && (e1, reg) == e.AllocInPop()
    requires 0 < |CellsLeft(e, r)| < |e.Cache(r)| && e.Cache(r)[|e.Cache(r)| - 1].isShort
    requires e.Count(TopReg(e.Cache(r))) == 1
    ensures var cells, left, top, m := e.Cache(r), CellsLeft(e, r), TopReg(e.Cache(r)), Run(e, m0);
      && Suffix(cells, left) && InRange(cells, m.regs) && (forall i :: 0 <= i < |cells| ==> IsOp(cells[i].reg))
      && Untouched(m, Run(e1, m0), r) && IsOp(reg) && IsOp(top) && reg != top
      && Run(e.Split(r).0, m0) == Halved(Run(e1, m0), reg, top) && e.Split(r).0.Cache(r) == left
      && Unused(left, reg) && Unused(cells[..|cells| - 1], top)
  {
    hide Exec;
    hide Good;
    hide Stacked;
    hide Untouched;
    hide InRange;
    hide Unused;
    hide AllMarked;
    hide Emitter.AllocInPop;
    hide Emitter.Split;
    hide Suffix;
    hide Halved;
    MarkedTop(e, m0, s, held, r, true, view);
    ReadyView(e, m0, s, held, r, true, view);
    SomeLeft(e, r, m0, s, held);
    AllocForPop(e, r, m0, s, held);
    GoodBooks(e, m0, s, held);
    SoleCell(e, held, r);
    InOrder(e, m0, s, held);
  }

  lemma LeftCoincide(cells: seq<Cell>, left: seq<Cell>, m: Machine, m1: Machine, m': Machine, r: bool, reg: Reg, top: Reg)
    requires 0 < |left| < |cells| && Suffix(cells, left) && cells[|cells| - 1].isShort && cells[|cells| - 1].reg == top
    requires InRange(cells, m.regs) && (forall i :: 0 <= i < |cells| ==> IsOp(cells[i].reg))
    requires Untouched(m, m1, r) && IsOp(reg) && IsOp(top) && reg != top && m' == Halved(m1, reg, top)
    requires Unused(left, reg) && Unused(cells[..|cells| - 1], top)
    ensures var d := Decoded(cells, m.regs, true);
      && |d| >= 1
      && (Decoded(left, m'.regs, true) == d[..|d| - 1] <==>
           |left| == |cells| - 1 && !cells[0].isShort && AllZero(Decoded(cells[..|cells| - 1], m.regs, true)))
  {
    hide Decoded;
    hide AllZero;
    hide Unused;
    hide Untouched;
    hide Halved;
    hide InRange;
    var n, d := |cells| - 1, |cells| - |left|;
    var v := At(m.regs, top);
    ShortInRange(cells, m.regs);
    KeptCells(cells, d, m, m1, m', r, reg, top);
    hide At;
    LeftCells(cells, left);
    DecodedParts(cells[..n], m.regs, d);
    DecodedShort(cells[n], cells, m.regs);
    DecodedShort(left[|left| - 1], left, m'.regs);
    GoneBytes(cells, d, m.regs);
    CoincidenceBytes(Decoded(cells[..d], m.regs, true), Decoded(cells[d..n], m.regs, true), v / 256, v % 256);
  }

  lemma ShortInRange(cells: seq<Cell>, regs: seq<nat>)
    requires cells != [] && InRange(cells, regs) && cells[|cells| - 1].isShort
    ensures var v := At(regs, cells[|cells| - 1].reg); v / 256 % 256 == v / 256 && v / 256 / 256 % 256 == 0
  {
    assert At(regs, cells[|cells| - 1].reg) < 0x1_0000;
  }

  lemma LeftCells(cells: seq<Cell>, left: seq<Cell>)
    requires 0 < |left| < |cells| && Suffix(cells, left)
    ensures var n, d := |cells| - 1, |cells| - |left|;
      && left == cells[d..] && left[..|left| - 1] == cells[d..n] && left[|left| - 1] == cells[n]
      && cells[..n][..d] == cells[..d] && cells[..n][d..] == cells[d..n]
  {
  }

  lemma KeptCells(cells: seq<Cell>, d: nat, m: Machine, m1: Machine, m': Machine, r: bool, reg: Reg, top: Reg)
    requires d < |cells| && Untouched(m, m1, r) && IsOp(reg) && IsOp(top) && reg != top && m' == Halved(m1, reg, top)
    requires Unused(cells[d..], reg) && Unused(cells[..|cells| - 1], top)
    requires forall i :: 0 <= i < |cells| ==> IsOp(cells[i].reg)
    ensures Decoded(cells[d..|cells| - 1], m'.regs, true) == Decoded(cells[d..|cells| - 1], m.regs, true)
    ensures At(m'.regs, top) == At(m.regs, top) / 256
  {
    var part := cells[d..|cells| - 1];
    forall i | 0 <= i < |part| ensures At(m'.regs, part[i].reg) == At(m.regs, part[i].reg) {
      assert part[i] == cells[d..][i] == cells[..|cells| - 1][d + i] == cells[d + i];
    }
    DecodedFrame(part, m.regs, m'.regs, true);
  }

  lemma GoneBytes(cells: seq<Cell>, d: nat, regs: seq<nat>)
    requires 1 <= d <= |cells|
    ensures var gone := Decoded(cells[..d], regs, true);
      gone != [] && (|gone| == 1 <==> d == 1 && !cells[0].isShort)
  {
    DecodedBounds(cells[..d], regs);
    if d == 1 {
      assert cells[..1][..0] == [];
    }
  }
}
