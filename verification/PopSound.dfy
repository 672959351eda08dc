/** Pops through the stack caches, as long as no hazard is noted: a short is split, two bytes
    are joined, bytes are read back from memory, and each time exactly the top of the view
    goes away and its value ends up in the result register.
    In keep mode the view is read through a copy of the stack pointer. */
module PopSound {
  import opened Target
  import opened Emission
  import opened Allocator
  import opened Rings
  import opened CacheRuns
  import opened CacheSound
  import Uxn

  /** What pops from stack "r" see: memory below the opcode's pointer, then every cell. */
  ghost predicate Viewing(e: Emitter, m: Machine, r: bool, view: Uxn.Bytes, origin: nat) {
    && |m.regs| == NUM_REGS
    && Stacked(e.Cache(r), Ring(m, r), Ptr(m, e.SpReg(r)), m.regs, view, origin, true)
    && InRange(e.Cache(r), m.regs)
  }

  /** The pointer pops go through: the stack pointer itself, or a register the opcode holds. */
  ghost predicate PointerOk(e: Emitter, r: bool, held: multiset<Reg>) {
    e.SpReg(r) == StackPtr(r)
    || (IsOp(e.SpReg(r)) && held[e.SpReg(r)] > 0 && Unused(e.Cache(r), e.SpReg(r)))
  }

  /** Registers a pop from stack "r" leaves alone. */
  ghost predicate Kept(e: Emitter, r: bool, held: multiset<Reg>, x: Reg) {
    && x < NUM_REGS && x != e.SpReg(r)
    && (x >= VM || (IsOp(x) && (held[x] > 0 || Uses(e.Cache(!r), x) > 0)))
  }

  ghost predicate AllMarked(cells: seq<Cell>, needFlush: bool) {
    forall i :: 0 <= i < |cells| ==> cells[i].needFlush == needFlush
  }

  /** What a pop changes besides the view. */
  ghost predicate PopStep(e: Emitter, e': Emitter, m: Machine, m': Machine, r: bool, held: multiset<Reg>) {
    && m.Shaped() && m'.Shaped() && m' == m.(regs := m'.regs)
    && BaseOk(e', m')
    && e'.Cache(!r) == e.Cache(!r) && e'.SpReg(r) == e.SpReg(r)
    && (forall x: Reg :: Kept(e, r, held, x) ==> m'.regs[x] == m.regs[x])
    && (forall x: Reg :: Unused(e.Cache(r), x) ==> Unused(e'.Cache(r), x))
    && (AllMarked(e.Cache(r), true) ==> AllMarked(e'.Cache(r), true))
    && (AllMarked(e.Cache(r), false) ==> AllMarked(e'.Cache(r), false))
  }

  /** Before a pop: everything in order, and the view ends with the value to be popped. */
  ghost predicate Ready(e: Emitter, m: Machine, r: bool, held: multiset<Reg>, view: Uxn.Bytes, origin: nat) {
    && Inv(e, held) && |held| < NUM_OPS && PointerOk(e, r, held)
    && Calm(m) && BaseOk(e, m) && Viewing(e, m, r, view, origin)
  }

  /** After a pop: the view has lost the value, and register "reg" holds it. */
  ghost predicate Popped(e: Emitter, e': Emitter, m: Machine, m': Machine, r: bool, held: multiset<Reg>,
                         reg: Reg, v: nat, view': Uxn.Bytes, origin: nat) {
    && PopStep(e, e', m, m', r, held) && Viewing(e', m', r, view', origin)
    && IsOp(reg) && reg != e.SpReg(r) && m'.regs[reg] == v
  }

  // ---- allocation without a spill ----

  /** An allocation that does not spill only counts its register. */
  lemma AllocCalm(e: Emitter)
    requires !e.AllocInPop().0.Hazard() && !e.AllocInPop().0.failed
    ensures var (e', reg) := e.AllocInPop();
      && e' == e.Retain(reg) && e'.code == e.code && e'.wcache == e.wcache && e'.rcache == e.rcache
      && e'.memBase == e.memBase && e'.wspReg == e.wspReg && e'.rspReg == e.rspReg
  {
    var reg := FindFree(e.refs, 0);
    if reg == 0 && e.Cached() > 0 {
      var first := Uxn.FlagR(e.opcode);
      var side := if e.Cache(first) != [] then first else !first;
      AllocShrinks(e.Spill(side));
    }
  }

  lemma {:induction false} AllocShrinks(e: Emitter)
    ensures e.Alloc().0.Cached() <= e.Cached()
    decreases e.Cached()
  {
    if FindFree(e.refs, 0) == 0 && e.Cached() > 0 {
      var first := Uxn.FlagR(e.opcode);
      AllocShrinks(e.Spill(if e.Cache(first) != [] then first else !first));
    }
  }

  /** A register whose only holder is the current opcode is in neither cache. */
  lemma SoleHolder(e: Emitter, held: multiset<Reg>, x: Reg)
    requires Inv(e, held) && IsOp(x) && e.Count(x) == 1 && held[x] > 0
    ensures held[x] == 1 && Uses(e.wcache, x) == 0 && Uses(e.rcache, x) == 0
    ensures Unused(e.wcache, x) && Unused(e.rcache, x)
  {
    UsesUnused(e.wcache, x);
    UsesUnused(e.rcache, x);
  }

  lemma {:induction false} UsesUnused(cells: seq<Cell>, x: Reg)
    ensures Uses(cells, x) == 0 <==> Unused(cells, x)
    decreases |cells|
  {
    if cells != [] {
      UsesUnused(cells[..|cells| - 1], x);
      assert Unused(cells, x) <==> Unused(cells[..|cells| - 1], x) && cells[|cells| - 1].reg != x;
    }
  }

  // ---- from memory ----

  lemma ViewFrame(e: Emitter, m: Machine, e': Emitter, m': Machine, r: bool, view: Uxn.Bytes, origin: nat)
    requires Viewing(e, m, r, view, origin) && |m'.regs| == NUM_REGS
    requires e'.Cache(r) == e.Cache(r) && e'.SpReg(r) == e.SpReg(r) && Ring(m', r) == Ring(m, r)
    requires Ptr(m', e.SpReg(r)) == Ptr(m, e.SpReg(r))
    requires forall i :: 0 <= i < |e.Cache(r)| ==> At(m'.regs, e.Cache(r)[i].reg) == At(m.regs, e.Cache(r)[i].reg)
    ensures Viewing(e', m', r, view, origin)
  {
    hide Stacked;
    StackedFrame(e.Cache(r), Ring(m, r), Ptr(m, e.SpReg(r)), m.regs, m'.regs, view, origin, true);
  }

  /** A value has been read back from memory. */
  ghost predicate ReadFrom(m: Machine, m': Machine, sp: Reg, reg: Reg, short: bool, r: bool) {
    && m.Shaped() && Calm(m') && OnlyRegs(m, m', {MEM_OFFSET, TMP, sp, reg})
    && var p := Down(Ptr(m, sp));
    && Ptr(m', sp) == (if short then Down(p) else p)
    && At(m'.regs, reg) == (if short then Ring(m, r)[Down(p)] * 256 + Ring(m, r)[p] else Ring(m, r)[p])
  }

  /** A read through the pointer of stack "r", from the ring the base register selects. */
  lemma FromMemRuns(e: Emitter, reg: Reg, short: bool, r: bool, side: bool, m0: Machine)
    requires Calm(Run(e, m0)) && Selected(Run(e, m0)) == (if side then Rs else Ws)
    requires IsOp(reg) && reg != e.SpReg(r) && (e.SpReg(r) == StackPtr(r) || IsOp(e.SpReg(r)))
    ensures ReadFrom(Run(e, m0), Run(e.ReadBack(reg, short, r), m0), e.SpReg(r), reg, short, side)
  {
    hide Exec;
    hide Step;
    hide Selected;
    hide AreBytes;
    var m := Run(e, m0);
    if short {
      TakeShortRuns(m, e.SpReg(r), reg, side);
    } else {
      TakeRuns(m, e.SpReg(r), reg, side);
    }
  }

  lemma ReadFromView(m: Machine, m': Machine, sp: Reg, reg: Reg, short: bool, r: bool, view: Uxn.Bytes, origin: nat)
    requires ReadFrom(m, m', sp, reg, short, r)
    requires Stacked([], Ring(m, r), Ptr(m, sp), m.regs, view, origin, true)
    requires Uxn.PopValue(view, short).Some?
    ensures var (view', v) := Uxn.PopValue(view, short).value;
      At(m'.regs, reg) == v && Stacked([], Ring(m', r), Ptr(m', sp), m'.regs, view', origin, true)
  {
    hide AreBytes;
    var n := |view|;
    StackedFromMemory(Ring(m, r), Ptr(m, sp), m.regs, view, origin, true);
    if short {
      StackedFromMemory(Ring(m, r), Down(Ptr(m, sp)), m.regs, view[..n - 1], origin, true);
      assert view[..n - 1][..n - 2] == view[..n - 2];
    }
    hide Stacked;
    var view' := Uxn.PopValue(view, short).value.0;
    StackedFrame([], Ring(m', r), Ptr(m', sp), m.regs, m'.regs, view', origin, true);
  }

  lemma FromMemPops(e: Emitter, short: bool, r: bool, m0: Machine, held: multiset<Reg>, view: Uxn.Bytes, origin: nat)
    requires Ready(e, Run(e, m0), r, held, view, origin) && e.Cache(r) == []
    requires Uxn.PopValue(view, short).Some?
    requires !e.PopFromMem(short, r).0.Hazard()
    ensures var (e', reg) := e.PopFromMem(short, r);
      var (view', v) := Uxn.PopValue(view, short).value;
      Popped(e, e', Run(e, m0), Run(e', m0), r, held, reg, v, view', origin)
  {
    hide Exec;
    hide Step;
    hide Selected;
    hide Stacked;
    hide AreBytes;
    hide Emitter.SetMemBase;
    hide Emitter.AllocInPop;
    hide Emitter.ReadBack;
    var m := Run(e, m0);
    var e1 := e.SetMemBase(StackBase(r));
    SetMemBaseRuns(e, StackBase(r), m0);
    assert SameBooks(e, e1) by { SetMemBaseBooks(e, StackBase(r)); }
    BooksInv(e, e1, held);
    AllocInPopInv(e1, held);
    var (e2, reg) := e1.AllocInPop();
    assert !e2.Hazard() && !e2.failed;
    AllocCalm(e1);
    SoleHolder(e2, held + multiset{reg}, reg);
    hide Inv;
    var m1 := Run(e1, m0);
    assert Run(e2, m0) == m1;
    var e3 := e2.ReadBack(reg, short, r);
    var m3 := Run(e3, m0);
    ReadBackBooks(e2, reg, short, r);
    FromMemRuns(e2, reg, short, r, r, m0);
    assert Stacked([], Ring(m1, r), Ptr(m1, e.SpReg(r)), m1.regs, view, origin, true) by {
      StackedFrame([], Ring(m, r), Ptr(m, e.SpReg(r)), m.regs, m1.regs, view, origin, true);
    }
    ReadFromView(m1, m3, e.SpReg(r), reg, short, r, view, origin);
    assert BaseOk(e3, m3) by { assert BaseOk(e1, m1); hide Viewing; }
    var (view', v) := Uxn.PopValue(view, short).value;
    FromMemFinish(e, e3, m, m1, m3, r, held, reg, short, view', v, origin);
    hide Popped;
  }

  lemma FromMemFinish(e: Emitter, e': Emitter, m: Machine, m1: Machine, m': Machine, r: bool, held: multiset<Reg>,
                      reg: Reg, short: bool, view': Uxn.Bytes, v: nat, origin: nat)
    requires Calm(m) && OnlyRegs(m, m1, {MEM_BASE}) && ReadFrom(m1, m', e.SpReg(r), reg, short, r)
    requires e.Cache(r) == [] && e'.wcache == e.wcache && e'.rcache == e.rcache && e'.SpReg(r) == e.SpReg(r)
    requires BaseOk(e', m') && At(m'.regs, reg) == v
    requires Stacked([], Ring(m', r), Ptr(m', e.SpReg(r)), m'.regs, view', origin, true)
    requires IsOp(reg) && reg != e.SpReg(r) && held[reg] == 0 && Uses(e.Cache(!r), reg) == 0
    ensures Popped(e, e', m, m', r, held, reg, v, view', origin)
  {
    hide Stacked;
    hide AreBytes;
    hide BaseOk;
    hide Uses;
    assert PopStep(e, e', m, m', r, held) by {
      forall x: Reg | Kept(e, r, held, x)
        ensures m'.regs[x] == m.regs[x]
      {
        assert x !in {MEM_BASE} && x !in {MEM_OFFSET, TMP, e.SpReg(r), reg};
      }
    }
  }

  lemma SetMemBaseBooks(e: Emitter, base: nat)
    ensures SameBooks(e, e.SetMemBase(base))
  {
  }

  lemma ReadBackBooks(e: Emitter, reg: Reg, short: bool, r: bool)
    ensures SameBooks(e, e.ReadBack(reg, short, r)) && e.ReadBack(reg, short, r).memBase == e.memBase
    ensures e.ReadBack(reg, short, r).Hazard() == e.Hazard()
  {
  }

  // ---- from cells ----

  lemma SuffixValue(view: Uxn.Bytes, v: nat, short: bool)
    requires v < (if short then 0x1_0000 else 256)
    requires |view| >= |Uxn.BytesOf(v, short)| && view[|view| - |Uxn.BytesOf(v, short)|..] == Uxn.BytesOf(v, short)
    ensures Uxn.PopValue(view, short) == Uxn.Some((view[..|view| - |Uxn.BytesOf(v, short)|], v))
  {
    var b := view[|view| - |Uxn.BytesOf(v, short)|..];
    assert b[0] == view[|view| - |b|] && b[|b| - 1] == view[|view| - 1];
  }

  lemma TakeView(cells: seq<Cell>, ring: seq<nat>, p: nat, regs: seq<nat>, view: Uxn.Bytes, origin: nat, short: bool)
    requires Stacked(cells, ring, p, regs, view, origin, true) && InRange(cells, regs)
    requires cells != [] && cells[|cells| - 1].isShort == short
    ensures var n := |cells| - 1; var w := if short then 2 else 1;
      && |view| >= w
      && Uxn.PopValue(view, short) == Uxn.Some((view[..|view| - w], At(regs, cells[n].reg)))
      && Stacked(cells[..n], ring, p, regs, view[..|view| - w], origin, true) && InRange(cells[..n], regs)
  {
    StackedFromCell(cells, ring, p, regs, view, origin);
    hide Stacked;
    SuffixValue(view, At(regs, cells[|cells| - 1].reg), short);
  }

  lemma SameStep(e: Emitter, cells: seq<Cell>, m: Machine, r: bool, held: multiset<Reg>)
    requires Calm(m) && BaseOk(e, m) && cells <= e.Cache(r)
    ensures PopStep(e, e.WithCache(r, cells), m, m, r, held)
  {
    hide AreBytes;
  }

  /** The top cell has the wanted width: its register is the result. */
  lemma TakePops(e: Emitter, short: bool, r: bool, m: Machine, held: multiset<Reg>, view: Uxn.Bytes, origin: nat)
    requires Ready(e, m, r, held, view, origin) && e.Cache(r) != []
    requires e.Cache(r)[|e.Cache(r)| - 1].isShort == short
    ensures Uxn.PopValue(view, short).Some?
    ensures var cells := e.Cache(r); var n := |cells| - 1;
      var (view', v) := Uxn.PopValue(view, short).value;
      Popped(e, e.WithCache(r, cells[..n]), m, m, r, held, cells[n].reg, v, view', origin)
  {
    hide AreBytes;
    var cells := e.Cache(r);
    var n := |cells| - 1;
    assert IsOp(cells[n].reg) by { assert GoodCache(cells); }
    hide Inv;
    hide Stacked;
    TakeView(cells, Ring(m, r), Ptr(m, e.SpReg(r)), m.regs, view, origin, short);
    SameStep(e, cells[..n], m, r, held);
    hide PopStep;
    hide InRange;
    assert cells[n].reg != e.SpReg(r);
  }

  /** A register with one holder that is the top cell is nowhere else. */
  lemma SoleCell(e: Emitter, held: multiset<Reg>, r: bool)
    requires Inv(e, held) && e.Cache(r) != []
    requires e.Count(e.Cache(r)[|e.Cache(r)| - 1].reg) == 1
    ensures var cells := e.Cache(r); var n := |cells| - 1; var x := cells[n].reg;
      IsOp(x) && held[x] == 0 && Uses(e.Cache(!r), x) == 0 && Unused(cells[..n], x)
  {
    var cells := e.Cache(r);
    var n := |cells| - 1;
    assert GoodCache(cells);
    UsesUnused(cells[..n], cells[n].reg);
  }

  /** The view after the top cell "x" has been changed, and its bytes replaced. */
  lemma RetopView(cells: seq<Cell>, c: Cell, ring: seq<nat>, p: nat, regs: seq<nat>, regs': seq<nat>,
                  st: Uxn.Bytes, origin: nat)
    requires cells != [] && Stacked(cells, ring, p, regs, st, origin, true)
    requires c.isShort ==> cells[|cells| - 1].isShort
    requires forall i :: 0 <= i < |cells| - 1 ==> At(regs', cells[i].reg) == At(regs, cells[i].reg)
    ensures var n := |cells| - 1; var w := if cells[n].isShort then 2 else 1;
      && |st| >= w
      && Stacked(cells[n := c], ring, p, regs', st[..|st| - w] + Uxn.BytesOf(At(regs', c.reg), c.isShort), origin, true)
  {
    var n := |cells| - 1;
    var w := if cells[n].isShort then 2 else 1;
    StackedFromCell(cells, ring, p, regs, st, origin);
    assert |st| <= 256;
    hide Stacked;
    StackedFrame(cells[..n], ring, p, regs, regs', st[..|st| - w], origin, true);
    assert |st[..|st| - w]| + (if c.isShort then 2 else 1) <= 256;
    StackedOnTop(cells[..n], c, ring, p, regs', st[..|st| - w], origin);
    assert cells[..n] + [c] == cells[n := c];
  }

  /** The machine-level effect of splitting a short. */
  lemma SplitRuns(e: Emitter, reg: Reg, top: Reg, m0: Machine)
    requires Calm(Run(e, m0)) && IsOp(reg) && IsOp(top) && reg != top
    ensures var m := Run(e, m0);
      var e' := e.Emit(Op1(MOV_U8, R(reg), R(top))).Emit(Op2(Alu.LSHR, top, R(top), Imm(8)));
      Run(e', m0) == m.(regs := m.regs[reg := m.regs[top] % 256][top := m.regs[top] / 256])
  {
    hide Exec;
    hide Step;
    hide AreBytes;
    var m := Run(e, m0);
    StepMov(MOV_U8, reg, top, m);
    LshrByte(top, Step(Op1(MOV_U8, R(reg), R(top)), m));
  }

  /** A step that changes registers nobody else holds. */
  lemma ChangeStep(e: Emitter, e': Emitter, m: Machine, m': Machine, r: bool, held: multiset<Reg>, changed: set<Reg>)
    requires Calm(m) && OnlyRegs(m, m', changed) && BaseOk(e', m')
    requires e'.Cache(!r) == e.Cache(!r) && e'.SpReg(r) == e.SpReg(r) && |e'.Cache(r)| <= |e.Cache(r)|
    requires forall i :: 0 <= i < |e'.Cache(r)| ==>
      e'.Cache(r)[i].reg == e.Cache(r)[i].reg && e'.Cache(r)[i].needFlush == e.Cache(r)[i].needFlush
    requires forall x :: x in changed ==> !Kept(e, r, held, x)
    ensures PopStep(e, e', m, m', r, held)
  {
    hide AreBytes;
    hide BaseOk;
  }

  lemma BaseFrame(e: Emitter, e': Emitter, m: Machine, m': Machine, changed: set<Reg>)
    requires BaseOk(e, m) && OnlyRegs(m, m', changed) && e'.memBase == e.memBase
    requires MEM_BASE !in changed && VM !in changed
    ensures BaseOk(e', m')
  {
    hide Address;
  }

  /** The high byte of the top short, and what is left without its low byte. */
  lemma ShortenByOne(view: Uxn.Bytes, t: nat)
    requires |view| >= 2 && view[|view| - 2..] == Uxn.BytesOf(t, true) && t < 0x1_0000
    ensures view[|view| - 1] == t % 256 && t / 256 < 256
    ensures view[..|view| - 2] + Uxn.BytesOf(t / 256, false) == view[..|view| - 1]
  {
    assert view[|view| - 2] == view[|view| - 2..][0] && view[|view| - 1] == view[|view| - 2..][1];
  }

  lemma SplitView(cells: seq<Cell>, ring: seq<nat>, p: nat, regs: seq<nat>, regs': seq<nat>, reg: Reg,
                  view: Uxn.Bytes, origin: nat)
    requires cells != [] && cells[|cells| - 1].isShort && GoodCache(cells)
    requires Stacked(cells, ring, p, regs, view, origin, true) && InRange(cells, regs)
    requires var n := |cells| - 1; var top := cells[n].reg;
      && reg < |regs| && top < |regs| && reg != top && Unused(cells, reg) && Unused(cells[..n], top)
      && regs' == regs[reg := regs[top] % 256][top := regs[top] / 256]
    ensures Uxn.PopValue(view, false) == Uxn.Some((view[..|view| - 1], regs'[reg]))
    ensures var n := |cells| - 1; var cells' := cells[n := cells[n].(isShort := false)];
      Stacked(cells', ring, p, regs', view[..|view| - 1], origin, true) && InRange(cells', regs')
  {
    var n := |cells| - 1;
    var t := At(regs, cells[n].reg);
    var c := cells[n].(isShort := false);
    assert forall i :: 0 <= i < n ==> cells[..n][i] == cells[i];
    StackedFromCell(cells, ring, p, regs, view, origin);
    RetopView(cells, c, ring, p, regs, regs', view, origin);
    hide Stacked;
    assert At(regs', c.reg) == t / 256 && t < 0x1_0000;
    ShortenByOne(view, t);
  }

  /** The registers a split works with: a new one, and the top cell's, which nobody else holds. */
  lemma SplitRegs(e: Emitter, r: bool, held: multiset<Reg>)
    requires Inv(e, held) && |held| < NUM_OPS && e.Cache(r) != [] && !e.Split(r).0.Hazard()
    ensures var cells := e.Cache(r); var n := |cells| - 1; var top := cells[n].reg;
      var (e1, reg) := e.AllocInPop();
      && e1 == e.Retain(reg) && e1.Count(top) == 1 && !e1.Hazard()
      && IsOp(reg) && IsOp(top) && reg != top && Unused(cells, reg) && Unused(cells[..n], top)
      && held[reg] == held[top] == Uses(e.Cache(!r), reg) == Uses(e.Cache(!r), top) == 0
  {
    hide Emitter.AllocInPop;
    hide Emitter.PopFromMem;
    hide Uses;
    hide Unused;
    hide GoodCache;
    hide Counted;
    var cells := e.Cache(r);
    var top := cells[|cells| - 1].reg;
    AllocInPopInv(e, held);
    var (e1, reg) := e.AllocInPop();
    assert !e1.failed;
    assert !e1.Hazard();
    AllocCalm(e);
    assert e1.Cache(r) == cells;
    assert e1.Count(top) == 1;
    hide Inv;
    hide Emitter.Split;
    SoleCell(e1, held + multiset{reg}, r);
    SoleHolder(e1, held + multiset{reg}, reg);
    assert (held + multiset{reg})[top] == held[top] + (if top == reg then 1 else 0);
    assert (held + multiset{reg})[reg] == held[reg] + 1;
  }

  lemma SplitPops(e: Emitter, r: bool, m0: Machine, held: multiset<Reg>, view: Uxn.Bytes, origin: nat)
    requires Ready(e, Run(e, m0), r, held, view, origin) && e.Cache(r) != []
    requires e.Cache(r)[|e.Cache(r)| - 1].isShort
    requires !e.Split(r).0.Hazard()
    ensures Uxn.PopValue(view, false).Some?
    ensures var (e', reg) := e.Split(r);
      var (view', v) := Uxn.PopValue(view, false).value;
      Popped(e, e', Run(e, m0), Run(e', m0), r, held, reg, v, view', origin)
  {
    hide Exec;
    hide Viewing;
    hide Popped;
    hide PointerOk;
    hide BaseOk;
    hide Emitter.AllocInPop;
    hide Emitter.PopFromMem;
    SplitRegs(e, r, held);
    hide Inv;
    hide Unused;
    hide Uses;
    var cells := e.Cache(r);
    var n := |cells| - 1;
    var top := cells[n].reg;
    var (e1, reg) := e.AllocInPop();
    var m := Run(e, m0);
    var e2 := e1.Own(top);
    assert Run(e2, m0) == m;
    SplitRuns(e2, reg, top, m0);
    hide Calm;
    var e3 := e2.Emit(Op1(MOV_U8, R(reg), R(top))).Emit(Op2(Alu.LSHR, top, R(top), Imm(8)));
    var e4 := e3.WithCache(r, cells[n := cells[n].(isShort := false)]);
    assert e.Split(r) == (e4, reg);
    hide Emitter.Split;
    SplitFinish(e, e4, m, Run(e3, m0), r, held, reg, view, origin);
  }

  lemma SplitFinish(e: Emitter, e': Emitter, m: Machine, m': Machine, r: bool, held: multiset<Reg>, reg: Reg,
                    view: Uxn.Bytes, origin: nat)
    requires Ready(e, m, r, held, view, origin) && e.Cache(r) != []
    requires var cells := e.Cache(r); var n := |cells| - 1; var top := cells[n].reg;
      && cells[n].isShort && e'.Cache(r) == cells[n := cells[n].(isShort := false)]
      && IsOp(reg) && IsOp(top) && reg != top
      && Unused(cells, reg) && Unused(cells[..n], top)
      && held[reg] == held[top] == Uses(e.Cache(!r), reg) == Uses(e.Cache(!r), top) == 0
      && |m.regs| == NUM_REGS && m' == m.(regs := m.regs[reg := m.regs[top] % 256][top := m.regs[top] / 256])
    requires e'.Cache(!r) == e.Cache(!r) && e'.SpReg(r) == e.SpReg(r) && e'.memBase == e.memBase
    ensures Uxn.PopValue(view, false).Some?
    ensures var (view', v) := Uxn.PopValue(view, false).value;
      Popped(e, e', m, m', r, held, reg, v, view', origin)
  {
    hide AreBytes;
    hide Stacked;
    hide Uses;
    var cells := e.Cache(r);
    var top := cells[|cells| - 1].reg;
    assert GoodCache(cells);
    hide Inv;
    SplitView(cells, Ring(m, r), Ptr(m, e.SpReg(r)), m.regs, m'.regs, reg, view, origin);
    BaseFrame(e, e', m, m', {reg, top});
    hide BaseOk;
    ChangeStep(e, e', m, m', r, held, {reg, top});
    hide PopStep;
    hide InRange;
  }

  lemma PopByteMatches(e: Emitter, r: bool, m0: Machine, held: multiset<Reg>, view: Uxn.Bytes, origin: nat)
    requires Ready(e, Run(e, m0), r, held, view, origin)
    requires Uxn.PopValue(view, false).Some? && !e.PopByte(r).0.Hazard()
    ensures var (e', reg) := e.PopByte(r);
      var (view', v) := Uxn.PopValue(view, false).value;
      Popped(e, e', Run(e, m0), Run(e', m0), r, held, reg, v, view', origin)
  {
    hide Exec;
    hide Ready;
    hide Popped;
    hide Emitter.Split;
    hide Emitter.PopFromMem;
    var cells := e.Cache(r);
    if cells == [] {
      FromMemPops(e, false, r, m0, held, view, origin);
    } else if cells[|cells| - 1].isShort {
      SplitPops(e, r, m0, held, view, origin);
    } else {
      TakePops(e, false, r, Run(e, m0), held, view, origin);
      assert Run(e.PopByte(r).0, m0) == Run(e, m0);
    }
  }

  // ---- joining two bytes ----

  lemma JoinRuns(e: Emitter, hi: Reg, low: Reg, m0: Machine)
    requires Calm(Run(e, m0)) && IsOp(hi) && IsOp(low) && hi != low
    requires Run(e, m0).regs[hi] < 256 && Run(e, m0).regs[low] < 256
    ensures var m := Run(e, m0);
      var e' := e.Emit(Op2(Alu.SHL, hi, R(hi), Imm(8))).Emit(Op2(Alu.OR, hi, R(hi), R(low)));
      Run(e', m0) == m.(regs := m.regs[hi := m.regs[hi] * 256 + m.regs[low]])
  {
    hide Exec;
    hide Step;
    hide AreBytes;
    var m := Run(e, m0);
    ShlByte(hi, m);
    OrBytes(hi, low, m.regs[hi], m.regs[low], Step(Op2(Alu.SHL, hi, R(hi), Imm(8)), m));
  }

  /** Two pop steps in a row, the second holding one register more. */
  lemma StepsCompose(e: Emitter, e1: Emitter, e2: Emitter, m: Machine, m1: Machine, m2: Machine,
                     r: bool, held: multiset<Reg>, held1: multiset<Reg>)
    requires PopStep(e, e1, m, m1, r, held) && PopStep(e1, e2, m1, m2, r, held1)
    requires forall x: Reg :: held[x] > 0 ==> held1[x] > 0
    ensures PopStep(e, e2, m, m2, r, held)
  {
    hide AreBytes;
    hide BaseOk;
    forall x: Reg | Kept(e, r, held, x)
      ensures m2.regs[x] == m.regs[x]
    {
      assert Kept(e1, r, held1, x);
    }
  }

  lemma ViewBytes(e: Emitter, m: Machine, r: bool, view: Uxn.Bytes, origin: nat)
    requires Viewing(e, m, r, view, origin) && m.Shaped()
    ensures AreBytes(view)
  {
    var cells := e.Cache(r);
    var p := Ptr(m, e.SpReg(r));
    DecodedBytes(cells, m.regs, true);
    LiveBytes(Ring(m, r), p, |view| - |Decoded(cells, m.regs, true)|);
    hide Live;
    hide Decoded;
  }

  lemma {:induction false} DecodedBytes(cells: seq<Cell>, regs: seq<nat>, all: bool)
    ensures AreBytes(Decoded(cells, regs, all))
    decreases |cells|
  {
    if cells != [] {
      DecodedBytes(cells[..|cells| - 1], regs, all);
    }
  }

  /** The result register has changed; the view, which does not depend on it, stays. */
  lemma ResultChanged(e: Emitter, e': Emitter, m: Machine, m': Machine, r: bool, held: multiset<Reg>,
                      reg: Reg, view: Uxn.Bytes, origin: nat)
    requires Calm(m) && BaseOk(e, m) && Viewing(e, m, r, view, origin) && OnlyRegs(m, m', {reg}) && IsOp(reg)
    requires e'.wcache == e.wcache && e'.rcache == e.rcache && e'.SpReg(r) == e.SpReg(r) && e'.memBase == e.memBase
    requires Unused(e.Cache(r), reg) && held[reg] == 0 && Uses(e.Cache(!r), reg) == 0 && reg != e.SpReg(r)
    ensures PopStep(e, e', m, m', r, held) && Viewing(e', m', r, view, origin) && Calm(m')
  {
    hide AreBytes;
    hide Stacked;
    hide Uses;
    BaseFrame(e, e', m, m', {reg});
    hide BaseOk;
    ChangeStep(e, e', m, m', r, held, {reg});
    hide PopStep;
    ViewFrame(e, m, e', m', r, view, origin);
  }

  lemma ReadyBelow(e: Emitter, m: Machine, r: bool, held: multiset<Reg>, view: Uxn.Bytes, origin: nat)
    requires Ready(e, m, r, held, view, origin) && |held| < NUM_OPS - 1 && e.Cache(r) != []
    requires !e.Cache(r)[|e.Cache(r)| - 1].isShort
    ensures var cells := e.Cache(r); var n := |cells| - 1;
      && |view| > 0 && IsOp(cells[n].reg) && cells[n].reg != e.SpReg(r)
      && At(m.regs, cells[n].reg) == view[|view| - 1] < 256
      && Ready(e.WithCache(r, cells[..n]), m, r, held + multiset{cells[n].reg}, view[..|view| - 1], origin)
      && PopStep(e, e.WithCache(r, cells[..n]), m, m, r, held)
  {
    hide AreBytes;
    hide Stacked;
    var cells := e.Cache(r);
    var n := |cells| - 1;
    TakeInv(e, held, r);
    hide Inv;
    TakePops(e, false, r, m, held, view, origin);
    assert cells[..n] <= cells;
  }

  lemma ByteAt(s: Uxn.Bytes, i: nat)
    requires AreBytes(s) && i < |s|
    ensures s[i] < 256
  {
  }

  /** The pop of the high byte, while the low one is held. */
  lemma HighPops(e: Emitter, r: bool, m0: Machine, held: multiset<Reg>, low: Reg, view: Uxn.Bytes, origin: nat)
    requires Ready(e, Run(e, m0), r, held + multiset{low}, view, origin) && |view| > 0
    requires IsOp(low) && low != e.SpReg(r)
    requires !e.PopByte(r).0.Hazard() && e.PopByte(r).0.Count(e.PopByte(r).1) == 1
    ensures var (e', hi) := e.PopByte(r); var m' := Run(e', m0);
      && Popped(e, e', Run(e, m0), m', r, held + multiset{low}, hi, view[|view| - 1], view[..|view| - 1], origin)
      && Calm(m') && (held + multiset{low})[hi] == 0 && Unused(e'.Cache(r), hi) && Uses(e'.Cache(!r), hi) == 0
      && At(m'.regs, low) == At(Run(e, m0).regs, low) && view[|view| - 1] < 256
  {
    hide Exec;
    hide Step;
    hide AreBytes;
    hide Stacked;
    hide Emitter.PopByte;
    var held1 := held + multiset{low};
    var (e', hi) := e.PopByte(r);
    PopByteMatches(e, r, m0, held1, view, origin);
    PopByteInv(e, held1, r);
    SoleHolder(e', held1 + multiset{hi}, hi);
    hide Inv;
    assert (held1 + multiset{hi})[hi] == held1[hi] + 1;
    ViewBytes(e, Run(e, m0), r, view, origin);
    ByteAt(view, |view| - 1);
    assert Kept(e, r, held1, low);
  }

  lemma JoinPops(e: Emitter, r: bool, m0: Machine, held: multiset<Reg>, view: Uxn.Bytes, origin: nat)
    requires Ready(e, Run(e, m0), r, held, view, origin) && |held| < NUM_OPS - 1 && e.Cache(r) != []
    requires !e.Cache(r)[|e.Cache(r)| - 1].isShort && |view| >= 2
    requires !e.PopShort(r).0.Hazard()
    ensures var (e', reg) := e.PopShort(r);
      Popped(e, e', Run(e, m0), Run(e', m0), r, held, reg, view[|view| - 2] * 256 + view[|view| - 1], view[..|view| - 2], origin)
  {
    hide Exec;
    hide Ready;
    hide PopStep;
    hide Popped;
    hide Calm;
    hide Unused;
    hide Uses;
    hide Emitter.PopByte;
    hide Emitter.PopFromMem;
    var cells := e.Cache(r);
    var n := |cells| - 1;
    var low := cells[n].reg;
    var m := Run(e, m0);
    ReadyBelow(e, m, r, held, view, origin);
    var e1 := e.WithCache(r, cells[..n]);
    var view1 := view[..|view| - 1];
    assert Run(e1, m0) == m;
    var (e2, hi) := e1.PopByte(r);
    HighPops(e1, r, m0, held, low, view1, origin);
    assert view1[|view1| - 1] == view[|view| - 2] && view1[..|view1| - 1] == view[..|view| - 2];
    JoinFinish(e, e1, e2, m, m0, r, held, held + multiset{low}, low, hi, view[|view| - 2], view[|view| - 1],
      view[..|view| - 2], origin);
    assert e.PopShort(r) == (e2.Own(hi).Emit(Op2(Alu.SHL, hi, R(hi), Imm(8))).Emit(Op2(Alu.OR, hi, R(hi), R(low))).Release(low), hi);
  }

  lemma ReleaseKeeps(e: Emitter, reg: Reg)
    ensures var e' := e.Release(reg);
      && e'.code == e.code && e'.memBase == e.memBase && e'.wcache == e.wcache && e'.rcache == e.rcache
      && e'.wspReg == e.wspReg && e'.rspReg == e.rspReg
  {
  }

  lemma JoinFinish(e: Emitter, e1: Emitter, e2: Emitter, m: Machine, m0: Machine, r: bool, held: multiset<Reg>,
                   held1: multiset<Reg>, low: Reg, hi: Reg, a: nat, b: nat, view: Uxn.Bytes, origin: nat)
    requires PopStep(e, e1, m, m, r, held) && e1.SpReg(r) == e.SpReg(r) && e1.Cache(!r) == e.Cache(!r)
    requires Popped(e1, e2, m, Run(e2, m0), r, held1, hi, a, view, origin) && Calm(Run(e2, m0))
    requires held1 == held + multiset{low} && held1[hi] == 0 && IsOp(low)
    requires Unused(e2.Cache(r), hi) && Uses(e2.Cache(!r), hi) == 0
    requires a < 256 && b < 256 && At(Run(e2, m0).regs, low) == b
    ensures var e' := e2.Own(hi).Emit(Op2(Alu.SHL, hi, R(hi), Imm(8))).Emit(Op2(Alu.OR, hi, R(hi), R(low))).Release(low);
      Popped(e, e', m, Run(e', m0), r, held, hi, a * 256 + b, view, origin)
  {
    hide Exec;
    hide Step;
    hide AreBytes;
    hide Stacked;
    hide Uses;
    hide Viewing;
    assert hi != low && held[hi] == 0;
    var m2 := Run(e2, m0);
    var e3 := e2.Own(hi);
    JoinRuns(e3, hi, low, m0);
    var e4 := e3.Emit(Op2(Alu.SHL, hi, R(hi), Imm(8))).Emit(Op2(Alu.OR, hi, R(hi), R(low)));
    var e' := e4.Release(low);
    var m' := Run(e4, m0);
    ReleaseKeeps(e4, low);
    hide Emitter.Release;
    assert Run(e', m0) == m' && Run(e3, m0) == m2;
    assert e'.wcache == e2.wcache && e'.rcache == e2.rcache && e'.memBase == e2.memBase && e'.SpReg(r) == e2.SpReg(r);
    assert OnlyRegs(m2, m', {hi}) && m'.regs[hi] == a * 256 + b;
    assert PopStep(e1, e2, m, m2, r, held1);
    assert BaseOk(e2, m2);
    hide PopStep;
    hide Unused;
    hide Kept;
    ResultChanged(e2, e', m2, m', r, held1, hi, view, origin);
    hide BaseOk;
    StepsCompose(e1, e2, e', m, m2, m', r, held1, held1);
    StepsCompose(e, e1, e', m, m, m', r, held, held1);
  }

  /** A pop of either width takes exactly the top of the view. */
  lemma PopMatches(e: Emitter, short: bool, r: bool, m0: Machine, held: multiset<Reg>, view: Uxn.Bytes, origin: nat)
    requires Ready(e, Run(e, m0), r, held, view, origin) && |held| < NUM_OPS - 1
    requires Uxn.PopValue(view, short).Some? && !e.CachePop(short, r).0.Hazard()
    ensures var (e', reg) := e.CachePop(short, r);
      var (view', v) := Uxn.PopValue(view, short).value;
      Popped(e, e', Run(e, m0), Run(e', m0), r, held, reg, v, view', origin)
  {
    hide Exec;
    hide Ready;
    hide Popped;
    hide Emitter.PopFromMem;
    hide Emitter.JoinBelow;
    hide Emitter.PopByte;
    var cells := e.Cache(r);
    if !short {
      PopByteMatches(e, r, m0, held, view, origin);
    } else if cells == [] {
      FromMemPops(e, true, r, m0, held, view, origin);
    } else if cells[|cells| - 1].isShort {
      TakePops(e, true, r, Run(e, m0), held, view, origin);
      assert Run(e.PopShort(r).0, m0) == Run(e, m0);
    } else {
      JoinPops(e, r, m0, held, view, origin);
    }
  }
}
