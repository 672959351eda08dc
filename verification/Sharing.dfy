/** Without DUP and OVR no register ever has two holders when it is changed in place. */
module Sharing {
  import opened Target
  import opened Emission
  import opened Allocator
  import opened Compiler
  import Uxn

  /** No register has more than one holder. */
  ghost predicate Lone(e: Emitter) {
    forall i :: 0 <= i < |e.refs| ==> e.refs[i] <= 1
  }

  /** No register occurs in two cells. */
  ghost predicate LoneCells(e: Emitter) {
    forall reg: Reg :: IsOp(reg) ==> Uses(e.wcache, reg) + Uses(e.rcache, reg) <= 1
  }

  /** The state in the middle of an opcode's pops. */
  ghost predicate Tidy(e: Emitter, held: multiset<Reg>) {
    Inv(e, held) && Lone(e)
  }

  lemma HeldOnce(e: Emitter, held: multiset<Reg>, x: Reg)
    requires Tidy(e, held) && x in held
    ensures held[x] == 1 && e.Count(x) == 1 && Uses(e.wcache, x) == 0 && Uses(e.rcache, x) == 0
  {
    assert held[x] >= 1;
  }

  lemma CellOnce(e: Emitter, held: multiset<Reg>, r: bool)
    requires Tidy(e, held) && e.Cache(r) != []
    ensures e.Count(e.Cache(r)[|e.Cache(r)| - 1].reg) == 1
  {
    assert GoodCache(e.Cache(r));
    assert Uses(e.Cache(r), e.Cache(r)[|e.Cache(r)| - 1].reg) >= 1;
  }

  // ---- spills and allocations only ever free registers first ----

  lemma ReleaseLone(e: Emitter, reg: Reg)
    requires Lone(e)
    ensures Lone(e.Release(reg)) && e.Release(reg).sharedWrite == e.sharedWrite
  {
  }

  lemma DoPushShares(e: Emitter, cell: Cell, r: bool)
    ensures SameBooks(e, e.DoPush(cell, r)) && e.DoPush(cell, r).sharedWrite == e.sharedWrite
  {
    hide Exec;
  }

  lemma SpillCaches(e: Emitter, r: bool)
    requires e.Cache(r) != []
    ensures e.Spill(r).Cache(!r) == e.Cache(!r) && e.Spill(r).Cache(r) == e.Cache(r)[1..]
    ensures e.Spill(r).sharedWrite == e.sharedWrite
  {
    hide Emitter.DoPush;
    hide Exec;
    hide Emitter.Grows;
    DoPushShares(e, e.Cache(r)[0], r);
  }

  lemma SpillLone(e: Emitter, r: bool)
    requires Lone(e)
    ensures Lone(e.Spill(r)) && e.Spill(r).sharedWrite == e.sharedWrite
  {
    if e.Cache(r) != [] {
      var first := e.Cache(r)[0];
      DoPushShares(e, first, r);
      hide Emitter.DoPush;
      ReleaseLone(if first.needFlush then e.DoPush(first, r) else e, first.reg);
      hide Emitter.Release;
    }
  }

  lemma {:induction false} AllocLone(e: Emitter)
    requires Lone(e)
    ensures Lone(e.Alloc().0) && e.Alloc().0.sharedWrite == e.sharedWrite
    decreases e.Cached()
  {
    hide Emitter.Spill;
    FindFreeFinds(e.refs, 0);
    if FindFree(e.refs, 0) == 0 && e.Cached() > 0 {
      var first := Uxn.FlagR(e.opcode);
      var side := if e.Cache(first) != [] then first else !first;
      SpillLone(e, side);
      AllocLone(e.Spill(side));
    }
  }

  lemma SpillTop(e: Emitter, side: bool, r: bool)
    ensures var cells, cells' := e.Cache(r), e.Spill(side).Cache(r);
      |cells'| <= |cells| && (cells' != [] ==> cells'[|cells'| - 1] == cells[|cells| - 1])
  {
    if e.Cache(side) != [] {
      SpillCaches(e, side);
      hide Emitter.Spill;
    }
  }

  /** If an allocation leaves a cache non-empty, its top cell is the old one. */
  lemma {:induction false} AllocTop(e: Emitter, r: bool)
    ensures var cells, cells' := e.Cache(r), e.Alloc().0.Cache(r);
      |cells'| <= |cells| && (cells' != [] ==> cells'[|cells'| - 1] == cells[|cells| - 1])
    decreases e.Cached()
  {
    hide Emitter.Spill;
    if FindFree(e.refs, 0) == 0 && e.Cached() > 0 {
      var first := Uxn.FlagR(e.opcode);
      var side := if e.Cache(first) != [] then first else !first;
      SpillTop(e, side, r);
      AllocTop(e.Spill(side), r);
    }
  }

  // ---- pops ----

  lemma FromMemLone(e: Emitter, short: bool, r: bool)
    requires Lone(e)
    ensures Lone(e.PopFromMem(short, r).0) && e.PopFromMem(short, r).0.sharedWrite == e.sharedWrite
  {
    hide Emitter.Alloc;
    AllocLone(e.SetMemBase(StackBase(r)));
  }

  lemma OwnLone(e: Emitter, x: Reg, i: Instr, j: Instr)
    requires Lone(e) && e.Count(x) == 1
    ensures var e' := e.Own(x).Emit(i).Emit(j); Lone(e') && e'.sharedWrite == e.sharedWrite
  {
    hide Exec;
  }

  lemma WithCacheLone(e: Emitter, r: bool, cells: seq<Cell>)
    requires Lone(e)
    ensures Lone(e.WithCache(r, cells)) && e.WithCache(r, cells).sharedWrite == e.sharedWrite
  {
  }

  lemma AllocInPopTop(e: Emitter, held: multiset<Reg>, r: bool)
    requires Tidy(e, held) && |held| < NUM_OPS && e.Cache(r) != []
    ensures var (e1, reg) := e.AllocInPop();
      && Lone(e1) && e1.sharedWrite == e.sharedWrite
      && (e1.Cache(r) != [] ==> e1.Count(e.Cache(r)[|e.Cache(r)| - 1].reg) == 1)
  {
    hide Emitter.Alloc;
    AllocInv(e, held);
    AllocLone(e);
    AllocTop(e, r);
    var (e1, reg) := e.AllocInPop();
    hide Inv;
    hide Lone;
    if e1.Cache(r) != [] {
      CellOnce(e1, held + multiset{reg}, r);
    }
  }

  lemma SplitLone(e: Emitter, held: multiset<Reg>, r: bool)
    requires Tidy(e, held) && |held| < NUM_OPS && e.Cache(r) != []
    ensures Lone(e.Split(r).0) && e.Split(r).0.sharedWrite == e.sharedWrite
  {
    hide Emitter.AllocInPop;
    hide Emitter.PopFromMem;
    hide Inv;
    hide Lone;
    AllocInPopTop(e, held, r);
    var cells := e.Cache(r);
    var n := |cells| - 1;
    var (e1, reg) := e.AllocInPop();
    ReleaseLone(e1, reg);
    if e1.Cache(r) == [] {
      FromMemLone(e1.Release(reg), false, r);
    } else {
      var i, j := Op1(MOV_U8, R(reg), R(cells[n].reg)), Op2(Alu.LSHR, cells[n].reg, R(cells[n].reg), Imm(8));
      OwnLone(e1, cells[n].reg, i, j);
      var e2 := e1.Own(cells[n].reg).Emit(i).Emit(j);
      hide Emitter.Own;
      hide Emitter.Emit;
      if |e2.Cache(r)| == n + 1 {
        WithCacheLone(e2, r, e2.Cache(r)[n := e2.Cache(r)[n].(isShort := false)]);
      }
    }
  }

  lemma PopByteLone(e: Emitter, held: multiset<Reg>, r: bool)
    requires Tidy(e, held) && |held| < NUM_OPS
    ensures Tidy(e.PopByte(r).0, held + multiset{e.PopByte(r).1}) && e.PopByte(r).0.sharedWrite == e.sharedWrite
  {
    hide Emitter.Split;
    hide Emitter.PopFromMem;
    PopByteInv(e, held, r);
    var cells := e.Cache(r);
    if cells == [] {
      FromMemLone(e, false, r);
    } else if cells[|cells| - 1].isShort {
      SplitLone(e, held, r);
    }
    hide Inv;
  }

  lemma JoinLone(e: Emitter, held: multiset<Reg>, r: bool, low: Reg)
    requires Tidy(e, held) && |held| < NUM_OPS
    ensures Lone(e.JoinBelow(r, low).0) && e.JoinBelow(r, low).0.sharedWrite == e.sharedWrite
  {
    hide Emitter.PopByte;
    PopByteLone(e, held, r);
    var (e1, hi) := e.PopByte(r);
    HeldOnce(e1, held + multiset{hi}, hi);
    hide Inv;
  }

  /** A pop of either width changes no register that somebody else holds. */
  lemma PopLone(e: Emitter, held: multiset<Reg>, short: bool, r: bool)
    requires Tidy(e, held) && |held| < NUM_OPS - 1
    ensures var (e', reg) := e.CachePop(short, r);
      && Tidy(e', held + multiset{reg}) && e'.sharedWrite == e.sharedWrite
      && |held + multiset{reg}| == |held| + 1 && reg in held + multiset{reg} && SameFrame(e, e')
  {
    PopInv(e, held, short, r);
    hide Emitter.JoinBelow;
    hide Emitter.PopByte;
    hide Emitter.PopFromMem;
    var cells := e.Cache(r);
    if !short {
      PopByteLone(e, held, r);
    } else if cells == [] {
      FromMemLone(e, true, r);
    } else if !cells[|cells| - 1].isShort {
      TakeInv(e, held, r);
      JoinLone(e.WithCache(r, cells[..|cells| - 1]), held + multiset{cells[|cells| - 1].reg}, r, cells[|cells| - 1].reg);
    }
    hide Inv;
  }

  lemma SameRefsLone(e: Emitter, e': Emitter)
    requires Lone(e) && e'.refs == e.refs
    ensures Lone(e')
  {
  }

  lemma DiscardByteLone(e: Emitter, held: multiset<Reg>, r: bool)
    requires Tidy(e, held)
    ensures Tidy(e.DiscardByte(r), held) && e.DiscardByte(r).sharedWrite == e.sharedWrite
  {
    DiscardByteInv(e, held, r);
    var cells := e.Cache(r);
    if cells != [] {
      CellOnce(e, held, r);
    }
    hide Inv;
    hide Exec;
    if cells == [] || cells[|cells| - 1].isShort {
      SameRefsLone(e, e.DiscardByte(r));
    } else {
      ReleaseLone(e.WithCache(r, cells[..|cells| - 1]), cells[|cells| - 1].reg);
    }
    hide Lone;
  }

  lemma DroppedTidy(e: Emitter, held: multiset<Reg>, r: bool)
    requires Tidy(e, held) && e.Cache(r) != []
    ensures var n := |e.Cache(r)| - 1; var e' := e.WithCache(r, e.Cache(r)[..n]).Release(e.Cache(r)[n].reg);
      Tidy(e', held) && e'.sharedWrite == e.sharedWrite
  {
    var n := |e.Cache(r)| - 1;
    TakeInv(e, held, r);
    hide Inv;
    ReleaseInv(e.WithCache(r, e.Cache(r)[..n]), held, e.Cache(r)[n].reg);
    ReleaseLone(e.WithCache(r, e.Cache(r)[..n]), e.Cache(r)[n].reg);
    hide Emitter.Release;
  }

  lemma DiscardLone(e: Emitter, held: multiset<Reg>, short: bool, r: bool)
    requires Tidy(e, held)
    ensures Tidy(e.Discard(short, r), held) && e.Discard(short, r).sharedWrite == e.sharedWrite
  {
    DiscardInv(e, held, short, r);
    hide Emitter.DiscardByte;
    hide Inv;
    var cells := e.Cache(r);
    if !short {
      DiscardByteLone(e, held, r);
    } else if cells != [] {
      var n := |cells| - 1;
      DroppedTidy(e, held, r);
      if !cells[n].isShort {
        hide Lone;
        DiscardByteLone(e.WithCache(r, cells[..n]).Release(cells[n].reg), held, r);
      }
    }
  }

  // ---- allocations and in-place changes in the middle of an opcode ----

  lemma AllocTidy(e: Emitter, held: multiset<Reg>)
    requires Tidy(e, held) && |held| < NUM_OPS
    ensures var (e', reg) := e.Alloc();
      && Tidy(e', held + multiset{reg}) && e'.sharedWrite == e.sharedWrite && SameFrame(e, e')
  {
    hide Inv;
    hide Lone;
    hide Emitter.Alloc;
    AllocInv(e, held);
    AllocLone(e);
  }

  /** Emitting code and moving the memory base changes no holder. */
  lemma BooksTidy(e: Emitter, e': Emitter, held: multiset<Reg>)
    requires Tidy(e, held) && SameBooks(e, e')
    ensures Tidy(e', held)
  {
    hide Inv;
    BooksInv(e, e', held);
  }

  lemma RelativeTidy(e: Emitter, held: multiset<Reg>, addr: Reg, pc: nat)
    requires Tidy(e, held) && addr in held
    ensures Tidy(e.Relative(addr, pc), held) && e.Relative(addr, pc).sharedWrite == e.sharedWrite
    ensures SameFrame(e, e.Relative(addr, pc))
  {
    HeldOnce(e, held, addr);
    RelativeBooks(e, addr, pc);
    hide Inv;
    hide Lone;
    BooksTidy(e, e.Relative(addr, pc), held);
  }

  // ---- pushes ----

  ghost predicate Uncached(e: Emitter, x: Reg) {
    Uses(e.wcache, x) + Uses(e.rcache, x) == 0
  }

  /** The state while an opcode pushes its results: no register in two cells. */
  ghost predicate Pushing(e: Emitter, held: multiset<Reg>) {
    Inv(e, held) && LoneCells(e)
  }

  lemma PopsDone(e: Emitter, held: multiset<Reg>)
    requires Tidy(e, held)
    ensures Pushing(e, held)
    ensures forall x :: x in held ==> Uncached(e, x)
  {
    forall x | x in held ensures Uncached(e, x) { HeldOnce(e, held, x); }
  }

  lemma SpillPushing(e: Emitter, held: multiset<Reg>, r: bool)
    requires Pushing(e, held)
    ensures Pushing(e.Spill(r), held) && e.Spill(r).sharedWrite == e.sharedWrite
    ensures forall y: Reg :: Uncached(e, y) ==> Uncached(e.Spill(r), y)
  {
    SpillInv(e, held, r);
    if e.Cache(r) != [] {
      hide Inv;
      SpillCaches(e, r);
      hide Emitter.Spill;
      forall y: Reg { UsesFirst(e.Cache(r), y); }
    }
  }

  lemma AppendUses(cells: seq<Cell>, cell: Cell, y: Reg)
    ensures Uses(cells + [cell], y) == Uses(cells, y) + if cell.reg == y then 1 else 0
  {
    assert (cells + [cell])[..|cells|] == cells;
  }

  lemma AppendPushing(e: Emitter, x: Reg, short: bool, r: bool)
    requires LoneCells(e) && Uncached(e, x)
    ensures var e' := e.WithCache(r, e.Cache(r) + [Cell(x, short, true)]).Retain(x);
      && LoneCells(e') && e'.sharedWrite == e.sharedWrite
      && forall y: Reg :: y != x && Uncached(e, y) ==> Uncached(e', y)
  {
    forall y: Reg { AppendUses(e.Cache(r), Cell(x, short, true), y); }
  }

  lemma PushLone(e: Emitter, held: multiset<Reg>, x: Reg, short: bool, r: bool)
    requires Pushing(e, held) && x in held && Uncached(e, x)
    ensures var e' := e.Push(x, short, r);
      && Pushing(e', held) && e'.sharedWrite == e.sharedWrite && SameFrame(e, e')
      && forall y: Reg :: y != x && Uncached(e, y) ==> Uncached(e', y)
  {
    PushInv(e, held, x, short, r);
    assert e.Count(x) > 0;
    hide Inv;
    if |e.Cache(r)| >= CACHE_SIZE {
      SpillPushing(e, held, r);
      hide Emitter.Spill;
      AppendPushing(e.Spill(r), x, short, r);
    } else {
      AppendPushing(e, x, short, r);
    }
    hide LoneCells;
    hide Uncached;
    hide Emitter.Retain;
  }

  /** Two operands popped one after the other are different registers. */
  lemma HeldApart(e: Emitter, held: multiset<Reg>, x: Reg, y: Reg)
    requires Tidy(e, held) && multiset{x, y} <= held
    ensures x != y
  {
    HeldOnce(e, held, x);
    assert multiset{x, y}[x] <= held[x];
  }
}
