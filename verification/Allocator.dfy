/** Reference counts are exact and six operand registers suffice, in every state the
    emitter can reach, for every opcode and mode, with registers shared between cells. */
module Allocator {
  import opened Target
  import opened Emission
  import Uxn

  /** How often a register occurs in a cache. */
  ghost function Uses(cells: seq<Cell>, reg: Reg): nat {
    if cells == [] then 0
    else Uses(cells[..|cells| - 1], reg) + if cells[|cells| - 1].reg == reg then 1 else 0
  }

  ghost predicate Flushed(cells: seq<Cell>, n: nat) {
    n <= |cells| && forall i :: 0 <= i < n ==> !cells[i].needFlush
  }

  /** Cells that are already in memory come before those that are not. */
  ghost predicate FlushedFirst(cells: seq<Cell>) {
    forall i, j :: 0 <= i < j < |cells| && !cells[j].needFlush ==> !cells[i].needFlush
  }

  ghost predicate GoodCache(cells: seq<Cell>) {
    && |cells| <= CACHE_SIZE
    && (forall i :: 0 <= i < |cells| ==> IsOp(cells[i].reg))
    && FlushedFirst(cells)
  }

  /** Every count is the number of holders: cells of either cache, and the current opcode. */
  ghost predicate Counted(refs: seq<nat>, a: seq<Cell>, b: seq<Cell>, held: multiset<Reg>) {
    && |refs| == NUM_OPS
    && forall reg: Reg :: IsOp(reg) ==> refs[reg - OP_MIN] == Uses(a, reg) + Uses(b, reg) + held[reg]
  }

  /** The emitter's invariant, where "held" are the registers the current opcode holds besides
      those in the caches: no assertion has failed and every count is the number of holders. */
  ghost predicate Inv(e: Emitter, held: multiset<Reg>) {
    && !e.failed
    && GoodCache(e.wcache) && GoodCache(e.rcache)
    && (forall reg :: reg in held ==> IsOp(reg))
    && Counted(e.refs, e.wcache, e.rcache, held)
  }

  /** The parts of the state that only "Begin" changes. */
  ghost predicate SameFrame(e: Emitter, e': Emitter) {
    e'.opcode == e.opcode && e'.wspReg == e.wspReg && e'.rspReg == e.rspReg
  }

  /** "e'" differs from "e" in the code emitted, the memory base and the hazard mark only. */
  ghost predicate SameBooks(e: Emitter, e': Emitter) {
    && e'.refs == e.refs && e'.wcache == e.wcache && e'.rcache == e.rcache && e'.failed == e.failed
    && SameFrame(e, e')
  }

  lemma BooksInv(e: Emitter, e': Emitter, held: multiset<Reg>)
    requires Inv(e, held) && SameBooks(e, e')
    ensures Inv(e', held)
  {
  }

  lemma DoPushBooks(e: Emitter, cell: Cell, r: bool)
    ensures SameBooks(e, e.DoPush(cell, r))
  {
  }

  // ---- how caches and counts change together ----

  lemma {:induction false} UsesFirst(cells: seq<Cell>, reg: Reg)
    requires cells != []
    ensures Uses(cells, reg) == Uses(cells[1..], reg) + if cells[0].reg == reg then 1 else 0
    decreases |cells|
  {
    var n := |cells| - 1;
    if n == 0 {
      assert cells[..0] == [] && cells[1..] == [];
    } else {
      UsesFirst(cells[..n], reg);
      assert cells[1..][..n - 1] == cells[..n][1..];
    }
  }

  lemma {:induction false} UsesSameRegs(a: seq<Cell>, b: seq<Cell>, reg: Reg)
    requires |a| == |b| && forall i :: 0 <= i < |a| ==> a[i].reg == b[i].reg
    ensures Uses(a, reg) == Uses(b, reg)
    decreases |a|
  {
    if a != [] {
      UsesSameRegs(a[..|a| - 1], b[..|b| - 1], reg);
    }
  }

  // ---- registers ----

  lemma {:induction false} FindFreeFinds(refs: seq<nat>, from: nat)
    ensures var reg := FindFree(refs, from);
      if reg == 0 then forall i :: from <= i < |refs| ==> refs[i] > 0
      else OP_MIN + from <= reg < OP_MIN + |refs| && refs[reg - OP_MIN] == 0
    decreases |refs| - from
  {
    if from < |refs| && refs[from] != 0 {
      FindFreeFinds(refs, from + 1);
    }
  }

  /** With nothing cached and all six registers in use, the opcode would have to hold six. */
  lemma SixHeld(e: Emitter, held: multiset<Reg>)
    requires Inv(e, held) && e.Cached() == 0 && FindFree(e.refs, 0) == 0
    ensures |held| >= NUM_OPS
  {
    FindFreeFinds(e.refs, 0);
    var all := multiset{3, 4, 5, 6, 7, 8};
    forall reg | reg in all ensures held[reg] >= 1 {
      assert IsOp(reg);
    }
    assert all <= held;
    assert held == all + (held - all);
    assert |held| == |all| + |held - all|;
  }

  lemma RetainInv(e: Emitter, held: multiset<Reg>, reg: Reg)
    requires Inv(e, held) && IsOp(reg)
    ensures Inv(e.Retain(reg), held + multiset{reg})
    ensures e.Retain(reg).Count(reg) == e.Count(reg) + 1
  {
  }

  lemma ReleaseInv(e: Emitter, held: multiset<Reg>, reg: Reg)
    requires Inv(e, held + multiset{reg}) && IsOp(reg)
    ensures Inv(e.Release(reg), held)
  {
    assert (held + multiset{reg})[reg] >= 1;
  }

  // ---- moving a register between a cache and the current opcode ----

  /** A cell leaves the top of a cache and its register is held. */
  lemma WithCacheInv(e: Emitter, held: multiset<Reg>, held': multiset<Reg>, r: bool, cells: seq<Cell>)
    requires Inv(e, held) && GoodCache(cells)
    requires forall reg :: reg in held' ==> IsOp(reg)
    requires forall reg: Reg :: IsOp(reg) ==> Uses(cells, reg) + held'[reg] == Uses(e.Cache(r), reg) + held[reg]
    ensures Inv(e.WithCache(r, cells), held')
  {
  }

  lemma TakeInv(e: Emitter, held: multiset<Reg>, r: bool)
    requires Inv(e, held) && e.Cache(r) != []
    ensures var cells := e.Cache(r); var n := |cells| - 1;
      Inv(e.WithCache(r, cells[..n]), held + multiset{cells[n].reg}) && IsOp(cells[n].reg)
  {
    var cells := e.Cache(r);
    assert GoodCache(cells);
    WithCacheInv(e, held, held + multiset{cells[|cells| - 1].reg}, r, cells[..|cells| - 1]);
  }

  lemma DropFirstInv(e: Emitter, held: multiset<Reg>, r: bool)
    requires Inv(e, held) && e.Cache(r) != []
    ensures Inv(e.WithCache(r, e.Cache(r)[1..]), held + multiset{e.Cache(r)[0].reg}) && IsOp(e.Cache(r)[0].reg)
  {
    var cells := e.Cache(r);
    assert GoodCache(cells);
    forall reg: Reg { UsesFirst(cells, reg); }
    WithCacheInv(e, held, held + multiset{cells[0].reg}, r, cells[1..]);
  }

  lemma AddInv(e: Emitter, held: multiset<Reg>, r: bool, cell: Cell)
    requires Inv(e, held + multiset{cell.reg}) && |e.Cache(r)| < CACHE_SIZE && IsOp(cell.reg) && cell.needFlush
    ensures Inv(e.WithCache(r, e.Cache(r) + [cell]), held)
  {
    var cells := e.Cache(r);
    assert GoodCache(cells);
    assert (cells + [cell])[..|cells|] == cells;
    WithCacheInv(e, held + multiset{cell.reg}, held, r, cells + [cell]);
  }

  lemma ReplaceInv(e: Emitter, held: multiset<Reg>, r: bool, cells: seq<Cell>)
    requires Inv(e, held) && |cells| == |e.Cache(r)| && FlushedFirst(cells)
    requires forall i :: 0 <= i < |cells| ==> cells[i].reg == e.Cache(r)[i].reg
    ensures Inv(e.WithCache(r, cells), held)
  {
    assert GoodCache(e.Cache(r));
    forall reg: Reg { UsesSameRegs(cells, e.Cache(r), reg); }
    WithCacheInv(e, held, held, r, cells);
  }

  /** The top cell becomes a byte. */
  lemma ReducedInv(e: Emitter, held: multiset<Reg>, r: bool)
    requires Inv(e, held) && e.Cache(r) != []
    ensures var cells := e.Cache(r); var n := |cells| - 1;
      Inv(e.WithCache(r, cells[n := cells[n].(isShort := false)]), held)
  {
    var cells := e.Cache(r);
    assert GoodCache(cells);
    ReplaceInv(e, held, r, cells[|cells| - 1 := cells[|cells| - 1].(isShort := false)]);
  }

  // ---- spilling, allocation ----

  lemma SpillInv(e: Emitter, held: multiset<Reg>, r: bool)
    requires Inv(e, held)
    ensures Inv(e.Spill(r), held) && SameFrame(e, e.Spill(r))
    ensures e.Spill(r).Cache(!r) == e.Cache(!r)
    ensures e.Spill(r).Cache(r) == if e.Cache(r) == [] then [] else e.Cache(r)[1..]
  {
    hide Inv;
    hide Emitter.DoPush;
    var cells := e.Cache(r);
    if cells != [] {
      var e1 := if cells[0].needFlush then e.DoPush(cells[0], r) else e;
      DoPushBooks(e, cells[0], r);
      BooksInv(e, e1, held);
      DropFirstInv(e1, held, r);
      var e2 := e1.WithCache(r, cells[1..]);
      ReleaseInv(e2, held, cells[0].reg);
      assert e1.Release(cells[0].reg).WithCache(r, cells[1..]) == e2.Release(cells[0].reg);
    }
  }

  /** Allocation always succeeds while at most five registers are held, and yields a register
      with no other holder. */
  lemma {:induction false} AllocInv(e: Emitter, held: multiset<Reg>)
    requires Inv(e, held) && |held| < NUM_OPS
    ensures var (e', reg) := e.Alloc();
      && Inv(e', held + multiset{reg}) && IsOp(reg) && e'.Count(reg) == 1 && SameFrame(e, e')
      && e'.Cached() <= e.Cached()
    decreases e.Cached()
  {
    hide Emitter.Spill;
    hide Emitter.Grows;
    FindFreeFinds(e.refs, 0);
    var reg := FindFree(e.refs, 0);
    if reg != 0 {
      RetainInv(e, held, reg);
    } else if e.Cached() == 0 {
      SixHeld(e, held);
    } else {
      var first := Uxn.FlagR(e.opcode);
      var side := if e.Cache(first) != [] then first else !first;
      SpillInv(e, held, side);
      AllocInv(e.Spill(side), held);
    }
  }

  lemma AllocInPopInv(e: Emitter, held: multiset<Reg>)
    requires Inv(e, held) && |held| < NUM_OPS
    ensures var (e', reg) := e.AllocInPop();
      Inv(e', held + multiset{reg}) && IsOp(reg) && e'.Count(reg) == 1 && SameFrame(e, e')
  {
    hide Emitter.Alloc;
    AllocInv(e, held);
  }

  lemma {:induction false} ClearInv(e: Emitter, held: multiset<Reg>, r: bool)
    requires Inv(e, held)
    ensures Inv(e.Clear(r), held) && SameFrame(e, e.Clear(r))
    ensures e.Clear(r).Cache(r) == [] && e.Clear(r).Cache(!r) == e.Cache(!r)
    decreases |e.Cache(r)|
  {
    if e.Cache(r) != [] {
      SpillInv(e, held, r);
      ClearInv(e.Spill(r), held, r);
    }
  }

  lemma FlushOneInv(e: Emitter, held: multiset<Reg>, r: bool, i: nat)
    requires Inv(e, held) && Flushed(e.Cache(r), i) && i < |e.Cache(r)|
    ensures Inv(e.WithCache(r, e.Cache(r)[i := e.Cache(r)[i].(needFlush := false)]), held)
  {
    var cells := e.Cache(r);
    assert GoodCache(cells);
    hide Inv;
    ReplaceInv(e, held, r, cells[i := cells[i].(needFlush := false)]);
  }

  lemma {:induction false} FlushInv(e: Emitter, held: multiset<Reg>, r: bool, from: nat)
    requires Inv(e, held) && Flushed(e.Cache(r), from)
    ensures var e' := e.Flush(r, from);
      Inv(e', held) && Flushed(e'.Cache(r), |e'.Cache(r)|) && SameFrame(e, e') && e'.Cache(!r) == e.Cache(!r)
    decreases |e.Cache(r)| - from
  {
    hide Inv;
    hide Emitter.DoPush;
    var cells := e.Cache(r);
    if from < |cells| {
      if !cells[from].needFlush {
        FlushInv(e, held, r, from + 1);
      } else {
        var e1 := e.DoPush(cells[from], r);
        DoPushBooks(e, cells[from], r);
        BooksInv(e, e1, held);
        FlushOneInv(e1, held, r, from);
        FlushInv(e1.WithCache(r, cells[from := cells[from].(needFlush := false)]), held, r, from + 1);
      }
    }
  }

  // ---- pushes and pops ----

  lemma RetainCommutes(e: Emitter, r: bool, cells: seq<Cell>, reg: Reg)
    ensures e.WithCache(r, cells).Retain(reg) == e.Retain(reg).WithCache(r, cells)
    ensures SameFrame(e, e.WithCache(r, cells).Retain(reg)) && e.Retain(reg).Cache(r) == e.Cache(r)
  {
  }

  lemma AppendInv(e: Emitter, held: multiset<Reg>, reg: Reg, short: bool, r: bool)
    requires Inv(e, held) && reg in held && |e.Cache(r)| < CACHE_SIZE
    ensures var e' := e.WithCache(r, e.Cache(r) + [Cell(reg, short, true)]).Retain(reg);
      Inv(e', held) && SameFrame(e, e')
  {
    assert IsOp(reg);
    hide Inv;
    var cell := Cell(reg, short, true);
    RetainCommutes(e, r, e.Cache(r) + [cell], reg);
    hide Emitter.WithCache;
    RetainInv(e, held, reg);
    hide Emitter.Retain;
    AddInv(e.Retain(reg), held, r, cell);
  }

  lemma PushInv(e: Emitter, held: multiset<Reg>, reg: Reg, short: bool, r: bool)
    requires Inv(e, held) && reg in held
    ensures Inv(e.Push(reg, short, r), held) && SameFrame(e, e.Push(reg, short, r))
  {
    assert e.Count(reg) > 0 && |e.Cache(r)| <= CACHE_SIZE;
    hide Inv;
    hide Emitter.Spill;
    hide Emitter.Retain;
    if |e.Cache(r)| >= CACHE_SIZE {
      SpillInv(e, held, r);
      AppendInv(e.Spill(r), held, reg, short, r);
    } else {
      AppendInv(e, held, reg, short, r);
    }
  }

  lemma PopFromMemInv(e: Emitter, held: multiset<Reg>, short: bool, r: bool)
    requires Inv(e, held) && |held| < NUM_OPS
    ensures var (e', reg) := e.PopFromMem(short, r);
      Inv(e', held + multiset{reg}) && IsOp(reg) && SameFrame(e, e')
  {
    hide Inv;
    hide Emitter.AllocInPop;
    var e0 := e.SetMemBase(StackBase(r));
    BooksInv(e, e0, held);
    AllocInPopInv(e0, held);
    var (e1, reg) := e0.AllocInPop();
    BooksInv(e1, e1.ReadBack(reg, short, r), held + multiset{reg});
  }

  lemma SplitInv(e: Emitter, held: multiset<Reg>, r: bool)
    requires Inv(e, held) && |held| < NUM_OPS && e.Cache(r) != []
    ensures var (e', reg) := e.Split(r);
      Inv(e', held + multiset{reg}) && IsOp(reg) && SameFrame(e, e')
  {
    hide Inv;
    hide Emitter.AllocInPop;
    hide Emitter.PopFromMem;
    AllocInPopInv(e, held);
    var cells := e.Cache(r);
    var n := |cells| - 1;
    var (e1, reg) := e.AllocInPop();
    if e1.Cache(r) == [] {
      ReleaseInv(e1, held, reg);
      PopFromMemInv(e1.Release(reg), held, false, r);
    } else {
      var e2 := e1.Own(cells[n].reg)
                  .Emit(Op1(MOV_U8, R(reg), R(cells[n].reg)))
                  .Emit(Op2(Alu.LSHR, cells[n].reg, R(cells[n].reg), Imm(8)));
      BooksInv(e1, e2, held + multiset{reg});
      if |e2.Cache(r)| == n + 1 {
        ReducedInv(e2, held + multiset{reg}, r);
      }
    }
  }

  lemma PopByteInv(e: Emitter, held: multiset<Reg>, r: bool)
    requires Inv(e, held) && |held| < NUM_OPS
    ensures var (e', reg) := e.PopByte(r);
      Inv(e', held + multiset{reg}) && IsOp(reg) && SameFrame(e, e')
  {
    var cells := e.Cache(r);
    if cells == [] {
      PopFromMemInv(e, held, false, r);
    } else if cells[|cells| - 1].isShort {
      SplitInv(e, held, r);
    } else {
      TakeInv(e, held, r);
    }
  }

  lemma PopShortInv(e: Emitter, held: multiset<Reg>, r: bool)
    requires Inv(e, held) && |held| < NUM_OPS - 1
    ensures var (e', reg) := e.PopShort(r);
      Inv(e', held + multiset{reg}) && IsOp(reg) && SameFrame(e, e')
  {
    hide Inv;
    hide Emitter.PopFromMem;
    hide Emitter.PopByte;
    var cells := e.Cache(r);
    if cells == [] {
      PopFromMemInv(e, held, true, r);
    } else {
      TakeInv(e, held, r);
      var top := cells[|cells| - 1];
      var e1 := e.WithCache(r, cells[..|cells| - 1]);
      if !top.isShort {
        PopByteInv(e1, held + multiset{top.reg}, r);
        var (e2, hi) := e1.PopByte(r);
        var e3 := e2.Own(hi).Emit(Op2(Alu.SHL, hi, R(hi), Imm(8))).Emit(Op2(Alu.OR, hi, R(hi), R(top.reg)));
        assert held + multiset{top.reg} + multiset{hi} == held + multiset{hi} + multiset{top.reg};
        BooksInv(e2, e3, held + multiset{hi} + multiset{top.reg});
        ReleaseInv(e3, held + multiset{hi}, top.reg);
      }
    }
  }

  /** A pop needs room for two registers at most: its result and, while it joins two bytes,
      the low one. */
  lemma PopInv(e: Emitter, held: multiset<Reg>, short: bool, r: bool)
    requires Inv(e, held) && |held| < NUM_OPS - 1
    ensures var (e', reg) := e.CachePop(short, r);
      && Inv(e', held + multiset{reg}) && IsOp(reg) && SameFrame(e, e')
      && |held + multiset{reg}| == |held| + 1
  {
    if short { PopShortInv(e, held, r); } else { PopByteInv(e, held, r); }
  }

  lemma DiscardByteInv(e: Emitter, held: multiset<Reg>, r: bool)
    requires Inv(e, held)
    ensures Inv(e.DiscardByte(r), held) && SameFrame(e, e.DiscardByte(r))
  {
    hide Inv;
    var cells := e.Cache(r);
    if cells == [] {
      BooksInv(e, e.DiscardByte(r), held);
    } else {
      var n := |cells| - 1;
      if cells[n].isShort {
        var e1 := e.Own(cells[n].reg).Emit(Op2(Alu.LSHR, cells[n].reg, R(cells[n].reg), Imm(8)));
        BooksInv(e, e1, held);
        ReducedInv(e1, held, r);
      } else {
        TakeInv(e, held, r);
        ReleaseInv(e.WithCache(r, cells[..n]), held, cells[n].reg);
      }
    }
  }

  lemma DiscardInv(e: Emitter, held: multiset<Reg>, short: bool, r: bool)
    requires Inv(e, held)
    ensures Inv(e.Discard(short, r), held) && SameFrame(e, e.Discard(short, r))
  {
    hide Inv;
    hide Emitter.DiscardByte;
    var cells := e.Cache(r);
    if !short {
      DiscardByteInv(e, held, r);
    } else if cells == [] {
      BooksInv(e, e.Discard(short, r), held);
    } else {
      var n := |cells| - 1;
      TakeInv(e, held, r);
      var e1 := e.WithCache(r, cells[..n]);
      ReleaseInv(e1, held, cells[n].reg);
      DiscardByteInv(e1.Release(cells[n].reg), held, r);
    }
  }

  // ---- the start of an opcode ----

  lemma {:induction false} NumFlushedSplits(cells: seq<Cell>)
    requires FlushedFirst(cells)
    ensures Flushed(cells, NumFlushed(cells))
    ensures forall i :: NumFlushed(cells) <= i < |cells| ==> cells[i].needFlush
    decreases |cells|
  {
    if cells != [] {
      NumFlushedSplits(cells[..|cells| - 1]);
    }
  }

  lemma {:induction false} RetainFromCounts(e: Emitter, r: bool, from: nat)
    requires |e.refs| == NUM_OPS && from <= |e.Cache(r)|
    requires forall i :: 0 <= i < |e.Cache(r)| ==> IsOp(e.Cache(r)[i].reg)
    ensures var e' := e.RetainFrom(r, from);
      && e' == e.(refs := e'.refs) && |e'.refs| == NUM_OPS
      && forall reg: Reg :: IsOp(reg) ==> e'.refs[reg - OP_MIN] == e.refs[reg - OP_MIN] + Uses(e.Cache(r)[from..], reg)
    decreases |e.Cache(r)| - from
  {
    var cells := e.Cache(r);
    if from < |cells| {
      var e1 := e.Retain(cells[from].reg);
      assert e1 == e.(refs := e1.refs) && |e1.refs| == NUM_OPS && e1.Cache(r) == cells;
      RetainFromCounts(e1, r, from + 1);
      assert cells[from..][1..] == cells[from + 1..];
      forall reg: Reg | IsOp(reg)
        ensures e1.refs[reg - OP_MIN] + Uses(cells[from + 1..], reg) == e.refs[reg - OP_MIN] + Uses(cells[from..], reg)
      {
        UsesFirst(cells[from..], reg);
      }
    }
  }

  ghost predicate Zeroed(e: Emitter) {
    |e.refs| == NUM_OPS && (forall i :: 0 <= i < NUM_OPS ==> e.refs[i] == 0)
    && !e.failed && GoodCache(e.wcache) && GoodCache(e.rcache)
  }

  lemma RetainCacheCounts(e: Emitter, r: bool)
    requires |e.refs| == NUM_OPS && GoodCache(e.Cache(r))
    ensures var e' := e.RetainCache(r); var cells := e.Cache(r)[NumFlushed(e.Cache(r))..];
      && e' == e.WithCache(r, cells).(refs := e'.refs) && |e'.refs| == NUM_OPS && GoodCache(cells)
      && forall reg: Reg :: IsOp(reg) ==> e'.refs[reg - OP_MIN] == e.refs[reg - OP_MIN] + Uses(cells, reg)
  {
    var cells := e.Cache(r)[NumFlushed(e.Cache(r))..];
    assert cells[0..] == cells;
    hide NumFlushed;
    RetainFromCounts(e.WithCache(r, cells), r, 0);
  }

  lemma RetainBothInv(e: Emitter)
    requires Zeroed(e)
    ensures var e' := e.RetainCache(false).RetainCache(true);
      && Inv(e', multiset{}) && e' == e.(refs := e'.refs, wcache := e'.wcache, rcache := e'.rcache)
      && e'.wcache == e.wcache[NumFlushed(e.wcache)..] && e'.rcache == e.rcache[NumFlushed(e.rcache)..]
  {
    hide NumFlushed;
    hide Emitter.RetainCache;
    hide GoodCache;
    RetainCacheCounts(e, false);
    RetainCacheCounts(e.RetainCache(false), true);
    hide Uses;
  }

  /** The state just after the reference counts have been rebuilt. */
  function Rebuilt(e: Emitter, op: nat): Emitter {
    e.(refs := seq(NUM_OPS, i => 0)).RetainCache(false).RetainCache(true).(opcode := op)
  }

  lemma RebuiltInv(e: Emitter, op: nat, held: multiset<Reg>)
    requires Inv(e, held)
    ensures Inv(Rebuilt(e, op), multiset{})
  {
    RetainBothInv(e.(refs := seq(NUM_OPS, i => 0)));
  }

  /** Keep mode holds two registers for the copies of the stack pointers. */
  lemma EnterKeepInv(e: Emitter) returns (held: multiset<Reg>)
    requires Inv(e, multiset{})
    ensures Inv(e.EnterKeep(), held) && |held| == 2 && e.EnterKeep().opcode == e.opcode
  {
    hide Inv;
    hide Emitter.Alloc;
    hide Emitter.Flush;
    AllocInv(e, multiset{});
    var (e1, w) := e.Alloc();
    AllocInv(e1, multiset{} + multiset{w});
    var (e2, r) := e1.Alloc();
    held := multiset{} + multiset{w} + multiset{r};
    var e3 := e2.Emit(Op1(MOV_U8, R(w), R(WSP))).Emit(Op1(MOV_U8, R(r), R(RSP))).(wspReg := w, rspReg := r);
    assert Inv(e3, held) by { PointersInv(e2, e3, held); }
    FlushInv(e3, held, Uxn.FlagR(e.opcode), 0);
  }

  lemma PointersInv(e: Emitter, e': Emitter, held: multiset<Reg>)
    requires Inv(e, held)
    requires e'.refs == e.refs && e'.wcache == e.wcache && e'.rcache == e.rcache && e'.failed == e.failed
    ensures Inv(e', held)
  {
  }

  lemma BeginInv(e: Emitter, op: nat, held: multiset<Reg>) returns (held': multiset<Reg>)
    requires Inv(e, held)
    ensures Inv(e.Begin(op), held') && |held'| <= 2 && e.Begin(op).opcode == op
  {
    hide Emitter.EnterKeep;
    RebuiltInv(e, op, held);
    var e1 := Rebuilt(e, op);
    if Uxn.FlagK(op) {
      held' := EnterKeepInv(e1);
    } else {
      held' := multiset{};
      PointersInv(e1, e.Begin(op), held');
    }
  }

  // ---- the opcodes ----

  lemma LoadToBooks(e: Emitter, reg: Reg, addr: Reg, wide: bool, short: bool)
    ensures SameBooks(e, e.LoadTo(reg, addr, wide, short))
  {
  }

  lemma StoreFromBooks(e: Emitter, reg: Reg, addr: Reg, wide: bool, short: bool)
    ensures SameBooks(e, e.StoreFrom(reg, addr, wide, short))
  {
  }

  lemma EmitBooks(e: Emitter, i: Instr)
    ensures SameBooks(e, e.Emit(i)) && forall j {:trigger e.Emit(i).Emit(j)} :: SameBooks(e, e.Emit(i).Emit(j))
  {
    hide Exec;
  }

  lemma CalculateBooks(e: Emitter, op: Uxn.Op, c: Reg, a: Reg, b: Reg, short: bool)
    ensures SameBooks(e, e.Calculate(op, c, a, b, short))
  {
    hide Exec;
    hide Mask;
    hide Emitter.Emit;
    EmitBooks(e, Op2(Alu.ADD, c, R(a), R(b)));
    EmitBooks(e, Op2(Alu.SUB, c, R(a), R(b)));
    EmitBooks(e, Op2(Alu.MUL, c, R(a), R(b)));
    EmitBooks(e, Op2(Alu.AND, c, R(a), R(b)));
    EmitBooks(e, Op2(Alu.OR, c, R(a), R(b)));
    EmitBooks(e, Op2(Alu.XOR, c, R(a), R(b)));
    EmitBooks(e, IfZero(b,
      [Op1(MOV, R(c), Imm(0))],
      [Op1(MOV, R(TMP), R(MEM_BASE)), Op1(MOV, R(MEM_BASE), R(a)), Op1(MOV, R(MEM_OFFSET), R(b)),
       DivUW, Op1(MOV, R(c), R(MEM_BASE)), Op1(MOV, R(MEM_BASE), R(TMP))]));
    var e2 := e.Emit(Op2(Alu.AND, TMP, R(b), Imm(0x0f))).Emit(Op2(Alu.LSHR, c, R(a), R(TMP)));
    var e4 := e2.Emit(Op2(Alu.LSHR, TMP, R(b), Imm(4))).Emit(Op2(Alu.SHL, c, R(c), R(TMP)));
    EmitBooks(e, Op2(Alu.AND, TMP, R(b), Imm(0x0f)));
    EmitBooks(e2, Op2(Alu.LSHR, TMP, R(b), Imm(4)));
    EmitBooks(e4, Op2(Alu.AND, c, R(c), Mask(short)));
  }

  lemma RelativeBooks(e: Emitter, reg: Reg, pc: nat)
    ensures SameBooks(e, e.Relative(reg, pc))
  {
  }

  lemma ImmediateInv(e: Emitter, held: multiset<Reg>, pc: nat, short: bool)
    requires Inv(e, held) && |held| < NUM_OPS
    ensures var (e', reg) := e.Immediate(pc, short);
      Inv(e', held + multiset{reg}) && SameFrame(e, e')
  {
    hide Inv;
    hide Emitter.Alloc;
    AllocInv(e, held);
    var (e1, reg) := e.Alloc();
    BooksInv(e1, e.Immediate(pc, short).0, held + multiset{reg});
  }

  /** Two pops: what every binary opcode starts with. */
  lemma Pop2Inv(e: Emitter, held: multiset<Reg>, short1: bool, short2: bool, r: bool)
    requires Inv(e, held) && |held| < NUM_OPS - 2
    ensures var (e1, b) := e.CachePop(short1, r);
      var (e2, a) := e1.CachePop(short2, r);
      && Inv(e2, held + multiset{b} + multiset{a}) && SameFrame(e, e2)
      && |held + multiset{b} + multiset{a}| == |held| + 2
  {
    hide Inv;
    hide Emitter.CachePop;
    PopInv(e, held, short1, r);
    var (e1, b) := e.CachePop(short1, r);
    PopInv(e1, held + multiset{b}, short2, r);
  }

  lemma StackOpInv(e: Emitter, pc: nat, held: multiset<Reg>) returns (held': multiset<Reg>)
    requires Inv(e, held) && |held| <= 2
    requires var op := Uxn.OpOf(e.opcode);
      op.Lit? || op.Inc? || op.Pop? || op.Nip? || op.Dup? || op.Sth? || op.Swp? || op.Rot? || op.Ovr?
    ensures Inv(e.Plain(pc), held') && SameFrame(e, e.Plain(pc))
  {
    hide Inv;
    hide Emitter.CachePop;
    hide Emitter.Push;
    hide Emitter.Discard;
    hide Emitter.Immediate;
    var r, k, short := Uxn.FlagR(e.opcode), Uxn.FlagK(e.opcode), Uxn.Flag2(e.opcode);
    match Uxn.OpOf(e.opcode)
    case Lit =>
      ImmediateInv(e, held, pc, short);
      var (e1, a) := e.Immediate(pc, short);
      held' := held + multiset{a};
      PushInv(e1, held', a, short, r);
    case Inc =>
      PopInv(e, held, short, r);
      var (e1, a) := e.CachePop(short, r);
      held' := held + multiset{a};
      var e2 := e1.Own(a).Emit(Op2(Alu.ADD, a, R(a), Imm(1))).Emit(Op2(Alu.AND, a, R(a), Mask(short)));
      BooksInv(e1, e2, held');
      PushInv(e2, held', a, short, r);
    case Pop =>
      held' := held;
      DiscardInv(e, held, short, r);
    case Nip =>
      PopInv(e, held, short, r);
      var (e1, b) := e.CachePop(short, r);
      held' := held + multiset{b};
      DiscardInv(e1, held', short, r);
      PushInv(if k then e1 else e1.Discard(short, r), held', b, short, r);
    case Dup =>
      PopInv(e, held, short, r);
      var (e1, a) := e.CachePop(short, r);
      held' := held + multiset{a};
      PushInv(e1, held', a, short, r);
      PushInv(e1.Push(a, short, r), held', a, short, r);
    case Sth =>
      PopInv(e, held, short, r);
      var (e1, a) := e.CachePop(short, r);
      held' := held + multiset{a};
      PushInv(e1, held', a, short, !r);
    case _ =>
      held' := DeepStackOpInv(e, pc, held);
  }

  lemma DeepStackOpInv(e: Emitter, pc: nat, held: multiset<Reg>) returns (held': multiset<Reg>)
    requires Inv(e, held) && |held| <= 2
    requires var op := Uxn.OpOf(e.opcode); op.Swp? || op.Rot? || op.Ovr?
    ensures Inv(e.Plain(pc), held') && SameFrame(e, e.Plain(pc))
  {
    hide Inv;
    hide Emitter.CachePop;
    hide Emitter.Push;
    var r, short := Uxn.FlagR(e.opcode), Uxn.Flag2(e.opcode);
    Pop2Inv(e, held, short, short, r);
    var (e1, x) := e.CachePop(short, r);
    var (e2, y) := e1.CachePop(short, r);
    held' := held + multiset{x} + multiset{y};
    match Uxn.OpOf(e.opcode)
    case Swp =>
      PushInv(e2, held', x, short, r);
      PushInv(e2.Push(x, short, r), held', y, short, r);
    case Ovr =>
      PushInv(e2, held', y, short, r);
      PushInv(e2.Push(y, short, r), held', x, short, r);
      PushInv(e2.Push(y, short, r).Push(x, short, r), held', y, short, r);
    case Rot =>
      PopInv(e2, held', short, r);
      var (e3, z) := e2.CachePop(short, r);
      held' := held' + multiset{z};
      PushInv(e3, held', y, short, r);
      PushInv(e3.Push(y, short, r), held', x, short, r);
      PushInv(e3.Push(y, short, r).Push(x, short, r), held', z, short, r);
  }

  lemma ComparisonInv(e: Emitter, held: multiset<Reg>, op: Uxn.Op, short: bool, r: bool) returns (held': multiset<Reg>)
    requires Inv(e, held) && |held| <= 2
    ensures Inv(e.Comparison(op, short, r), held') && SameFrame(e, e.Comparison(op, short, r))
  {
    hide Inv;
    hide Emitter.CachePop;
    hide Emitter.Push;
    hide Emitter.Alloc;
    Pop2Inv(e, held, short, short, r);
    var (e1, b) := e.CachePop(short, r);
    var (e2, a) := e1.CachePop(short, r);
    held' := held + multiset{b} + multiset{a};
    AllocInv(e2, held');
    var (e3, c) := e2.Alloc();
    held' := held' + multiset{c};
    var e4 := e3.Emit(Compare(a, b)).Emit(SetFlag(c, e.Condition(op)));
    BooksInv(e3, e4, held');
    PushInv(e4, held', c, false, r);
  }

  lemma ArithmeticInv(e: Emitter, held: multiset<Reg>, op: Uxn.Op, short: bool, r: bool) returns (held': multiset<Reg>)
    requires Inv(e, held) && |held| <= 2
    ensures Inv(e.Arithmetic(op, short, r), held') && SameFrame(e, e.Arithmetic(op, short, r))
  {
    hide Inv;
    hide Emitter.CachePop;
    hide Emitter.Push;
    hide Emitter.Alloc;
    hide Emitter.Calculate;
    var short1 := short && op != Uxn.Sft;
    Pop2Inv(e, held, short1, short, r);
    var (e1, b) := e.CachePop(short1, r);
    var (e2, a) := e1.CachePop(short, r);
    held' := held + multiset{b} + multiset{a};
    AllocInv(e2, held');
    var (e3, c) := e2.Alloc();
    held' := held' + multiset{c};
    CalculateBooks(e3, op, c, a, b, short);
    BooksInv(e3, e3.Calculate(op, c, a, b, short), held');
    PushInv(e3.Calculate(op, c, a, b, short), held', c, short, r);
  }

  lemma LoadOpInv(e: Emitter, held: multiset<Reg>, op: Uxn.Op, pc: nat, short: bool, r: bool) returns (held': multiset<Reg>)
    requires Inv(e, held) && |held| <= 2
    ensures Inv(e.LoadOp(op, pc, short, r), held') && SameFrame(e, e.LoadOp(op, pc, short, r))
  {
    hide Inv;
    hide Emitter.CachePop;
    hide Emitter.Push;
    hide Emitter.Alloc;
    hide Emitter.LoadTo;
    hide Emitter.Relative;
    PopInv(e, held, op.Lda?, r);
    var (e1, addr) := e.CachePop(op.Lda?, r);
    held' := held + multiset{addr};
    RelativeBooks(e1, addr, pc);
    var e2 := if op.Ldr? then e1.Relative(addr, pc) else e1;
    BooksInv(e1, e2, held');
    AllocInv(e2, held');
    var (e3, v) := e2.Alloc();
    held' := held' + multiset{v};
    var e4 := e3.LoadTo(v, addr, !op.Ldz?, short);
    LoadToBooks(e3, v, addr, !op.Ldz?, short);
    BooksInv(e3, e4, held');
    PushInv(e4, held', v, short, r);
  }

  lemma StoreOpInv(e: Emitter, held: multiset<Reg>, op: Uxn.Op, pc: nat, short: bool, r: bool) returns (held': multiset<Reg>)
    requires Inv(e, held) && |held| <= 2
    ensures Inv(e.StoreOp(op, pc, short, r), held') && SameFrame(e, e.StoreOp(op, pc, short, r))
  {
    hide Inv;
    hide Emitter.CachePop;
    hide Emitter.StoreFrom;
    hide Emitter.Relative;
    Pop2Inv(e, held, op.Sta?, short, r);
    var (e1, addr) := e.CachePop(op.Sta?, r);
    var (e2, v) := e1.CachePop(short, r);
    held' := held + multiset{addr} + multiset{v};
    RelativeBooks(e2, addr, pc);
    var e3 := if op.Str? then e2.Relative(addr, pc) else e2;
    StoreFromBooks(e3, v, addr, !op.Stz?, short);
    BooksInv(e2, e3.StoreFrom(v, addr, !op.Stz?, short), held');
  }

  /** No assertion fails while a plain opcode is emitted, whatever the caches hold. */
  lemma PlainInv(e: Emitter, pc: nat, held: multiset<Reg>) returns (held': multiset<Reg>)
    requires Inv(e, held) && |held| <= 2 && IsPlain(Uxn.OpOf(e.opcode))
    ensures Inv(e.Plain(pc), held') && SameFrame(e, e.Plain(pc))
  {
    hide Inv;
    hide Emitter.Comparison;
    hide Emitter.Arithmetic;
    hide Emitter.LoadOp;
    hide Emitter.StoreOp;
    var r, short := Uxn.FlagR(e.opcode), Uxn.Flag2(e.opcode);
    var op := Uxn.OpOf(e.opcode);
    match op
    case Ldz | Ldr | Lda => held' := LoadOpInv(e, held, op, pc, short, r);
    case Stz | Str | Sta => held' := StoreOpInv(e, held, op, pc, short, r);
    case Equ | Neq | Gth | Lth => held' := ComparisonInv(e, held, op, short, r);
    case Add | Sub | Mul | Div | And | Ora | Eor | Sft => held' := ArithmeticInv(e, held, op, short, r);
    case _ => held' := StackOpInv(e, pc, held);
  }
}
