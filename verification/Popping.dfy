/** An opcode in the middle of its pops.  Without keep mode the pops consume the real stack;
    in keep mode they consume a view of it, and the real stack stays whole. */
module Popping {
  import opened Target
  import opened Emission
  import opened Allocator
  import opened Rings
  import opened CacheRuns
  import opened CacheSound
  import opened PopSound
  import Uxn

  /** The pointer the pops go through and the cells they see. */
  ghost predicate ViewMode(e: Emitter, m: Machine, s: Snap, held: multiset<Reg>, r: bool, k: bool, view: Uxn.Bytes) {
    if k then
      && IsOp(e.SpReg(r)) && held[e.SpReg(r)] > 0 && e.SpReg(r) !in s.vals
      && Unused(e.Cache(r), e.SpReg(r)) && Uses(e.Cache(!r), e.SpReg(r)) == 0 && AllMarked(e.Cache(r), false)
      && Viewing(e, m, r, view, s.Origin(r))
    else
      e.SpReg(r) == StackPtr(r) && AllMarked(e.Cache(r), true) && view == s.Stack(r)
  }

  ghost predicate InPops(e: Emitter, m0: Machine, s: Snap, held: multiset<Reg>, r: bool, k: bool, view: Uxn.Bytes) {
    Good(e, m0, s, held) && ViewMode(e, Run(e, m0), s, held, r, k, view)
  }

  /** What is left of the real stack once the view has shrunk. */
  function Rest(s: Snap, r: bool, k: bool, view: Uxn.Bytes): Snap {
    if k then s else s.With(r, view)
  }

  lemma UnflushedView(e: Emitter, m: Machine, s: Snap, r: bool)
    requires |m.regs| == NUM_REGS && SideRel(e.Cache(r), m, s, r)
    requires e.SpReg(r) == StackPtr(r) && AllMarked(e.Cache(r), true)
    ensures Viewing(e, m, r, s.Stack(r), s.Origin(r))
  {
    DecodedUnflushed(e.Cache(r), m.regs);
    hide Decoded;
    hide Live;
  }

  lemma IsReady(e: Emitter, m0: Machine, s: Snap, held: multiset<Reg>, r: bool, k: bool, view: Uxn.Bytes)
    requires InPops(e, m0, s, held, r, k, view) && |held| < NUM_OPS
    ensures Ready(e, Run(e, m0), r, held, view, s.Origin(r))
  {
    hide Exec;
    hide Inv;
    hide AreBytes;
    hide SideRel;
    hide Viewing;
    hide AllMarked;
    if !k {
      UnflushedView(e, Run(e, m0), s, r);
    }
  }

  /** The stack popped from, after a step that leaves "view" on it. */
  lemma LiftSide(e: Emitter, e': Emitter, m: Machine, m': Machine, r: bool, k: bool, held: multiset<Reg>,
                 s: Snap, view: Uxn.Bytes, view': Uxn.Bytes)
    requires PopStep(e, e', m, m', r, held) && Viewing(e', m', r, view', s.Origin(r))
    requires SideRel(e.Cache(r), m, s, r) && ViewMode(e, m, s, held, r, k, view)
    ensures SideRel(e'.Cache(r), m', Rest(s, r, k, view'), r)
  {
    hide AreBytes;
    hide BaseOk;
    hide Stacked;
    var cells, cells' := e.Cache(r), e'.Cache(r);
    if k {
      assert Kept(e, r, held, StackPtr(r));
      hide Kept;
      hide Unused;
      KeptWhole(cells, cells', Ring(m, r), Ptr(m, StackPtr(r)), m.regs, m'.regs, s.Stack(r), s.Origin(r));
    } else {
      hide Kept;
      hide Unused;
      SeesLess(cells', Ring(m', r), Ptr(m', StackPtr(r)), m'.regs, view', s.Origin(r));
    }
    hide InRange;
  }

  lemma KeptWhole(cells: seq<Cell>, cells': seq<Cell>, ring: seq<nat>, p: nat, regs: seq<nat>, regs': seq<nat>,
                  st: Uxn.Bytes, origin: nat)
    requires Stacked(cells, ring, p, regs, st, origin, false) && AllMarked(cells, false) && AllMarked(cells', false)
    ensures Stacked(cells', ring, p, regs', st, origin, false)
  {
    DecodedFlushed(cells, regs);
    DecodedFlushed(cells', regs');
    hide Decoded;
    hide Live;
    hide Bottom;
  }

  lemma SeesLess(cells: seq<Cell>, ring: seq<nat>, p: nat, regs: seq<nat>, st: Uxn.Bytes, origin: nat)
    requires Stacked(cells, ring, p, regs, st, origin, true) && AllMarked(cells, true)
    ensures Stacked(cells, ring, p, regs, st, origin, false)
  {
    DecodedUnflushed(cells, regs);
    hide Decoded;
    hide Live;
    hide Bottom;
  }

  lemma LiftOther(e: Emitter, e': Emitter, m: Machine, m': Machine, r: bool, held: multiset<Reg>, s: Snap)
    requires PopStep(e, e', m, m', r, held) && SideRel(e.Cache(!r), m, s, !r) && GoodCache(e.Cache(!r))
    requires e.SpReg(r) == StackPtr(r) || (IsOp(e.SpReg(r)) && Uses(e.Cache(!r), e.SpReg(r)) == 0)
    ensures SideRel(e'.Cache(!r), m', s, !r)
  {
    hide AreBytes;
    hide BaseOk;
    var cells := e.Cache(!r);
    forall i | 0 <= i < |cells|
      ensures At(m'.regs, cells[i].reg) == At(m.regs, cells[i].reg)
    {
      var x := cells[i].reg;
      UsesUnused(cells, x);
      assert Uses(cells, x) > 0 by { assert !Unused(cells, x); }
      assert Kept(e, r, held, x);
    }
    assert Kept(e, r, held, StackPtr(!r));
    hide Uses;
    hide Stacked;
    SideFrame(cells, m, m', s, !r);
  }

  lemma Lift(e: Emitter, e': Emitter, m: Machine, m': Machine, r: bool, k: bool, held: multiset<Reg>,
             s: Snap, view: Uxn.Bytes, view': Uxn.Bytes)
    requires Rel(e, m, s) && ViewMode(e, m, s, held, r, k, view)
    requires PopStep(e, e', m, m', r, held) && Viewing(e', m', r, view', s.Origin(r))
    requires GoodCache(e.Cache(!r)) && forall x :: x in s.vals ==> x in held
    ensures Rel(e', m', Rest(s, r, k, view'))
    ensures ViewMode(e', m', Rest(s, r, k, view'), held, r, k, view')
  {
    LiftSide(e, e', m, m', r, k, held, s, view, view');
    LiftOther(e, e', m, m', r, held, s);
    hide Stacked;
    hide AreBytes;
    hide Uses;
    hide InRange;
    var s' := Rest(s, r, k, view');
    assert SideRel(e'.Cache(!r), m', s', !r);
    hide SideRel;
    forall x | x in s.vals
      ensures IsOp(x) && At(m'.regs, x) == s.vals[x]
    {
      assert Kept(e, r, held, x);
    }
    hide Viewing;
  }

  // ---- pops and discards, as steps of an opcode ----

  lemma ValueBound(view: Uxn.Bytes, short: bool)
    requires AreBytes(view) && Uxn.PopValue(view, short).Some?
    ensures Uxn.PopValue(view, short).value.1 < (if short then 0x1_0000 else 256)
  {
  }

  /** A pop yields the top of the view in a register the opcode then holds. */
  lemma PopGood(e: Emitter, short: bool, r: bool, k: bool, m0: Machine, s: Snap, held: multiset<Reg>, view: Uxn.Bytes)
    requires InPops(e, m0, s, held, r, k, view) && |held| < NUM_OPS - 1
    requires Uxn.PopValue(view, short).Some? && !e.CachePop(short, r).0.Hazard()
    ensures var (e', reg) := e.CachePop(short, r);
      var (view', v) := Uxn.PopValue(view, short).value;
      var s1 := Rest(s, r, k, view');
      && InPops(e', m0, s1.(vals := s1.vals[reg := v]), held + multiset{reg}, r, k, view')
      && SameFrame(e, e') && IsOp(reg) && v < (if short then 0x1_0000 else 256)
      && (reg in s.vals ==> s.vals[reg] == v)
  {
    hide Exec;
    hide Emitter.CachePop;
    var m := Run(e, m0);
    var (view', v) := Uxn.PopValue(view, short).value;
    IsReady(e, m0, s, held, r, k, view);
    assert v < (if short then 0x1_0000 else 256) by {
      ViewBytes(e, m, r, view, s.Origin(r));
      ValueBound(view, short);
    }
    PopMatches(e, short, r, m0, held, view, s.Origin(r));
    PopInv(e, held, short, r);
    assert GoodCache(e.Cache(!r));
    hide Inv;
    hide Ready;
    var (e', reg) := e.CachePop(short, r);
    var m' := Run(e', m0);
    var s1 := Rest(s, r, k, view');
    Lift(e, e', m, m', r, k, held, s, view, view');
    hide PopStep;
    hide Viewing;
    HoldMore(e', m0, s1, held, r, k, view', reg, v);
    assert reg in s.vals ==> s.vals[reg] == v by { hide SideRel; hide BaseOk; }
  }

  lemma HoldMore(e: Emitter, m0: Machine, s: Snap, held: multiset<Reg>, r: bool, k: bool, view: Uxn.Bytes, reg: Reg, v: nat)
    requires Inv(e, held + multiset{reg}) && Rel(e, Run(e, m0), s) && forall x :: x in s.vals ==> x in held
    requires ViewMode(e, Run(e, m0), s, held, r, k, view)
    requires IsOp(reg) && reg != e.SpReg(r) && At(Run(e, m0).regs, reg) == v
    ensures InPops(e, m0, s.(vals := s.vals[reg := v]), held + multiset{reg}, r, k, view)
  {
    hide Exec;
    hide Inv;
    hide AreBytes;
    hide Stacked;
    hide InRange;
    hide Uses;
    hide Unused;
    hide AllMarked;
  }

  /** A discard is a step that leaves "view'". */
  ghost predicate Dropped(e: Emitter, e': Emitter, m: Machine, m': Machine, r: bool, held: multiset<Reg>,
                          view': Uxn.Bytes, origin: nat) {
    PopStep(e, e', m, m', r, held) && Viewing(e', m', r, view', origin) && Calm(m')
  }

  lemma SubRuns(e: Emitter, sp: Reg, n: nat, m0: Machine)
    requires Calm(Run(e, m0)) && sp < NUM_REGS && (n == 1 || n == 2)
    ensures var m := Run(e, m0); var m' := Run(e.Emit(Op2(Alu.SUB, sp, R(sp), Imm(n))), m0);
      OnlyRegs(m, m', {sp}) && Ptr(m', sp) == (if n == 2 then Down(Down(Ptr(m, sp))) else Down(Ptr(m, sp)))
  {
    hide Exec;
    hide Step;
    hide AreBytes;
    var m := Run(e, m0);
    StepAluImm(Alu.SUB, sp, sp, n, m);
    Words.WordCut(m.regs[sp] - n);
    DownTwice(m.regs[sp], n);
    assert Calc(Alu.SUB, m.regs[sp], n) == (m.regs[sp] - n) % Words.WORD;
    hide Calc;
    hide Down;
  }

  lemma DownTwice(v: nat, n: nat)
    requires n == 1 || n == 2
    ensures (v - n) % 256 == if n == 2 then Down(Down(v % 256)) else Down(v % 256)
  {
  }

  lemma LowerView(ring: seq<nat>, p: nat, regs: seq<nat>, regs': seq<nat>, view: Uxn.Bytes, origin: nat, n: nat)
    requires Stacked([], ring, p, regs, view, origin, true) && (n == 1 || n == 2) && |view| >= n
    ensures Stacked([], ring, if n == 2 then Down(Down(p)) else Down(p), regs', view[..|view| - n], origin, true)
  {
    StackedFromMemory(ring, p, regs, view, origin, true);
    if n == 2 {
      StackedFromMemory(ring, Down(p), regs, view[..|view| - 1], origin, true);
      assert view[..|view| - 1][..|view| - 2] == view[..|view| - 2];
    }
    hide Stacked;
    StackedFrame([], ring, if n == 2 then Down(Down(p)) else Down(p), regs, regs', view[..|view| - n], origin, true);
  }

  lemma DropFromMem(e: Emitter, n: nat, r: bool, m0: Machine, held: multiset<Reg>, view: Uxn.Bytes, origin: nat)
    requires Ready(e, Run(e, m0), r, held, view, origin) && e.Cache(r) == []
    requires (n == 1 || n == 2) && |view| >= n
    ensures var e' := e.DiscardFromMem(n, r);
      Dropped(e, e', Run(e, m0), Run(e', m0), r, held, view[..|view| - n], origin)
  {
    hide Exec;
    hide AreBytes;
    hide Inv;
    hide Stacked;
    var m := Run(e, m0);
    var sp := e.SpReg(r);
    var e' := e.DiscardFromMem(n, r);
    var m' := Run(e', m0);
    SubRuns(e, sp, n, m0);
    LowerView(Ring(m, r), Ptr(m, sp), m.regs, m'.regs, view, origin, n);
    BaseFrame(e, e', m, m', {sp});
    hide BaseOk;
    ChangeStep(e, e', m, m', r, held, {sp});
    hide PopStep;
    hide Kept;
  }

  lemma LshrRuns(e: Emitter, top: Reg, m0: Machine)
    requires Calm(Run(e, m0)) && IsOp(top)
    ensures var m := Run(e, m0);
      Run(e.Emit(Op2(Alu.LSHR, top, R(top), Imm(8))), m0) == m.(regs := m.regs[top := m.regs[top] / 256])
  {
    hide Exec;
    hide Step;
    hide AreBytes;
    LshrByte(top, Run(e, m0));
  }

  lemma DropHalf(e: Emitter, r: bool, m0: Machine, held: multiset<Reg>, view: Uxn.Bytes, origin: nat)
    requires Ready(e, Run(e, m0), r, held, view, origin) && e.Cache(r) != []
    requires e.Cache(r)[|e.Cache(r)| - 1].isShort && !e.DiscardByte(r).Hazard()
    ensures var e' := e.DiscardByte(r);
      |view| > 0 && Dropped(e, e', Run(e, m0), Run(e', m0), r, held, view[..|view| - 1], origin)
  {
    hide Exec;
    hide Step;
    hide AreBytes;
    var cells := e.Cache(r);
    var n := |cells| - 1;
    var top := cells[n].reg;
    var m := Run(e, m0);
    assert e.Count(top) == 1 && GoodCache(cells);
    SoleCell(e, held, r);
    hide Inv;
    var e' := e.DiscardByte(r);
    LshrRuns(e.Own(top), top, m0);
    hide Viewing;
    hide PointerOk;
    hide Uses;
    hide Unused;
    assert e'.Cache(r) == cells[n := cells[n].(isShort := false)] && e'.Cache(!r) == e.Cache(!r);
    DropHalfFinish(e, e', m, Run(e', m0), r, held, view, origin);
    hide Dropped;
  }

  lemma DropHalfFinish(e: Emitter, e': Emitter, m: Machine, m': Machine, r: bool, held: multiset<Reg>,
                       view: Uxn.Bytes, origin: nat)
    requires Calm(m) && BaseOk(e, m) && Viewing(e, m, r, view, origin) && PointerOk(e, r, held)
    requires GoodCache(e.Cache(r)) && e.Cache(r) != []
    requires var cells := e.Cache(r); var n := |cells| - 1; var top := cells[n].reg;
      && cells[n].isShort && e'.Cache(r) == cells[n := cells[n].(isShort := false)]
      && held[top] == 0 && Uses(e.Cache(!r), top) == 0 && Unused(cells[..n], top)
      && top < |m.regs| && m' == m.(regs := m.regs[top := m.regs[top] / 256])
    requires e'.Cache(!r) == e.Cache(!r) && e'.SpReg(r) == e.SpReg(r) && e'.memBase == e.memBase
    ensures |view| > 0 && Dropped(e, e', m, m', r, held, view[..|view| - 1], origin)
  {
    hide AreBytes;
    hide Stacked;
    hide Uses;
    var cells := e.Cache(r);
    var top := cells[|cells| - 1].reg;
    HalfView(cells, Ring(m, r), Ptr(m, e.SpReg(r)), m.regs, m'.regs, view, origin);
    hide InRange;
    BaseFrame(e, e', m, m', {top});
    hide BaseOk;
    ChangeStep(e, e', m, m', r, held, {top});
    hide PopStep;
  }

  lemma HalfView(cells: seq<Cell>, ring: seq<nat>, p: nat, regs: seq<nat>, regs': seq<nat>, view: Uxn.Bytes, origin: nat)
    requires cells != [] && cells[|cells| - 1].isShort && GoodCache(cells)
    requires Stacked(cells, ring, p, regs, view, origin, true) && InRange(cells, regs)
    requires var n := |cells| - 1; var top := cells[n].reg;
      top < |regs| && Unused(cells[..n], top) && regs' == regs[top := regs[top] / 256]
    ensures var n := |cells| - 1; var cells' := cells[n := cells[n].(isShort := false)];
      |view| > 0 && Stacked(cells', ring, p, regs', view[..|view| - 1], origin, true) && InRange(cells', regs')
  {
    var n := |cells| - 1;
    var t := At(regs, cells[n].reg);
    assert forall i :: 0 <= i < n ==> cells[..n][i] == cells[i];
    StackedFromCell(cells, ring, p, regs, view, origin);
    RetopView(cells, cells[n].(isShort := false), ring, p, regs, regs', view, origin);
    hide Stacked;
    ShortenByOne(view, t);
  }

  /** Releasing a register the view does not depend on. */
  lemma ReleaseDropped(e: Emitter, e1: Emitter, m: Machine, m1: Machine, r: bool, held: multiset<Reg>, reg: Reg,
                       view: Uxn.Bytes, origin: nat)
    requires Dropped(e, e1, m, m1, r, held, view, origin)
    ensures Dropped(e, e1.Release(reg), m, m1, r, held, view, origin)
  {
    hide Stacked;
    hide AreBytes;
    hide Kept;
  }

  lemma DropByte(e: Emitter, r: bool, m0: Machine, held: multiset<Reg>, view: Uxn.Bytes, origin: nat)
    requires Ready(e, Run(e, m0), r, held, view, origin) && |view| > 0
    requires !e.DiscardByte(r).Hazard()
    ensures var e' := e.DiscardByte(r);
      Dropped(e, e', Run(e, m0), Run(e', m0), r, held, view[..|view| - 1], origin)
  {
    hide Exec;
    hide Ready;
    hide Dropped;
    var cells := e.Cache(r);
    if cells == [] {
      DropFromMem(e, 1, r, m0, held, view, origin);
    } else {
      var n := |cells| - 1;
      if cells[n].isShort {
        DropHalf(e, r, m0, held, view, origin);
      } else {
        TakeReady(e, Run(e, m0), r, held, view, origin);
        assert Run(e.DiscardByte(r), m0) == Run(e, m0);
      }
    }
  }

  /** A discard of either width, outside keep mode, shortens the view accordingly. */
  lemma DropValue(e: Emitter, short: bool, r: bool, m0: Machine, held: multiset<Reg>, view: Uxn.Bytes, origin: nat)
    requires Ready(e, Run(e, m0), r, held, view, origin)
    requires Uxn.PopValue(view, short).Some? && !e.Discard(short, r).Hazard()
    ensures var e' := e.Discard(short, r);
      Dropped(e, e', Run(e, m0), Run(e', m0), r, held, Uxn.PopValue(view, short).value.0, origin)
  {
    hide Exec;
    hide Ready;
    hide Dropped;
    hide Emitter.DiscardByte;
    hide Emitter.DiscardFromMem;
    var cells := e.Cache(r);
    if !short {
      DropByte(e, r, m0, held, view, origin);
    } else if cells == [] {
      DropFromMem(e, 2, r, m0, held, view, origin);
    } else {
      DropCell(e, r, m0, held, view, origin);
    }
  }

  lemma TakeReady(e: Emitter, m: Machine, r: bool, held: multiset<Reg>, view: Uxn.Bytes, origin: nat)
    requires Ready(e, m, r, held, view, origin) && e.Cache(r) != []
    ensures var cells := e.Cache(r); var n := |cells| - 1; var w := if cells[n].isShort then 2 else 1;
      var e1 := e.WithCache(r, cells[..n]).Release(cells[n].reg);
      && |view| >= w && Ready(e1, m, r, held, view[..|view| - w], origin)
      && Dropped(e, e1, m, m, r, held, view[..|view| - w], origin)
  {
    hide AreBytes;
    hide Stacked;
    var cells := e.Cache(r);
    var n := |cells| - 1;
    var w := if cells[n].isShort then 2 else 1;
    var e1 := e.WithCache(r, cells[..n]);
    TakeInv(e, held, r);
    ReleaseInv(e1, held, cells[n].reg);
    hide Inv;
    TakePops(e, cells[n].isShort, r, m, held, view, origin);
    assert Uxn.PopValue(view, cells[n].isShort).value.0 == view[..|view| - w];
    hide PopStep;
    ReleaseDropped(e, e1, m, m, r, held, cells[n].reg, view[..|view| - w], origin);
    hide Dropped;
    assert Unused(e.Cache(r), e.SpReg(r)) ==> Unused(cells[..n], e.SpReg(r));
  }

  /** A discard of a short whose top is cached. */
  lemma DropCell(e: Emitter, r: bool, m0: Machine, held: multiset<Reg>, view: Uxn.Bytes, origin: nat)
    requires Ready(e, Run(e, m0), r, held, view, origin) && e.Cache(r) != []
    requires |view| >= 2 && !e.Discard(true, r).Hazard()
    ensures var e' := e.Discard(true, r);
      Dropped(e, e', Run(e, m0), Run(e', m0), r, held, view[..|view| - 2], origin)
  {
    hide Exec;
    hide Ready;
    hide Dropped;
    hide Emitter.DiscardByte;
    var cells := e.Cache(r);
    var n := |cells| - 1;
    var m := Run(e, m0);
    TakeReady(e, m, r, held, view, origin);
    var e1 := e.WithCache(r, cells[..n]).Release(cells[n].reg);
    assert Run(e1, m0) == m;
    if !cells[n].isShort {
      var view1 := view[..|view| - 1];
      DropByte(e1, r, m0, held, view1, origin);
      assert view1[..|view1| - 1] == view[..|view| - 2];
      var e2 := e1.DiscardByte(r);
      DropsCompose(e, e1, e2, m, m, Run(e2, m0), r, held, view1, view[..|view| - 2], origin);
    }
  }

  lemma DropsCompose(e: Emitter, e1: Emitter, e2: Emitter, m: Machine, m1: Machine, m2: Machine, r: bool,
                     held: multiset<Reg>, view1: Uxn.Bytes, view2: Uxn.Bytes, origin: nat)
    requires Dropped(e, e1, m, m1, r, held, view1, origin) && Dropped(e1, e2, m1, m2, r, held, view2, origin)
    ensures Dropped(e, e2, m, m2, r, held, view2, origin)
  {
    hide Viewing;
    hide AreBytes;
    StepsCompose(e, e1, e2, m, m1, m2, r, held, held);
    hide PopStep;
  }

  /** A discard consumes the top of the real stack. */
  lemma DiscardGood(e: Emitter, short: bool, r: bool, m0: Machine, s: Snap, held: multiset<Reg>)
    requires InPops(e, m0, s, held, r, false, s.Stack(r)) && |held| < NUM_OPS
    requires Uxn.PopValue(s.Stack(r), short).Some? && !e.Discard(short, r).Hazard()
    ensures var e' := e.Discard(short, r);
      var s' := s.With(r, Uxn.PopValue(s.Stack(r), short).value.0);
      InPops(e', m0, s', held, r, false, s'.Stack(r)) && SameFrame(e, e')
  {
    hide Exec;
    hide Emitter.Discard;
    var m := Run(e, m0);
    var view := s.Stack(r);
    IsReady(e, m0, s, held, r, false, view);
    DropValue(e, short, r, m0, held, view, s.Origin(r));
    DiscardInv(e, held, short, r);
    assert GoodCache(e.Cache(!r));
    hide Inv;
    hide Ready;
    var e' := e.Discard(short, r);
    Lift(e, e', m, Run(e', m0), r, false, held, s, view, Uxn.PopValue(view, short).value.0);
    hide PopStep;
    hide Viewing;
    hide Rel;
  }
}
