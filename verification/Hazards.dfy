/** Registers that are changed in place while another cell still needs them: exactly when that
    does harm. */
module Hazards {
  import opened Words
  import opened Target
  import opened Emission
  import opened Allocator
  import opened Rings
  import opened CacheRuns
  import opened CacheSound
  import opened PopSound
  import opened Popping
  import opened Values
  import OpStart
  import Uxn

  // ---- registers changed in place ----

  /** A cell that is still to be written holds the register. */
  ghost predicate Exposed(cells: seq<Cell>, x: Reg) {
    exists i :: 0 <= i < |cells| && cells[i].reg == x && cells[i].needFlush
  }

  /** Every cell that holds the register reads the same from "v" as from "v'"; flushed cells
      count only if "all" do. */
  ghost predicate Invisible(cells: seq<Cell>, x: Reg, v: nat, v': nat, all: bool) {
    forall i :: 0 <= i < |cells| && cells[i].reg == x && (all || cells[i].needFlush) ==>
      Uxn.BytesOf(v', cells[i].isShort) == Uxn.BytesOf(v, cells[i].isShort)
  }

  lemma {:induction false} DecodedLength(cells: seq<Cell>, regs: seq<nat>, regs': seq<nat>, all: bool)
    ensures |Decoded(cells, regs', all)| == |Decoded(cells, regs, all)|
    decreases |cells|
  {
    if cells != [] {
      DecodedLength(cells[..|cells| - 1], regs, regs', all);
    }
  }

  lemma SameParts(a: Uxn.Bytes, b: Uxn.Bytes, a': Uxn.Bytes, b': Uxn.Bytes)
    requires |a| == |a'|
    ensures a + b == a' + b' <==> a == a' && b == b'
  {
    if a + b == a' + b' {
      assert a == (a + b)[..|a|] && a' == (a' + b')[..|a'|];
      assert b == (a + b)[|a|..] && b' == (a' + b')[|a'|..];
    }
  }

  /** The cells decode to the same bytes after a register has changed exactly when no cell
      that counts can tell the difference. */
  lemma {:induction false} DecodedExact(cells: seq<Cell>, regs: seq<nat>, x: Reg, v': nat, all: bool)
    requires x < |regs|
    ensures Decoded(cells, regs[x := v'], all) == Decoded(cells, regs, all) <==> Invisible(cells, x, regs[x], v', all)
    decreases |cells|
  {
    if cells != [] {
      var n := |cells| - 1;
      var c, regs' := cells[n], regs[x := v'];
      DecodedExact(cells[..n], regs, x, v', all);
      DecodedLength(cells[..n], regs, regs', all);
      var b := if all || c.needFlush then Uxn.BytesOf(At(regs, c.reg), c.isShort) else [];
      var b' := if all || c.needFlush then Uxn.BytesOf(At(regs', c.reg), c.isShort) else [];
      SameParts(Decoded(cells[..n], regs', all), b', Decoded(cells[..n], regs, all), b);
      assert b' == b <==> (c.reg == x && (all || c.needFlush) ==> Uxn.BytesOf(v', c.isShort) == Uxn.BytesOf(regs[x], c.isShort));
      assert Invisible(cells, x, regs[x], v', all) <==>
        Invisible(cells[..n], x, regs[x], v', all) && (c.reg == x && (all || c.needFlush) ==> Uxn.BytesOf(v', c.isShort) == Uxn.BytesOf(regs[x], c.isShort)) by {
        assert cells == cells[..n] + [c];
        hide Uxn.BytesOf;
      }
    }
  }

  /** The real stacks: memory below the pointers, then the cells still to be written. */
  ghost predicate RealStacks(e: Emitter, m: Machine, s: Snap) {
    && Stacked(e.wcache, m.ws, Ptr(m, WSP), m.regs, s.w, s.wOrigin, false)
    && Stacked(e.rcache, m.rs, Ptr(m, RSP), m.regs, s.r, s.rOrigin, false)
  }

  lemma SidesReal(e: Emitter, m: Machine, s: Snap, r: bool)
    ensures RealStacks(e, m, s) <==>
      Stacked(e.Cache(r), Ring(m, r), Ptr(m, StackPtr(r)), m.regs, s.Stack(r), s.Origin(r), false)
      && Stacked(e.Cache(!r), Ring(m, !r), Ptr(m, StackPtr(!r)), m.regs, s.Stack(!r), s.Origin(!r), false)
  {
    hide Stacked;
  }

  lemma StackedExact(cells: seq<Cell>, ring: seq<nat>, p: nat, regs: seq<nat>, st: Uxn.Bytes, origin: nat, x: Reg, v': nat, all: bool)
    requires Stacked(cells, ring, p, regs, st, origin, all) && x < |regs|
    ensures Stacked(cells, ring, p, regs[x := v'], st, origin, all) <==> Invisible(cells, x, regs[x], v', all)
  {
    DecodedExact(cells, regs, x, v', all);
    DecodedLength(cells, regs, regs[x := v'], all);
    var top, top' := Decoded(cells, regs, all), Decoded(cells, regs[x := v'], all);
    var live := Live(ring, p, |st| - |top|);
    SameParts(live, top, live, top');
    hide Decoded;
    hide Live;
    hide Invisible;
  }

  /** Changing a register in place keeps both real stacks exactly when no cell that is still to
      be written can tell. */
  lemma InPlaceExact(e: Emitter, m: Machine, s: Snap, x: Reg, v': nat)
    requires RealStacks(e, m, s) && WSP < |m.regs| && RSP < |m.regs| && IsOp(x)
    ensures RealStacks(e, m.(regs := m.regs[x := v']), s) <==>
      Invisible(e.wcache, x, m.regs[x], v', false) && Invisible(e.rcache, x, m.regs[x], v', false)
  {
    StackedExact(e.wcache, m.ws, Ptr(m, WSP), m.regs, s.w, s.wOrigin, x, v', false);
    StackedExact(e.rcache, m.rs, Ptr(m, RSP), m.regs, s.r, s.rOrigin, x, v', false);
    hide Stacked;
    hide Invisible;
  }

  /** An increment is always visible, whatever the width of the cell. */
  lemma IncrementVisible(cells: seq<Cell>, x: Reg, v: nat, short: bool)
    ensures Invisible(cells, x, v, Uxn.Wrap(v + 1, short), false) <==> !Exposed(cells, x)
  {
    forall isShort: bool ensures Uxn.BytesOf(Uxn.Wrap(v + 1, short), isShort) != Uxn.BytesOf(v, isShort) {
      LowByteChanges(v, short);
      var a, b := Uxn.BytesOf(Uxn.Wrap(v + 1, short), isShort), Uxn.BytesOf(v, isShort);
      assert a[|a| - 1] != b[|b| - 1];
    }
    hide Uxn.BytesOf;
    hide Uxn.Wrap;
  }

  lemma LowByteChanges(v: nat, short: bool)
    ensures Uxn.Wrap(v + 1, short) % 256 != v % 256
  {
    var w := Uxn.Wrap(v + 1, short);
    if short {
      ModUnique(w, 256, (v + 1) / 256 - (v + 1) / 0x1_0000 * 256, (v + 1) % 256);
    }
    assert w % 256 == (v + 1) % 256;
  }

  /** INC keeps what is below its operand exactly when no cell still to be written, on either
      stack, holds the operand's register.  DUP and OVR leave such cells behind. */
  lemma IncExact(e: Emitter, a: Reg, short: bool, m0: Machine, s: Snap, held: multiset<Reg>)
    requires Good(e, m0, s, held) && a in s.vals
    ensures var e' := e.Emit(Op2(Alu.ADD, a, R(a), Imm(1))).Emit(Op2(Alu.AND, a, R(a), Mask(short)));
      RealStacks(e', Run(e', m0), s) <==> !Exposed(e.wcache, a) && !Exposed(e.rcache, a)
  {
    hide Exec;
    hide Step;
    hide Good;
    hide RealStacks;
    hide Exposed;
    hide Invisible;
    hide AreBytes;
    var m := Run(e, m0);
    var e' := e.Emit(Op2(Alu.ADD, a, R(a), Imm(1))).Emit(Op2(Alu.AND, a, R(a), Mask(short)));
    IncReady(e, m0, s, held, a);
    StepAluImm(Alu.ADD, a, a, 1, m);
    MaskRuns(a, short, Step(Op2(Alu.ADD, a, R(a), Imm(1)), m));
    WordCut(m.regs[a] + 1);
    var v' := Uxn.Wrap(m.regs[a] + 1, short);
    assert Run(e', m0) == m.(regs := m.regs[a := v']);
    hide Calm;
    InPlaceExact(e, m, s, a, v');
    IncrementVisible(e.wcache, a, m.regs[a], short);
    IncrementVisible(e.rcache, a, m.regs[a], short);
    assert RealStacks(e', Run(e', m0), s) <==> RealStacks(e, Run(e', m0), s) by { SameCells(e, e', Run(e', m0), s); }
  }

  lemma IncReady(e: Emitter, m0: Machine, s: Snap, held: multiset<Reg>, a: Reg)
    requires Good(e, m0, s, held) && a in s.vals
    ensures RealStacks(e, Run(e, m0), s) && IsOp(a) && Calm(Run(e, m0)) && |Run(e, m0).regs| == NUM_REGS
  {
    hide Exec;
    hide Stacked;
    hide AreBytes;
    hide Inv;
  }

  lemma SameCells(e: Emitter, e': Emitter, m: Machine, s: Snap)
    requires e'.wcache == e.wcache && e'.rcache == e.rcache
    ensures RealStacks(e', m, s) <==> RealStacks(e, m, s)
  {
  }

  /** Two cells on top that share a register and are still to be written. */
  ghost predicate SharedTop(cells: seq<Cell>, short: bool) {
    var n := |cells|;
    n >= 2 && cells[n - 1] == cells[n - 2] && cells[n - 1].needFlush && cells[n - 1].isShort == short
  }

  lemma AppendShape(e: Emitter, a: Reg, r: bool, cells: seq<Cell>)
    ensures e.WithCache(r, cells).Retain(a).Cache(r) == cells
  {
  }

  /** A push puts one cell on top; a full cache loses its oldest. */
  lemma PushShape(e: Emitter, held: multiset<Reg>, a: Reg, short: bool, r: bool)
    requires Inv(e, held) && a in held
    ensures e.Push(a, short, r).Cache(r) ==
      (if |e.Cache(r)| >= CACHE_SIZE then e.Cache(r)[1..] else e.Cache(r)) + [Cell(a, short, true)]
  {
    SpillInv(e, held, r);
    assert e.Count(a) > 0;
    hide Inv;
    hide Emitter.Spill;
    hide Emitter.Retain;
    hide Emitter.WithCache;
    var e1 := if |e.Cache(r)| >= CACHE_SIZE then e.Spill(r) else e;
    AppendShape(e1, a, r, e1.Cache(r) + [Cell(a, short, true)]);
  }

  /** DUP leaves two cells that share a register. */
  lemma DupShares(e: Emitter, pc: nat, held: multiset<Reg>)
    requires Inv(e, held) && |held| <= 2 && Uxn.OpOf(e.opcode).Dup?
    ensures SharedTop(e.Plain(pc).Cache(Uxn.FlagR(e.opcode)), Uxn.Flag2(e.opcode))
  {
    hide Inv;
    hide SharedTop;
    hide Emitter.CachePop;
    var r, short := Uxn.FlagR(e.opcode), Uxn.Flag2(e.opcode);
    PopInv(e, held, short, r);
    var (e1, a) := e.CachePop(short, r);
    PushShape(e1, held + multiset{a}, a, short, r);
    PushInv(e1, held + multiset{a}, a, short, r);
    PushShape(e1.Push(a, short, r), held + multiset{a}, a, short, r);
    assert e.Plain(pc) == e1.Push(a, short, r).Push(a, short, r) by {
      hide Emitter.Push;
      hide Uxn.FlagR;
      hide Uxn.FlagK;
      hide Uxn.Flag2;
    }
    hide Emitter.Push;
    hide Emitter.Plain;
    PushedTwice(e1.Cache(r), e1.Push(a, short, r).Cache(r), e.Plain(pc).Cache(r), a, short);
  }

  lemma PushedTwice(cells: seq<Cell>, cells1: seq<Cell>, cells2: seq<Cell>, a: Reg, short: bool)
    requires cells1 == (if |cells| >= CACHE_SIZE then cells[1..] else cells) + [Cell(a, short, true)]
    requires cells2 == (if |cells1| >= CACHE_SIZE then cells1[1..] else cells1) + [Cell(a, short, true)]
    ensures SharedTop(cells2, short)
  {
  }

  lemma {:induction false} TopNotDropped(cells: seq<Cell>, n: nat)
    requires n <= |cells| && forall i :: n <= i < |cells| ==> cells[i].needFlush
    ensures NumFlushed(cells) <= n
    decreases |cells|
  {
    if n < |cells| {
      TopNotDropped(cells[..|cells| - 1], n);
    }
  }

  lemma BeginCache(e: Emitter, code: nat, held: multiset<Reg>, r: bool)
    requires Inv(e, held) && !Uxn.FlagK(code)
    ensures e.Begin(code).Cache(r) == e.Cache(r)[NumFlushed(e.Cache(r))..]
  {
    var zeroed := e.(refs := seq(NUM_OPS, i => 0));
    assert Zeroed(zeroed);
    hide Inv;
    hide NumFlushed;
    hide Uxn.FlagK;
    RetainBothInv(zeroed);
    hide Emitter.RetainCache;
    hide Zeroed;
  }

  /** The two cells are still there when the next opcode pops, unless it is in keep mode. */
  lemma SharedAfterBegin(e: Emitter, code: nat, held: multiset<Reg>, r: bool, short: bool)
    requires Inv(e, held) && SharedTop(e.Cache(r), short) && !Uxn.FlagK(code)
    ensures SharedTop(e.Begin(code).Cache(r), short)
  {
    hide Emitter.Begin;
    hide Inv;
    BeginCache(e, code, held, r);
    TopNotDropped(e.Cache(r), |e.Cache(r)| - 2);
    hide NumFlushed;
  }

  /** INC of the same width right after DUP, both popping: the byte or short below the result
      is changed as well.  The caches never hold the stacks the opcodes ask for. */
  lemma IncAfterDupWrong(e: Emitter, code: nat, m0: Machine, s: Snap, held: multiset<Reg>)
    requires Good(e, m0, s, held) && !Uxn.FlagK(code)
    requires SharedTop(e.Cache(Uxn.FlagR(code)), Uxn.Flag2(code))
    requires var r, short := Uxn.FlagR(code), Uxn.Flag2(code);
      Uxn.PopValue(s.Stack(r), short).Some? && !e.Begin(code).CachePop(short, r).0.Hazard()
    ensures var r, short := Uxn.FlagR(code), Uxn.Flag2(code);
      var (e1, a) := e.Begin(code).CachePop(short, r);
      var e2 := e1.Emit(Op2(Alu.ADD, a, R(a), Imm(1))).Emit(Op2(Alu.AND, a, R(a), Mask(short)));
      !RealStacks(e2, Run(e2, m0), s.With(r, Uxn.PopValue(s.Stack(r), short).value.0))
  {
    hide Exec;
    var r, short := Uxn.FlagR(code), Uxn.Flag2(code);
    SharedAfterBegin(e, code, held, r, short);
    var held1 := OpStart.BeginGood(e, code, m0, s, held);
    var e0 := e.Begin(code);
    hide Emitter.Begin;
    hide Good;
    var s1 := s.(vals := map[]);
    PopGood(e0, short, r, false, m0, s1, held1, s.Stack(r));
    TakesShared(e0, short, r);
    var (e1, a) := e0.CachePop(short, r);
    var (rest, v) := Uxn.PopValue(s.Stack(r), short).value;
    hide Emitter.CachePop;
    hide ViewMode;
    var s2 := s1.With(r, rest).(vals := s1.vals[a := v]);
    IncExact(e1, a, short, m0, s2, held1 + multiset{a});
    var e2 := e1.Emit(Op2(Alu.ADD, a, R(a), Imm(1))).Emit(Op2(Alu.AND, a, R(a), Mask(short)));
    SameStacks(e2, Run(e2, m0), s2, s.With(r, rest));
  }

  lemma SameStacks(e: Emitter, m: Machine, s: Snap, s': Snap)
    requires s'.w == s.w && s'.r == s.r && s'.wOrigin == s.wOrigin && s'.rOrigin == s.rOrigin
    ensures RealStacks(e, m, s') <==> RealStacks(e, m, s)
  {
    hide Stacked;
  }

  /** A pop that takes the upper of two cells that share a register leaves the lower exposed. */
  lemma TakesShared(e: Emitter, short: bool, r: bool)
    requires SharedTop(e.Cache(r), short)
    ensures var (e1, a) := e.CachePop(short, r); Exposed(e1.Cache(r), a)
  {
    var n := |e.Cache(r)|;
    SharedTaken(e, short, r);
    hide Emitter.CachePop;
    assert e.Cache(r)[..n - 1][n - 2].reg == e.Cache(r)[n - 1].reg;
  }

  /** If the cells with one more on top stand for the stack with its bytes on top, those below
      stand for the stack below. */
  lemma BelowTop(cells: seq<Cell>, c: Cell, ring: seq<nat>, p: nat, regs: seq<nat>, st: Uxn.Bytes, b: Uxn.Bytes, origin: nat)
    requires Stacked(cells + [c], ring, p, regs, st + b, origin, false) && c.needFlush && |b| == if c.isShort then 2 else 1
    ensures Stacked(cells, ring, p, regs, st, origin, false)
  {
    DecodedPush(cells, c, regs, false);
    var d, top := Decoded(cells, regs, false), Uxn.BytesOf(At(regs, c.reg), c.isShort);
    hide Decoded;
    hide Uxn.BytesOf;
    var live := Live(ring, p, |st + b| - |d + top|);
    assert st + b == live + (d + top) == (live + d) + top;
    LiveLength(ring, p, |st + b| - |d + top|);
    hide Live;
    SameParts(st, b, live + d, top);
    hide Bottom;
  }

  /** Such a pop only takes the cell. */
  lemma SharedTaken(e: Emitter, short: bool, r: bool)
    requires SharedTop(e.Cache(r), short)
    ensures var n := |e.Cache(r)|;
      e.CachePop(short, r) == (e.WithCache(r, e.Cache(r)[..n - 1]), e.Cache(r)[n - 1].reg)
  {
    hide Emitter.Split;
    hide Emitter.JoinBelow;
    hide Emitter.PopFromMem;
  }

  lemma PoppedHazard(e: Emitter, code: nat, held: multiset<Reg>, r: bool, short: bool)
    requires Inv(e, held) && !Uxn.FlagK(code) && SharedTop(e.Cache(r), short) && !e.Hazard()
    ensures !e.Begin(code).CachePop(short, r).0.Hazard()
  {
    hide Emitter.Begin;
    hide Emitter.CachePop;
    hide Inv;
    hide SharedTop;
    SharedAfterBegin(e, code, held, r, short);
    RebuiltFlags(e, code);
    SharedTaken(e.Begin(code), short, r);
  }

  lemma RebuiltFlags(e: Emitter, code: nat)
    requires !Uxn.FlagK(code)
    ensures e.Begin(code).Hazard() == e.Hazard()
  {
    RetainFlags(e.(refs := seq(NUM_OPS, i => 0)), false);
    RetainFlags(e.(refs := seq(NUM_OPS, i => 0)).RetainCache(false), true);
    hide Emitter.RetainCache;
  }

  lemma RetainFlags(e: Emitter, r: bool)
    ensures e.RetainCache(r).Hazard() == e.Hazard()
  {
    RetainFromFlags(e.WithCache(r, e.Cache(r)[NumFlushed(e.Cache(r))..]), r, 0);
    hide Emitter.RetainFrom;
  }

  lemma {:induction false} RetainFromFlags(e: Emitter, r: bool, from: nat)
    ensures e.RetainFrom(r, from).Hazard() == e.Hazard()
    decreases |e.Cache(r)| - from
  {
    if from < |e.Cache(r)| {
      assert |e.Retain(e.Cache(r)[from].reg).Cache(r)| == |e.Cache(r)|;
      RetainFromFlags(e.Retain(e.Cache(r)[from].reg), r, from + 1);
    }
  }
}
