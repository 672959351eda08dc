/** A stack kept in a ring of 256 bytes, and the cells cached above it. */
module Rings {
  import opened Words
  import opened Target
  import opened Emission
  import Uxn

  function Down(p: nat): nat {
    (p + 255) % 256
  }

  function Up(p: nat): nat {
    (p + 1) % 256
  }

  /** The "k" bytes below position "p", the topmost last. */
  ghost function Live(ring: seq<nat>, p: nat, k: nat): Uxn.Bytes
    requires |ring| == 256 && p < 256
    decreases k
  {
    if k == 0 then [] else Live(ring, Down(p), k - 1) + [ring[Down(p)]]
  }

  lemma {:induction false} LiveLength(ring: seq<nat>, p: nat, k: nat)
    requires |ring| == 256 && p < 256
    ensures |Live(ring, p, k)| == k
    decreases k
  {
    if k > 0 {
      LiveLength(ring, Down(p), k - 1);
    }
  }

  /** A write outside the live bytes does not change them. */
  lemma {:induction false} LiveFrame(ring: seq<nat>, p: nat, k: nat, at: nat, v: nat)
    requires |ring| == 256 && p < 256 && at < 256 && (at - p) % 256 + k < 256
    ensures Live(ring[at := v], p, k) == Live(ring, p, k)
    decreases k
  {
    if k > 0 {
      assert (at - Down(p)) % 256 == (at - p) % 256 + 1;
      LiveFrame(ring, Down(p), k - 1, at, v);
    }
  }

  /** Writing at the pointer and moving it up is a push. */
  lemma LivePush(ring: seq<nat>, p: nat, k: nat, v: nat)
    requires |ring| == 256 && p < 256 && k < 256
    ensures Live(ring[p := v], Up(p), k + 1) == Live(ring, p, k) + [v]
  {
    assert Down(Up(p)) == p;
    LiveFrame(ring, p, k, p, v);
  }

  lemma {:induction false} LiveBytes(ring: seq<nat>, p: nat, k: nat)
    requires |ring| == 256 && p < 256 && AreBytes(ring)
    ensures AreBytes(Live(ring, p, k))
    decreases k
  {
    if k > 0 {
      LiveBytes(ring, Down(p), k - 1);
    }
  }

  lemma Peel(a: Uxn.Bytes, b: Uxn.Bytes, c: Uxn.Bytes, st: Uxn.Bytes)
    requires st == a + (b + c)
    ensures |st| >= |c| && st[|st| - |c|..] == c && st[..|st| - |c|] == a + b
  {
    assert st == (a + b) + c;
  }

  lemma Regroup(a: Uxn.Bytes, b: Uxn.Bytes, c: Uxn.Bytes)
    ensures a + (b + c) == (a + b) + c
  {
  }

  // ---- cached cells ----

  function At(regs: seq<nat>, reg: Reg): nat {
    if reg < |regs| then regs[reg] else 0
  }

  /** The bytes of the cells, oldest first; only those not yet in memory unless "all". */
  ghost function Decoded(cells: seq<Cell>, regs: seq<nat>, all: bool): Uxn.Bytes {
    if cells == [] then []
    else
      var c := cells[|cells| - 1];
      Decoded(cells[..|cells| - 1], regs, all)
      + if all || c.needFlush then Uxn.BytesOf(At(regs, c.reg), c.isShort) else []
  }

  ghost predicate InRange(cells: seq<Cell>, regs: seq<nat>) {
    forall i :: 0 <= i < |cells| ==> At(regs, cells[i].reg) < if cells[i].isShort then 0x1_0000 else 256
  }

  lemma {:induction false} DecodedFrame(cells: seq<Cell>, regs: seq<nat>, regs': seq<nat>, all: bool)
    requires forall i :: 0 <= i < |cells| ==> At(regs', cells[i].reg) == At(regs, cells[i].reg)
    ensures Decoded(cells, regs', all) == Decoded(cells, regs, all)
    decreases |cells|
  {
    if cells != [] {
      DecodedFrame(cells[..|cells| - 1], regs, regs', all);
    }
  }

  lemma {:induction false} DecodedFirst(cells: seq<Cell>, regs: seq<nat>, all: bool)
    requires cells != []
    ensures Decoded(cells, regs, all)
      == (if all || cells[0].needFlush then Uxn.BytesOf(At(regs, cells[0].reg), cells[0].isShort) else [])
         + Decoded(cells[1..], regs, all)
    decreases |cells|
  {
    var n := |cells| - 1;
    if n == 0 {
      assert cells[..0] == [] && cells[1..] == [];
    } else {
      DecodedFirst(cells[..n], regs, all);
      assert cells[1..][..n - 1] == cells[..n][1..];
      var first := if all || cells[0].needFlush then Uxn.BytesOf(At(regs, cells[0].reg), cells[0].isShort) else [];
      var last := if all || cells[n].needFlush then Uxn.BytesOf(At(regs, cells[n].reg), cells[n].isShort) else [];
      var middle := Decoded(cells[..n][1..], regs, all);
      assert Decoded(cells, regs, all) == (first + middle) + last;
      assert Decoded(cells[1..], regs, all) == middle + last;
      hide Decoded;
      hide Uxn.BytesOf;
      Regroup(first, middle, last);
    }
  }

  lemma DecodedPush(cells: seq<Cell>, c: Cell, regs: seq<nat>, all: bool)
    requires all || c.needFlush
    ensures Decoded(cells + [c], regs, all) == Decoded(cells, regs, all) + Uxn.BytesOf(At(regs, c.reg), c.isShort)
  {
    assert (cells + [c])[..|cells|] == cells;
  }

  lemma {:induction false} DecodedUnflushed(cells: seq<Cell>, regs: seq<nat>)
    requires forall i :: 0 <= i < |cells| ==> cells[i].needFlush
    ensures Decoded(cells, regs, false) == Decoded(cells, regs, true)
    decreases |cells|
  {
    if cells != [] {
      DecodedUnflushed(cells[..|cells| - 1], regs);
    }
  }

  lemma {:induction false} DecodedFlushed(cells: seq<Cell>, regs: seq<nat>)
    requires forall i :: 0 <= i < |cells| ==> !cells[i].needFlush
    ensures Decoded(cells, regs, false) == []
    decreases |cells|
  {
    if cells != [] {
      DecodedFlushed(cells[..|cells| - 1], regs);
    }
  }

  /** Ring position of the bottom of "k" bytes below "p". */
  ghost function Bottom(p: nat, k: nat): nat {
    (p - k) % 256
  }

  /** The real stack: the live bytes below pointer "p", then the cells (all of them, or only
      those still to be written).  "origin" is the ring position of the bottom byte. */
  ghost predicate Stacked(cells: seq<Cell>, ring: seq<nat>, p: nat, regs: seq<nat>,
                          st: Uxn.Bytes, origin: nat, all: bool)
  {
    var top := Decoded(cells, regs, all);
    && |ring| == 256 && p < 256 && |top| <= |st| <= 256
    && st == Live(ring, p, |st| - |top|) + top
    && Bottom(p, |st| - |top|) == origin
  }

  /** The byte on top, when no cell holds it. */
  lemma StackedFromMemory(ring: seq<nat>, p: nat, regs: seq<nat>, st: Uxn.Bytes, origin: nat, all: bool)
    requires Stacked([], ring, p, regs, st, origin, all) && |st| > 0
    ensures st[|st| - 1] == ring[Down(p)]
    ensures Stacked([], ring, Down(p), regs, st[..|st| - 1], origin, all)
  {
    var k := |st|;
    assert Decoded([], regs, all) == [];
    LiveLength(ring, Down(p), k - 1);
    assert st == Live(ring, Down(p), k - 1) + [ring[Down(p)]];
    assert st[..k - 1] == Live(ring, Down(p), k - 1);
    assert Bottom(Down(p), k - 1) == Bottom(p, k);
  }

  /** The bytes on top, when the last cell holds them. */
  lemma StackedFromCell(cells: seq<Cell>, ring: seq<nat>, p: nat, regs: seq<nat>, st: Uxn.Bytes, origin: nat)
    requires Stacked(cells, ring, p, regs, st, origin, true) && cells != []
    ensures var c := cells[|cells| - 1]; var n := if c.isShort then 2 else 1;
      && |st| >= n
      && st[|st| - n..] == Uxn.BytesOf(At(regs, c.reg), c.isShort)
      && Stacked(cells[..|cells| - 1], ring, p, regs, st[..|st| - n], origin, true)
  {
    var c := cells[|cells| - 1];
    var n := if c.isShort then 2 else 1;
    var below, top := Decoded(cells[..|cells| - 1], regs, true), Uxn.BytesOf(At(regs, c.reg), c.isShort);
    assert Decoded(cells, regs, true) == below + top;
    hide Decoded;
    hide Live;
    hide Bottom;
    var k := |st| - |below| - n;
    var live := Live(ring, p, k);
    Peel(live, below, top, st);
    assert |st| - n - |below| == k;
  }

  /** A push that stays in the cache. */
  lemma StackedPush(cells: seq<Cell>, c: Cell, ring: seq<nat>, p: nat, regs: seq<nat>,
                    st: Uxn.Bytes, origin: nat)
    requires Stacked(cells, ring, p, regs, st, origin, false) && c.needFlush
    requires |st| + (if c.isShort then 2 else 1) <= 256
    ensures Stacked(cells + [c], ring, p, regs, st + Uxn.BytesOf(At(regs, c.reg), c.isShort), origin, false)
  {
    DecodedPush(cells, c, regs, false);
    var top, more := Decoded(cells, regs, false), Uxn.BytesOf(At(regs, c.reg), c.isShort);
    var k := |st| - |top|;
    assert st + more == Live(ring, p, k) + (top + more);
  }

  /** Putting a cell on top of a view. */
  lemma StackedOnTop(cells: seq<Cell>, c: Cell, ring: seq<nat>, p: nat, regs: seq<nat>,
                     st: Uxn.Bytes, origin: nat)
    requires Stacked(cells, ring, p, regs, st, origin, true)
    requires |st| + (if c.isShort then 2 else 1) <= 256
    ensures Stacked(cells + [c], ring, p, regs, st + Uxn.BytesOf(At(regs, c.reg), c.isShort), origin, true)
  {
    DecodedPush(cells, c, regs, true);
    var top, more := Decoded(cells, regs, true), Uxn.BytesOf(At(regs, c.reg), c.isShort);
    Regroup(Live(ring, p, |st| - |top|), top, more);
  }

  lemma StackedFrame(cells: seq<Cell>, ring: seq<nat>, p: nat, regs: seq<nat>, regs': seq<nat>,
                     st: Uxn.Bytes, origin: nat, all: bool)
    requires Stacked(cells, ring, p, regs, st, origin, all)
    requires forall i :: 0 <= i < |cells| ==> At(regs', cells[i].reg) == At(regs, cells[i].reg)
    ensures Stacked(cells, ring, p, regs', st, origin, all)
  {
    DecodedFrame(cells, regs, regs', all);
  }

  /** The ring and the pointer after the bytes of a cell have been written. */
  ghost function Written(ring: seq<nat>, p: nat, v: nat, short: bool): seq<nat>
    requires |ring| == 256 && p < 256
  {
    if short then ring[p := v / 256 % 256][Up(p) := v % 256] else ring[p := v % 256]
  }

  ghost function Above(p: nat, short: bool): nat {
    if short then Up(Up(p)) else Up(p)
  }

  lemma LiveWritten(ring: seq<nat>, p: nat, k: nat, v: nat, short: bool)
    requires |ring| == 256 && p < 256 && k + (if short then 2 else 1) <= 256
    ensures Live(Written(ring, p, v, short), Above(p, short), k + if short then 2 else 1)
         == Live(ring, p, k) + Uxn.BytesOf(v, short)
  {
    if short {
      LivePush(ring, p, k, v / 256 % 256);
      LivePush(ring[p := v / 256 % 256], Up(p), k + 1, v % 256);
    } else {
      LivePush(ring, p, k, v % 256);
    }
  }

  /** Writing the oldest unwritten cell to memory does not change the real stack. */
  lemma StackedSpill(cells: seq<Cell>, ring: seq<nat>, p: nat, regs: seq<nat>, st: Uxn.Bytes, origin: nat)
    requires cells != [] && cells[0].needFlush && Stacked(cells, ring, p, regs, st, origin, false)
    ensures var c := cells[0]; var v := At(regs, c.reg);
      Stacked(cells[1..], Written(ring, p, v, c.isShort), Above(p, c.isShort), regs, st, origin, false)
  {
    var c := cells[0];
    var v := At(regs, c.reg);
    DecodedFirst(cells, regs, false);
    var rest := Decoded(cells[1..], regs, false);
    var k := |st| - |Decoded(cells, regs, false)|;
    hide Decoded;
    hide Live;
    hide Bottom;
    LiveWritten(ring, p, k, v, c.isShort);
    AboveOrigin(p, k, c.isShort);
    var live := Live(ring, p, k);
    Regroup(live, Uxn.BytesOf(v, c.isShort), rest);
  }

  lemma AboveOrigin(p: nat, k: nat, short: bool)
    requires p < 256
    ensures Bottom(Above(p, short), k + if short then 2 else 1) == Bottom(p, k)
  {
  }

  lemma StackedDropFlushed(cells: seq<Cell>, ring: seq<nat>, p: nat, regs: seq<nat>, st: Uxn.Bytes, origin: nat)
    requires cells != [] && !cells[0].needFlush && Stacked(cells, ring, p, regs, st, origin, false)
    ensures Stacked(cells[1..], ring, p, regs, st, origin, false)
  {
    DecodedFirst(cells, regs, false);
    assert Decoded(cells, regs, false) == Decoded(cells[1..], regs, false);
  }
}
