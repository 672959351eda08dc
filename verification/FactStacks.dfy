/** The static values are two plain stacks of facts: the rings with their shadow pointers do what
    popping and pushing lists does, so nothing the compiler could know is forgotten or moved to
    the wrong byte. */
module FactStacks {
  import opened Facts
  import Uxn

  type FactStack = seq<Fact>

  // ---- the simple form ----

  /** A popped operand: a short is known if both of its bytes are. */
  function PopKnown(fs: FactStack, short: bool): Uxn.Option<(FactStack, Known)> {
    var n := |fs|;
    if short then
      if n < 2 then Uxn.None
      else
        var hi, lo := fs[n - 2], fs[n - 1];
        Uxn.Some((fs[..n - 2], if hi.constant && lo.constant then Known(true, true, false, hi.value * 256 + lo.value) else Unknown(true)))
    else
      if n < 1 then Uxn.None
      else Uxn.Some((fs[..n - 1], Known(false, fs[n - 1].constant, fs[n - 1].boolean, fs[n - 1].value)))
  }

  /** The facts about the bytes of an operand. */
  function FactsOf(k: Known): FactStack {
    if k.short then [Fact(k.constant, k.boolean, k.value / 256 % 256), Fact(k.constant, k.boolean, k.value % 256)]
    else [Fact(k.constant, k.boolean, k.value % 256)]
  }

  function PopKnowns(fs: FactStack, shape: seq<bool>): Uxn.Option<(FactStack, seq<Known>)> {
    if shape == [] then Uxn.Some((fs, []))
    else
      match PopKnown(fs, shape[0])
      case None => Uxn.None
      case Some((rest, k)) =>
        match PopKnowns(rest, shape[1..])
        case None => Uxn.None
        case Some((rest', ks)) => Uxn.Some((rest', [k] + ks))
  }

  /** What is known of the bytes an operation pushes on the current and on the other stack. */
  datatype Learned = Learned(cur: FactStack, oth: FactStack)

  function Operand(ks: seq<Known>, i: nat): Known {
    if i < |ks| then ks[i] else Unknown(false)
  }

  /** "ks" are the operands, topmost first. */
  function Learns(op: Uxn.Op, short: bool, ks: seq<Known>, lit: nat): Learned {
    var x, y, z := FactsOf(Operand(ks, 0)), FactsOf(Operand(ks, 1)), FactsOf(Operand(ks, 2));
    match op
    case Lit => Learned(FactsOf(Known(short, true, false, lit)), [])
    case Inc => Learned(FactsOf(Incremented(Operand(ks, 0))), [])
    case Nip => Learned(x, [])
    case Swp => Learned(x + y, [])
    case Rot => Learned(y + x + z, [])
    case Dup => Learned(x + x, [])
    case Ovr => Learned(y + x + y, [])
    case Sth => Learned([], x)
    case Equ | Neq | Gth | Lth => Learned([Fact(false, true, 0)], [])
    case Ldz | Ldr | Lda | Dei => Learned(FactsOf(Unknown(short)), [])
    case Add | Sub | Mul | Div | And | Ora | Eor | Sft =>
      Learned(FactsOf(Folded(op, Operand(ks, 1), Operand(ks, 0))), [])
    case Jsr | Jsi => Learned([], FactsOf(Unknown(true)))
    case _ => Learned([], [])
  }

  // ---- the rings ----

  ghost predicate RingIs(ring: seq<Fact>, p: nat, fs: FactStack) {
    && |ring| == RING && p < RING && |fs| <= RING
    && forall i :: 0 <= i < |fs| ==> ring[Slot(p, |fs|, i)] == fs[i]
  }

  lemma RingPops(ring: seq<Fact>, p: nat, fs: FactStack, k: nat)
    requires RingIs(ring, p, fs) && k <= |fs|
    ensures RingIs(ring, Back(p, k), fs[..|fs| - k])
    ensures 1 <= k ==> ring[Back(p, k)] == fs[|fs| - k]
  {
    forall i | 0 <= i < |fs| - k ensures ring[Slot(Back(p, k), |fs| - k, i)] == fs[i] {
      SlotPop(p, |fs|, k, i);
    }
    assert k >= 1 ==> Slot(p, |fs|, |fs| - k) == Back(p, k);
  }

  lemma RingPushes(ring: seq<Fact>, p: nat, fs: FactStack, f: Fact)
    requires RingIs(ring, p, fs) && |fs| < RING
    ensures RingIs(ring[p := f], (p + 1) % RING, fs + [f])
  {
    forall i | 0 <= i < |fs| + 1 ensures ring[p := f][Slot((p + 1) % RING, |fs| + 1, i)] == (fs + [f])[i] {
      SlotPush(p, |fs|, i);
    }
  }

  /** The two stacks of facts, the current one first. */
  ghost predicate Are(t: Tracker, r: bool, cur: FactStack, oth: FactStack) {
    RingIs(t.Ring(r), t.Ptr(r), cur) && RingIs(t.Ring(!r), t.Ptr(!r), oth)
  }

  /** While an opcode pops, "view" is what its pops still see. */
  ghost predicate Viewed(t: Tracker, r: bool, k: bool, cur: FactStack, oth: FactStack, view: FactStack) {
    t.keep == k && RingIs(t.Ring(r), t.PopPtr(r), view) && Are(t, r, if k then cur else view, oth)
  }

  lemma BeginViewed(t: Tracker, r: bool, code: nat, cur: FactStack, oth: FactStack)
    requires Are(t, r, cur, oth)
    ensures Viewed(t.Begin(code), r, Uxn.FlagK(code), cur, oth, cur)
  {
  }

  lemma PopRing(ring: seq<Fact>, p: nat, fs: FactStack, short: bool)
    requires RingIs(ring, p, fs) && PopKnown(fs, short).Some?
    ensures var n := |fs|;
      && RingIs(ring, Back(p, if short then 2 else 1), PopKnown(fs, short).value.0) && n >= 1 && |ring| == RING
      && ring[Back(p, 1)] == fs[n - 1] && (short ==> n >= 2 && ring[Back(p, 2)] == fs[n - 2])
  {
    RingPops(ring, p, fs, 1);
    if short {
      RingPops(ring, p, fs, 2);
    }
    hide Slot;
    hide Back;
  }

  /** Only the pointer that pops move has moved. */
  lemma PopIs(t: Tracker, short: bool, r: bool, view: FactStack)
    requires RingIs(t.Ring(r), t.PopPtr(r), view) && PopKnown(view, short).Some?
    ensures t.Pop(short, r) == (t.WithPopPtr(r, Back(t.PopPtr(r), if short then 2 else 1)), PopKnown(view, short).value.1)
    ensures RingIs(t.Ring(r), Back(t.PopPtr(r), if short then 2 else 1), PopKnown(view, short).value.0)
  {
    PopRing(t.Ring(r), t.PopPtr(r), view, short);
    hide RingIs;
    hide Back;
  }

  lemma PopViewed(t: Tracker, short: bool, r: bool, k: bool, cur: FactStack, oth: FactStack, view: FactStack)
    requires Viewed(t, r, k, cur, oth, view) && PopKnown(view, short).Some?
    ensures var (t', o) := t.Pop(short, r); var (rest, o') := PopKnown(view, short).value;
      Viewed(t', r, k, cur, oth, rest) && o == o'
  {
    hide RingIs;
    hide PopKnown;
    hide Tracker.Pop;
    PopIs(t, short, r, view);
    hide Back;
  }

  lemma ViewedAre(t: Tracker, r: bool, k: bool, cur: FactStack, oth: FactStack, view: FactStack)
    requires Viewed(t, r, k, cur, oth, view)
    ensures Are(t, r, if k then cur else view, oth)
  {
  }

  lemma PushFactAre(t: Tracker, f: Fact, r: bool, to: bool, cur: FactStack, oth: FactStack)
    requires Are(t, r, cur, oth) && |if to == r then cur else oth| < RING
    ensures Are(t.PushFact(f, to), r, if to == r then cur + [f] else cur, if to == r then oth else oth + [f])
  {
    RingPushes(t.Ring(to), t.Ptr(to), if to == r then cur else oth, f);
    PtrInside(t, to, if to == r then cur else oth);
    hide RingIs;
  }

  lemma PtrInside(t: Tracker, r: bool, fs: FactStack)
    requires RingIs(t.Ring(r), t.Ptr(r), fs)
    ensures t.Ptr(r) < |t.Ring(r)|
  {
  }

  lemma PushAre(t: Tracker, o: Known, r: bool, to: bool, cur: FactStack, oth: FactStack)
    requires Are(t, r, cur, oth) && |if to == r then cur else oth| + |FactsOf(o)| <= RING
    ensures Are(t.Push(o, to), r, if to == r then cur + FactsOf(o) else cur, if to == r then oth else oth + FactsOf(o))
  {
    hide Are;
    hide Tracker.PushFact;
    var first := FactsOf(o)[0];
    PushFactAre(t, first, r, to, cur, oth);
    if o.short {
      PushFactAre(t.PushFact(first, to), FactsOf(o)[1], r, to, if to == r then cur + [first] else cur, if to == r then oth else oth + [first]);
      assert cur + [first] + [FactsOf(o)[1]] == cur + FactsOf(o) && oth + [first] + [FactsOf(o)[1]] == oth + FactsOf(o);
    }
  }

  lemma DropAre(t: Tracker, short: bool, r: bool, cur: FactStack, oth: FactStack)
    requires Are(t, r, cur, oth) && PopKnown(cur, short).Some?
    ensures Are(t.Drop(short, r), r, PopKnown(cur, short).value.0, oth)
  {
    RingPops(t.Ring(r), t.Ptr(r), cur, if short then 2 else 1);
    hide RingIs;
  }

  // ---- operand lists ----

  lemma OneKnown(fs: FactStack, a: bool, rest: FactStack, ks: seq<Known>)
    requires PopKnowns(fs, [a]) == Uxn.Some((rest, ks))
    ensures PopKnown(fs, a).Some? && PopKnown(fs, a).value.0 == rest && ks == [PopKnown(fs, a).value.1]
  {
    assert [a][1..] == [];
    var k := PopKnown(fs, a).value.1;
    assert [k] + [] == [k];
  }

  lemma TwoKnown(fs: FactStack, a: bool, b: bool, rest: FactStack, ks: seq<Known>)
    requires PopKnowns(fs, [a, b]) == Uxn.Some((rest, ks))
    ensures PopKnown(fs, a).Some? && PopKnown(PopKnown(fs, a).value.0, b).Some?
    ensures var (fs', x) := PopKnown(fs, a).value; rest == PopKnown(fs', b).value.0 && ks == [x, PopKnown(fs', b).value.1]
  {
    assert [a, b][1..] == [b];
    var (fs', x) := PopKnown(fs, a).value;
    OneKnown(fs', b, rest, PopKnowns(fs', [b]).value.1);
  }

  lemma ThreeKnown(fs: FactStack, a: bool, rest: FactStack, ks: seq<Known>)
    requires PopKnowns(fs, [a, a, a]) == Uxn.Some((rest, ks))
    ensures PopKnown(fs, a).Some?
    ensures var (fs', x) := PopKnown(fs, a).value;
      PopKnowns(fs', [a, a]).Some? && PopKnowns(fs', [a, a]).value.0 == rest && ks == [x] + PopKnowns(fs', [a, a]).value.1
  {
    assert [a, a, a][1..] == [a, a];
  }

  // ---- the opcodes ----

  /** An opcode on the simple form: operands, what stays below them, and room for the results. */
  ghost predicate Given(code: nat, lit: nat, t: Tracker, cur: FactStack, oth: FactStack, rest: FactStack, ks: seq<Known>) {
    var op, short := Uxn.OpOf(code), Uxn.Flag2(code);
    var l := Learns(op, short, ks, lit);
    && Are(t, Uxn.FlagR(code), cur, oth) && PopKnowns(cur, Uxn.Shape(op, short)) == Uxn.Some((rest, ks))
    && |(if Uxn.FlagK(code) then cur else rest) + l.cur| <= RING && |oth + l.oth| <= RING
  }

  ghost predicate Results(code: nat, lit: nat, t: Tracker, cur: FactStack, oth: FactStack, rest: FactStack, ks: seq<Known>) {
    var l := Learns(Uxn.OpOf(code), Uxn.Flag2(code), ks, lit);
    Are(t.Track(code, lit), Uxn.FlagR(code), (if Uxn.FlagK(code) then cur else rest) + l.cur, oth + l.oth)
  }

  lemma OneOperand(code: nat, lit: nat, t: Tracker, cur: FactStack, oth: FactStack, rest: FactStack, ks: seq<Known>, width: bool)
    requires Given(code, lit, t, cur, oth, rest, ks) && Uxn.Shape(Uxn.OpOf(code), Uxn.Flag2(code)) == [width]
    ensures var (t1, a) := t.Begin(code).Pop(width, Uxn.FlagR(code));
      Are(t1, Uxn.FlagR(code), if Uxn.FlagK(code) then cur else rest, oth) && ks == [a]
  {
    hide Are;
    hide PopKnown;
    hide Viewed;
    hide Learns;
    hide Uxn.OpOf;
    hide Uxn.Flag2;
    hide Uxn.FlagR;
    hide Uxn.FlagK;
    var r, k := Uxn.FlagR(code), Uxn.FlagK(code);
    OneKnown(cur, width, rest, ks);
    BeginViewed(t, r, code, cur, oth);
    PopViewed(t.Begin(code), width, r, k, cur, oth, cur);
    ViewedAre(t.Begin(code).Pop(width, r).0, r, k, cur, oth, rest);
  }

  lemma TwoOperands(code: nat, lit: nat, t: Tracker, cur: FactStack, oth: FactStack, rest: FactStack, ks: seq<Known>, w1: bool, w2: bool)
    requires Given(code, lit, t, cur, oth, rest, ks) && Uxn.Shape(Uxn.OpOf(code), Uxn.Flag2(code)) == [w1, w2]
    ensures var (t1, b) := t.Begin(code).Pop(w1, Uxn.FlagR(code)); var (t2, a) := t1.Pop(w2, Uxn.FlagR(code));
      Are(t2, Uxn.FlagR(code), if Uxn.FlagK(code) then cur else rest, oth) && ks == [b, a]
  {
    hide Are;
    hide PopKnown;
    hide Viewed;
    hide Learns;
    hide Uxn.OpOf;
    hide Uxn.Flag2;
    hide Uxn.FlagR;
    hide Uxn.FlagK;
    var r, k := Uxn.FlagR(code), Uxn.FlagK(code);
    TwoKnown(cur, w1, w2, rest, ks);
    BeginViewed(t, r, code, cur, oth);
    PopViewed(t.Begin(code), w1, r, k, cur, oth, cur);
    var t1 := t.Begin(code).Pop(w1, r).0;
    PopViewed(t1, w2, r, k, cur, oth, PopKnown(cur, w1).value.0);
    ViewedAre(t1.Pop(w2, r).0, r, k, cur, oth, rest);
  }

  lemma RotOperands(code: nat, lit: nat, t: Tracker, cur: FactStack, oth: FactStack, rest: FactStack, ks: seq<Known>)
    requires Given(code, lit, t, cur, oth, rest, ks) && Uxn.OpOf(code).Rot?
    ensures var r, short := Uxn.FlagR(code), Uxn.Flag2(code);
      var (t1, c) := t.Begin(code).Pop(short, r); var (t2, b) := t1.Pop(short, r); var (t3, a) := t2.Pop(short, r);
      Are(t3, r, if Uxn.FlagK(code) then cur else rest, oth) && ks == [c, b, a]
  {
    hide Are;
    hide PopKnown;
    hide Viewed;
    hide Learns;
    hide Uxn.Flag2;
    hide Uxn.FlagR;
    hide Uxn.FlagK;
    var r, k, short := Uxn.FlagR(code), Uxn.FlagK(code), Uxn.Flag2(code);
    assert Uxn.Shape(Uxn.OpOf(code), short) == [short, short, short];
    hide Uxn.OpOf;
    ThreeKnown(cur, short, rest, ks);
    var view1 := PopKnown(cur, short).value.0;
    TwoKnown(view1, short, short, rest, PopKnowns(view1, [short, short]).value.1);
    BeginViewed(t, r, code, cur, oth);
    PopViewed(t.Begin(code), short, r, k, cur, oth, cur);
    var t1 := t.Begin(code).Pop(short, r).0;
    PopViewed(t1, short, r, k, cur, oth, view1);
    var t2 := t1.Pop(short, r).0;
    PopViewed(t2, short, r, k, cur, oth, PopKnown(view1, short).value.0);
    ViewedAre(t2.Pop(short, r).0, r, k, cur, oth, rest);
  }

  /** One, two or three operands pushed on the current stack. */
  lemma PushOne(t: Tracker, a: Known, r: bool, cur: FactStack, oth: FactStack)
    requires Are(t, r, cur, oth) && |cur + FactsOf(a)| <= RING
    ensures Are(t.Push(a, r), r, cur + FactsOf(a), oth + [])
  {
    hide Are;
    hide FactsOf;
    PushAre(t, a, r, r, cur, oth);
    assert oth + [] == oth;
  }

  lemma PushTwo(t: Tracker, a: Known, b: Known, r: bool, cur: FactStack, oth: FactStack)
    requires Are(t, r, cur, oth) && |cur + (FactsOf(a) + FactsOf(b))| <= RING
    ensures Are(t.Push(a, r).Push(b, r), r, cur + (FactsOf(a) + FactsOf(b)), oth + [])
  {
    hide Are;
    hide FactsOf;
    PushAre(t, a, r, r, cur, oth);
    PushAre(t.Push(a, r), b, r, r, cur + FactsOf(a), oth);
    assert oth + [] == oth && cur + FactsOf(a) + FactsOf(b) == cur + (FactsOf(a) + FactsOf(b));
  }

  lemma PushThree(t: Tracker, a: Known, b: Known, c: Known, r: bool, cur: FactStack, oth: FactStack)
    requires Are(t, r, cur, oth) && |cur + (FactsOf(a) + FactsOf(b) + FactsOf(c))| <= RING
    ensures Are(t.Push(a, r).Push(b, r).Push(c, r), r, cur + (FactsOf(a) + FactsOf(b) + FactsOf(c)), oth + [])
  {
    hide Are;
    hide FactsOf;
    PushTwo(t, a, b, r, cur, oth);
    assert oth + [] == oth;
    PushAre(t.Push(a, r).Push(b, r), c, r, r, cur + (FactsOf(a) + FactsOf(b)), oth);
    assert cur + (FactsOf(a) + FactsOf(b)) + FactsOf(c) == cur + (FactsOf(a) + FactsOf(b) + FactsOf(c));
  }

  lemma PushOther(t: Tracker, a: Known, r: bool, cur: FactStack, oth: FactStack)
    requires Are(t, r, cur, oth) && |oth + FactsOf(a)| <= RING
    ensures Are(t.Push(a, !r), r, cur + [], oth + FactsOf(a))
  {
    hide Are;
    hide FactsOf;
    PushAre(t, a, r, !r, cur, oth);
    assert cur + [] == cur;
  }

  lemma OneApplies(code: nat, lit: nat, t: Tracker)
    ensures var op, short, r := Uxn.OpOf(code), Uxn.Flag2(code), Uxn.FlagR(code);
      && (op.Inc? ==> var (t1, a) := t.Begin(code).Pop(short, r); t.Track(code, lit) == t1.Push(Incremented(a), r))
      && (op.Dup? ==> var (t1, a) := t.Begin(code).Pop(short, r); t.Track(code, lit) == t1.Push(a, r).Push(a, r))
      && (op.Sth? ==> var (t1, a) := t.Begin(code).Pop(short, r); t.Track(code, lit) == t1.Push(a, !r))
      && (op.Jsr? ==> t.Track(code, lit) == t.Begin(code).Pop(short, r).0.Push(Unknown(true), !r))
      && (op.Jmp? ==> t.Track(code, lit) == t.Begin(code).Pop(short, r).0)
      && (op.Lda? ==> t.Track(code, lit) == t.Begin(code).Pop(true, r).0.Push(Unknown(short), r))
      && (op.Ldz? || op.Ldr? || op.Dei? ==> t.Track(code, lit) == t.Begin(code).Pop(false, r).0.Push(Unknown(short), r))
  {
    hide Uxn.OpOf;
    hide Uxn.Flag2;
    hide Uxn.FlagR;
    hide Tracker.Begin;
    hide Tracker.Pop;
    hide Tracker.Push;
    hide Incremented;
  }

  lemma OneShape(op: Uxn.Op, short: bool)
    requires op.Inc? || op.Dup? || op.Sth? || op.Ldz? || op.Ldr? || op.Lda? || op.Dei? || op.Jmp? || op.Jsr?
    ensures Uxn.Shape(op, short) == [if op.Lda? then true else if op.Ldz? || op.Ldr? || op.Dei? then false else short]
  {
  }

  lemma OneLearns(op: Uxn.Op, short: bool, a: Known, lit: nat)
    ensures var l := Learns(op, short, [a], lit);
      && (op.Inc? ==> l == Learned(FactsOf(Incremented(a)), [])) && (op.Dup? ==> l == Learned(FactsOf(a) + FactsOf(a), []))
      && (op.Sth? ==> l == Learned([], FactsOf(a))) && (op.Jsr? ==> l == Learned([], FactsOf(Unknown(true))))
      && (op.Jmp? ==> l == Learned([], []))
      && (op.Lda? || op.Ldz? || op.Ldr? || op.Dei? ==> l == Learned(FactsOf(Unknown(short)), []))
  {
    hide FactsOf;
    hide Incremented;
  }

  lemma OneIs(code: nat, lit: nat, t: Tracker, cur: FactStack, oth: FactStack, rest: FactStack, ks: seq<Known>)
    requires Given(code, lit, t, cur, oth, rest, ks)
    requires var op := Uxn.OpOf(code); op.Inc? || op.Dup? || op.Sth? || op.Ldz? || op.Ldr? || op.Lda? || op.Dei? || op.Jmp? || op.Jsr?
    ensures Results(code, lit, t, cur, oth, rest, ks)
  {
    hide Are;
    hide FactsOf;
    hide Learns;
    hide PopKnowns;
    hide Incremented;
    hide Uxn.OpOf;
    hide Uxn.Flag2;
    hide Uxn.FlagR;
    hide Uxn.FlagK;
    hide Uxn.Shape;
    hide Tracker.Begin;
    hide Tracker.Pop;
    hide Tracker.Push;
    hide Tracker.Track;
    var op, short, r := Uxn.OpOf(code), Uxn.Flag2(code), Uxn.FlagR(code);
    var base := if Uxn.FlagK(code) then cur else rest;
    var width := if op.Lda? then true else if op.Ldz? || op.Ldr? || op.Dei? then false else short;
    OneShape(op, short);
    OneOperand(code, lit, t, cur, oth, rest, ks, width);
    OneApplies(code, lit, t);
    var (t1, a) := t.Begin(code).Pop(width, r);
    OneLearns(op, short, a, lit);
    if op.Inc? { PushOne(t1, Incremented(a), r, base, oth); }
    else if op.Dup? { PushTwo(t1, a, a, r, base, oth); }
    else if op.Sth? { PushOther(t1, a, r, base, oth); }
    else if op.Jsr? { PushOther(t1, Unknown(true), r, base, oth); }
    else if op.Jmp? { assert base + [] == base && oth + [] == oth; }
    else { PushOne(t1, Unknown(short), r, base, oth); }
  }

  predicate IsTwo(op: Uxn.Op) {
    op.Swp? || op.Ovr? || op.Equ? || op.Neq? || op.Gth? || op.Lth? || op.Stz? || op.Str? || op.Sta? || op.Jcn? || op.Deo?
  }

  predicate Compares(op: Uxn.Op) {
    op.Equ? || op.Neq? || op.Gth? || op.Lth?
  }

  /** The widths of the two operands, the topmost first. */
  function Widths(op: Uxn.Op, short: bool): (bool, bool) {
    (if op.Sta? then true else if op.Stz? || op.Str? || op.Deo? then false else short, if op.Jcn? then false else short)
  }

  lemma TwoApplies(code: nat, lit: nat, t: Tracker)
    requires IsTwo(Uxn.OpOf(code))
    ensures var op, short, r := Uxn.OpOf(code), Uxn.Flag2(code), Uxn.FlagR(code);
      var (t1, b) := t.Begin(code).Pop(Widths(op, short).0, r); var (t2, a) := t1.Pop(Widths(op, short).1, r);
      t.Track(code, lit) ==
        (if op.Swp? then t2.Push(b, r).Push(a, r) else if op.Ovr? then t2.Push(a, r).Push(b, r).Push(a, r)
         else if Compares(op) then t2.Push(Known(false, false, true, 0), r) else t2)
  {
    hide Uxn.OpOf;
    hide Uxn.Flag2;
    hide Uxn.FlagR;
    hide Tracker.Begin;
    hide Tracker.Pop;
    hide Tracker.Push;
  }

  lemma TwoShape(op: Uxn.Op, short: bool)
    requires IsTwo(op)
    ensures Uxn.Shape(op, short) == [Widths(op, short).0, Widths(op, short).1]
  {
  }

  lemma TwoLearns(op: Uxn.Op, short: bool, b: Known, a: Known, lit: nat)
    requires IsTwo(op)
    ensures Learns(op, short, [b, a], lit) ==
      if op.Swp? then Learned(FactsOf(b) + FactsOf(a), []) else if op.Ovr? then Learned(FactsOf(a) + FactsOf(b) + FactsOf(a), [])
      else if Compares(op) then Learned(FactsOf(Known(false, false, true, 0)), []) else Learned([], [])
  {
    assert FactsOf(Known(false, false, true, 0)) == [Fact(false, true, 0)];
    hide FactsOf;
  }

  lemma TwoIs(code: nat, lit: nat, t: Tracker, cur: FactStack, oth: FactStack, rest: FactStack, ks: seq<Known>)
    requires Given(code, lit, t, cur, oth, rest, ks) && IsTwo(Uxn.OpOf(code))
    ensures Results(code, lit, t, cur, oth, rest, ks)
  {
    hide Are;
    hide FactsOf;
    hide Learns;
    hide PopKnowns;
    hide IsTwo;
    hide Widths;
    hide Uxn.OpOf;
    hide Uxn.Flag2;
    hide Uxn.FlagR;
    hide Uxn.FlagK;
    hide Uxn.Shape;
    hide Tracker.Begin;
    hide Tracker.Pop;
    hide Tracker.Push;
    hide Tracker.Track;
    var op, short, r := Uxn.OpOf(code), Uxn.Flag2(code), Uxn.FlagR(code);
    var base := if Uxn.FlagK(code) then cur else rest;
    var (w1, w2) := Widths(op, short);
    TwoShape(op, short);
    TwoOperands(code, lit, t, cur, oth, rest, ks, w1, w2);
    TwoApplies(code, lit, t);
    var (t1, b) := t.Begin(code).Pop(w1, r);
    var (t2, a) := t1.Pop(w2, r);
    TwoLearns(op, short, b, a, lit);
    assert base + [] == base && oth + [] == oth;
    if op.Swp? { PushTwo(t2, b, a, r, base, oth); }
    else if op.Ovr? { PushThree(t2, a, b, a, r, base, oth); }
    else if Compares(op) { PushOne(t2, Known(false, false, true, 0), r, base, oth); }
  }

  predicate IsArith(op: Uxn.Op) {
    op.Add? || op.Sub? || op.Mul? || op.Div? || op.And? || op.Ora? || op.Eor? || op.Sft?
  }

  lemma ArithApplies(code: nat, lit: nat, t: Tracker)
    requires IsArith(Uxn.OpOf(code))
    ensures var op, short, r := Uxn.OpOf(code), Uxn.Flag2(code), Uxn.FlagR(code);
      var (t1, b) := t.Begin(code).Pop(short && !op.Sft?, r); var (t2, a) := t1.Pop(short, r);
      && t.Track(code, lit) == t2.Push(Folded(op, a, b), r) && Uxn.Shape(op, short) == [short && !op.Sft?, short]
      && Learns(op, short, [b, a], lit) == Learned(FactsOf(Folded(op, a, b)), [])
  {
    hide Uxn.OpOf;
    hide Uxn.Flag2;
    hide Uxn.FlagR;
    hide Tracker.Begin;
    hide Tracker.Pop;
    hide Tracker.Push;
    hide Folded;
    hide FactsOf;
  }

  lemma ArithIs(code: nat, lit: nat, t: Tracker, cur: FactStack, oth: FactStack, rest: FactStack, ks: seq<Known>)
    requires Given(code, lit, t, cur, oth, rest, ks) && IsArith(Uxn.OpOf(code))
    ensures Results(code, lit, t, cur, oth, rest, ks)
  {
    hide Are;
    hide FactsOf;
    hide Folded;
    hide Learns;
    hide PopKnowns;
    hide Uxn.OpOf;
    hide Uxn.Flag2;
    hide Uxn.FlagR;
    hide Uxn.FlagK;
    hide Uxn.Shape;
    hide Tracker.Begin;
    hide Tracker.Pop;
    hide Tracker.Push;
    hide Tracker.Track;
    var op, short, r := Uxn.OpOf(code), Uxn.Flag2(code), Uxn.FlagR(code);
    var w1 := short && !op.Sft?;
    ArithApplies(code, lit, t);
    TwoOperands(code, lit, t, cur, oth, rest, ks, w1, short);
    var (t1, b) := t.Begin(code).Pop(w1, r);
    var (t2, a) := t1.Pop(short, r);
    PushOne(t2, Folded(op, a, b), r, if Uxn.FlagK(code) then cur else rest, oth);
  }

  lemma DropIs(code: nat, lit: nat, t: Tracker, cur: FactStack, oth: FactStack, rest: FactStack, ks: seq<Known>)
    requires Given(code, lit, t, cur, oth, rest, ks) && Uxn.OpOf(code).Pop?
    ensures Results(code, lit, t, cur, oth, rest, ks)
  {
    hide Are;
    hide PopKnown;
    hide Uxn.Flag2;
    hide Uxn.FlagR;
    hide Uxn.FlagK;
    hide Tracker.Drop;
    var short, r, k := Uxn.Flag2(code), Uxn.FlagR(code), Uxn.FlagK(code);
    OneKnown(cur, short, rest, ks);
    BeginViewed(t, r, code, cur, oth);
    BeginAre(t, r, code, cur, oth);
    if !k { DropAre(t.Begin(code), short, r, cur, oth); }
    hide Uxn.OpOf;
    hide Tracker.Begin;
    assert cur + [] == cur && rest + [] == rest && oth + [] == oth;
  }

  lemma BeginAre(t: Tracker, r: bool, code: nat, cur: FactStack, oth: FactStack)
    requires Are(t, r, cur, oth)
    ensures Are(t.Begin(code), r, cur, oth)
  {
  }

  lemma NipIs(code: nat, lit: nat, t: Tracker, cur: FactStack, oth: FactStack, rest: FactStack, ks: seq<Known>)
    requires Given(code, lit, t, cur, oth, rest, ks) && Uxn.OpOf(code).Nip?
    ensures Results(code, lit, t, cur, oth, rest, ks)
  {
    hide Are;
    hide FactsOf;
    hide PopKnown;
    hide Viewed;
    hide Uxn.Flag2;
    hide Uxn.FlagR;
    hide Uxn.FlagK;
    hide Tracker.Drop;
    var short, r, k := Uxn.Flag2(code), Uxn.FlagR(code), Uxn.FlagK(code);
    assert Uxn.Shape(Uxn.OpOf(code), short) == [short, short];
    TwoKnown(cur, short, short, rest, ks);
    BeginViewed(t, r, code, cur, oth);
    PopViewed(t.Begin(code), short, r, k, cur, oth, cur);
    var (t1, b) := t.Begin(code).Pop(short, r);
    var view := PopKnown(cur, short).value.0;
    ViewedAre(t1, r, k, cur, oth, view);
    if !k { DropAre(t1, short, r, view, oth); }
    hide Tracker.Begin;
    hide Tracker.Pop;
    hide Tracker.Push;
    PushOne(if k then t1 else t1.Drop(short, r), b, r, if k then cur else rest, oth);
    hide Uxn.OpOf;
  }

  lemma RotIs(code: nat, lit: nat, t: Tracker, cur: FactStack, oth: FactStack, rest: FactStack, ks: seq<Known>)
    requires Given(code, lit, t, cur, oth, rest, ks) && Uxn.OpOf(code).Rot?
    ensures Results(code, lit, t, cur, oth, rest, ks)
  {
    hide Are;
    hide FactsOf;
    hide PopKnowns;
    hide Uxn.Flag2;
    hide Uxn.FlagR;
    hide Uxn.FlagK;
    hide Tracker.Begin;
    hide Tracker.Pop;
    hide Tracker.Push;
    var short, r := Uxn.Flag2(code), Uxn.FlagR(code);
    RotOperands(code, lit, t, cur, oth, rest, ks);
    var (t1, c) := t.Begin(code).Pop(short, r);
    var (t2, b) := t1.Pop(short, r);
    var (t3, a) := t2.Pop(short, r);
    PushThree(t3, b, c, a, r, if Uxn.FlagK(code) then cur else rest, oth);
    hide Uxn.OpOf;
  }

  lemma ImmediateIs(code: nat, lit: nat, t: Tracker, cur: FactStack, oth: FactStack, rest: FactStack, ks: seq<Known>)
    requires Given(code, lit, t, cur, oth, rest, ks)
    requires var op := Uxn.OpOf(code); op.Lit? || op.Brk? || op.Jci? || op.Jmi? || op.Jsi?
    ensures Results(code, lit, t, cur, oth, rest, ks)
  {
    var op, short, r := Uxn.OpOf(code), Uxn.Flag2(code), Uxn.FlagR(code);
    assert !op.Lit? ==> !r && !Uxn.FlagK(code) && !short;
    hide Are;
    hide FactsOf;
    hide Uxn.Flag2;
    hide Uxn.FlagR;
    hide Uxn.FlagK;
    if op.Jci? {
      OneOperand(code, lit, t, cur, oth, rest, ks, false);
    } else {
      assert rest == cur;
      BeginAre(t, r, code, cur, oth);
    }
    hide Uxn.OpOf;
    hide PopKnowns;
    hide Tracker.Begin;
    hide Tracker.Pop;
    hide Tracker.Push;
    assert rest + [] == rest && oth + [] == oth;
    if op.Lit? { PushOne(t.Begin(code), Known(short, true, false, lit), r, cur, oth); }
    if op.Jsi? { PushOther(t.Begin(code), Unknown(true), r, cur, oth); }
  }

  /** Every opcode in every mode: rings and shadow pointers hold what the two stacks of facts hold
      after popping the operands, unless they are kept, and pushing what is known of the results. */
  lemma TrackerRefinesStacks(code: nat, lit: nat, t: Tracker, cur: FactStack, oth: FactStack, rest: FactStack, ks: seq<Known>)
    requires Given(code, lit, t, cur, oth, rest, ks)
    ensures Results(code, lit, t, cur, oth, rest, ks)
  {
    hide Given;
    hide Results;
    hide Uxn.OpOf;
    match Uxn.OpOf(code)
    case Inc | Dup | Sth | Ldz | Ldr | Lda | Dei | Jmp | Jsr => OneIs(code, lit, t, cur, oth, rest, ks);
    case Swp | Ovr | Equ | Neq | Gth | Lth | Stz | Str | Sta | Jcn | Deo => TwoIs(code, lit, t, cur, oth, rest, ks);
    case Add | Sub | Mul | Div | And | Ora | Eor | Sft => ArithIs(code, lit, t, cur, oth, rest, ks);
    case Pop => DropIs(code, lit, t, cur, oth, rest, ks);
    case Nip => NipIs(code, lit, t, cur, oth, rest, ks);
    case Rot => RotIs(code, lit, t, cur, oth, rest, ks);
    case Lit | Brk | Jci | Jmi | Jsi => ImmediateIs(code, lit, t, cur, oth, rest, ks);
  }
}
