/** Along straight-line code every static fact is true of the reference interpreter's stacks. */
module FactsSound {
  import opened Words
  import opened Facts
  import opened Emission
  import opened Compiler
  import Devices
  import OpSound
  import Target
  import Values
  import Uxn

  /** Every fact about either stack is true. */
  ghost predicate Tracks(t: Tracker, vm: Uxn.Vm) {
    && Has(t, false, vm.wst) && Has(t, true, vm.rst) && Target.AreBytes(vm.wst) && Target.AreBytes(vm.rst)
  }

  /** While an opcode pops: "cur" and "oth" are the stacks before it, "view" is what its pops
      still see of the current one. */
  ghost predicate Popping(t: Tracker, r: bool, k: bool, cur: Uxn.Bytes, oth: Uxn.Bytes, view: Uxn.Bytes) {
    && t.keep == k && Sees(t, r, view) && Target.AreBytes(view)
    && Has(t, r, if k then cur else view) && Has(t, !r, oth)
  }

  ghost predicate Both(t: Tracker, r: bool, cur: Uxn.Bytes, oth: Uxn.Bytes) {
    Has(t, r, cur) && Has(t, !r, oth)
  }

  lemma BeginPopping(t: Tracker, r: bool, code: nat, cur: Uxn.Bytes, oth: Uxn.Bytes)
    requires Both(t, r, cur, oth) && Target.AreBytes(cur)
    ensures Popping(t.Begin(code), r, Uxn.FlagK(code), cur, oth, cur)
  {
  }

  lemma PopOperand(t: Tracker, short: bool, r: bool, k: bool, cur: Uxn.Bytes, oth: Uxn.Bytes, view: Uxn.Bytes)
    requires Popping(t, r, k, cur, oth, view) && Uxn.PopValue(view, short).Some?
    ensures var (t', o) := t.Pop(short, r); var (rest, v) := Uxn.PopValue(view, short).value;
      && Popping(t', r, k, cur, oth, rest) && KnownHolds(o, v) && o.short == short
      && (o.constant ==> o.value == v) && v < 0x1_0000 && (!short ==> v < 256)
  {
    PopHolds(t, short, r, view);
    hide RingHolds;
    hide Uxn.PopValue;
  }

  lemma PushOperand(t: Tracker, o: Known, r: bool, to: bool, cur: Uxn.Bytes, oth: Uxn.Bytes, v: nat)
    requires Both(t, r, cur, oth) && KnownHolds(o, v)
    requires |if to == r then cur else oth| + |Uxn.BytesOf(v, o.short)| <= 256
    ensures Both(t.Push(o, to), r,
      if to == r then cur + Uxn.BytesOf(v, o.short) else cur, if to == r then oth else oth + Uxn.BytesOf(v, o.short))
  {
    PushHolds(t, o, to, if to == r then cur else oth, v);
    hide RingHolds;
  }

  /** The effect of an opcode is tracked. */
  ghost predicate OpTracked(code: nat, lit: nat, t: Tracker, cur: Uxn.Bytes, oth: Uxn.Bytes, rest: Uxn.Bytes, e: Uxn.Effect) {
    Both(t.Track(code, lit), Uxn.FlagR(code), (if Uxn.FlagK(code) then cur else rest) + e.cur, oth + e.oth)
  }

  /** Folding on sixteen bits and cutting at the push is as good as wrapping at the operand's width. */
  lemma FoldCut(n: int, short: bool)
    ensures Uxn.BytesOf(n % 0x1_0000, short) == Uxn.BytesOf(Uxn.Wrap(n, short), short)
  {
    ModUnique(n % 0x1_0000, 256, n / 256 - n / 0x1_0000 * 256, n % 256);
  }

  lemma ShiftFold(x: nat, y: nat, short: bool)
    requires y < 256
    ensures Uxn.BytesOf(FoldedValue(Uxn.Sft, x, y), short) == Uxn.BytesOf(Uxn.Arith(Uxn.Sft, short, x, y), short)
  {
    hide Quotient;
    hide Pow2;
    hide Uxn.BytesOf;
    assert y / 16 % 16 == y / 16;
    FoldCut(Quotient(x, Pow2(y % 16)) * Pow2(y / 16), short);
  }

  lemma FoldedHolds(op: Uxn.Op, short: bool, a: Known, b: Known, x: nat, y: nat)
    requires Values.IsArith(op)
    requires a.short == short && (a.constant ==> a.value == x) && (b.constant ==> b.value == y)
    requires op.Sft? ==> y < 256
    ensures KnownHolds(Folded(op, a, b), Uxn.Arith(op, short, x, y))
  {
    hide Words.And;
    hide Or;
    hide Xor;
    hide Pow2;
    hide Quotient;
    hide Uxn.BytesOf;
    if a.constant && b.constant {
      match op
      case Add => FoldCut(x + y, short);
      case Sub => FoldCut(x - y, short);
      case Mul => FoldCut(x * y, short);
      case Sft => ShiftFold(x, y, short);
      case _ =>
    }
  }

  /** An addition of one, folded likewise. */
  lemma IncrementedHolds(a: Known, x: nat)
    requires a.constant ==> a.value == x
    ensures KnownHolds(Incremented(a), Uxn.Wrap(x + 1, a.short))
  {
    FoldCut(x + 1, a.short);
  }

  // ---- opcodes ----

  /** What is given about an opcode: the tracker before it and the operands the reference pops. */
  ghost predicate Given(code: nat, t: Tracker, cur: Uxn.Bytes, oth: Uxn.Bytes, rest: Uxn.Bytes, args: seq<nat>, e: Uxn.Effect) {
    && Both(t, Uxn.FlagR(code), cur, oth) && Target.AreBytes(cur)
    && Uxn.PopAll(cur, Uxn.Shape(Uxn.OpOf(code), Uxn.Flag2(code))) == Uxn.Some((rest, args))
    && |(if Uxn.FlagK(code) then cur else rest) + e.cur| <= 256 && |oth + e.oth| <= 256
  }

  ghost function EffectOf(code: nat, args: seq<nat>, ram: Uxn.Bytes, pc: nat): Uxn.Effect {
    Uxn.Act(Uxn.OpOf(code), Uxn.Flag2(code), Uxn.Nth(args, 0), Uxn.Nth(args, 1), Uxn.Nth(args, 2), ram, pc)
  }

  lemma PoppingBoth(t: Tracker, r: bool, k: bool, cur: Uxn.Bytes, oth: Uxn.Bytes, view: Uxn.Bytes)
    requires Popping(t, r, k, cur, oth, view)
    ensures Both(t, r, if k then cur else view, oth)
  {
  }

  /** An opcode with one operand, after its pop. */
  lemma OneOperand(code: nat, t: Tracker, cur: Uxn.Bytes, oth: Uxn.Bytes, rest: Uxn.Bytes, args: seq<nat>, e: Uxn.Effect, width: bool)
    requires Given(code, t, cur, oth, rest, args, e) && Uxn.Shape(Uxn.OpOf(code), Uxn.Flag2(code)) == [width]
    ensures var (t1, a) := t.Begin(code).Pop(width, Uxn.FlagR(code));
      && |args| == 1 && Both(t1, Uxn.FlagR(code), if Uxn.FlagK(code) then cur else rest, oth)
      && KnownHolds(a, args[0]) && a.short == width && (a.constant ==> a.value == args[0])
  {
    hide Both;
    hide Popping;
    hide Uxn.OpOf;
    hide Uxn.Flag2;
    hide Uxn.FlagR;
    hide Uxn.FlagK;
    var r, k := Uxn.FlagR(code), Uxn.FlagK(code);
    BeginPopping(t, r, code, cur, oth);
    OpSound.PopOne(cur, width);
    hide Uxn.PopAll;
    PopOperand(t.Begin(code), width, r, k, cur, oth, cur);
    PoppingBoth(t.Begin(code).Pop(width, r).0, r, k, cur, oth, rest);
  }

  /** An opcode with two operands, after its pops. */
  lemma TwoOperands(code: nat, t: Tracker, cur: Uxn.Bytes, oth: Uxn.Bytes, rest: Uxn.Bytes, args: seq<nat>, e: Uxn.Effect, w1: bool, w2: bool)
    requires Given(code, t, cur, oth, rest, args, e) && Uxn.Shape(Uxn.OpOf(code), Uxn.Flag2(code)) == [w1, w2]
    ensures var (t1, b) := t.Begin(code).Pop(w1, Uxn.FlagR(code));
      var (t2, a) := t1.Pop(w2, Uxn.FlagR(code));
      && |args| == 2 && Both(t2, Uxn.FlagR(code), if Uxn.FlagK(code) then cur else rest, oth)
      && KnownHolds(b, args[0]) && b.short == w1 && (b.constant ==> b.value == args[0]) && (!w1 ==> args[0] < 256)
      && KnownHolds(a, args[1]) && a.short == w2 && (a.constant ==> a.value == args[1])
  {
    hide Both;
    hide Popping;
    hide Uxn.OpOf;
    hide Uxn.Flag2;
    hide Uxn.FlagR;
    hide Uxn.FlagK;
    var r, k := Uxn.FlagR(code), Uxn.FlagK(code);
    BeginPopping(t, r, code, cur, oth);
    OpSound.PopTwo(cur, w1, w2);
    hide Uxn.PopAll;
    PopOperand(t.Begin(code), w1, r, k, cur, oth, cur);
    var t1 := t.Begin(code).Pop(w1, r).0;
    PopOperand(t1, w2, r, k, cur, oth, Uxn.PopValue(cur, w1).value.0);
    PoppingBoth(t1.Pop(w2, r).0, r, k, cur, oth, rest);
  }

  /** A result pushed on the current stack. */
  lemma PushResult(t: Tracker, o: Known, r: bool, base: Uxn.Bytes, oth: Uxn.Bytes, v: nat)
    requires Both(t, r, base, oth) && KnownHolds(o, v) && |base + Uxn.BytesOf(v, o.short)| <= 256
    ensures Both(t.Push(o, r), r, base + Uxn.BytesOf(v, o.short), oth + [])
  {
    PushOperand(t, o, r, r, base, oth, v);
    assert oth + [] == oth;
    hide Both;
  }

  lemma IncTracked(code: nat, lit: nat, t: Tracker, cur: Uxn.Bytes, oth: Uxn.Bytes, rest: Uxn.Bytes, args: seq<nat>, e: Uxn.Effect)
    requires Uxn.OpOf(code).Inc? && Given(code, t, cur, oth, rest, args, e) && |args| == 1
    requires e.cur == Uxn.BytesOf(Uxn.Wrap(args[0] + 1, Uxn.Flag2(code)), Uxn.Flag2(code)) && e.oth == []
    ensures OpTracked(code, lit, t, cur, oth, rest, e)
  {
    hide Both;
    hide Uxn.BytesOf;
    hide Uxn.FlagR;
    hide Uxn.FlagK;
    hide Uxn.Flag2;
    var short, r := Uxn.Flag2(code), Uxn.FlagR(code);
    OneOperand(code, t, cur, oth, rest, args, e, short);
    var (t1, a) := t.Begin(code).Pop(short, r);
    hide Uxn.OpOf;
    IncrementedHolds(a, args[0]);
    PushResult(t1, Incremented(a), r, if Uxn.FlagK(code) then cur else rest, oth, Uxn.Wrap(args[0] + 1, short));
  }

  lemma DupTracked(code: nat, lit: nat, t: Tracker, cur: Uxn.Bytes, oth: Uxn.Bytes, rest: Uxn.Bytes, args: seq<nat>, e: Uxn.Effect)
    requires Uxn.OpOf(code).Dup? && Given(code, t, cur, oth, rest, args, e) && |args| == 1
    requires var x := Uxn.BytesOf(args[0], Uxn.Flag2(code)); e.cur == x + x && e.oth == []
    ensures OpTracked(code, lit, t, cur, oth, rest, e)
  {
    hide Both;
    hide Uxn.BytesOf;
    hide Uxn.FlagR;
    hide Uxn.FlagK;
    hide Uxn.Flag2;
    var short, r := Uxn.Flag2(code), Uxn.FlagR(code);
    OneOperand(code, t, cur, oth, rest, args, e, short);
    var (t1, a) := t.Begin(code).Pop(short, r);
    hide Uxn.OpOf;
    var base, x := if Uxn.FlagK(code) then cur else rest, Uxn.BytesOf(args[0], short);
    PushResult(t1, a, r, base, oth, args[0]);
    assert oth + [] == oth;
    assert base + x + x == base + (x + x);
    PushResult(t1.Push(a, r), a, r, base + x, oth, args[0]);
  }

  lemma SthTracked(code: nat, lit: nat, t: Tracker, cur: Uxn.Bytes, oth: Uxn.Bytes, rest: Uxn.Bytes, args: seq<nat>, e: Uxn.Effect)
    requires Uxn.OpOf(code).Sth? && Given(code, t, cur, oth, rest, args, e) && |args| == 1
    requires e.cur == [] && e.oth == Uxn.BytesOf(args[0], Uxn.Flag2(code))
    ensures OpTracked(code, lit, t, cur, oth, rest, e)
  {
    hide Both;
    hide Uxn.BytesOf;
    hide Uxn.FlagR;
    hide Uxn.FlagK;
    hide Uxn.Flag2;
    var short, r := Uxn.Flag2(code), Uxn.FlagR(code);
    OneOperand(code, t, cur, oth, rest, args, e, short);
    var (t1, a) := t.Begin(code).Pop(short, r);
    hide Uxn.OpOf;
    var base := if Uxn.FlagK(code) then cur else rest;
    PushOperand(t1, a, r, !r, base, oth, args[0]);
    assert base + [] == base;
  }

  lemma LoadTracked(code: nat, lit: nat, t: Tracker, cur: Uxn.Bytes, oth: Uxn.Bytes, rest: Uxn.Bytes, args: seq<nat>, e: Uxn.Effect, v: nat)
    requires var op := Uxn.OpOf(code); op.Ldz? || op.Ldr? || op.Lda?
    requires Given(code, t, cur, oth, rest, args, e)
    requires e.cur == Uxn.BytesOf(v, Uxn.Flag2(code)) && e.oth == []
    ensures OpTracked(code, lit, t, cur, oth, rest, e)
  {
    hide Both;
    hide Uxn.BytesOf;
    hide Uxn.FlagR;
    hide Uxn.FlagK;
    hide Uxn.Flag2;
    var short, r, wide := Uxn.Flag2(code), Uxn.FlagR(code), Uxn.OpOf(code).Lda?;
    OneOperand(code, t, cur, oth, rest, args, e, wide);
    var (t1, a) := t.Begin(code).Pop(wide, r);
    hide Uxn.OpOf;
    PushResult(t1, Unknown(short), r, if Uxn.FlagK(code) then cur else rest, oth, v);
  }

  lemma LitTracked(code: nat, lit: nat, t: Tracker, cur: Uxn.Bytes, oth: Uxn.Bytes, rest: Uxn.Bytes, args: seq<nat>, e: Uxn.Effect)
    requires Uxn.OpOf(code).Lit? && Given(code, t, cur, oth, rest, args, e)
    requires e.cur == Uxn.BytesOf(lit, Uxn.Flag2(code)) && e.oth == []
    ensures OpTracked(code, lit, t, cur, oth, rest, e)
  {
    hide Both;
    hide Uxn.BytesOf;
    hide Uxn.FlagR;
    hide Uxn.Flag2;
    var short, r := Uxn.Flag2(code), Uxn.FlagR(code);
    assert rest == cur;
    BeginBoth(t, r, code, cur, oth);
    hide Uxn.FlagK;
    hide Uxn.OpOf;
    PushResult(t.Begin(code), Known(short, true, false, lit), r, cur, oth, lit);
  }

  lemma BeginBoth(t: Tracker, r: bool, code: nat, cur: Uxn.Bytes, oth: Uxn.Bytes)
    requires Both(t, r, cur, oth)
    ensures Both(t.Begin(code), r, cur, oth)
  {
  }

  /** Moving the real pointer down forgets the top of the stack. */
  lemma DropBoth(t: Tracker, r: bool, short: bool, cur: Uxn.Bytes, oth: Uxn.Bytes)
    requires Both(t, r, cur, oth) && Uxn.PopValue(cur, short).Some?
    ensures Both(t.Drop(short, r), r, Uxn.PopValue(cur, short).value.0, oth)
  {
    RingPop(t.Ring(r), t.Ptr(r), cur, if short then 2 else 1);
    hide RingHolds;
  }

  lemma PopTracked(code: nat, lit: nat, t: Tracker, cur: Uxn.Bytes, oth: Uxn.Bytes, rest: Uxn.Bytes, args: seq<nat>, e: Uxn.Effect)
    requires Uxn.OpOf(code).Pop? && Given(code, t, cur, oth, rest, args, e)
    requires e.cur == [] && e.oth == []
    ensures OpTracked(code, lit, t, cur, oth, rest, e)
  {
    hide Both;
    hide Uxn.FlagR;
    hide Uxn.Flag2;
    hide Uxn.FlagK;
    var short, r := Uxn.Flag2(code), Uxn.FlagR(code);
    OpSound.PopOne(cur, short);
    BeginBoth(t, r, code, cur, oth);
    DropBoth(t.Begin(code), r, short, cur, oth);
    hide Uxn.OpOf;
    assert cur + [] == cur && rest + [] == rest && oth + [] == oth;
  }

  lemma NipTracked(code: nat, lit: nat, t: Tracker, cur: Uxn.Bytes, oth: Uxn.Bytes, rest: Uxn.Bytes, args: seq<nat>, e: Uxn.Effect)
    requires Uxn.OpOf(code).Nip? && Given(code, t, cur, oth, rest, args, e) && |args| == 2
    requires e.cur == Uxn.BytesOf(args[0], Uxn.Flag2(code)) && e.oth == []
    ensures OpTracked(code, lit, t, cur, oth, rest, e)
  {
    hide Both;
    hide Popping;
    hide Uxn.BytesOf;
    hide Uxn.FlagR;
    hide Uxn.FlagK;
    hide Uxn.Flag2;
    var short, r, k := Uxn.Flag2(code), Uxn.FlagR(code), Uxn.FlagK(code);
    OpSound.PopTwo(cur, short, short);
    assert Uxn.Shape(Uxn.OpOf(code), short) == [short, short];
    BeginPopping(t, r, code, cur, oth);
    PopOperand(t.Begin(code), short, r, k, cur, oth, cur);
    var (t1, b) := t.Begin(code).Pop(short, r);
    var view := Uxn.PopValue(cur, short).value.0;
    PoppingBoth(t1, r, k, cur, oth, view);
    if !k { DropBoth(t1, r, short, view, oth); }
    var t2 := if k then t1 else t1.Drop(short, r);
    hide Uxn.OpOf;
    PushResult(t2, b, r, if k then cur else rest, oth, args[0]);
  }

  lemma SwpTracked(code: nat, lit: nat, t: Tracker, cur: Uxn.Bytes, oth: Uxn.Bytes, rest: Uxn.Bytes, args: seq<nat>, e: Uxn.Effect)
    requires Uxn.OpOf(code).Swp? && Given(code, t, cur, oth, rest, args, e) && |args| == 2
    requires e.cur == Uxn.BytesOf(args[0], Uxn.Flag2(code)) + Uxn.BytesOf(args[1], Uxn.Flag2(code)) && e.oth == []
    ensures OpTracked(code, lit, t, cur, oth, rest, e)
  {
    hide Both;
    hide Uxn.BytesOf;
    hide Uxn.FlagR;
    hide Uxn.FlagK;
    hide Uxn.Flag2;
    var short, r := Uxn.Flag2(code), Uxn.FlagR(code);
    TwoOperands(code, t, cur, oth, rest, args, e, short, short);
    var (t1, b) := t.Begin(code).Pop(short, r);
    var (t2, a) := t1.Pop(short, r);
    hide Uxn.OpOf;
    var base, x, y := if Uxn.FlagK(code) then cur else rest, Uxn.BytesOf(args[0], short), Uxn.BytesOf(args[1], short);
    PushResult(t2, b, r, base, oth, args[0]);
    assert oth + [] == oth && base + x + y == base + (x + y);
    PushResult(t2.Push(b, r), a, r, base + x, oth, args[1]);
  }

  lemma OvrTracked(code: nat, lit: nat, t: Tracker, cur: Uxn.Bytes, oth: Uxn.Bytes, rest: Uxn.Bytes, args: seq<nat>, e: Uxn.Effect)
    requires Uxn.OpOf(code).Ovr? && Given(code, t, cur, oth, rest, args, e) && |args| == 2
    requires var x, y := Uxn.BytesOf(args[0], Uxn.Flag2(code)), Uxn.BytesOf(args[1], Uxn.Flag2(code));
      e.cur == y + x + y && e.oth == []
    ensures OpTracked(code, lit, t, cur, oth, rest, e)
  {
    hide Both;
    hide Uxn.BytesOf;
    hide Uxn.FlagR;
    hide Uxn.FlagK;
    hide Uxn.Flag2;
    var short, r := Uxn.Flag2(code), Uxn.FlagR(code);
    TwoOperands(code, t, cur, oth, rest, args, e, short, short);
    var (t1, b) := t.Begin(code).Pop(short, r);
    var (t2, a) := t1.Pop(short, r);
    hide Uxn.OpOf;
    ThreePushes(t2, a, b, a, r, if Uxn.FlagK(code) then cur else rest, oth, args[1], args[0], args[1]);
  }

  lemma ThreePushes(t: Tracker, o1: Known, o2: Known, o3: Known, r: bool, base: Uxn.Bytes, oth: Uxn.Bytes, v1: nat, v2: nat, v3: nat)
    requires Both(t, r, base, oth) && KnownHolds(o1, v1) && KnownHolds(o2, v2) && KnownHolds(o3, v3)
    requires |base + (Uxn.BytesOf(v1, o1.short) + Uxn.BytesOf(v2, o2.short) + Uxn.BytesOf(v3, o3.short))| <= 256
    ensures Both(t.Push(o1, r).Push(o2, r).Push(o3, r), r,
      base + (Uxn.BytesOf(v1, o1.short) + Uxn.BytesOf(v2, o2.short) + Uxn.BytesOf(v3, o3.short)), oth + [])
  {
    hide Both;
    hide Uxn.BytesOf;
    hide KnownHolds;
    var x, y, z := Uxn.BytesOf(v1, o1.short), Uxn.BytesOf(v2, o2.short), Uxn.BytesOf(v3, o3.short);
    assert oth + [] == oth && base + x + y + z == base + (x + y + z);
    PushResult(t, o1, r, base, oth, v1);
    PushResult(t.Push(o1, r), o2, r, base + x, oth, v2);
    PushResult(t.Push(o1, r).Push(o2, r), o3, r, base + x + y, oth, v3);
  }

  lemma RotTracked(code: nat, lit: nat, t: Tracker, cur: Uxn.Bytes, oth: Uxn.Bytes, rest: Uxn.Bytes, args: seq<nat>, e: Uxn.Effect)
    requires Uxn.OpOf(code).Rot? && Given(code, t, cur, oth, rest, args, e) && |args| == 3
    requires var short := Uxn.Flag2(code);
      e.cur == Uxn.BytesOf(args[1], short) + Uxn.BytesOf(args[0], short) + Uxn.BytesOf(args[2], short) && e.oth == []
    ensures OpTracked(code, lit, t, cur, oth, rest, e)
  {
    hide Both;
    hide Popping;
    hide Uxn.BytesOf;
    hide Uxn.FlagR;
    hide Uxn.FlagK;
    hide Uxn.Flag2;
    var short, r, k := Uxn.Flag2(code), Uxn.FlagR(code), Uxn.FlagK(code);
    OpSound.PopThree(cur, short, short, short);
    assert Uxn.Shape(Uxn.OpOf(code), short) == [short, short, short];
    BeginPopping(t, r, code, cur, oth);
    PopOperand(t.Begin(code), short, r, k, cur, oth, cur);
    var (t1, c) := t.Begin(code).Pop(short, r);
    var view1 := Uxn.PopValue(cur, short).value.0;
    PopOperand(t1, short, r, k, cur, oth, view1);
    var (t2, b) := t1.Pop(short, r);
    var view2 := Uxn.PopValue(view1, short).value.0;
    PopOperand(t2, short, r, k, cur, oth, view2);
    var (t3, a) := t2.Pop(short, r);
    PoppingBoth(t3, r, k, cur, oth, rest);
    hide Uxn.OpOf;
    ThreePushes(t3, b, c, a, r, if k then cur else rest, oth, args[1], args[0], args[2]);
  }

  lemma CompareTracked(code: nat, lit: nat, t: Tracker, cur: Uxn.Bytes, oth: Uxn.Bytes, rest: Uxn.Bytes, args: seq<nat>, e: Uxn.Effect, b: bool)
    requires var op := Uxn.OpOf(code); op.Equ? || op.Neq? || op.Gth? || op.Lth?
    requires Given(code, t, cur, oth, rest, args, e) && e.cur == Uxn.Truth(b) && e.oth == []
    ensures OpTracked(code, lit, t, cur, oth, rest, e)
  {
    hide Both;
    hide Uxn.FlagR;
    hide Uxn.FlagK;
    hide Uxn.Flag2;
    var short, r := Uxn.Flag2(code), Uxn.FlagR(code);
    TwoOperands(code, t, cur, oth, rest, args, e, short, short);
    var t2 := t.Begin(code).Pop(short, r).0.Pop(short, r).0;
    hide Uxn.OpOf;
    PushResult(t2, Known(false, false, true, 0), r, if Uxn.FlagK(code) then cur else rest, oth, if b then 1 else 0);
  }

  /** How arithmetic opcodes are tracked. */
  function ArithBody(t: Tracker, op: Uxn.Op, short: bool, r: bool): Tracker {
    var (t1, b) := t.Pop(short && op != Uxn.Sft, r);
    var (t2, a) := t1.Pop(short, r);
    t2.Push(Folded(op, a, b), r)
  }

  lemma TrackArith(t: Tracker, code: nat, lit: nat)
    requires Values.IsArith(Uxn.OpOf(code))
    ensures t.Track(code, lit) == ArithBody(t.Begin(code), Uxn.OpOf(code), Uxn.Flag2(code), Uxn.FlagR(code))
  {
    hide Uxn.OpOf;
    hide Uxn.Flag2;
    hide Uxn.FlagR;
    hide Tracker.Pop;
    hide Tracker.Push;
    hide Folded;
  }

  lemma ArithTracked(code: nat, lit: nat, t: Tracker, cur: Uxn.Bytes, oth: Uxn.Bytes, rest: Uxn.Bytes, args: seq<nat>, e: Uxn.Effect)
    requires Values.IsArith(Uxn.OpOf(code))
    requires Given(code, t, cur, oth, rest, args, e) && |args| == 2
    requires e.cur == Uxn.BytesOf(Uxn.Arith(Uxn.OpOf(code), Uxn.Flag2(code), args[1], args[0]), Uxn.Flag2(code)) && e.oth == []
    ensures OpTracked(code, lit, t, cur, oth, rest, e)
  {
    hide Both;
    hide Uxn.BytesOf;
    hide Uxn.Arith;
    hide Uxn.FlagR;
    hide Uxn.FlagK;
    hide Uxn.Flag2;
    hide Uxn.OpOf;
    hide FoldedValue;
    hide Uxn.PopAll;
    TrackArith(t, code, lit);
    hide Tracker.Track;
    var op, short, r := Uxn.OpOf(code), Uxn.Flag2(code), Uxn.FlagR(code);
    var w1 := short && op != Uxn.Sft;
    OpSound.ArithShape(op, short);
    hide Uxn.Shape;
    TwoOperands(code, t, cur, oth, rest, args, e, w1, short);
    var (t1, b) := t.Begin(code).Pop(w1, r);
    var (t2, a) := t1.Pop(short, r);
    FoldedHolds(op, short, a, b, args[1], args[0]);
    hide KnownHolds;
    hide Tracker.Pop;
    PushResult(t2, Folded(op, a, b), r, if Uxn.FlagK(code) then cur else rest, oth, Uxn.Arith(op, short, args[1], args[0]));
  }

  lemma StoreTracked(code: nat, lit: nat, t: Tracker, cur: Uxn.Bytes, oth: Uxn.Bytes, rest: Uxn.Bytes, args: seq<nat>, e: Uxn.Effect)
    requires var op := Uxn.OpOf(code); op.Stz? || op.Str? || op.Sta?
    requires Given(code, t, cur, oth, rest, args, e) && e.cur == [] && e.oth == []
    ensures OpTracked(code, lit, t, cur, oth, rest, e)
  {
    hide Both;
    hide Uxn.FlagR;
    hide Uxn.FlagK;
    hide Uxn.Flag2;
    TwoOperands(code, t, cur, oth, rest, args, e, Uxn.OpOf(code).Sta?, Uxn.Flag2(code));
    assert cur + [] == cur && rest + [] == rest && oth + [] == oth;
  }

  lemma {:induction false} RestIsPrefix(s: Uxn.Bytes, shape: seq<bool>)
    requires Uxn.PopAll(s, shape).Some?
    ensures Uxn.PopAll(s, shape).value.0 <= s && |Uxn.PopAll(s, shape).value.1| == |shape|
    decreases |shape|
  {
    if shape != [] {
      RestIsPrefix(Uxn.PopValue(s, shape[0]).value.0, shape[1..]);
    }
  }

  /** An opcode pushes bytes. */
  lemma EffectBytes(code: nat, args: seq<nat>, ram: Uxn.Bytes, pc: nat)
    requires IsPlain(Uxn.OpOf(code))
    ensures Target.AreBytes(EffectOf(code, args, ram, pc).cur) && Target.AreBytes(EffectOf(code, args, ram, pc).oth)
  {
    hide Uxn.OpOf;
    hide Uxn.Flag2;
    hide Uxn.Fetch;
    hide Uxn.Write;
    hide Uxn.Arith;
    hide Uxn.Compares;
  }

  function LoadedFrom(op: Uxn.Op, pc: nat, x: nat): nat {
    if op.Ldr? then Uxn.Displaced(pc, x) else x
  }

  /** One opcode, with the literal that was there at compile time. */
  lemma EffectTracked(code: nat, lit: nat, t: Tracker, cur: Uxn.Bytes, oth: Uxn.Bytes, rest: Uxn.Bytes, args: seq<nat>, ram: Uxn.Bytes, pc: nat)
    requires IsPlain(Uxn.OpOf(code)) && Given(code, t, cur, oth, rest, args, EffectOf(code, args, ram, pc))
    requires Uxn.OpOf(code).Lit? ==> lit == Uxn.Fetch(ram, pc, true, Uxn.Flag2(code))
    ensures OpTracked(code, lit, t, cur, oth, rest, EffectOf(code, args, ram, pc))
  {
    RestIsPrefix(cur, Uxn.Shape(Uxn.OpOf(code), Uxn.Flag2(code)));
    hide Given;
    hide OpTracked;
    hide Uxn.PopAll;
    hide Uxn.OpOf;
    hide Uxn.Flag2;
    hide Uxn.BytesOf;
    hide Uxn.Fetch;
    hide Uxn.Write;
    hide Uxn.Arith;
    hide Uxn.Compares;
    hide Uxn.Truth;
    hide Uxn.Displaced;
    var op, short := Uxn.OpOf(code), Uxn.Flag2(code);
    var e := EffectOf(code, args, ram, pc);
    match op
    case Lit => LitTracked(code, lit, t, cur, oth, rest, args, e);
    case Inc => IncTracked(code, lit, t, cur, oth, rest, args, e);
    case Pop => PopTracked(code, lit, t, cur, oth, rest, args, e);
    case Nip => NipTracked(code, lit, t, cur, oth, rest, args, e);
    case Swp => SwpTracked(code, lit, t, cur, oth, rest, args, e);
    case Rot => RotTracked(code, lit, t, cur, oth, rest, args, e);
    case Dup => DupTracked(code, lit, t, cur, oth, rest, args, e);
    case Ovr => OvrTracked(code, lit, t, cur, oth, rest, args, e);
    case Sth => SthTracked(code, lit, t, cur, oth, rest, args, e);
    case Equ | Neq | Gth | Lth => CompareTracked(code, lit, t, cur, oth, rest, args, e, Uxn.Compares(op, args[1], args[0]));
    case Ldz | Ldr | Lda =>
      LoadTracked(code, lit, t, cur, oth, rest, args, e,
        Uxn.Fetch(ram, LoadedFrom(op, pc, args[0]), !op.Ldz?, short));
    case Stz | Str | Sta => StoreTracked(code, lit, t, cur, oth, rest, args, e);
    case _ => ArithTracked(code, lit, t, cur, oth, rest, args, e);
  }

  /** Facts that are true before a plain opcode are true after it. */
  lemma StepTracked(t: Tracker, vm: Uxn.Vm, code: nat, lit: nat, pc: nat)
    requires Tracks(t, vm) && IsPlain(Uxn.OpOf(code)) && Uxn.Perform(vm, code, pc).Some?
    requires Uxn.OpOf(code).Lit? ==> lit == Uxn.Fetch(vm.ram, pc, true, Uxn.Flag2(code))
    ensures Tracks(t.Track(code, lit), Uxn.Perform(vm, code, pc).value)
  {
    hide Uxn.OpOf;
    hide Uxn.Flag2;
    hide Uxn.FlagR;
    hide Uxn.FlagK;
    hide Uxn.PopAll;
    hide Uxn.Act;
    hide Uxn.Shape;
    hide Uxn.Fetch;
    hide Tracker.Track;
    hide RingHolds;
    var op, r, k, short := Uxn.OpOf(code), Uxn.FlagR(code), Uxn.FlagK(code), Uxn.Flag2(code);
    var cur, oth := vm.Stack(r), vm.Stack(!r);
    var (rest, args) := Uxn.PopAll(cur, Uxn.Shape(op, short)).value;
    RestIsPrefix(cur, Uxn.Shape(op, short));
    EffectBytes(code, args, vm.ram, pc);
    EffectTracked(code, lit, t, cur, oth, rest, args, vm.ram, pc);
  }

  // ---- jumps and device opcodes ----

  lemma ImmediateFlags(code: nat)
    requires var op := Uxn.OpOf(code); op.Jci? || op.Jmi? || op.Jsi? || op.Brk?
    ensures !Uxn.FlagR(code) && !Uxn.FlagK(code) && !Uxn.Flag2(code)
  {
  }

  /** An address pushed on the other stack: nothing is known about it. */
  lemma ReturnTracked(t: Tracker, r: bool, base: Uxn.Bytes, oth: Uxn.Bytes, pc: nat)
    requires Both(t, r, base, oth) && |oth + Uxn.BytesOf(pc, true)| <= 256
    ensures Both(t.Push(Unknown(true), !r), r, base + [], oth + Uxn.BytesOf(pc, true))
  {
    hide Both;
    hide Uxn.BytesOf;
    PushOperand(t, Unknown(true), r, !r, base, oth, pc);
    assert base + [] == base;
  }

  /** JMP, JCN and JSR pop their operands, whether or not the jump is taken. */
  lemma PoppedTracked(code: nat, lit: nat, t: Tracker, cur: Uxn.Bytes, oth: Uxn.Bytes, rest: Uxn.Bytes, args: seq<nat>, e: Uxn.Effect, pc: nat)
    requires var op := Uxn.OpOf(code); op.Jmp? || op.Jcn? || op.Jsr?
    requires Given(code, t, cur, oth, rest, args, e)
    requires e.cur == [] && e.oth == if Uxn.OpOf(code).Jsr? then Uxn.BytesOf(pc, true) else []
    ensures OpTracked(code, lit, t, cur, oth, rest, e)
  {
    hide Both;
    hide Uxn.BytesOf;
    hide Uxn.FlagR;
    hide Uxn.FlagK;
    hide Uxn.Flag2;
    var op, short, r := Uxn.OpOf(code), Uxn.Flag2(code), Uxn.FlagR(code);
    var base := if Uxn.FlagK(code) then cur else rest;
    if op.Jcn? {
      TwoOperands(code, t, cur, oth, rest, args, e, short, false);
    } else {
      OneOperand(code, t, cur, oth, rest, args, e, short);
    }
    hide Uxn.OpOf;
    if op.Jsr? {
      ReturnTracked(t.Begin(code).Pop(short, r).0, r, base, oth, pc);
    }
    assert base + [] == base && oth + [] == oth;
  }

  /** JCI pops its condition, whether or not the jump is taken; the others pop nothing. */
  lemma ImmediateTracked(code: nat, lit: nat, t: Tracker, cur: Uxn.Bytes, oth: Uxn.Bytes, rest: Uxn.Bytes, args: seq<nat>, e: Uxn.Effect, pc: nat)
    requires var op := Uxn.OpOf(code); op.Jci? || op.Jmi? || op.Jsi? || op.Brk?
    requires Given(code, t, cur, oth, rest, args, e)
    requires e.cur == [] && e.oth == if Uxn.OpOf(code).Jsi? then Uxn.BytesOf(pc, true) else []
    ensures OpTracked(code, lit, t, cur, oth, rest, e)
  {
    ImmediateFlags(code);
    hide Both;
    hide Uxn.BytesOf;
    hide Uxn.FlagR;
    hide Uxn.FlagK;
    hide Uxn.Flag2;
    if Uxn.OpOf(code).Jci? {
      OneOperand(code, t, cur, oth, rest, args, e, false);
    } else {
      assert rest == cur;
      BeginBoth(t, false, code, cur, oth);
    }
    if Uxn.OpOf(code).Jsi? {
      ReturnTracked(t.Begin(code), false, cur, oth, pc);
    }
    hide Uxn.OpOf;
    assert rest + [] == rest && oth + [] == oth;
  }

  lemma JumpEffect(code: nat, args: seq<nat>, ram: Uxn.Bytes, pc: nat) returns (ret: nat)
    requires !IsPlain(Uxn.OpOf(code)) && !Uxn.IsDevice(Uxn.OpOf(code))
    ensures var op, e := Uxn.OpOf(code), EffectOf(code, args, ram, pc);
      e.cur == [] && e.oth == if op.Jsr? || op.Jsi? then Uxn.BytesOf(ret, true) else []
  {
    hide Uxn.OpOf;
    hide Uxn.Flag2;
    hide Uxn.Fetch;
    hide Uxn.JumpTarget;
    hide Uxn.BytesOf;
    ret := if Uxn.OpOf(code).Jsi? then (pc + 2) % 0x1_0000 else pc;
  }

  lemma JumpTracked(code: nat, lit: nat, t: Tracker, cur: Uxn.Bytes, oth: Uxn.Bytes, rest: Uxn.Bytes, args: seq<nat>, ram: Uxn.Bytes, pc: nat)
    requires !IsPlain(Uxn.OpOf(code)) && !Uxn.IsDevice(Uxn.OpOf(code))
    requires Given(code, t, cur, oth, rest, args, EffectOf(code, args, ram, pc))
    ensures OpTracked(code, lit, t, cur, oth, rest, EffectOf(code, args, ram, pc))
    ensures Target.AreBytes(EffectOf(code, args, ram, pc).oth)
  {
    hide Given;
    hide OpTracked;
    hide Uxn.Act;
    hide Uxn.OpOf;
    hide Uxn.Flag2;
    var op := Uxn.OpOf(code);
    var ret := JumpEffect(code, args, ram, pc);
    if op.Jmp? || op.Jcn? || op.Jsr? {
      PoppedTracked(code, lit, t, cur, oth, rest, args, EffectOf(code, args, ram, pc), ret);
    } else {
      ImmediateTracked(code, lit, t, cur, oth, rest, args, EffectOf(code, args, ram, pc), ret);
    }
  }

  /** Facts that are true before a jump are true where it goes, and where it goes on. */
  lemma JumpStepTracked(t: Tracker, vm: Uxn.Vm, code: nat, lit: nat, pc: nat)
    requires Tracks(t, vm) && !IsPlain(Uxn.OpOf(code)) && !Uxn.IsDevice(Uxn.OpOf(code)) && Uxn.Perform(vm, code, pc).Some?
    ensures Tracks(t.Track(code, lit), Uxn.Perform(vm, code, pc).value)
  {
    hide Uxn.OpOf;
    hide Uxn.Flag2;
    hide Uxn.FlagR;
    hide Uxn.FlagK;
    hide Uxn.PopAll;
    hide Uxn.Act;
    hide Uxn.Shape;
    hide Uxn.BytesOf;
    hide Tracker.Track;
    hide RingHolds;
    var op, r, short := Uxn.OpOf(code), Uxn.FlagR(code), Uxn.Flag2(code);
    var cur, oth := vm.Stack(r), vm.Stack(!r);
    var (rest, args) := Uxn.PopAll(cur, Uxn.Shape(op, short)).value;
    RestIsPrefix(cur, Uxn.Shape(op, short));
    var ret := JumpEffect(code, args, vm.ram, pc);
    JumpTracked(code, lit, t, cur, oth, rest, args, vm.ram, pc);
  }

  // The bytes DEI pushes and DEO takes are as unknown as those of a load and a store.

  lemma InputPushed(short: bool, port: nat, ram: Uxn.Bytes, io: Devices.Io, x: Uxn.Exchange) returns (v: nat)
    requires io.Shaped() && Uxn.Input(short, port, ram, io) == Uxn.Some(x)
    ensures x.cur == Uxn.BytesOf(v, short) && Target.AreBytes(x.cur)
  {
    hide Devices.Ask;
    Devices.AskShaped(io, ram, true, port % 256);
    var first := Devices.Ask(io, ram, true, port % 256);
    v := first.value;
    if short {
      Devices.AskShaped(first.io, first.ram, true, (port + 1) % 256);
      v := v * 256 + Devices.Ask(first.io, first.ram, true, (port + 1) % 256).value;
    }
    hide Devices.IsPage;
    hide Devices.IsMemory;
  }

  lemma OutputPushes(short: bool, port: nat, v: nat, ram: Uxn.Bytes, io: Devices.Io, x: Uxn.Exchange)
    requires Uxn.Output(short, port, v, ram, io) == Uxn.Some(x)
    ensures x.cur == []
  {
    hide Devices.Ask;
    hide Uxn.Paged;
  }

  lemma DeviceTracked(code: nat, lit: nat, t: Tracker, cur: Uxn.Bytes, oth: Uxn.Bytes, rest: Uxn.Bytes, args: seq<nat>, e: Uxn.Effect, v: nat)
    requires Uxn.IsDevice(Uxn.OpOf(code)) && Given(code, t, cur, oth, rest, args, e) && e.oth == []
    requires e.cur == if Uxn.OpOf(code).Dei? then Uxn.BytesOf(v, Uxn.Flag2(code)) else []
    ensures OpTracked(code, lit, t, cur, oth, rest, e)
  {
    hide Both;
    hide Uxn.BytesOf;
    hide Uxn.FlagR;
    hide Uxn.FlagK;
    hide Uxn.Flag2;
    var short, r := Uxn.Flag2(code), Uxn.FlagR(code);
    var base := if Uxn.FlagK(code) then cur else rest;
    if Uxn.OpOf(code).Dei? {
      OneOperand(code, t, cur, oth, rest, args, e, false);
      hide Uxn.OpOf;
      PushResult(t.Begin(code).Pop(false, r).0, Unknown(short), r, base, oth, v);
    } else {
      TwoOperands(code, t, cur, oth, rest, args, e, false, short);
      hide Uxn.OpOf;
      assert base + [] == base && oth + [] == oth;
    }
  }

  /** Facts that are true before a device opcode are true after it, whatever the device does. */
  lemma DeviceStepTracked(t: Tracker, vm: Uxn.Vm, code: nat, lit: nat, pc: nat)
    requires Tracks(t, vm) && vm.io.Shaped() && Uxn.IsDevice(Uxn.OpOf(code)) && Uxn.Perform(vm, code, pc).Some?
    ensures Tracks(t.Track(code, lit), Uxn.Perform(vm, code, pc).value)
  {
    hide Uxn.OpOf;
    hide Uxn.Flag2;
    hide Uxn.FlagR;
    hide Uxn.FlagK;
    hide Uxn.PopAll;
    hide Uxn.Shape;
    hide Uxn.BytesOf;
    hide Uxn.Input;
    hide Uxn.Output;
    hide Tracker.Track;
    hide RingHolds;
    hide Devices.IsPage;
    hide Devices.IsMemory;
    var op, r, short := Uxn.OpOf(code), Uxn.FlagR(code), Uxn.Flag2(code);
    var cur, oth := vm.Stack(r), vm.Stack(!r);
    var (rest, args) := Uxn.PopAll(cur, Uxn.Shape(op, short)).value;
    RestIsPrefix(cur, Uxn.Shape(op, short));
    var x := Uxn.Exchanged(op, short, args, vm.ram, vm.io).value;
    var v := 0;
    if op.Dei? {
      v := InputPushed(short, Uxn.Nth(args, 0), vm.ram, vm.io, x);
    } else {
      OutputPushes(short, Uxn.Nth(args, 0), Uxn.Nth(args, 1), vm.ram, vm.io, x);
    }
    assert oth + [] == oth;
    DeviceTracked(code, lit, t, cur, oth, rest, args, Uxn.Effect(x.cur, [], x.ram, pc), v);
  }

  // ---- sequences ----

  /** The tracker at the start of a block. */
  function NoFacts(): Tracker {
    Tracker(seq(RING, i => NO_FACT), seq(RING, i => NO_FACT), 0, 0, false, 0, 0)
  }

  /** The literal of the opcode at "pc", if it has one. */
  function LiteralAt(mem: Uxn.Bytes, code: nat, pc: nat): nat {
    Uxn.Fetch(mem, (pc + 1) % 0x1_0000, true, Uxn.Flag2(code))
  }

  /** What is known after "n" opcodes from "pc" on. */
  function Tracked(t: Tracker, rom: Uxn.Bytes, pc: nat, n: nat): Tracker
    decreases n
  {
    if n == 0 then t
    else
      var code := Uxn.Peek(rom, pc);
      Tracked(t.Track(code, LiteralAt(rom, code, pc)), rom, NextPc(code, pc), n - 1)
  }

  /** The run finds the literals that were compiled. */
  ghost predicate LiteralsKept(vm: Uxn.Vm, rom: Uxn.Bytes, n: nat)
    decreases n
  {
    n == 0 ||
    (var code := Uxn.Peek(rom, vm.pc);
     && (Uxn.OpOf(code).Lit? ==> LiteralAt(vm.ram, code, vm.pc) == LiteralAt(rom, code, vm.pc))
     && (Uxn.Step(vm).Some? ==> LiteralsKept(Uxn.Step(vm).value, rom, n - 1)))
  }

  lemma {:induction false} RunTracked(t: Tracker, vm: Uxn.Vm, rom: Uxn.Bytes, n: nat)
    requires Tracks(t, vm) && Follows(vm, rom, n) && LiteralsKept(vm, rom, n)
    ensures Tracks(Tracked(t, rom, vm.pc, n), RunReference(vm, n))
    decreases n
  {
    hide Tracks;
    hide Uxn.Perform;
    hide NextPc;
    hide LiteralAt;
    if n > 0 {
      var code := Uxn.Peek(rom, vm.pc);
      assert LiteralAt(vm.ram, code, vm.pc) == Uxn.Fetch(vm.ram, (vm.pc + 1) % 0x1_0000, true, Uxn.Flag2(code)) by { LiteralIs(vm.ram, code, vm.pc); }
      StepTracked(t, vm, code, LiteralAt(rom, code, vm.pc), (vm.pc + 1) % 0x1_0000);
      StepPc(vm, code);
      RunTracked(t.Track(code, LiteralAt(rom, code, vm.pc)), Uxn.Step(vm).value, rom, n - 1);
    }
  }

  lemma LiteralIs(mem: Uxn.Bytes, code: nat, pc: nat)
    ensures LiteralAt(mem, code, pc) == Uxn.Fetch(mem, (pc + 1) % 0x1_0000, true, Uxn.Flag2(code))
  {
  }

  lemma StepPc(vm: Uxn.Vm, code: nat)
    requires IsPlain(Uxn.OpOf(code)) && vm.pc < 0x1_0000 && Uxn.Perform(vm, code, (vm.pc + 1) % 0x1_0000).Some?
    ensures Uxn.Perform(vm, code, (vm.pc + 1) % 0x1_0000).value.pc == NextPc(code, vm.pc)
  {
    hide Uxn.Act;
    hide NextPc;
    hide Uxn.OpOf;
    hide Uxn.Flag2;
    hide Uxn.FlagR;
    hide Uxn.FlagK;
    var (rest, args) := Uxn.PopAll(vm.Stack(Uxn.FlagR(code)), Uxn.Shape(Uxn.OpOf(code), Uxn.Flag2(code))).value;
    hide Uxn.PopAll;
    PlainPc(code, Uxn.Nth(args, 0), Uxn.Nth(args, 1), Uxn.Nth(args, 2), vm.ram, vm.pc);
  }

  /** From any stacks, along straight-line code that finds its literals unchanged: whatever the
      compiler knows at the end, starting from nothing, is true of the stacks at the end. */
  lemma FactsAreSound(vm: Uxn.Vm, rom: Uxn.Bytes, n: nat)
    requires vm.Valid() && Target.AreBytes(vm.wst) && Target.AreBytes(vm.rst)
    requires Follows(vm, rom, n) && LiteralsKept(vm, rom, n)
    ensures Tracks(Tracked(NoFacts(), rom, vm.pc, n), RunReference(vm, n))
  {
    assert Tracks(NoFacts(), vm);
    RunTracked(NoFacts(), vm, rom, n);
  }
}
