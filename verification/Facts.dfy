/** Static values: what the compiler knows about stack bytes, kept on rings of 256 entries
    beside the stack caches, with shadow pointers in keep mode. */
module Facts {
  import opened Words
  import Target
  import Uxn

  const RING: nat := 256

  /** What is known about a stack byte. */
  datatype Fact = Fact(constant: bool, boolean: bool, value: nat)

  const NO_FACT: Fact := Fact(false, false, 0)

  /** What is known about an operand of an opcode. */
  datatype Known = Known(short: bool, constant: bool, boolean: bool, value: nat)

  function Unknown(short: bool): Known {
    Known(short, false, false, 0)
  }

  datatype Tracker = Tracker(
    wst: seq<Fact>, rst: seq<Fact>, wsp: nat, rsp: nat,
    keep: bool, shadowWsp: nat, shadowRsp: nat)
  {
    function Ring(r: bool): seq<Fact> {
      if r then rst else wst
    }

    function Ptr(r: bool): nat {
      if r then rsp else wsp
    }

    /** The pointer that pops move. */
    function PopPtr(r: bool): nat {
      if keep then (if r then shadowRsp else shadowWsp) else Ptr(r)
    }

    function WithPopPtr(r: bool, p: nat): Tracker {
      if keep then (if r then this.(shadowRsp := p) else this.(shadowWsp := p))
      else (if r then this.(rsp := p) else this.(wsp := p))
    }

    predicate Shaped() {
      |wst| == RING && |rst| == RING && wsp < RING && rsp < RING && shadowWsp < RING && shadowRsp < RING
    }

    function Begin(op: nat): Tracker {
      this.(keep := Uxn.FlagK(op), shadowWsp := wsp, shadowRsp := rsp)
    }

    function At(r: bool, i: nat): Fact {
      if i < |Ring(r)| then Ring(r)[i] else NO_FACT
    }

    function Pop(short: bool, r: bool): (Tracker, Known) {
      var p := PopPtr(r);
      var p1, p2 := Back(p, 1), Back(p, 2);
      if short then
        var lo, hi := At(r, p1), At(r, p2);
        (WithPopPtr(r, p2),
         if hi.constant && lo.constant then Known(true, true, false, hi.value * 256 + lo.value) else Unknown(true))
      else
        var f := At(r, p1);
        (WithPopPtr(r, p1), Known(false, f.constant, f.boolean, f.value))
    }

    /** Writes one entry and moves the real pointer up. */
    function PushFact(f: Fact, r: bool): Tracker {
      var p := Ptr(r);
      if p >= |Ring(r)| then this
      else if r then this.(rst := rst[p := f], rsp := (p + 1) % RING)
      else this.(wst := wst[p := f], wsp := (p + 1) % RING)
    }

    function Push(k: Known, r: bool): Tracker {
      if k.short then
        PushFact(Fact(k.constant, k.boolean, k.value / 256 % 256), r)
        .PushFact(Fact(k.constant, k.boolean, k.value % 256), r)
      else PushFact(Fact(k.constant, k.boolean, k.value % 256), r)
    }

    /** Moves the real pointer down. */
    function Drop(short: bool, r: bool): Tracker {
      if r then this.(rsp := Back(rsp, if short then 2 else 1)) else this.(wsp := Back(wsp, if short then 2 else 1))
    }

    /** One opcode; "lit" is the literal found in memory at compile time. */
    function Track(code: nat, lit: nat): Tracker {
      Begin(code).Apply(code, lit)
    }

    /** What an opcode does once the pointers its pops move have been chosen. */
    function Apply(code: nat, lit: nat): Tracker {
      var op, short, r, k := Uxn.OpOf(code), Uxn.Flag2(code), Uxn.FlagR(code), Uxn.FlagK(code);
      var t := this;
      match op
      case Lit => t.Push(Known(short, true, false, lit), r)
      case Inc => var (t1, a) := t.Pop(short, r); t1.Push(Incremented(a), r)
      case Pop => if k then t else t.Drop(short, r)
      case Nip =>
        var (t1, b) := t.Pop(short, r);
        (if k then t1 else t1.Drop(short, r)).Push(b, r)
      case Swp =>
        var (t1, b) := t.Pop(short, r);
        var (t2, a) := t1.Pop(short, r);
        t2.Push(b, r).Push(a, r)
      case Rot =>
        var (t1, c) := t.Pop(short, r);
        var (t2, b) := t1.Pop(short, r);
        var (t3, a) := t2.Pop(short, r);
        t3.Push(b, r).Push(c, r).Push(a, r)
      case Dup => var (t1, a) := t.Pop(short, r); t1.Push(a, r).Push(a, r)
      case Ovr =>
        var (t1, b) := t.Pop(short, r);
        var (t2, a) := t1.Pop(short, r);
        t2.Push(a, r).Push(b, r).Push(a, r)
      case Equ | Neq | Gth | Lth =>
        var (t1, b) := t.Pop(short, r);
        var (t2, a) := t1.Pop(short, r);
        t2.Push(Known(false, false, true, 0), r)
      case Sth => var (t1, a) := t.Pop(short, r); t1.Push(a, !r)
      case Ldz | Ldr | Lda => var (t1, a) := t.Pop(op.Lda?, r); t1.Push(Unknown(short), r)
      case Stz | Str | Sta =>
        var (t1, a) := t.Pop(op.Sta?, r);
        t1.Pop(short, r).0
      case Add | Sub | Mul | Div | And | Ora | Eor | Sft =>
        var (t1, b) := t.Pop(short && op != Uxn.Sft, r);
        var (t2, a) := t1.Pop(short, r);
        t2.Push(Folded(op, a, b), r)
      case Jmp => t.Pop(short, r).0
      case Jcn => t.Pop(short, r).0.Pop(false, r).0
      case Jsr => t.Pop(short, r).0.Push(Unknown(true), !r)
      case Jci => t.Pop(false, false).0
      case Jsi => t.Push(Unknown(true), true)
      case Dei => t.Pop(false, r).0.Push(Unknown(short), r)
      case Deo => t.Pop(false, r).0.Pop(short, r).0
      case Jmi | Brk => t
    }
  }

  function Back(p: nat, n: nat): (q: nat)
    ensures q < RING
  {
    (p - n) % RING
  }

  function Incremented(a: Known): Known {
    a.(boolean := false, value := if a.constant then (a.value + 1) % 0x1_0000 else a.value)
  }

  /** Folding, on sixteen bits whatever the width of the operands. */
  function FoldedValue(op: Uxn.Op, a: nat, b: nat): nat {
    match op
    case Add => (a + b) % 0x1_0000
    case Sub => (a - b) % 0x1_0000
    case Mul => (a * b) % 0x1_0000
    case Div => Quotient(a, b)
    case And => Words.And(a, b)
    case Ora => Or(a, b)
    case Eor => Xor(a, b)
    case _ => Quotient(a, Pow2(b % 16)) * Pow2(b / 16 % 16) % 0x1_0000
  }

  function Folded(op: Uxn.Op, a: Known, b: Known): Known {
    Known(a.short, a.constant && b.constant, false, if a.constant && b.constant then FoldedValue(op, a.value, b.value) else 0)
  }

  // ---- soundness ----

  ghost predicate FactHolds(f: Fact, byte: nat) {
    (f.constant ==> f.value == byte) && (f.boolean ==> byte <= 1)
  }

  /** The entry for level "i" of a stack of "n" bytes whose top is just below "p". */
  function Slot(p: nat, n: nat, i: nat): (s: nat)
    ensures s < RING
  {
    (p - n + i) % RING
  }

  /** Every entry below the pointer tells the truth about its byte. */
  ghost predicate RingHolds(ring: seq<Fact>, p: nat, s: Uxn.Bytes) {
    && |ring| == RING && p < RING && |s| <= RING
    && forall i :: 0 <= i < |s| ==> FactHolds(ring[Slot(p, |s|, i)], s[i])
  }

  lemma SlotPop(p: nat, n: nat, k: nat, i: nat)
    requires k <= n
    ensures Slot(Back(p, k), n - k, i) == Slot(p, n, i)
  {
    assert (p - k) % RING == p - k - RING * ((p - k) / RING);
    ModShift(p - n + i, -((p - k) / RING));
  }

  lemma ModShift(a: int, k: int)
    ensures (a + RING * k) % RING == a % RING
  {
    ModUnique(a + RING * k, RING, a / RING + k, a % RING);
  }

  lemma SlotPush(p: nat, n: nat, i: nat)
    requires i <= n < RING && p < RING
    ensures Slot((p + 1) % RING, n + 1, i) == Slot(p, n, i)
    ensures Slot(p, n, i) == p <==> i == n
  {
  }

  lemma RingPop(ring: seq<Fact>, p: nat, s: Uxn.Bytes, k: nat)
    requires RingHolds(ring, p, s) && k <= |s|
    ensures RingHolds(ring, Back(p, k), s[..|s| - k])
  {
    forall i | 0 <= i < |s| - k ensures FactHolds(ring[Slot(Back(p, k), |s| - k, i)], s[i]) {
      SlotPop(p, |s|, k, i);
    }
  }

  lemma RingTop(ring: seq<Fact>, p: nat, s: Uxn.Bytes, k: nat)
    requires RingHolds(ring, p, s) && 1 <= k <= |s|
    ensures FactHolds(ring[Back(p, k)], s[|s| - k])
  {
    assert Slot(p, |s|, |s| - k) == Back(p, k);
  }

  lemma RingPush(ring: seq<Fact>, p: nat, s: Uxn.Bytes, f: Fact, b: nat)
    requires RingHolds(ring, p, s) && |s| < RING && FactHolds(f, b)
    ensures RingHolds(ring[p := f], (p + 1) % RING, s + [b])
  {
    forall i | 0 <= i < |s| + 1 ensures FactHolds(ring[p := f][Slot((p + 1) % RING, |s| + 1, i)], (s + [b])[i]) {
      SlotPush(p, |s|, i);
    }
  }

  /** What is known about an operand is true of its value. */
  ghost predicate KnownHolds(k: Known, v: nat) {
    && (k.constant ==> Uxn.BytesOf(k.value, k.short) == Uxn.BytesOf(v, k.short))
    && (k.boolean ==> !k.short && v <= 1)
  }

  /** The two stacks as bytes, with the current one possibly seen through a shadow pointer. */
  ghost predicate Sees(t: Tracker, r: bool, s: Uxn.Bytes) {
    RingHolds(t.Ring(r), t.PopPtr(r), s)
  }

  ghost predicate Has(t: Tracker, r: bool, s: Uxn.Bytes) {
    RingHolds(t.Ring(r), t.Ptr(r), s)
  }

  /** A pop yields true facts about the value it passes over. */
  lemma PopHolds(t: Tracker, short: bool, r: bool, s: Uxn.Bytes)
    requires Sees(t, r, s) && Target.AreBytes(s) && Uxn.PopValue(s, short).Some?
    ensures var (t', k) := t.Pop(short, r); var (rest, v) := Uxn.PopValue(s, short).value;
      && Sees(t', r, rest) && Target.AreBytes(rest) && KnownHolds(k, v) && k.short == short
      && (k.constant ==> k.value == v) && v < 0x1_0000 && (!short ==> v < 256)
      && t' == t.WithPopPtr(r, t'.PopPtr(r)) && t'.PopPtr(r) < RING
  {
    var n := if short then 2 else 1;
    RingPop(t.Ring(r), t.PopPtr(r), s, n);
    RingTop(t.Ring(r), t.PopPtr(r), s, 1);
    if short {
      RingTop(t.Ring(r), t.PopPtr(r), s, 2);
    }
    hide RingHolds;
  }

  lemma PushFactHolds(t: Tracker, f: Fact, r: bool, s: Uxn.Bytes, b: nat)
    requires Has(t, r, s) && |s| < RING && FactHolds(f, b)
    ensures Has(t.PushFact(f, r), r, s + [b])
    ensures t.PushFact(f, r).Ring(!r) == t.Ring(!r) && t.PushFact(f, r).Ptr(!r) == t.Ptr(!r)
  {
    RingPush(t.Ring(r), t.Ptr(r), s, f, b);
  }

  /** A push of an operand records true facts about its bytes. */
  lemma PushHolds(t: Tracker, k: Known, r: bool, s: Uxn.Bytes, v: nat)
    requires Has(t, r, s) && KnownHolds(k, v) && |s| + |Uxn.BytesOf(v, k.short)| <= RING
    ensures Has(t.Push(k, r), r, s + Uxn.BytesOf(v, k.short))
    ensures t.Push(k, r).Ring(!r) == t.Ring(!r) && t.Push(k, r).Ptr(!r) == t.Ptr(!r)
  {
    var bytes := Uxn.BytesOf(v, k.short);
    if k.short {
      var hi := Fact(k.constant, k.boolean, k.value / 256 % 256);
      assert k.constant ==> Uxn.BytesOf(k.value, true)[0] == bytes[0] && Uxn.BytesOf(k.value, true)[1] == bytes[1];
      PushFactHolds(t, hi, r, s, bytes[0]);
      PushFactHolds(t.PushFact(hi, r), Fact(k.constant, k.boolean, k.value % 256), r, s + [bytes[0]], bytes[1]);
      assert s + [bytes[0]] + [bytes[1]] == s + bytes;
    } else {
      assert k.constant ==> Uxn.BytesOf(k.value, false)[0] == bytes[0];
      PushFactHolds(t, Fact(k.constant, k.boolean, k.value % 256), r, s, bytes[0]);
    }
  }
}
