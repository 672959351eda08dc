/** Every plain opcode, in every mode, does to the machine what the reference interpreter does
    to its stacks and memory. */
module OpSound {
  import opened Target
  import opened Emission
  import opened Allocator
  import opened Rings
  import opened CacheRuns
  import opened CacheSound
  import opened PopSound
  import opened Popping
  import opened Values
  import Uxn

  /** The stacks and the memory after an effect; "rest" is what the pops leave of the stack. */
  ghost predicate Effected(s: Snap, s': Snap, r: bool, k: bool, rest: Uxn.Bytes, eff: Uxn.Effect) {
    && s'.Stack(r) == (if k then s.Stack(r) else rest) + eff.cur
    && s'.Stack(!r) == s.Stack(!r) + eff.oth
    && s'.ram == eff.ram && s'.io == s.io && s'.wOrigin == s.wOrigin && s'.rOrigin == s.rOrigin
  }

  ghost predicate Fits(s: Snap, r: bool, k: bool, rest: Uxn.Bytes, eff: Uxn.Effect) {
    |(if k then s.Stack(r) else rest) + eff.cur| <= 256 && |s.Stack(!r) + eff.oth| <= 256
  }

  // ---- operand lists ----

  lemma PopOne(view: Uxn.Bytes, a: bool)
    requires Uxn.PopAll(view, [a]).Some?
    ensures Uxn.PopValue(view, a).Some?
    ensures var (rest, x) := Uxn.PopValue(view, a).value;
      Uxn.PopAll(view, [a]) == Uxn.Some((rest, [x]))
  {
    assert [a][1..] == [];
    var x := Uxn.PopValue(view, a).value.1;
    assert [x] + [] == [x];
  }

  lemma PopTwo(view: Uxn.Bytes, a: bool, b: bool)
    requires Uxn.PopAll(view, [a, b]).Some?
    ensures Uxn.PopValue(view, a).Some? && Uxn.PopValue(Uxn.PopValue(view, a).value.0, b).Some?
    ensures var (rest, x) := Uxn.PopValue(view, a).value;
      var (rest', y) := Uxn.PopValue(rest, b).value;
      Uxn.PopAll(view, [a, b]) == Uxn.Some((rest', [x, y]))
  {
    assert [a, b][1..] == [b];
    var (rest, x) := Uxn.PopValue(view, a).value;
    PopOne(rest, b);
    var y := Uxn.PopValue(rest, b).value.1;
    assert [x] + [y] == [x, y];
  }

  lemma PopThree(view: Uxn.Bytes, a: bool, b: bool, c: bool)
    requires Uxn.PopAll(view, [a, b, c]).Some?
    ensures Uxn.PopValue(view, a).Some? && Uxn.PopValue(Uxn.PopValue(view, a).value.0, b).Some?
    ensures Uxn.PopValue(Uxn.PopValue(Uxn.PopValue(view, a).value.0, b).value.0, c).Some?
    ensures var (rest, x) := Uxn.PopValue(view, a).value;
      var (rest', y) := Uxn.PopValue(rest, b).value;
      var (rest'', z) := Uxn.PopValue(rest', c).value;
      Uxn.PopAll(view, [a, b, c]) == Uxn.Some((rest'', [x, y, z]))
  {
    assert [a, b, c][1..] == [b, c];
    var (rest, x) := Uxn.PopValue(view, a).value;
    PopTwo(rest, b, c);
    var (rest', y) := Uxn.PopValue(rest, b).value;
    var z := Uxn.PopValue(rest', c).value.1;
    assert [x] + [y, z] == [x, y, z];
  }

  // ---- opcodes with one operand or none ----

  /** The state an opcode's emitter starts from. */
  ghost predicate Started(e: Emitter, m0: Machine, s: Snap, held: multiset<Reg>, r: bool, k: bool) {
    InPops(e, m0, s, held, r, k, s.Stack(r)) && |held| <= 2
  }

  lemma LitSound(e: Emitter, pc: nat, m0: Machine, s: Snap, held: multiset<Reg>, short: bool, r: bool)
    returns (s': Snap, held': multiset<Reg>)
    requires Good(e, m0, s, held) && |held| <= 2 && pc < 0x1_0000
    requires |s.Stack(r)| + (if short then 2 else 1) <= 256
    ensures var (e1, lit) := e.Immediate(pc, short);
      Good(e1.Push(lit, short, r), m0, s', held')
    ensures s'.Stack(r) == s.Stack(r) + Uxn.BytesOf(Uxn.Fetch(s.ram, pc, true, short), short)
    ensures s'.Stack(!r) == s.Stack(!r) && s'.ram == s.ram && s'.io == s.io && s'.wOrigin == s.wOrigin && s'.rOrigin == s.rOrigin
  {
    hide Good;
    hide Emitter.Immediate;
    hide Emitter.Push;
    hide Uxn.Fetch;
    hide Uxn.BytesOf;
    ImmediateGood(e, pc, short, m0, s, held);
    var (e1, lit) := e.Immediate(pc, short);
    var v := Uxn.Fetch(s.ram, pc, true, short);
    var s1 := s.(vals := s.vals[lit := v]);
    held' := held + multiset{lit};
    PushGood(e1, lit, short, r, m0, s1, held');
    s' := s1.With(r, s1.Stack(r) + Uxn.BytesOf(v, short));
  }

  /** A push of a held value, with the value's bytes spelled out. */
  lemma PushStep(e: Emitter, a: Reg, short: bool, to: bool, m0: Machine, s: Snap, held: multiset<Reg>)
    returns (s': Snap)
    requires Good(e, m0, s, held) && a in s.vals && s.vals[a] < (if short then 0x1_0000 else 256)
    requires |s.Stack(to)| + (if short then 2 else 1) <= 256
    ensures Good(e.Push(a, short, to), m0, s', held)
    ensures s' == s.With(to, s.Stack(to) + Uxn.BytesOf(s.vals[a], short))
  {
    hide Good;
    hide Emitter.Push;
    PushGood(e, a, short, to, m0, s, held);
    s' := s.With(to, s.Stack(to) + Uxn.BytesOf(s.vals[a], short));
  }

  /** One pop. */
  lemma PopStep1(e: Emitter, m0: Machine, s: Snap, held: multiset<Reg>, short: bool, r: bool, k: bool)
    returns (s': Snap, held': multiset<Reg>)
    requires Started(e, m0, s, held, r, k) && Uxn.PopValue(s.Stack(r), short).Some?
    requires !e.CachePop(short, r).0.Hazard()
    ensures var (rest, x) := Uxn.PopValue(s.Stack(r), short).value;
      var (e1, a) := e.CachePop(short, r);
      && Good(e1, m0, s', held') && InPops(e1, m0, s', held', r, k, rest)
      && held' == held + multiset{a} && |held'| == |held| + 1
      && s' == Rest(s, r, k, rest).(vals := s.vals[a := x]) && IsOp(a)
      && x < (if short then 0x1_0000 else 256)
  {
    hide Emitter.CachePop;
    PopGood(e, short, r, k, m0, s, held, s.Stack(r));
    var (e1, a) := e.CachePop(short, r);
    var (rest, x) := Uxn.PopValue(s.Stack(r), short).value;
    held' := held + multiset{a};
    s' := Rest(s, r, k, rest).(vals := s.vals[a := x]);
    hide Good;
  }

  /** The state after two pops: their values, the upper one first, are in "a" and "b". */
  ghost predicate TwoPopped(e2: Emitter, a: Reg, b: Reg, m0: Machine, s: Snap, s': Snap, held: multiset<Reg>, held': multiset<Reg>,
                            short1: bool, short2: bool, r: bool, k: bool)
    requires Uxn.PopValue(s.Stack(r), short1).Some?
    requires Uxn.PopValue(Uxn.PopValue(s.Stack(r), short1).value.0, short2).Some?
  {
    var (rest, x) := Uxn.PopValue(s.Stack(r), short1).value;
    var (rest', y) := Uxn.PopValue(rest, short2).value;
    && Good(e2, m0, s', held') && InPops(e2, m0, s', held', r, k, rest')
    && held' == held + multiset{a} + multiset{b} && |held'| == |held| + 2
    && s' == Rest(s, r, k, rest').(vals := s.vals[a := x][b := y]) && IsOp(a) && IsOp(b)
    && s'.vals[a] == x < (if short1 then 0x1_0000 else 256) && y < (if short2 then 0x1_0000 else 256)
  }

  /** Two pops. */
  lemma PopStep2(e: Emitter, m0: Machine, s: Snap, held: multiset<Reg>, short1: bool, short2: bool, r: bool, k: bool)
    returns (s': Snap, held': multiset<Reg>)
    requires Started(e, m0, s, held, r, k)
    requires Uxn.PopValue(s.Stack(r), short1).Some?
    requires Uxn.PopValue(Uxn.PopValue(s.Stack(r), short1).value.0, short2).Some?
    requires !e.CachePop(short1, r).0.CachePop(short2, r).0.Hazard()
    ensures var (e1, a) := e.CachePop(short1, r);
      var (e2, b) := e1.CachePop(short2, r);
      TwoPopped(e2, a, b, m0, s, s', held, held', short1, short2, r, k)
  {
    hide Emitter.CachePop;
    hide Good;
    hide ViewMode;
    var (rest, x) := Uxn.PopValue(s.Stack(r), short1).value;
    var s1, held1 := PopStep1(e, m0, s, held, short1, r, k);
    var (e1, a) := e.CachePop(short1, r);
    PopGood(e1, short2, r, k, m0, s1, held1, rest);
    var (e2, b) := e1.CachePop(short2, r);
    var (rest', y) := Uxn.PopValue(rest, short2).value;
    held' := held1 + multiset{b};
    s' := Rest(s1, r, k, rest').(vals := s1.vals[b := y]);
  }

  // ---- the opcodes ----

  /** The operands are there, and the effect fits on the stacks. */
  ghost predicate Applies(op: Uxn.Op, short: bool, s: Snap, r: bool, k: bool, rest: Uxn.Bytes, args: seq<nat>, pc: nat) {
    && Uxn.PopAll(s.Stack(r), Uxn.Shape(op, short)) == Uxn.Some((rest, args))
    && Fits(s, r, k, rest, Eff(op, short, args, s.ram, pc))
  }

  function Eff(op: Uxn.Op, short: bool, args: seq<nat>, ram: Uxn.Bytes, pc: nat): Uxn.Effect {
    Uxn.Act(op, short, Uxn.Nth(args, 0), Uxn.Nth(args, 1), Uxn.Nth(args, 2), ram, pc)
  }

  lemma OneOperand(op: Uxn.Op, short: bool, s: Snap, r: bool, k: bool, rest: Uxn.Bytes, args: seq<nat>, pc: nat, a: bool)
    requires Applies(op, short, s, r, k, rest, args, pc) && Uxn.Shape(op, short) == [a]
    ensures |args| == 1 && Uxn.PopValue(s.Stack(r), a) == Uxn.Some((rest, args[0]))
    ensures Fits(s, r, k, rest, Eff(op, short, args, s.ram, pc))
  {
    hide Fits;
    hide Eff;
    PopOne(s.Stack(r), a);
  }

  lemma TwoOperands(op: Uxn.Op, short: bool, s: Snap, r: bool, k: bool, rest: Uxn.Bytes, args: seq<nat>, pc: nat, a: bool, b: bool)
    requires Applies(op, short, s, r, k, rest, args, pc) && Uxn.Shape(op, short) == [a, b]
    ensures |args| == 2 && Uxn.PopValue(s.Stack(r), a).Some? && Uxn.PopValue(s.Stack(r), a).value.1 == args[0]
    ensures Uxn.PopValue(Uxn.PopValue(s.Stack(r), a).value.0, b) == Uxn.Some((rest, args[1]))
    ensures Fits(s, r, k, rest, Eff(op, short, args, s.ram, pc))
  {
    hide Fits;
    hide Eff;
    PopTwo(s.Stack(r), a, b);
  }

  lemma ThreeOperands(op: Uxn.Op, short: bool, s: Snap, r: bool, k: bool, rest: Uxn.Bytes, args: seq<nat>, pc: nat, a: bool)
    requires Applies(op, short, s, r, k, rest, args, pc) && Uxn.Shape(op, short) == [a, a, a]
    ensures |args| == 3 && Uxn.PopValue(s.Stack(r), a).Some? && Uxn.PopValue(s.Stack(r), a).value.1 == args[0]
    ensures var rest1 := Uxn.PopValue(s.Stack(r), a).value.0;
      && Uxn.PopValue(rest1, a).Some? && Uxn.PopValue(rest1, a).value.1 == args[1]
      && Uxn.PopValue(Uxn.PopValue(rest1, a).value.0, a) == Uxn.Some((rest, args[2]))
    ensures Fits(s, r, k, rest, Eff(op, short, args, s.ram, pc))
  {
    hide Fits;
    hide Eff;
    PopThree(s.Stack(r), a, a, a);
  }

  lemma IncSound(e: Emitter, pc: nat, m0: Machine, s: Snap, held: multiset<Reg>, short: bool, r: bool, k: bool,
                 rest: Uxn.Bytes, args: seq<nat>) returns (s': Snap, held': multiset<Reg>)
    requires Started(e, m0, s, held, r, k) && Applies(Uxn.Inc, short, s, r, k, rest, args, pc)
    requires var (e1, a) := e.CachePop(short, r);
      !e1.Own(a).Emit(Op2(Alu.ADD, a, R(a), Imm(1))).Emit(Op2(Alu.AND, a, R(a), Mask(short))).Push(a, short, r).Hazard()
    ensures var (e1, a) := e.CachePop(short, r);
      Good(e1.Own(a).Emit(Op2(Alu.ADD, a, R(a), Imm(1))).Emit(Op2(Alu.AND, a, R(a), Mask(short))).Push(a, short, r), m0, s', held')
    ensures Effected(s, s', r, k, rest, Eff(Uxn.Inc, short, args, s.ram, pc))
  {
    hide Emitter.CachePop;
    hide Emitter.Push;
    hide Good;
    hide ViewMode;
    PopOne(s.Stack(r), short);
    var s1, held1 := PopStep1(e, m0, s, held, short, r, k);
    held' := held1;
    var (e1, a) := e.CachePop(short, r);
    assert e1.Count(a) == 1;
    IncGood(e1, a, short, m0, s1, held');
    var e2 := e1.Own(a).Emit(Op2(Alu.ADD, a, R(a), Imm(1))).Emit(Op2(Alu.AND, a, R(a), Mask(short)));
    s' := PushStep(e2, a, short, r, m0, s1.(vals := s1.vals[a := Uxn.Wrap(s1.vals[a] + 1, short)]), held');
  }

  lemma DiscardSound(e: Emitter, pc: nat, m0: Machine, s: Snap, held: multiset<Reg>, short: bool, r: bool, k: bool,
                 rest: Uxn.Bytes, args: seq<nat>) returns (s': Snap)
    requires Started(e, m0, s, held, r, k) && Applies(Uxn.Pop, short, s, r, k, rest, args, pc)
    requires var e' := if k then e else e.Discard(short, r); !e'.Hazard()
    ensures Good(if k then e else e.Discard(short, r), m0, s', held)
    ensures Effected(s, s', r, k, rest, Eff(Uxn.Pop, short, args, s.ram, pc))
  {
    hide Emitter.Discard;
    hide Good;
    PopOne(s.Stack(r), short);
    if k {
      s' := s;
    } else {
      DiscardGood(e, short, r, m0, s, held);
      s' := s.With(r, rest);
    }
    hide ViewMode;
  }

  lemma NipSound(e: Emitter, pc: nat, m0: Machine, s: Snap, held: multiset<Reg>, short: bool, r: bool, k: bool,
                 rest: Uxn.Bytes, args: seq<nat>) returns (s': Snap, held': multiset<Reg>)
    requires Started(e, m0, s, held, r, k) && Applies(Uxn.Nip, short, s, r, k, rest, args, pc)
    requires var (e1, b) := e.CachePop(short, r);
      !(if k then e1 else e1.Discard(short, r)).Push(b, short, r).Hazard()
    ensures var (e1, b) := e.CachePop(short, r);
      Good((if k then e1 else e1.Discard(short, r)).Push(b, short, r), m0, s', held')
    ensures Effected(s, s', r, k, rest, Eff(Uxn.Nip, short, args, s.ram, pc))
  {
    hide Emitter.CachePop;
    hide Emitter.Discard;
    hide Emitter.Push;
    hide Good;
    TwoOperands(Uxn.Nip, short, s, r, k, rest, args, pc, short, short);
    assert Eff(Uxn.Nip, short, args, s.ram, pc) == Uxn.Effect(Uxn.BytesOf(args[0], short), [], s.ram, pc);
    hide Eff;
    hide Applies;
    hide Uxn.PopValue;
    var s1, held1 := PopStep1(e, m0, s, held, short, r, k);
    held' := held1;
    var (e1, b) := e.CachePop(short, r);
    if k {
      s' := PushStep(e1, b, short, r, m0, s1, held');
    } else {
      DiscardGood(e1, short, r, m0, s1, held');
      s' := PushStep(e1.Discard(short, r), b, short, r, m0, s1.With(r, rest), held');
    }
    hide ViewMode;
  }

  lemma DupSound(e: Emitter, pc: nat, m0: Machine, s: Snap, held: multiset<Reg>, short: bool, r: bool, k: bool,
                 rest: Uxn.Bytes, args: seq<nat>) returns (s': Snap, held': multiset<Reg>)
    requires Started(e, m0, s, held, r, k) && Applies(Uxn.Dup, short, s, r, k, rest, args, pc)
    requires var (e1, a) := e.CachePop(short, r); !e1.Push(a, short, r).Push(a, short, r).Hazard()
    ensures var (e1, a) := e.CachePop(short, r); Good(e1.Push(a, short, r).Push(a, short, r), m0, s', held')
    ensures Effected(s, s', r, k, rest, Eff(Uxn.Dup, short, args, s.ram, pc))
  {
    hide Emitter.CachePop;
    hide Emitter.Push;
    hide Good;
    hide ViewMode;
    PopOne(s.Stack(r), short);
    var s1, held1 := PopStep1(e, m0, s, held, short, r, k);
    held' := held1;
    var (e1, a) := e.CachePop(short, r);
    s' := PushStep(e1, a, short, r, m0, s1, held');
    s' := PushStep(e1.Push(a, short, r), a, short, r, m0, s', held');
    hide Uxn.BytesOf;
    Regroup(s1.Stack(r), Uxn.BytesOf(args[0], short), Uxn.BytesOf(args[0], short));
  }

  lemma SthSound(e: Emitter, pc: nat, m0: Machine, s: Snap, held: multiset<Reg>, short: bool, r: bool, k: bool,
                 rest: Uxn.Bytes, args: seq<nat>) returns (s': Snap, held': multiset<Reg>)
    requires Started(e, m0, s, held, r, k) && Applies(Uxn.Sth, short, s, r, k, rest, args, pc)
    requires var (e1, a) := e.CachePop(short, r); !e1.Push(a, short, !r).Hazard()
    ensures var (e1, a) := e.CachePop(short, r); Good(e1.Push(a, short, !r), m0, s', held')
    ensures Effected(s, s', r, k, rest, Eff(Uxn.Sth, short, args, s.ram, pc))
  {
    hide Emitter.CachePop;
    hide Emitter.Push;
    hide Good;
    hide ViewMode;
    PopOne(s.Stack(r), short);
    var s1, held1 := PopStep1(e, m0, s, held, short, r, k);
    held' := held1;
    var (e1, a) := e.CachePop(short, r);
    s' := PushStep(e1, a, short, !r, m0, s1, held');
  }

  lemma SwpSound(e: Emitter, pc: nat, m0: Machine, s: Snap, held: multiset<Reg>, short: bool, r: bool, k: bool,
                 rest: Uxn.Bytes, args: seq<nat>) returns (s': Snap, held': multiset<Reg>)
    requires Started(e, m0, s, held, r, k) && Applies(Uxn.Swp, short, s, r, k, rest, args, pc)
    requires var (e1, b) := e.CachePop(short, r); var (e2, a) := e1.CachePop(short, r);
      !e2.Push(b, short, r).Push(a, short, r).Hazard()
    ensures var (e1, b) := e.CachePop(short, r); var (e2, a) := e1.CachePop(short, r);
      Good(e2.Push(b, short, r).Push(a, short, r), m0, s', held')
    ensures Effected(s, s', r, k, rest, Eff(Uxn.Swp, short, args, s.ram, pc))
  {
    hide Emitter.CachePop;
    hide Emitter.Push;
    hide Good;
    hide ViewMode;
    TwoOperands(Uxn.Swp, short, s, r, k, rest, args, pc, short, short);
    assert Eff(Uxn.Swp, short, args, s.ram, pc) == Uxn.Effect(Uxn.BytesOf(args[0], short) + Uxn.BytesOf(args[1], short), [], s.ram, pc);
    hide Eff;
    hide Applies;
    hide Uxn.PopValue;
    var s1, held1 := PopStep2(e, m0, s, held, short, short, r, k);
    held' := held1;
    var (e1, b) := e.CachePop(short, r);
    var (e2, a) := e1.CachePop(short, r);
    s' := PushStep(e2, b, short, r, m0, s1, held');
    s' := PushStep(e2.Push(b, short, r), a, short, r, m0, s', held');
    hide Uxn.BytesOf;
    Regroup(s1.Stack(r), Uxn.BytesOf(args[0], short), Uxn.BytesOf(args[1], short));
  }

  lemma Regroup3(a: Uxn.Bytes, b: Uxn.Bytes, c: Uxn.Bytes, d: Uxn.Bytes)
    ensures ((a + b) + c) + d == a + (b + c + d)
  {
  }

  lemma OvrSound(e: Emitter, pc: nat, m0: Machine, s: Snap, held: multiset<Reg>, short: bool, r: bool, k: bool,
                 rest: Uxn.Bytes, args: seq<nat>) returns (s': Snap, held': multiset<Reg>)
    requires Started(e, m0, s, held, r, k) && Applies(Uxn.Ovr, short, s, r, k, rest, args, pc)
    requires var (e1, b) := e.CachePop(short, r); var (e2, a) := e1.CachePop(short, r);
      !e2.Push(a, short, r).Push(b, short, r).Push(a, short, r).Hazard()
    ensures var (e1, b) := e.CachePop(short, r); var (e2, a) := e1.CachePop(short, r);
      Good(e2.Push(a, short, r).Push(b, short, r).Push(a, short, r), m0, s', held')
    ensures Effected(s, s', r, k, rest, Eff(Uxn.Ovr, short, args, s.ram, pc))
  {
    hide Emitter.CachePop;
    hide Emitter.Push;
    hide Good;
    hide ViewMode;
    TwoOperands(Uxn.Ovr, short, s, r, k, rest, args, pc, short, short);
    assert Eff(Uxn.Ovr, short, args, s.ram, pc) == Uxn.Effect(Uxn.BytesOf(args[1], short) + Uxn.BytesOf(args[0], short) + Uxn.BytesOf(args[1], short), [], s.ram, pc);
    hide Eff;
    hide Applies;
    hide Uxn.PopValue;
    var s1, held1 := PopStep2(e, m0, s, held, short, short, r, k);
    held' := held1;
    var (e1, b) := e.CachePop(short, r);
    var (e2, a) := e1.CachePop(short, r);
    s' := PushStep(e2, a, short, r, m0, s1, held');
    s' := PushStep(e2.Push(a, short, r), b, short, r, m0, s', held');
    s' := PushStep(e2.Push(a, short, r).Push(b, short, r), a, short, r, m0, s', held');
    hide Uxn.BytesOf;
    Regroup3(s1.Stack(r), Uxn.BytesOf(args[1], short), Uxn.BytesOf(args[0], short), Uxn.BytesOf(args[1], short));
  }

  lemma RotSound(e: Emitter, pc: nat, m0: Machine, s: Snap, held: multiset<Reg>, short: bool, r: bool, k: bool,
                 rest: Uxn.Bytes, args: seq<nat>) returns (s': Snap, held': multiset<Reg>)
    requires Started(e, m0, s, held, r, k) && Applies(Uxn.Rot, short, s, r, k, rest, args, pc)
    requires var (e1, c) := e.CachePop(short, r); var (e2, b) := e1.CachePop(short, r); var (e3, a) := e2.CachePop(short, r);
      !e3.Push(b, short, r).Push(c, short, r).Push(a, short, r).Hazard()
    ensures var (e1, c) := e.CachePop(short, r); var (e2, b) := e1.CachePop(short, r); var (e3, a) := e2.CachePop(short, r);
      Good(e3.Push(b, short, r).Push(c, short, r).Push(a, short, r), m0, s', held')
    ensures Effected(s, s', r, k, rest, Eff(Uxn.Rot, short, args, s.ram, pc))
  {
    hide Emitter.CachePop;
    hide Emitter.Push;
    hide Good;
    hide ViewMode;
    ThreeOperands(Uxn.Rot, short, s, r, k, rest, args, pc, short);
    assert Eff(Uxn.Rot, short, args, s.ram, pc)
      == Uxn.Effect(Uxn.BytesOf(args[1], short) + Uxn.BytesOf(args[0], short) + Uxn.BytesOf(args[2], short), [], s.ram, pc);
    hide Eff;
    hide Applies;
    hide Uxn.PopValue;
    var (rest1, x) := Uxn.PopValue(s.Stack(r), short).value;
    var (rest2, y) := Uxn.PopValue(rest1, short).value;
    var s2, held2 := PopStep2(e, m0, s, held, short, short, r, k);
    var (e1, c) := e.CachePop(short, r);
    var (e2, b) := e1.CachePop(short, r);
    PopGood(e2, short, r, k, m0, s2, held2, rest2);
    var (e3, a) := e2.CachePop(short, r);
    var z := Uxn.PopValue(rest2, short).value.1;
    held' := held2 + multiset{a};
    var s3 := Rest(s2, r, k, rest).(vals := s2.vals[a := z]);
    assert s3.vals[c] == x && s3.vals[b] == y;
    s' := PushStep(e3, b, short, r, m0, s3, held');
    s' := PushStep(e3.Push(b, short, r), c, short, r, m0, s', held');
    s' := PushStep(e3.Push(b, short, r).Push(c, short, r), a, short, r, m0, s', held');
    hide Uxn.BytesOf;
    Regroup3(s3.Stack(r), Uxn.BytesOf(y, short), Uxn.BytesOf(x, short), Uxn.BytesOf(z, short));
  }

  lemma EffCompare(op: Uxn.Op, short: bool, args: seq<nat>, ram: Uxn.Bytes, pc: nat)
    requires (op.Equ? || op.Neq? || op.Gth? || op.Lth?) && |args| == 2
    ensures Eff(op, short, args, ram, pc)
      == Uxn.Effect(Uxn.BytesOf(if Uxn.Compares(op, args[1], args[0]) then 1 else 0, false), [], ram, pc)
  {
  }

  lemma EffArith(op: Uxn.Op, short: bool, args: seq<nat>, ram: Uxn.Bytes, pc: nat)
    requires IsArith(op) && |args| == 2
    ensures Eff(op, short, args, ram, pc) == Uxn.Effect(Uxn.BytesOf(Uxn.Arith(op, short, args[1], args[0]), short), [], ram, pc)
  {
    hide Uxn.Arith;
  }

  function AddressFor(op: Uxn.Op, pc: nat, x: nat): nat {
    if op.Ldr? || op.Str? then Uxn.Displaced(pc, x) else x
  }

  lemma EffLoad(op: Uxn.Op, short: bool, args: seq<nat>, ram: Uxn.Bytes, pc: nat)
    requires (op.Ldz? || op.Ldr? || op.Lda?) && |args| == 1
    ensures Eff(op, short, args, ram, pc)
      == Uxn.Effect(Uxn.BytesOf(Uxn.Fetch(ram, AddressFor(op, pc, args[0]), !op.Ldz?, short), short), [], ram, pc)
  {
    hide Uxn.Fetch;
  }

  lemma EffStore(op: Uxn.Op, short: bool, args: seq<nat>, ram: Uxn.Bytes, pc: nat)
    requires (op.Stz? || op.Str? || op.Sta?) && |args| == 2
    ensures Eff(op, short, args, ram, pc)
      == Uxn.Effect([], [], Uxn.Write(ram, AddressFor(op, pc, args[0]), !op.Stz?, args[1], short), pc)
  {
    hide Uxn.Write;
  }

  /** A result register, new to the opcode. */
  lemma NewReg(e: Emitter, m0: Machine, s: Snap, held: multiset<Reg>) returns (held': multiset<Reg>)
    requires Good(e, m0, s, held) && |held| < NUM_OPS
    ensures var (e', c) := e.Alloc();
      && held' == held + multiset{c} && Good(e', m0, s, held') && IsOp(c) && c in held' && c !in s.vals && e'.Count(c) == 1
  {
    hide Emitter.Alloc;
    AllocGood(e, m0, s, held);
    var (e', c) := e.Alloc();
    held' := held + multiset{c};
    SoleGood(e', m0, s, held', c);
    hide Inv;
    hide Rel;
    assert held'[c] == held[c] + 1;
  }

  lemma ComparisonSound(e: Emitter, op: Uxn.Op, pc: nat, m0: Machine, s: Snap, held: multiset<Reg>, short: bool, r: bool, k: bool,
                        rest: Uxn.Bytes, args: seq<nat>) returns (s': Snap, held': multiset<Reg>)
    requires op.Equ? || op.Neq? || op.Gth? || op.Lth?
    requires Started(e, m0, s, held, r, k) && Applies(op, short, s, r, k, rest, args, pc)
    requires !e.Comparison(op, short, r).Hazard()
    ensures Good(e.Comparison(op, short, r), m0, s', held')
    ensures Effected(s, s', r, k, rest, Eff(op, short, args, s.ram, pc))
  {
    hide Emitter.CachePop;
    hide Emitter.Push;
    hide Emitter.Alloc;
    hide Good;
    hide Uxn.Shape;
    hide ViewMode;
    CompareShape(op, short);
    TwoOperands(op, short, s, r, k, rest, args, pc, short, short);
    hide Applies;
    hide Uxn.PopValue;
    EffCompare(op, short, args, s.ram, pc);
    hide Eff;
    var s1, held1 := PopStep2(e, m0, s, held, short, short, r, k);
    var (e1, b) := e.CachePop(short, r);
    var (e2, a) := e1.CachePop(short, r);
    held' := NewReg(e2, m0, s1, held1);
    var (e3, c) := e2.Alloc();
    CompareGood(e3, op, c, a, b, m0, s1, held');
    var v := if Uxn.Compares(op, s1.vals[a], s1.vals[b]) then 1 else 0;
    s' := PushStep(e3.Emit(Compare(a, b)).Emit(SetFlag(c, e3.Condition(op))), c, false, r, m0, s1.(vals := s1.vals[c := v]), held');
  }

  lemma CompareShape(op: Uxn.Op, short: bool)
    requires op.Equ? || op.Neq? || op.Gth? || op.Lth?
    ensures Uxn.Shape(op, short) == [short, short]
  {
  }

  lemma MemoryShape(op: Uxn.Op, short: bool)
    ensures op.Ldz? || op.Ldr? || op.Lda? ==> Uxn.Shape(op, short) == [op.Lda?]
    ensures op.Stz? || op.Str? || op.Sta? ==> Uxn.Shape(op, short) == [op.Sta?, short]
  {
  }

  lemma ArithShape(op: Uxn.Op, short: bool)
    requires IsArith(op)
    ensures Uxn.Shape(op, short) == [short && op != Uxn.Sft, short]
  {
  }

  lemma ArithmeticSound(e: Emitter, op: Uxn.Op, pc: nat, m0: Machine, s: Snap, held: multiset<Reg>, short: bool, r: bool, k: bool,
                        rest: Uxn.Bytes, args: seq<nat>) returns (s': Snap, held': multiset<Reg>)
    requires IsArith(op)
    requires Started(e, m0, s, held, r, k) && Applies(op, short, s, r, k, rest, args, pc)
    requires !e.Arithmetic(op, short, r).Hazard()
    ensures Good(e.Arithmetic(op, short, r), m0, s', held')
    ensures Effected(s, s', r, k, rest, Eff(op, short, args, s.ram, pc))
  {
    hide Emitter.CachePop;
    hide Emitter.Push;
    hide Emitter.Alloc;
    hide Emitter.Calculate;
    hide Uxn.Arith;
    hide Uxn.BytesOf;
    hide Good;
    hide ViewMode;
    var short1 := short && op != Uxn.Sft;
    ArithShape(op, short);
    TwoOperands(op, short, s, r, k, rest, args, pc, short1, short);
    hide Uxn.Shape;
    hide Applies;
    hide Uxn.PopValue;
    EffArith(op, short, args, s.ram, pc);
    hide Eff;
    var s1, held1 := PopStep2(e, m0, s, held, short1, short, r, k);
    var (e1, b) := e.CachePop(short1, r);
    var (e2, a) := e1.CachePop(short, r);
    held' := NewReg(e2, m0, s1, held1);
    var (e3, c) := e2.Alloc();
    CalculateGood(e3, op, c, a, b, short, m0, s1, held');
    ArithBound(op, short, s1.vals[a], s1.vals[b]);
    var v := Uxn.Arith(op, short, s1.vals[a], s1.vals[b]);
    s' := PushStep(e3.Calculate(op, c, a, b, short), c, short, r, m0, s1.(vals := s1.vals[c := v]), held');
  }

  /** The address a load or store uses, from the word its register holds. */
  lemma AddressOf(op: Uxn.Op, pc: nat, x: nat)
    requires x < 0x1_0000
    ensures (if op.Ldr? || op.Str? then (pc + Words.SignExtend8(x)) % Words.WORD else x) % 0x1_0000 == AddressFor(op, pc, x)
  {
  }

  /** The address register, made absolute if it is relative. */
  lemma AddressGood(e: Emitter, op: Uxn.Op, addr: Reg, pc: nat, m0: Machine, s: Snap, held: multiset<Reg>) returns (s': Snap)
    requires Good(e, m0, s, held) && addr in s.vals && s.vals[addr] < 0x1_0000
    requires (op.Ldr? || op.Str?) ==> !e.Relative(addr, pc).Hazard()
    ensures Good(if op.Ldr? || op.Str? then e.Relative(addr, pc) else e, m0, s', held)
    ensures addr in s'.vals && s' == s.(vals := s.vals[addr := s'.vals[addr]])
    ensures s'.vals[addr] % 0x1_0000 == AddressFor(op, pc, s.vals[addr])
    ensures !(op.Ldr? || op.Str?) ==> s' == s
  {
    hide Good;
    hide Emitter.Relative;
    AddressOf(op, pc, s.vals[addr]);
    s' := s;
    if op.Ldr? || op.Str? {
      RelativeGood(e, addr, pc, m0, s, held);
      s' := s.(vals := s.vals[addr := (pc + Words.SignExtend8(s.vals[addr])) % Words.WORD]);
    }
    hide Words.SignExtend8;
    hide AddressFor;
    assert s.vals == s.vals[addr := s.vals[addr]];
  }

  lemma LoadSound(e: Emitter, op: Uxn.Op, pc: nat, m0: Machine, s: Snap, held: multiset<Reg>, short: bool, r: bool, k: bool,
                  rest: Uxn.Bytes, args: seq<nat>) returns (s': Snap, held': multiset<Reg>)
    requires op.Ldz? || op.Ldr? || op.Lda?
    requires Started(e, m0, s, held, r, k) && Applies(op, short, s, r, k, rest, args, pc)
    requires !e.LoadOp(op, pc, short, r).Hazard()
    ensures Good(e.LoadOp(op, pc, short, r), m0, s', held')
    ensures Effected(s, s', r, k, rest, Eff(op, short, args, s.ram, pc))
  {
    hide Emitter.CachePop;
    hide Emitter.Push;
    hide Emitter.Alloc;
    hide Emitter.LoadTo;
    hide Emitter.Relative;
    hide Good;
    hide Uxn.Shape;
    hide ViewMode;
    hide Uxn.Fetch;
    hide AddressFor;
    MemoryShape(op, short);
    OneOperand(op, short, s, r, k, rest, args, pc, op.Lda?);
    hide Applies;
    hide Uxn.PopValue;
    EffLoad(op, short, args, s.ram, pc);
    hide Eff;
    var s1, held1 := PopStep1(e, m0, s, held, op.Lda?, r, k);
    var (e1, addr) := e.CachePop(op.Lda?, r);
    var s2 := AddressGood(e1, op, addr, pc, m0, s1, held1);
    var e2 := if op.Ldr? then e1.Relative(addr, pc) else e1;
    held' := NewReg(e2, m0, s2, held1);
    var (e3, v) := e2.Alloc();
    LoadGood(e3, v, addr, !op.Ldz?, short, m0, s2, held');
    var value := Uxn.Fetch(s2.ram, s2.vals[addr] % 0x1_0000, !op.Ldz?, short);
    s' := PushStep(e3.LoadTo(v, addr, !op.Ldz?, short), v, short, r, m0, s2.(vals := s2.vals[v := value]), held');
  }

  /** A register that is changed in place is not the other operand. */
  lemma OwnedApart(e: Emitter, m0: Machine, s: Snap, held: multiset<Reg>, addr: Reg, v: Reg)
    requires Good(e, m0, s, held + multiset{addr} + multiset{v}) && IsOp(addr) && e.Count(addr) == 1
    ensures addr != v
  {
    var all := held + multiset{addr} + multiset{v};
    assert all[addr] >= 1;
    SoleGood(e, m0, s, all, addr);
    hide Good;
  }

  lemma StoreSound(e: Emitter, op: Uxn.Op, pc: nat, m0: Machine, s: Snap, held: multiset<Reg>, short: bool, r: bool, k: bool,
                   rest: Uxn.Bytes, args: seq<nat>) returns (s': Snap, held': multiset<Reg>)
    requires op.Stz? || op.Str? || op.Sta?
    requires Started(e, m0, s, held, r, k) && Applies(op, short, s, r, k, rest, args, pc)
    requires !e.StoreOp(op, pc, short, r).Hazard()
    ensures Good(e.StoreOp(op, pc, short, r), m0, s', held')
    ensures Effected(s, s', r, k, rest, Eff(op, short, args, s.ram, pc))
  {
    hide Emitter.CachePop;
    hide Emitter.StoreFrom;
    hide Good;
    hide Uxn.Shape;
    hide ViewMode;
    hide Uxn.Write;
    hide AddressFor;
    MemoryShape(op, short);
    TwoOperands(op, short, s, r, k, rest, args, pc, op.Sta?, short);
    hide Applies;
    hide Uxn.PopValue;
    EffStore(op, short, args, s.ram, pc);
    hide Eff;
    var s1, held1 := PopStep2(e, m0, s, held, op.Sta?, short, r, k);
    held' := held1;
    var (e1, addr) := e.CachePop(op.Sta?, r);
    var (e2, v) := e1.CachePop(short, r);
    assert op.Str? ==> e2.Count(addr) == 1;
    if op.Str? { OwnedApart(e2, m0, s1, held, addr, v); }
    hide Emitter.Relative;
    var s2 := AddressGood(e2, op, addr, pc, m0, s1, held');
    var e3 := if op.Str? then e2.Relative(addr, pc) else e2;
    assert s2.vals[v] == args[1];
    StoreGood(e3, v, addr, !op.Stz?, short, m0, s2, held');
    s' := s2.(ram := Uxn.Write(s2.ram, s2.vals[addr] % 0x1_0000, !op.Stz?, s2.vals[v], short));
  }

  // ---- all of them ----

  lemma LitPart(e: Emitter, pc: nat, m0: Machine, s: Snap, held: multiset<Reg>, short: bool, r: bool,
                rest: Uxn.Bytes, args: seq<nat>) returns (s': Snap, held': multiset<Reg>)
    requires Started(e, m0, s, held, r, false) && Applies(Uxn.Lit, short, s, r, false, rest, args, pc) && pc < 0x1_0000
    ensures var (e1, lit) := e.Immediate(pc, short); Good(e1.Push(lit, short, r), m0, s', held')
    ensures Effected(s, s', r, false, rest, Eff(Uxn.Lit, short, args, s.ram, pc))
  {
    hide Good;
    hide ViewMode;
    hide Emitter.Immediate;
    hide Emitter.Push;
    hide Uxn.Fetch;
    s', held' := LitSound(e, pc, m0, s, held, short, r);
  }

  lemma LiteralsKeepNothing(code: nat)
    requires code < 256
    ensures Uxn.OpOf(code).Lit? ==> !Uxn.FlagK(code)
  {
    var q := code / 32;
    assert code % 32 == 0 ==> code == 32 * q && q < 8;
  }

  lemma ShrinkingOpSound(e: Emitter, pc: nat, m0: Machine, s: Snap, held: multiset<Reg>, rest: Uxn.Bytes, args: seq<nat>)
    returns (s': Snap, held': multiset<Reg>)
    requires var op, r, k, short := Uxn.OpOf(e.opcode), Uxn.FlagR(e.opcode), Uxn.FlagK(e.opcode), Uxn.Flag2(e.opcode);
      && Started(e, m0, s, held, r, k) && Applies(op, short, s, r, k, rest, args, pc) && (op.Lit? || op.Inc? || op.Pop? || op.Nip?)
    requires e.opcode < 256 && pc < 0x1_0000 && !e.Plain(pc).Hazard()
    ensures var op, r, k, short := Uxn.OpOf(e.opcode), Uxn.FlagR(e.opcode), Uxn.FlagK(e.opcode), Uxn.Flag2(e.opcode);
      Good(e.Plain(pc), m0, s', held') && Effected(s, s', r, k, rest, Eff(op, short, args, s.ram, pc))
  {
    var op, r, k, short := Uxn.OpOf(e.opcode), Uxn.FlagR(e.opcode), Uxn.FlagK(e.opcode), Uxn.Flag2(e.opcode);
    LiteralsKeepNothing(e.opcode);
    hide Good;
    hide Started;
    hide Applies;
    hide Effected;
    hide Eff;
    hide Uxn.FlagR;
    hide Uxn.FlagK;
    hide Uxn.Flag2;
    hide Uxn.OpOf;
    hide Emitter.Immediate;
    hide Emitter.Push;
    hide Emitter.CachePop;
    hide Emitter.Discard;
    match op
    case Lit => s', held' := LitPart(e, pc, m0, s, held, short, r, rest, args);
    case Inc => s', held' := IncSound(e, pc, m0, s, held, short, r, k, rest, args);
    case Pop => s' := DiscardSound(e, pc, m0, s, held, short, r, k, rest, args); held' := held;
    case Nip => s', held' := NipSound(e, pc, m0, s, held, short, r, k, rest, args);
  }

  lemma ShufflingOpSound(e: Emitter, pc: nat, m0: Machine, s: Snap, held: multiset<Reg>, rest: Uxn.Bytes, args: seq<nat>)
    returns (s': Snap, held': multiset<Reg>)
    requires var op, r, k, short := Uxn.OpOf(e.opcode), Uxn.FlagR(e.opcode), Uxn.FlagK(e.opcode), Uxn.Flag2(e.opcode);
      && Started(e, m0, s, held, r, k) && Applies(op, short, s, r, k, rest, args, pc) && (op.Dup? || op.Sth? || op.Swp? || op.Rot? || op.Ovr?)
    requires e.opcode < 256 && pc < 0x1_0000 && !e.Plain(pc).Hazard()
    ensures var op, r, k, short := Uxn.OpOf(e.opcode), Uxn.FlagR(e.opcode), Uxn.FlagK(e.opcode), Uxn.Flag2(e.opcode);
      Good(e.Plain(pc), m0, s', held') && Effected(s, s', r, k, rest, Eff(op, short, args, s.ram, pc))
  {
    var op, r, k, short := Uxn.OpOf(e.opcode), Uxn.FlagR(e.opcode), Uxn.FlagK(e.opcode), Uxn.Flag2(e.opcode);
    hide Good;
    hide Started;
    hide Applies;
    hide Effected;
    hide Eff;
    hide Uxn.FlagR;
    hide Uxn.FlagK;
    hide Uxn.Flag2;
    hide Uxn.OpOf;
    hide Emitter.Immediate;
    hide Emitter.Push;
    hide Emitter.CachePop;
    hide Emitter.Discard;
    match op
    case Dup => s', held' := DupSound(e, pc, m0, s, held, short, r, k, rest, args);
    case Sth => s', held' := SthSound(e, pc, m0, s, held, short, r, k, rest, args);
    case Swp => s', held' := SwpSound(e, pc, m0, s, held, short, r, k, rest, args);
    case Rot => s', held' := RotSound(e, pc, m0, s, held, short, r, k, rest, args);
    case Ovr => s', held' := OvrSound(e, pc, m0, s, held, short, r, k, rest, args);
  }

  lemma PlainSound(e: Emitter, pc: nat, m0: Machine, s: Snap, held: multiset<Reg>, rest: Uxn.Bytes, args: seq<nat>)
    returns (s': Snap, held': multiset<Reg>)
    requires var op, r, k, short := Uxn.OpOf(e.opcode), Uxn.FlagR(e.opcode), Uxn.FlagK(e.opcode), Uxn.Flag2(e.opcode);
      && Started(e, m0, s, held, r, k) && Applies(op, short, s, r, k, rest, args, pc) && IsPlain(op)
    requires e.opcode < 256 && pc < 0x1_0000 && !e.Plain(pc).Hazard()
    ensures var op, r, k, short := Uxn.OpOf(e.opcode), Uxn.FlagR(e.opcode), Uxn.FlagK(e.opcode), Uxn.Flag2(e.opcode);
      Good(e.Plain(pc), m0, s', held') && Effected(s, s', r, k, rest, Eff(op, short, args, s.ram, pc))
  {
    hide Good;
    hide Started;
    hide Applies;
    hide Effected;
    hide Eff;
    hide Uxn.FlagR;
    hide Uxn.FlagK;
    hide Uxn.Flag2;
    hide Uxn.OpOf;
    hide Emitter.Comparison;
    hide Emitter.Arithmetic;
    hide Emitter.LoadOp;
    hide Emitter.StoreOp;
    var op, r, k, short := Uxn.OpOf(e.opcode), Uxn.FlagR(e.opcode), Uxn.FlagK(e.opcode), Uxn.Flag2(e.opcode);
    match op
    case Ldz | Ldr | Lda => s', held' := LoadSound(e, op, pc, m0, s, held, short, r, k, rest, args);
    case Stz | Str | Sta => s', held' := StoreSound(e, op, pc, m0, s, held, short, r, k, rest, args);
    case Equ | Neq | Gth | Lth => s', held' := ComparisonSound(e, op, pc, m0, s, held, short, r, k, rest, args);
    case Add | Sub | Mul | Div | And | Ora | Eor | Sft =>
      s', held' := ArithmeticSound(e, op, pc, m0, s, held, short, r, k, rest, args);
    case Lit | Inc | Pop | Nip => s', held' := ShrinkingOpSound(e, pc, m0, s, held, rest, args);
    case Dup | Sth | Swp | Rot | Ovr => s', held' := ShufflingOpSound(e, pc, m0, s, held, rest, args);
  }
}
