/** Native calls and the trampoline: JSR and JSI become native calls where the target is known,
    every other jump returns its target, and frames that waited for another address pass it on.
    For any program this visits the addresses a flat dispatcher visits. */
module Calls {
  import opened Frames

  const BREAK: nat := 0x1_0000
  const RESET_VECTOR: nat := 0x100

  /** What the compiler knew about a jump: nothing, or its target, which immediate jumps need
      not check again.  "ret" is the return address, 0 for a jump that is not a call. */
  datatype Site = Dynamic | Constant(target: nat, immediate: bool, ret: nat)

  /** How the code of a block ends. */
  datatype Exit = Return(target: nat) | JumpBody(target: nat) | CallHead(target: nat, ret: nat)

  /** The exit taken when the target register holds "v". */
  function Taken(site: Site, v: nat): Exit {
    match site
    case Dynamic => Return(v)
    case Constant(c, immediate, ret) =>
      if !immediate && v != c then Return(v)
      else if ret == 0 then JumpBody(c)
      else CallHead(c, ret)
  }

  /** One stretch of compiled code: the new state, the kind of jump it ends with, and the
      target that jump has at run time. */
  datatype Stretch<S> = Stretch(state: S, site: Site, target: nat)

  /** The code of a program: what the stretch that starts at an address does to a state. */
  type Program<!S> = (nat, S) -> Stretch<S>

  /** Immediate jumps always have the target the compiler saw. */
  ghost predicate Honest<S(!new)>(p: Program<S>) {
    forall pc, s :: p(pc, s).site.Constant? && p(pc, s).site.immediate ==> p(pc, s).target == p(pc, s).site.target
  }

  predicate Compilable(pc: nat) {
    RESET_VECTOR <= pc < BREAK
  }

  // ---- the flat dispatcher ----

  datatype Flat<S> = Flat(pc: nat, state: S)

  function FlatStep<S>(p: Program<S>, f: Flat<S>): Flat<S> {
    if !Compilable(f.pc) then f
    else
      var o := p(f.pc, f.state);
      Flat(o.target, o.state)
  }

  function FlatRun<S>(p: Program<S>, f: Flat<S>, n: nat): Flat<S> {
    if n == 0 then f else FlatStep(p, FlatRun(p, f, n - 1))
  }

  // ---- native frames ----

  // Code is entered at addresses, and frames wait for addresses.
  type Native<S> = Frames.Native<nat, S>

  function Exits<S>(n: Native<S>, exit: Exit, s: S): Native<S> {
    match exit
    case Return(t) => Native(Unwinding(t), n.frames, s)
    case JumpBody(t) => Native(Entering(t), n.frames, s)
    case CallHead(t, ret) => Native(Entering(t), n.frames + [ret], s)
  }

  function NativeStep<S>(p: Program<S>, n: Native<S>): Native<S> {
    match n.mode
    case Entering(pc) =>
      // Code below the reset vector is left to the interpreter.
      if !Compilable(pc) then n.(mode := Unwinding(pc))
      else
        var o := p(pc, n.state);
        Exits(n, Taken(o.site, o.target), o.state)
    case Unwinding(t) =>
      if n.frames == [] then n.(mode := if Compilable(t) then Entering(t) else Halted(t))
      else
        var top := |n.frames| - 1;
        n.(mode := if t == n.frames[top] then Entering(t) else Unwinding(t), frames := n.frames[..top])
    case Halted(_) => n
  }

  function NativeRun<S>(p: Program<S>, n: Native<S>, k: nat): Native<S> {
    if k == 0 then n else NativeStep(p, NativeRun(p, n, k - 1))
  }

  /** The pending address, whatever is being done to reach it, and the state. */
  function Pending<S>(n: Native<S>): Flat<S> {
    Flat(match n.mode { case Entering(pc) => pc case Unwinding(t) => t case Halted(t) => t }, n.state)
  }

  /** True when the next step executes a stretch of compiled code. */
  predicate Works<S>(n: Native<S>) {
    n.mode.Entering? && Compilable(n.mode.at)
  }

  /** How many stretches the first "k" steps execute. */
  function Stretches<S>(p: Program<S>, n: Native<S>, k: nat): nat {
    if k == 0 then 0 else Stretches(p, n, k - 1) + if Works(NativeRun(p, n, k - 1)) then 1 else 0
  }

  /** The addresses of the stretches the first "k" steps execute. */
  function Visited<S>(p: Program<S>, n: Native<S>, k: nat): seq<nat> {
    if k == 0 then []
    else
      var m := NativeRun(p, n, k - 1);
      Visited(p, n, k - 1) + if Works(m) then [m.mode.at] else []
  }

  function FlatVisited<S>(p: Program<S>, f: Flat<S>, n: nat): seq<nat> {
    if n == 0 then [] else FlatVisited(p, f, n - 1) + [FlatRun(p, f, n - 1).pc]
  }

  // ---- refinement ----

  /** Every native step is a step of the flat dispatcher, if it executes code, and changes
      neither the pending address nor the state otherwise. */
  lemma StepRefines<S(!new)>(p: Program<S>, n: Native<S>)
    requires Honest(p)
    ensures Pending(NativeStep(p, n)) == if Works(n) then FlatStep(p, Pending(n)) else Pending(n)
  {
    if n.mode.Entering? && Compilable(n.mode.at) {
      var o := p(n.mode.at, n.state);
      assert o.site.Constant? && o.site.immediate ==> o.target == o.site.target;
    }
  }

  /** For any number of steps, the native machine is where the flat dispatcher is after as many
      stretches, and has visited the same addresses. */
  lemma {:induction false} NativeRefinesFlat<S(!new)>(p: Program<S>, n: Native<S>, k: nat)
    requires Honest(p)
    ensures Pending(NativeRun(p, n, k)) == FlatRun(p, Pending(n), Stretches(p, n, k))
    ensures Visited(p, n, k) == FlatVisited(p, Pending(n), Stretches(p, n, k))
  {
    if k > 0 {
      NativeRefinesFlat(p, n, k - 1);
      StepRefines(p, NativeRun(p, n, k - 1));
    }
  }

  /** The position of the innermost frame that waits for "t", or the number of frames if none does. */
  function Waiting(frames: seq<nat>, t: nat): (i: nat)
    ensures i <= |frames|
    ensures i < |frames| ==> frames[i] == t && t !in frames[i + 1..]
    ensures i == |frames| ==> t !in frames
  {
    if frames == [] then 0
    else
      var top := |frames| - 1;
      if frames[top] == t then top
      else
        var i := Waiting(frames[..top], t);
        assert frames == frames[..top] + [frames[top]];
        if i == top then |frames|
        else
          assert frames[i + 1..] == frames[..top][i + 1..] + [frames[top]];
          i
  }

  /** A pending target stays pending, past every frame that waits for another address, until
      the innermost frame that waits for exactly this address resumes, or no frame is left. */
  lemma {:induction false} Unwinds<S>(p: Program<S>, n: Native<S>)
    requires n.mode.Unwinding?
    ensures var t := n.mode.target; var i := Waiting(n.frames, t);
      if i < |n.frames|
      then NativeRun(p, n, |n.frames| - i) == Native(Entering(t), n.frames[..i], n.state)
      else NativeRun(p, n, |n.frames|) == Native(Unwinding(t), [], n.state)
    decreases |n.frames|
  {
    if n.frames != [] {
      var top, t := |n.frames| - 1, n.mode.target;
      var n' := NativeStep(p, n);
      RunFirst(p, n, 0);
      if n.frames[top] != t {
        Unwinds(p, n');
        var i := Waiting(n'.frames, t);
        RunFirst(p, n, if i < top then top - i else top);
        assert i < top ==> n'.frames[..i] == n.frames[..i];
      }
    }
  }

  lemma {:induction false} RunFirst<S>(p: Program<S>, n: Native<S>, k: nat)
    ensures NativeRun(p, NativeStep(p, n), k) == NativeRun(p, n, k + 1)
  {
    if k == 0 {
      assert NativeRun(p, n, 1) == NativeStep(p, NativeRun(p, n, 0));
    } else {
      RunFirst(p, n, k - 1);
    }
  }

  /** A native call leaves one frame behind, which the return to its address resumes and removes; a
      linked jump leaves the frames alone. */
  lemma CallReturns<S>(p: Program<S>, n: Native<S>, s: S)
    requires Works(n)
    ensures var o := p(n.mode.at, n.state); var n' := NativeStep(p, n);
      match Taken(o.site, o.target)
      case Return(t) => n' == Native(Unwinding(t), n.frames, o.state)
      case JumpBody(t) => n' == Native(Entering(t), n.frames, o.state)
      case CallHead(t, ret) =>
        && n'.mode == Entering(t) && n'.state == o.state
        && NativeStep(p, n'.(mode := Unwinding(ret), state := s)) == Native(Entering(ret), n.frames, s)
  {
    var n' := NativeStep(p, n);
    assert n'.frames != n.frames ==> n'.frames[..|n.frames|] == n.frames;
  }

  /** BRK gets through every frame and leaves the trampoline, because no frame can wait for it. */
  lemma BreakUnwindsAll<S>(p: Program<S>, n: Native<S>)
    requires n.mode == Unwinding(BREAK) && forall i :: 0 <= i < |n.frames| ==> n.frames[i] < BREAK
    ensures NativeRun(p, n, |n.frames| + 1) == Native(Halted(BREAK), [], n.state)
  {
    Unwinds(p, n);
  }

  // ---- progress ----

  /** Work that is left before the next stretch is executed or the trampoline returns. */
  function Debt<S>(n: Native<S>): nat {
    2 * |n.frames| +
    match n.mode
    case Entering(pc) => if Compilable(pc) then 0 else 2
    case Unwinding(_) => 1
    case Halted(_) => 0
  }

  lemma StepDebt<S>(p: Program<S>, n: Native<S>)
    requires !n.mode.Halted?
    ensures Debt(NativeStep(p, n)) + 1 <= Debt(n) + if Works(n) then 5 else 0
  {
  }

  lemma {:induction false} DebtPaid<S>(p: Program<S>, n: Native<S>, k: nat)
    requires !NativeRun(p, n, k).mode.Halted?
    ensures Debt(NativeRun(p, n, k)) + k <= Debt(n) + 5 * Stretches(p, n, k)
  {
    if k > 0 {
      DebtPaid(p, n, k - 1);
      StepDebt(p, NativeRun(p, n, k - 1));
    }
  }

  /** The trampoline never stalls: within a bounded number of steps it has executed any number
      of stretches, or it has returned with the address at which the flat dispatcher stops. */
  lemma NativeProgress<S(!new)>(p: Program<S>, pc: nat, s: S, stretches: nat)
    requires Honest(p)
    ensures var n, k := Native(Entering(pc), [], s), 5 * stretches + 3;
      || Stretches(p, n, k) >= stretches
      || (&& NativeRun(p, n, k).mode.Halted? && !Compilable(NativeRun(p, n, k).mode.target)
          && FlatRun(p, Flat(pc, s), Stretches(p, n, k)) == Flat(NativeRun(p, n, k).mode.target, NativeRun(p, n, k).state))
  {
    var n, k := Native(Entering(pc), [], s), 5 * stretches + 3;
    NativeRefinesFlat(p, n, k);
    if NativeRun(p, n, k).mode.Halted? {
      HaltedOutside(p, n, k);
    } else {
      DebtPaid(p, n, k);
    }
  }

  lemma {:induction false} HaltedOutside<S>(p: Program<S>, n: Native<S>, k: nat)
    requires !n.mode.Halted?
    ensures NativeRun(p, n, k).mode.Halted? ==> !Compilable(NativeRun(p, n, k).mode.target)
  {
    if k > 0 {
      HaltedOutside(p, n, k - 1);
    }
  }
}
