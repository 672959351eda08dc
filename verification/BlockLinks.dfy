/** The block worklist with the code the compile loop emits: wherever a compiled block jumps or
    calls natively, the target has been compiled and the jump has been linked to it. */
module BlockLinks {
  import opened Hashing
  import opened Target
  import opened LinkedLists
  import opened Worklist
  import CompileLoop
  import Uxn

  /** The linked jumps and calls in a piece of code, in the order they are emitted.  The queue
      takes sixteen bits of an address. */
  function ExitsOf(code: seq<Instr>): seq<Worklist.Exit>
    decreases code
  {
    if code == [] then [] else ExitsOf(code[..|code| - 1]) + ExitsIn(code[|code| - 1])
  }

  function ExitsIn(i: Instr): seq<Worklist.Exit>
    decreases i
  {
    match i
    case IfZero(_, zero, nonzero) => ExitsOf(zero) + ExitsOf(nonzero)
    case UnlessLowByteZero(_, body) => ExitsOf(body)
    case IfEqual(_, _, body) => ExitsOf(body)
    case JumpBody(target) => [Exit(target % 0x1_0000, true)]
    case JumpBodyIfEqual(_, target) => [Exit(target % 0x1_0000, true)]
    case CallHead(target, _) => [Exit(target % 0x1_0000, false)]
    case _ => []
  }

  /** The code of the block at "pc" in a memory of content "rom". */
  function CodeAt(rom: Uxn.Bytes, pc: Addr): seq<Instr> {
    CompileLoop.Compile(CompileLoop.Start(pc), rom).e.code
  }

  /** Where the assembler puts a block: entry for the trampoline, head and body. */
  datatype Place = Place(fn: nat, head: nat, body: nat) {
    predicate Valid() {
      fn != 0 && head != 0 && body != 0
    }
  }

  function CodeOf(rom: Uxn.Bytes, places: Addr -> Place): Addr -> Code {
    (pc: Addr) => Code(ExitsOf(CodeAt(rom, pc)), places(pc).fn, places(pc).head, places(pc).body)
  }

  ghost predicate AllPlaced(places: Addr -> Place) {
    forall pc: Addr :: places(pc).Valid()
  }

  // ---- running code leaves only by the jumps it contains ----

  /** Leaving natively, to a head or a body. */
  ghost predicate LeavesBy(exit: Target.Exit, exits: seq<Worklist.Exit>) {
    match exit
    case Jumped(target) => Exit(target % 0x1_0000, true) in exits
    case Called(target, _) => Exit(target % 0x1_0000, false) in exits
    case _ => true
  }

  lemma {:induction false} RunLeaves(code: seq<Instr>, m: Machine)
    requires m.exit == Running
    ensures LeavesBy(Exec(code, m).exit, ExitsOf(code))
    decreases code
  {
    hide Step;
    if code != [] {
      var n := |code| - 1;
      RunLeaves(code[..n], m);
      var m1 := Exec(code[..n], m);
      if m1.exit == Running {
        StepLeaves(code[n], m1);
      } else {
        GoneStays(code[n], m1);
      }
    }
  }

  lemma GoneStays(i: Instr, m: Machine)
    requires m.exit != Running
    ensures Step(i, m) == m
  {
    hide Exec;
  }

  lemma {:induction false} StepLeaves(i: Instr, m: Machine)
    requires m.exit == Running
    ensures LeavesBy(Step(i, m).exit, ExitsIn(i))
    decreases i
  {
    hide Exec;
    hide ExitsOf;
    hide Calc;
    hide Moved;
    match i
    case IfZero(x, zero, nonzero) =>
      RunLeaves(zero, m);
      RunLeaves(nonzero, m);
    case UnlessLowByteZero(x, body) => RunLeaves(body, m);
    case IfEqual(x, value, body) => RunLeaves(body, m);
    case _ =>
  }

  // ---- the blocks of a call ----

  lemma GeneratesAll(rom: Uxn.Bytes, places: Addr -> Place)
    requires AllPlaced(places)
    ensures Generates(CodeOf(rom, places))
  {
    hide ExitsOf;
    hide CodeAt;
    forall pc: Addr
      ensures CodeOf(rom, places)(pc).fn != 0 && CodeOf(rom, places)(pc).head != 0 && CodeOf(rom, places)(pc).body != 0
    {
      assert places(pc).Valid();
    }
  }

  /** The blocks compiled since "w" have the code they would get. */
  ghost predicate NewlyCoded(w: Work, w': Work, code: Addr -> Code) {
    && (forall c :: c in w.codes ==> c in w'.codes)
    && (forall c :: c in w'.codes ==> w'.codes[c] == if c in w.codes then w.codes[c] else code(c))
  }

  lemma {:induction false} EmitAllCodes(w: Work, pc: Addr, exits: seq<Worklist.Exit>, n: nat)
    requires n <= |exits|
    ensures w.EmitAll(pc, exits, n).codes == w.codes
    decreases n
  {
    if n > 0 {
      EmitAllCodes(w, pc, exits, n - 1);
    }
  }

  lemma FirstCoded(w: Work, code: Addr -> Code)
    requires w.Inv([]) && w.toCompile != []
    ensures NewlyCoded(w, w.CompileFirst(code), code)
  {
    var pc := w.toCompile[0];
    TakeInv(w, []);
    EmitAllCodes(w.Take(), pc, code(pc).exits, |code(pc).exits|);
    hide Work.Inv;
    hide Work.EmitAll;
  }

  lemma {:induction false} AllCoded(w: Work, code: Addr -> Code)
    requires w.Inv([]) && Generates(code)
    ensures NewlyCoded(w, CompileAll(w, code), code)
    decreases NUM_ADDRS - |w.known|, |w.toCompile|
  {
    hide Work.Inv;
    if w.toCompile != [] {
      CompileFirstInv(w, code);
      CompileFirstProgress(w, code);
      FirstCoded(w, code);
      AllCoded(w.CompileFirst(code), code);
    }
  }

  lemma CallCoded(w: Work, pc: Addr, code: Addr -> Code)
    requires w.Inv([]) && w.Idle() && Generates(code)
    ensures NewlyCoded(w, Compiled(w, pc, code), code)
  {
    hide Work.Inv;
    hide CompileAll;
    hide NewlyCoded;
    QueueInv(w, [], pc);
    var w1 := w.Queue(pc);
    if pc in w1.codes {
      assert NewlyCoded(w, w1, code) by { assert w1.codes == w.codes; SameCodes(w, w1, code); }
    } else {
      AllCoded(w1, code);
      var w2 := CompileAll(w1, code);
      LinkAllInv(w2);
      FreeAllInv(w2.LinkAll());
      Recoded(w, w1, w2, w2.LinkAll().FreeAll(), code);
    }
  }

  lemma SameCodes(w: Work, w': Work, code: Addr -> Code)
    requires w'.codes == w.codes
    ensures NewlyCoded(w, w', code)
  {
  }

  lemma Recoded(w: Work, w1: Work, w2: Work, w': Work, code: Addr -> Code)
    requires w1.codes == w.codes && NewlyCoded(w1, w2, code) && w'.codes == w2.codes
    ensures NewlyCoded(w, w', code)
  {
  }

  /** A jump of a compiled block is linked to the head or the body of a compiled block. */
  ghost predicate LinkedTo(w: Work, from: Addr, target: Addr, toBody: bool) {
    && target in w.codes
    && exists k :: Jump(from, k) in w.linked
         && w.linked[Jump(from, k)] == if toBody then w.codes[target].body else w.codes[target].head
  }

  lemma ExitLinked(w: Work, from: Addr, exit: Worklist.Exit)
    requires FullyLinked(w) && from in w.codes && exit in w.codes[from].exits
    ensures LinkedTo(w, from, exit.target, exit.toBody)
  {
    var k :| 0 <= k < |w.codes[from].exits| && w.codes[from].exits[k] == exit;
    assert Jump(from, k) in w.linked;
  }

  /** Wherever native code goes when it leaves a block. */
  ghost predicate LeadsToCode(w: Work, from: Addr, exit: Target.Exit) {
    match exit
    case Jumped(target) => LinkedTo(w, from, target % 0x1_0000, true)
    case Called(target, _) => LinkedTo(w, from, target % 0x1_0000, false)
    case _ => true
  }

  /** A call of the compiler leaves nothing open: whatever block it has compiled, and whatever
      the machine that runs its code, the code leaves to the trampoline or to a linked block that
      has been compiled as well. */
  lemma NativeJumpsLand(w: Work, pc: Addr, rom: Uxn.Bytes, places: Addr -> Place, from: Addr, m: Machine)
    requires w.Inv([]) && w.Idle() && AllPlaced(places) && m.exit == Running
    ensures Generates(CodeOf(rom, places))
    ensures var w' := Compiled(w, pc, CodeOf(rom, places));
      && pc in w'.codes
      && (from in w'.codes && from !in w.codes ==> LeadsToCode(w', from, Exec(CodeAt(rom, from), m).exit))
  {
    hide Work.Inv;
    hide Exec;
    hide ExitsOf;
    hide CodeAt;
    hide Compiled;
    hide LinkedTo;
    hide FullyLinked;
    GeneratesAll(rom, places);
    var code := CodeOf(rom, places);
    hide AllPlaced;
    CompiledCloses(w, pc, code);
    CallCoded(w, pc, code);
    var w' := Compiled(w, pc, code);
    if from in w'.codes && from !in w.codes {
      assert w'.codes[from].exits == ExitsOf(CodeAt(rom, from));
      RunLeaves(CodeAt(rom, from), m);
      match Exec(CodeAt(rom, from), m).exit
      case Jumped(target) => ExitLinked(w', from, Exit(target % 0x1_0000, true));
      case Called(target, _) => ExitLinked(w', from, Exit(target % 0x1_0000, false));
      case _ =>
    }
  }
}
