/** The block worklist on values: which addresses are known, waiting to be compiled or
    compiled, which jumps wait to be linked, and which compilers wait to be freed.
    Class Jit of module BlockQueue carries these steps out on linked queues. */
module Worklist {
  import opened Hashing
  import opened LinkedLists

  /** A jump out of a block whose target was constant at compile time: to the head of the
      target block for a call, to its body otherwise. */
  datatype Exit = Exit(target: Addr, toBody: bool)

  /** What generating the code of a block yields: its jumps and its addresses. */
  datatype Code = Code(exits: seq<Exit>, fn: nat, head: nat, body: nat)

  /** The jump number "index" of the block at "from". */
  datatype Jump = Jump(from: Addr, index: nat)

  datatype Link = Link(jump: Jump, exit: Exit)

  const NUM_ADDRS: nat := 0x1_0000

  datatype Work = Work(
    known: seq<Addr>, toCompile: seq<Addr>, compiled: seq<Addr>, codes: map<Addr, Code>,
    toLink: seq<Link>, linked: map<Jump, nat>,
    toFree: seq<nat>, freed: seq<nat>, compilers: nat)
  {
    /** Makes the block of "pc" known and queues its compilation, if it is new. */
    function Queue(pc: Addr): Work {
      if pc in known then this
      else this.(known := known + [pc], toCompile := [pc] + toCompile,
                 toFree := [compilers] + toFree, compilers := compilers + 1)
    }

    /** Emits jump "k" of the block at "pc". */
    function Emit(pc: Addr, k: nat, exit: Exit): Work {
      var w := Queue(exit.target);
      w.(toLink := [Link(Jump(pc, k), exit)] + w.toLink)
    }

    /** Emits the jumps of a block up to number "n". */
    function EmitAll(pc: Addr, exits: seq<Exit>, n: nat): Work
      requires n <= |exits|
    {
      if n == 0 then this else EmitAll(pc, exits, n - 1).Emit(pc, n - 1, exits[n - 1])
    }

    function Take(): Work
      requires toCompile != []
    {
      this.(toCompile := toCompile[1..])
    }

    function Finish(pc: Addr, code: Code): Work {
      this.(compiled := compiled + [pc], codes := codes[pc := code])
    }

    function CompileFirst(code: Addr -> Code): Work
      requires toCompile != []
    {
      var pc := toCompile[0];
      Take().EmitAll(pc, code(pc).exits, |code(pc).exits|).Finish(pc, code(pc))
    }

    /** The address a jump is linked to. */
    function Destination(exit: Exit): nat {
      if exit.target !in codes then 0
      else if exit.toBody then codes[exit.target].body else codes[exit.target].head
    }

    /** Links the first jump of the queue, unless its target has no address. */
    function LinkFirst(): Work
      requires toLink != []
    {
      var to := Destination(toLink[0].exit);
      this.(toLink := toLink[1..], linked := if to != 0 then linked[toLink[0].jump := to] else linked)
    }

    function LinkAll(): Work
      decreases |toLink|
    {
      if toLink == [] then this else LinkFirst().LinkAll()
    }

    function FreeFirst(): Work
      requires toFree != []
    {
      this.(toFree := toFree[1..], freed := freed + [toFree[0]])
    }

    function FreeAll(): Work
      decreases |toFree|
    {
      if toFree == [] then this else FreeFirst().FreeAll()
    }

    // ---- invariants ----

    /** Every known address waits or is compiled, and none twice. */
    ghost predicate Partitioned(busy: seq<Addr>) {
      NoDup(known) && multiset(known) == multiset(toCompile) + multiset(busy) + multiset(compiled)
    }

    ghost predicate Recorded() {
      codes.Keys == (set c | c in compiled)
    }

    /** Every compiler that was ever created waits to be freed or has been freed, once. */
    ghost predicate CompilersConserved() {
      multiset(toFree) + multiset(freed) == multiset(Upto(compilers))
    }

    /** The targets of compiled blocks are known. */
    ghost predicate Closed() {
      forall c, k :: c in codes && 0 <= k < |codes[c].exits| ==> codes[c].exits[k].target in known
    }

    ghost predicate Waits(jump: Jump, exit: Exit) {
      Link(jump, exit) in toLink
    }

    ghost predicate Done(jump: Jump, exit: Exit) {
      jump in linked && exit.target in codes && linked[jump] == Destination(exit)
    }

    /** Every jump of a compiled block waits to be linked or leads to its destination. */
    ghost predicate Linking() {
      forall c, k :: c in codes && 0 <= k < |codes[c].exits| ==>
        Waits(Jump(c, k), codes[c].exits[k]) || Done(Jump(c, k), codes[c].exits[k])
    }

    /** A waiting jump belongs to a compiled block or the one being compiled, and agrees with it. */
    ghost predicate Genuine(busy: seq<Addr>) {
      && (forall l :: l in toLink ==> l.exit.target in known)
      && (forall l :: l in toLink && l.jump.from !in busy ==>
           && l.jump.from in codes && l.jump.index < |codes[l.jump.from].exits|
           && l.exit == codes[l.jump.from].exits[l.jump.index])
    }

    ghost predicate Placed() {
      forall c :: c in codes ==> codes[c].fn != 0 && codes[c].head != 0 && codes[c].body != 0
    }

    ghost predicate Inv(busy: seq<Addr>) {
      Partitioned(busy) && Recorded() && CompilersConserved() && Closed() && Linking() && Genuine(busy) && Placed()
    }

    ghost predicate Idle() {
      toCompile == [] && toLink == [] && toFree == []
    }
  }

  const NOTHING: Work := Work([], [], [], map[], [], map[], [], [], 0)

  // ---- termination: there are only so many addresses ----

  lemma RemoveAt<T>(s: seq<T>, i: nat)
    requires NoDup(s) && i < |s|
    ensures var rest := s[..i] + s[i + 1..]; NoDup(rest) && (forall x :: x in rest ==> x in s && x != s[i])
  {
    var rest := s[..i] + s[i + 1..];
    assert forall j :: 0 <= j < |rest| ==> rest[j] == s[if j < i then j else j + 1];
  }

  lemma SomeBelow(s: seq<Addr>, n: nat)
    requires forall a :: a in s ==> a < n
    ensures s != [] ==> n > 0
  {
    if s != [] {
      assert s[0] in s;
    }
  }

  /** A list of different addresses is not longer than the address space. */
  lemma {:induction false} NoDupBound(s: seq<Addr>, n: nat)
    requires NoDup(s) && forall a :: a in s ==> a < n
    ensures |s| <= n
    decreases n
  {
    SomeBelow(s, n);
    if s == [] {
    } else if n - 1 in s {
      var i :| 0 <= i < |s| && s[i] == n - 1;
      RemoveAt(s, i);
      NoDupBound(s[..i] + s[i + 1..], n - 1);
    } else {
      NoDupBound(s, n - 1);
    }
  }

  lemma KnownBound(w: Work, busy: seq<Addr>)
    requires w.Partitioned(busy)
    ensures |w.known| <= NUM_ADDRS
  {
    NoDupBound(w.known, NUM_ADDRS);
  }

  // ---- one step at a time ----

  lemma QueueInv(w: Work, busy: seq<Addr>, pc: Addr)
    requires w.Inv(busy)
    ensures w.Queue(pc).Inv(busy) && pc in w.Queue(pc).known && w.known <= w.Queue(pc).known
    ensures w.Queue(pc).codes == w.codes && w.Queue(pc).toLink == w.toLink
  {
    var w' := w.Queue(pc);
    if pc !in w.known {
      assert multiset(w'.known) == multiset(w.known) + multiset{pc};
      assert multiset(w'.toCompile) == multiset(w.toCompile) + multiset{pc};
      assert multiset(w'.toFree) == multiset(w.toFree) + multiset{w.compilers};
      assert multiset(Upto(w'.compilers)) == multiset(Upto(w.compilers)) + multiset{w.compilers};
    }
  }

  /** The jumps of the block being compiled, up to number "n", wait to be linked. */
  ghost predicate Emitted(w: Work, pc: Addr, exits: seq<Exit>, n: nat) {
    && n <= |exits|
    && (forall k :: 0 <= k < n ==> w.Waits(Jump(pc, k), exits[k]) && exits[k].target in w.known)
    && (forall l :: l in w.toLink && l.jump.from == pc ==> l.jump.index < n && l.exit == exits[l.jump.index])
  }

  lemma PushLinkInv(w: Work, pc: Addr, link: Link)
    requires w.Inv([pc]) && link.exit.target in w.known && link.jump.from == pc
    ensures w.(toLink := [link] + w.toLink).Inv([pc])
  {
    var w' := w.(toLink := [link] + w.toLink);
    assert w'.Linking() by {
      forall c, k | c in w.codes && 0 <= k < |w.codes[c].exits|
        ensures w'.Waits(Jump(c, k), w.codes[c].exits[k]) || w'.Done(Jump(c, k), w.codes[c].exits[k])
      {
        assert w.Waits(Jump(c, k), w.codes[c].exits[k]) || w.Done(Jump(c, k), w.codes[c].exits[k]);
      }
    }
    assert w'.Genuine([pc]);
    hide Work.Linking;
    hide Work.Genuine;
  }

  lemma EmitInv(w: Work, pc: Addr, exits: seq<Exit>, n: nat)
    requires w.Inv([pc]) && n < |exits| && Emitted(w, pc, exits, n)
    ensures var w' := w.Emit(pc, n, exits[n]);
      w'.Inv([pc]) && Emitted(w', pc, exits, n + 1) && w'.codes == w.codes
  {
    hide Work.Inv;
    QueueInv(w, [pc], exits[n].target);
    PushLinkInv(w.Queue(exits[n].target), pc, Link(Jump(pc, n), exits[n]));
  }

  lemma {:induction false} EmitAllInv(w: Work, pc: Addr, exits: seq<Exit>, n: nat)
    requires w.Inv([pc]) && n <= |exits| && Emitted(w, pc, exits, 0)
    ensures var w' := w.EmitAll(pc, exits, n);
      w'.Inv([pc]) && Emitted(w', pc, exits, n) && w'.codes == w.codes
    decreases n
  {
    hide Work.Inv;
    hide Emitted;
    if n > 0 {
      EmitAllInv(w, pc, exits, n - 1);
      EmitInv(w.EmitAll(pc, exits, n - 1), pc, exits, n - 1);
    }
  }

  lemma TakeInv(w: Work, exits: seq<Exit>)
    requires w.Inv([]) && w.toCompile != []
    ensures w.Take().Inv([w.toCompile[0]]) && Emitted(w.Take(), w.toCompile[0], exits, 0)
    ensures w.toCompile[0] !in w.codes
  {
    var pc := w.toCompile[0];
    assert w.toCompile == [pc] + w.toCompile[1..];
    assert multiset(w.toCompile) == multiset{pc} + multiset(w.toCompile[1..]);
    OnceEach(w, [], pc);
  }

  /** An address that waits is not compiled. */
  lemma OnceEach(w: Work, busy: seq<Addr>, pc: Addr)
    requires w.Partitioned(busy) && pc in w.toCompile + busy
    ensures pc !in w.compiled
  {
    NoDupMultiset(w.known, pc);
    assert pc in multiset(w.toCompile) + multiset(busy);
    assert multiset(w.known)[pc] == (multiset(w.toCompile) + multiset(busy))[pc] + multiset(w.compiled)[pc];
  }

  lemma {:induction false} NoDupMultiset<T>(s: seq<T>, x: T)
    requires NoDup(s)
    ensures multiset(s)[x] <= 1
    decreases |s|
  {
    if s != [] {
      var n := |s| - 1;
      NoDupMultiset(s[..n], x);
      assert s == s[..n] + [s[n]];
      if s[n] == x {
        assert x !in s[..n];
      }
    }
  }

  lemma FinishInv(w: Work, pc: Addr, code: Code)
    requires w.Inv([pc]) && Emitted(w, pc, code.exits, |code.exits|) && pc !in w.codes
    requires code.fn != 0 && code.head != 0 && code.body != 0
    ensures w.Finish(pc, code).Inv([])
  {
    var w' := w.Finish(pc, code);
    assert multiset(w'.compiled) == multiset(w.compiled) + multiset{pc};
    forall c, k | c in w'.codes && 0 <= k < |w'.codes[c].exits|
      ensures w'.Waits(Jump(c, k), w'.codes[c].exits[k]) || w'.Done(Jump(c, k), w'.codes[c].exits[k])
    {
      if c != pc {
        assert w.Waits(Jump(c, k), w.codes[c].exits[k]) || w.Done(Jump(c, k), w.codes[c].exits[k]);
      }
    }
  }

  /** Code generation succeeds. */
  ghost predicate Generates(code: Addr -> Code) {
    forall pc: Addr :: code(pc).fn != 0 && code(pc).head != 0 && code(pc).body != 0
  }

  /** Compiling a block keeps the invariant, and makes blocks known or shortens the queue. */
  lemma CompileFirstInv(w: Work, code: Addr -> Code)
    requires w.Inv([]) && w.toCompile != [] && Generates(code)
    ensures w.CompileFirst(code).Inv([])
  {
    hide Work.Inv;
    hide Emitted;
    var pc := w.toCompile[0];
    var exits := code(pc).exits;
    TakeInv(w, exits);
    EmitAllInv(w.Take(), pc, exits, |exits|);
    FinishInv(w.Take().EmitAll(pc, exits, |exits|), pc, code(pc));
  }

  // ---- whole calls ----

  /** Compiles until nothing waits.  Each round makes new blocks known, of which there are at
      most 65536, or leaves one block fewer waiting. */
  ghost function CompileAll(w: Work, code: Addr -> Code): (w': Work)
    requires w.Inv([]) && Generates(code)
    ensures w'.Inv([]) && w'.toCompile == []
    decreases NUM_ADDRS - |w.known|, |w.toCompile|
  {
    if w.toCompile == [] then w
    else
      CompileFirstInv(w, code);
      CompileFirstProgress(w, code);
      CompileAll(w.CompileFirst(code), code)
  }

  lemma {:induction false} EmitAllKnown(w: Work, pc: Addr, exits: seq<Exit>, n: nat)
    requires n <= |exits|
    ensures var w' := w.EmitAll(pc, exits, n);
      && w.known <= w'.known && (w'.known == w.known ==> w'.toCompile == w.toCompile)
      && w'.compiled == w.compiled && w'.linked == w.linked
    decreases n
  {
    if n > 0 {
      EmitAllKnown(w, pc, exits, n - 1);
    }
  }

  lemma CompileFirstProgress(w: Work, code: Addr -> Code)
    requires w.Inv([]) && w.toCompile != [] && Generates(code)
    ensures var w' := w.CompileFirst(code);
      && w.known <= w'.known && |w'.known| <= NUM_ADDRS
      && (|w'.known| > |w.known| || |w'.toCompile| < |w.toCompile|)
      && w'.compiled == w.compiled + [w.toCompile[0]]
  {
    var pc := w.toCompile[0];
    EmitAllKnown(w.Take(), pc, code(pc).exits, |code(pc).exits|);
    CompileFirstInv(w, code);
    KnownBound(w.CompileFirst(code), []);
  }

  lemma LinkFirstInv(w: Work)
    requires w.Inv([]) && w.toCompile == [] && w.toLink != []
    ensures w.LinkFirst().Inv([])
  {
    var l, w' := w.toLink[0], w.LinkFirst();
    AllCompiled(w);
    assert l in w.toLink;
    forall c, k | c in w.codes && 0 <= k < |w.codes[c].exits|
      ensures w'.Waits(Jump(c, k), w.codes[c].exits[k]) || w'.Done(Jump(c, k), w.codes[c].exits[k])
    {
      var exit := w.codes[c].exits[k];
      assert w.Waits(Jump(c, k), exit) || w.Done(Jump(c, k), exit);
      assert w.Waits(Jump(c, k), exit) ==> Link(Jump(c, k), exit) == l || w'.Waits(Jump(c, k), exit);
    }
    assert forall x :: x in w'.toLink ==> x in w.toLink;
  }

  /** When no block waits to be compiled, every known one is compiled. */
  lemma AllCompiled(w: Work)
    requires w.Partitioned([]) && w.toCompile == []
    ensures forall a :: a in w.known <==> a in w.compiled
  {
    forall a ensures a in w.known <==> a in w.compiled {
      assert a in w.known <==> a in multiset(w.known);
      assert a in w.compiled <==> a in multiset(w.compiled);
    }
  }

  lemma {:induction false} LinkAllInv(w: Work)
    requires w.Inv([]) && w.toCompile == []
    ensures var w' := w.LinkAll();
      w'.Inv([]) && w'.toLink == [] && w'.toCompile == [] && w'.codes == w.codes && w'.compiled == w.compiled
      && w'.known == w.known && w'.toFree == w.toFree
    decreases |w.toLink|
  {
    hide Work.Inv;
    if w.toLink != [] {
      LinkFirstInv(w);
      LinkAllInv(w.LinkFirst());
    }
  }

  lemma {:induction false} FreeAllInv(w: Work)
    requires w.Inv([])
    ensures var w' := w.FreeAll();
      w'.Inv([]) && w'.toFree == [] && w' == w.(toFree := [], freed := w'.freed)
    decreases |w.toFree|
  {
    if w.toFree != [] {
      assert w.toFree == [w.toFree[0]] + w.toFree[1..];
      FreeAllInv(w.FreeFirst());
    }
  }

  /** A call of the compiler for the block at "pc", given the code each block would get. */
  ghost function Compiled(w: Work, pc: Addr, code: Addr -> Code): Work
    requires w.Inv([]) && Generates(code)
  {
    QueueInv(w, [], pc);
    var w1 := w.Queue(pc);
    if pc in w1.codes then w1
    else
      var w2 := CompileAll(w1, code);
      w2.LinkAll().FreeAll()
  }

  /** Every jump of every compiled block leads to the right address of its target, which is
      compiled too. */
  ghost predicate FullyLinked(w: Work) {
    forall c, k :: c in w.codes && 0 <= k < |w.codes[c].exits| ==>
      var exit := w.codes[c].exits[k];
      exit.target in w.codes && Jump(c, k) in w.linked
      && w.linked[Jump(c, k)] == if exit.toBody then w.codes[exit.target].body else w.codes[exit.target].head
  }

  lemma KnownIffCompiled(w: Work)
    requires w.Inv([]) && w.toCompile == []
    ensures forall a :: a in w.known <==> a in w.codes
  {
    AllCompiled(w);
  }

  lemma RunIdle(w: Work, pc: Addr, code: Addr -> Code)
    requires w.Inv([]) && Generates(code) && pc in w.known
    ensures var w' := CompileAll(w, code).LinkAll().FreeAll();
      w'.Inv([]) && w'.Idle() && pc in w'.codes && w.compiled <= w'.compiled
  {
    hide Work.Inv;
    var w2 := CompileAll(w, code);
    CompileAllGrows(w, code);
    hide CompileAll;
    LinkAllInv(w2);
    FreeAllInv(w2.LinkAll());
    KnownIffCompiled(w2);
  }

  /** Between calls nothing waits; a call compiles its block and everything that can be reached
      from it by constant jumps, never a block twice, links all of it and frees every compiler
      exactly once. */
  lemma CompiledCloses(w: Work, pc: Addr, code: Addr -> Code)
    requires w.Inv([]) && w.Idle() && Generates(code)
    ensures var w' := Compiled(w, pc, code);
      && w'.Inv([]) && w'.Idle() && pc in w'.codes && FullyLinked(w')
      && NoDup(w'.compiled) && w.compiled <= w'.compiled
      && multiset(w'.freed) == multiset(Upto(w'.compilers))
  {
    hide Work.Inv;
    hide FullyLinked;
    hide NoDup;
    hide CompileAll;
    QueueInv(w, [], pc);
    KnownIffCompiled(w);
    var w1 := w.Queue(pc);
    assert w1.compiled == w.compiled;
    if pc in w1.codes {
      assert w1 == w;
    } else {
      RunIdle(w1, pc, code);
    }
    IdleLinked(Compiled(w, pc, code));
  }

  lemma IdleLinked(w: Work)
    requires w.Inv([]) && w.Idle()
    ensures FullyLinked(w) && NoDup(w.compiled) && multiset(w.freed) == multiset(Upto(w.compilers))
  {
    forall c, k | c in w.codes && 0 <= k < |w.codes[c].exits|
      ensures w.Done(Jump(c, k), w.codes[c].exits[k])
    {
      assert w.Waits(Jump(c, k), w.codes[c].exits[k]) || w.Done(Jump(c, k), w.codes[c].exits[k]);
    }
    NoDupPermuted(w.known, w.compiled);
  }

  lemma NoDupPermuted<T>(s: seq<T>, t: seq<T>)
    requires NoDup(s) && multiset(s) == multiset(t)
    ensures NoDup(t)
  {
    forall i, j | 0 <= i < j < |t| ensures t[i] != t[j] {
      NoDupMultiset(s, t[i]);
      TwiceIn(t, i, j);
    }
  }

  lemma {:induction false} CompileAllGrows(w: Work, code: Addr -> Code)
    requires w.Inv([]) && Generates(code)
    ensures var w' := CompileAll(w, code); w.known <= w'.known && w.compiled <= w'.compiled
    decreases NUM_ADDRS - |w.known|, |w.toCompile|
  {
    hide Work.Inv;
    if w.toCompile != [] {
      CompileFirstInv(w, code);
      CompileFirstProgress(w, code);
      CompileAllGrows(w.CompileFirst(code), code);
    }
  }
}
