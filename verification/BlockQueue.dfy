/** The block worklist as it is carried out: linked queues of entries, recycled through a
    pool, and the hash trie of blocks.  Entries live in an arena that only grows; a pointer to
    an entry is its index. */
module BlockQueue {
  import opened Hashing
  import opened LinkedLists
  import opened BlockTrie
  import opened Worklist

  datatype Payload = Payload(toBody: bool, block: Block?, compiler: nat, jump: Jump, pc: Addr)

  type Entry = Node<Payload>

  datatype Queue = CompileQueue | LinkQueue | CleanupQueue | EntryPool

  /** One value for each of the queues. */
  datatype Each<T> = Each(compile: T, link: T, cleanup: T, pool: T) {
    function Of(q: Queue): T {
      match q
      case CompileQueue => compile
      case LinkQueue => link
      case CleanupQueue => cleanup
      case EntryPool => pool
    }

    function With(q: Queue, x: T): (e: Each<T>)
      ensures e.Of(q) == x && forall p: Queue :: p != q ==> e.Of(p) == Of(p)
    {
      match q
      case CompileQueue => this.(compile := x)
      case LinkQueue => this.(link := x)
      case CleanupQueue => this.(cleanup := x)
      case EntryPool => this.(pool := x)
    }
  }

  type Lists = Each<seq<nat>>

  ghost function AllItems(items: Lists): multiset<nat> {
    multiset(items.compile) + multiset(items.link) + multiset(items.cleanup) + multiset(items.pool)
  }

  /** The four queues are linked lists, and every entry is in exactly one of them, once, or
      among those the running code holds. */
  ghost predicate Conserved(arena: seq<Entry>, heads: Each<int>, items: Lists, held: multiset<nat>) {
    && (forall q: Queue :: Chained(arena, heads.Of(q), items.Of(q)))
    && AllItems(items) + held == multiset(Upto(|arena|))
  }

  lemma OneOfAll(items: Lists, q: Queue, e: nat)
    requires e in items.Of(q)
    ensures e in AllItems(items)
  {
    assert e in multiset(items.Of(q));
  }

  /** A held entry is in no queue, and held once. */
  lemma HeldApart(arena: seq<Entry>, heads: Each<int>, items: Lists, held: multiset<nat>, e: nat)
    requires Conserved(arena, heads, items, held) && e in held
    ensures e < |arena| && held[e] == 1
    ensures forall q: Queue :: e !in items.Of(q)
  {
    UptoOnce(|arena|, e);
    assert (AllItems(items) + held)[e] == AllItems(items)[e] + held[e];
    hide AllItems;
    forall q: Queue ensures e !in items.Of(q) {
      if e in items.Of(q) {
        OneOfAll(items, q, e);
      }
    }
  }

  lemma TakeOne(items: Lists, q: Queue)
    requires items.Of(q) != []
    ensures AllItems(items) == AllItems(items.With(q, items.Of(q)[1..])) + multiset{items.Of(q)[0]}
  {
    var s := items.Of(q);
    assert s == [s[0]] + s[1..];
    assert multiset(s) == multiset{s[0]} + multiset(s[1..]);
  }

  lemma GiveOne(items: Lists, q: Queue, e: nat)
    ensures AllItems(items.With(q, [e] + items.Of(q))) == AllItems(items) + multiset{e}
  {
    TakeOne(items.With(q, [e] + items.Of(q)), q);
    assert ([e] + items.Of(q))[1..] == items.Of(q);
    assert items.With(q, [e] + items.Of(q)).With(q, items.Of(q)) == items;
  }

  /** The entry taken off the front of a queue is held from then on. */
  lemma DequeueConserves(arena: seq<Entry>, heads: Each<int>, items: Lists, held: multiset<nat>, q: Queue)
    requires Conserved(arena, heads, items, held) && items.Of(q) != []
    ensures var e := items.Of(q)[0];
      && heads.Of(q) == e < |arena|
      && Conserved(arena, heads.With(q, arena[e].next), items.With(q, items.Of(q)[1..]), held + multiset{e})
  {
    assert Chained(arena, heads.Of(q), items.Of(q));
    TakeOne(items, q);
    hide AllItems;
    hide Upto;
  }

  lemma ChainedCons(arena: seq<Entry>, head: int, items: seq<nat>, e: nat)
    requires Chained(arena, head, items) && e < |arena| && arena[e].next == head
    ensures Chained(arena, e, [e] + items)
  {
    assert ([e] + items)[1..] == items;
  }

  /** A held entry put at the front of a queue is no longer held. */
  lemma EnqueueConserves(arena: seq<Entry>, heads: Each<int>, items: Lists, held: multiset<nat>, q: Queue, e: nat)
    requires Conserved(arena, heads, items, held + multiset{e})
    ensures e < |arena|
    ensures Conserved(arena[e := arena[e].(next := heads.Of(q))], heads.With(q, e), items.With(q, [e] + items.Of(q)), held)
  {
    HeldApart(arena, heads, items, held + multiset{e}, e);
    GiveOne(items, q, e);
    hide AllItems;
    hide Upto;
    hide Chained;
    var arena' := arena[e := arena[e].(next := heads.Of(q))];
    forall p: Queue ensures Chained(arena', heads.Of(p), items.Of(p)) {
      ChainedFrame(arena, arena', heads.Of(p), items.Of(p));
    }
    ChainedCons(arena', heads.Of(q), items.Of(q), e);
  }

  /** A new entry at the end of the arena is held by the code that allocated it. */
  lemma GrowConserves(arena: seq<Entry>, heads: Each<int>, items: Lists, held: multiset<nat>, x: Entry)
    requires Conserved(arena, heads, items, held)
    ensures Conserved(arena + [x], heads, items, held + multiset{|arena|})
  {
    forall p: Queue {
      ChainedFrame(arena, arena + [x], heads.Of(p), items.Of(p));
    }
    assert Upto(|arena + [x]|) == Upto(|arena|) + [|arena|];
  }

  lemma FillConserves(arena: seq<Entry>, heads: Each<int>, items: Lists, held: multiset<nat>, e: nat, load: Payload)
    requires Conserved(arena, heads, items, held) && e < |arena|
    ensures Conserved(arena[e := arena[e].(load := load)], heads, items, held)
  {
    forall p: Queue {
      ChainedFrame(arena, arena[e := arena[e].(load := load)], heads.Of(p), items.Of(p));
    }
  }

  // ---- what the entries of a queue stand for ----

  ghost predicate IsBlock(blocks: seq<Block>, block: Block?, key: Addr) {
    block != null && block in blocks && block.key == key
  }

  ghost predicate CompileMatches(arena: seq<Entry>, items: seq<nat>, w: Work, blocks: seq<Block>) {
    && |items| == |w.toCompile|
    && forall i :: 0 <= i < |items| ==>
      && items[i] < |arena| && arena[items[i]].load.pc == w.toCompile[i]
      && IsBlock(blocks, arena[items[i]].load.block, w.toCompile[i])
  }

  ghost predicate LinkMatches(arena: seq<Entry>, items: seq<nat>, w: Work, blocks: seq<Block>) {
    && |items| == |w.toLink|
    && forall i :: 0 <= i < |items| ==>
      && items[i] < |arena| && arena[items[i]].load.jump == w.toLink[i].jump
      && arena[items[i]].load.toBody == w.toLink[i].exit.toBody
      && IsBlock(blocks, arena[items[i]].load.block, w.toLink[i].exit.target)
  }

  ghost predicate CleanupMatches(arena: seq<Entry>, items: seq<nat>, w: Work) {
    && |items| == |w.toFree|
    && forall i :: 0 <= i < |items| ==> items[i] < |arena| && arena[items[i]].load.compiler == w.toFree[i]
  }

  ghost predicate Matches(arena: seq<Entry>, items: Lists, w: Work, blocks: seq<Block>) {
    && CompileMatches(arena, items.compile, w, blocks)
    && LinkMatches(arena, items.link, w, blocks)
    && CleanupMatches(arena, items.cleanup, w)
  }

  /** The arena has grown or changed only outside "items". */
  ghost predicate Undisturbed(arena: seq<Entry>, arena': seq<Entry>, items: seq<nat>) {
    |arena| <= |arena'|
    && forall i :: 0 <= i < |items| && items[i] < |arena| ==> arena'[items[i]].load == arena[items[i]].load
  }

  lemma UndisturbedMatches(arena: seq<Entry>, arena': seq<Entry>, items: Lists, w: Work, blocks: seq<Block>)
    requires Matches(arena, items, w, blocks)
    requires forall q: Queue :: q != EntryPool ==> Undisturbed(arena, arena', items.Of(q))
    ensures Matches(arena', items, w, blocks)
  {
    assert Undisturbed(arena, arena', items.Of(CompileQueue));
    assert Undisturbed(arena, arena', items.Of(LinkQueue));
    assert Undisturbed(arena, arena', items.Of(CleanupQueue));
  }

  lemma MoreBlocksMatch(arena: seq<Entry>, items: Lists, w: Work, blocks: seq<Block>, block: Block)
    requires Matches(arena, items, w, blocks)
    ensures Matches(arena, items, w, blocks + [block])
  {
  }

  lemma MatchesCodes(arena: seq<Entry>, items: Lists, w: Work, w': Work, blocks: seq<Block>)
    requires Matches(arena, items, w, blocks)
    requires w'.toCompile == w.toCompile && w'.toLink == w.toLink && w'.toFree == w.toFree
    ensures Matches(arena, items, w', blocks)
  {
  }

  ghost predicate BlocksMatch(keys: seq<Addr>, blocks: seq<Block>) {
    |keys| == |blocks| && forall i :: 0 <= i < |keys| ==> blocks[i].key == keys[i]
  }

  /** An entry has been given to a queue; no other entry has changed what it stands for. */
  ghost predicate Given(arena: seq<Entry>, items: Lists, arena': seq<Entry>, items': Lists, q: Queue, e: nat, load: Payload) {
    && (forall p: Queue :: e !in items.Of(p))
    && |arena'| == |arena| && e < |arena| && arena'[e].load == load
    && (forall i :: 0 <= i < |arena| && i != e ==> arena'[i].load == arena[i].load)
    && items' == items.With(q, [e] + items.Of(q))
  }

  lemma GivenCompile(arena: seq<Entry>, items: Lists, arena': seq<Entry>, items': Lists, e: nat, load: Payload, w: Work, blocks: seq<Block>)
    requires Matches(arena, items, w, blocks) && Given(arena, items, arena', items', CompileQueue, e, load)
    requires IsBlock(blocks, load.block, load.pc)
    ensures Matches(arena', items', w.(toCompile := [load.pc] + w.toCompile), blocks)
  {
    assert forall p: Queue :: e !in items.Of(p) && items.Of(p) == items.Of(p);
    assert e !in items.Of(CompileQueue) && e !in items.Of(LinkQueue) && e !in items.Of(CleanupQueue);
  }

  lemma GivenLink(arena: seq<Entry>, items: Lists, arena': seq<Entry>, items': Lists, e: nat, load: Payload, w: Work, blocks: seq<Block>, exit: Exit)
    requires Matches(arena, items, w, blocks) && Given(arena, items, arena', items', LinkQueue, e, load)
    requires IsBlock(blocks, load.block, exit.target) && load.toBody == exit.toBody
    ensures Matches(arena', items', w.(toLink := [Link(load.jump, exit)] + w.toLink), blocks)
  {
    assert e !in items.Of(CompileQueue) && e !in items.Of(LinkQueue) && e !in items.Of(CleanupQueue);
  }

  lemma GivenCleanup(arena: seq<Entry>, items: Lists, arena': seq<Entry>, items': Lists, e: nat, load: Payload, w: Work, blocks: seq<Block>)
    requires Matches(arena, items, w, blocks) && Given(arena, items, arena', items', CleanupQueue, e, load)
    ensures Matches(arena', items', w.(toFree := [load.compiler] + w.toFree), blocks)
  {
    assert e !in items.Of(CompileQueue) && e !in items.Of(LinkQueue) && e !in items.Of(CleanupQueue);
  }

  lemma GivenPool(arena: seq<Entry>, items: Lists, arena': seq<Entry>, items': Lists, e: nat, load: Payload, w: Work, blocks: seq<Block>)
    requires Matches(arena, items, w, blocks) && Given(arena, items, arena', items', EntryPool, e, load)
    ensures Matches(arena', items', w, blocks)
  {
    assert e !in items.Of(CompileQueue) && e !in items.Of(LinkQueue) && e !in items.Of(CleanupQueue);
  }

  class Jit {
    const blocks: BlockMap
    var arena: seq<Entry>
    var heads: Each<int>
    var numCompilers: nat
    // The queues as lists, and the state of the worklist as a value.
    ghost var items: Lists
    ghost var work: Work

    /** Exactly the compiled blocks have code, at the addresses it was generated at. */
    ghost predicate Generated()
      reads this`work, blocks, blocks.blocks`fn, blocks.blocks`headAddr, blocks.blocks`bodyAddr
    {
      forall b :: b in blocks.blocks ==>
        if b.key in work.codes
        then b.fn == work.codes[b.key].fn && b.headAddr == work.codes[b.key].head && b.bodyAddr == work.codes[b.key].body
        else b.fn == 0 && b.headAddr == 0 && b.bodyAddr == 0
    }

    ghost predicate Valid(held: multiset<nat>)
      reads this, blocks, blocks.blocks
    {
      && blocks.Valid() && Generated() && BlocksMatch(work.known, blocks.blocks)
      && (forall c :: c in work.codes ==> c in work.known)
      && Conserved(arena, heads, items, held)
      && Matches(arena, items, work, blocks.blocks) && numCompilers == work.compilers
    }

    constructor (hash: Addr -> nat)
      ensures Valid(multiset{}) && work == NOTHING && fresh(blocks) && blocks.blocks == []
    {
      blocks := new BlockMap(hash);
      arena := [];
      heads := Each(NULL, NULL, NULL, NULL);
      numCompilers := 0;
      items := Each([], [], [], []);
      work := NOTHING;
    }

    /** Takes the first entry off a queue. */
    method Dequeue(q: Queue, ghost held: multiset<nat>) returns (entry: int)
      requires Conserved(arena, heads, items, held)
      modifies this`heads, this`items
      ensures entry == NULL <==> old(items).Of(q) == []
      ensures entry == NULL ==> items == old(items) && heads == old(heads)
      ensures entry != NULL ==> entry == old(items).Of(q)[0]
      ensures entry != NULL ==> items == old(items).With(q, old(items).Of(q)[1..]) && 0 <= entry < |arena|
      ensures entry != NULL ==> Conserved(arena, heads, items, held + multiset{entry})
    {
      entry := heads.Of(q);
      assert Chained(arena, entry, items.Of(q));
      if entry != NULL {
        DequeueConserves(arena, heads, items, held, q);
        heads := heads.With(q, arena[entry].next);
        items := items.With(q, items.Of(q)[1..]);
      }
    }

    /** Fills a held entry and puts it at the front of a queue. */
    method Enqueue(q: Queue, entry: nat, load: Payload, ghost held: multiset<nat>)
      requires Conserved(arena, heads, items, held + multiset{entry})
      modifies this`heads, this`arena, this`items
      ensures Conserved(arena, heads, items, held)
      ensures Given(old(arena), old(items), arena, items, q, entry, load)
    {
      hide Conserved;
      HeldApart(arena, heads, items, held + multiset{entry}, entry);
      FillConserves(arena, heads, items, held + multiset{entry}, entry, load);
      arena := arena[entry := arena[entry].(load := load)];
      EnqueueConserves(arena, heads, items, held, q, entry);
      arena := arena[entry := arena[entry].(next := heads.Of(q))];
      heads := heads.With(q, entry);
      items := items.With(q, [entry] + items.Of(q));
    }

    /** An entry from the pool, or a new one if the pool is empty. */
    method AllocEntry(ghost held: multiset<nat>) returns (entry: nat)
      requires Valid(held)
      modifies this`arena, this`heads, this`items
      ensures Valid(held + multiset{entry})
      ensures |arena| == |old(arena)| + if old(items).Of(EntryPool) == [] then 1 else 0
      ensures old(items).Of(EntryPool) != [] ==> entry == old(items).Of(EntryPool)[0]
    {
      hide Conserved;
      ghost var arena0, items0 := arena, items;
      var pooled := Dequeue(EntryPool, held);
      if pooled == NULL {
        entry := |arena|;
        var blank := Node(NULL, Payload(false, null, 0, Jump(0, 0), 0));
        GrowConserves(arena, heads, items, held, blank);
        arena := arena + [blank];
      } else {
        entry := pooled;
      }
      UndisturbedMatches(arena0, arena, items, work, blocks.blocks) by { hide BlockMap.Valid; }
      hide Matches;
    }

    /** The block of "pc"; a new block is also queued for compilation, with a compiler of its
        own that is queued to be freed. */
    method QueueBlock(pc: Addr, ghost held: multiset<nat>) returns (block: Block)
      requires Valid(held)
      modifies this, blocks, blocks.blocks`children
      ensures Valid(held) && work == old(work).Queue(pc) && IsBlock(blocks.blocks, block, pc)
      ensures blocks.blocks == old(blocks.blocks) || (fresh(block) && blocks.blocks == old(blocks.blocks) + [block])
    {
      hide Valid;
      var found := AddBlock(pc, held);
      block := found.0;
      if found.1 {
        var compiler := CreateCompiler(held);
        var compileEntry := AllocEntry(held);
        PutCompile(compileEntry, Payload(false, block, compiler, Jump(0, 0), pc), held);
        var cleanupEntry := AllocEntry(held);
        PutCleanup(cleanupEntry, Payload(false, null, compiler, Jump(0, 0), 0), held);
      }
    }

    method CreateCompiler(ghost held: multiset<nat>) returns (compiler: nat)
      requires Valid(held)
      modifies this`numCompilers, this`work
      ensures Valid(held) && compiler == old(work).compilers && work == old(work).(compilers := compiler + 1)
    {
      hide Conserved;
      hide BlockMap.Valid;
      compiler := numCompilers;
      numCompilers := numCompilers + 1;
      work := work.(compilers := compiler + 1);
    }

    method AddBlock(pc: Addr, ghost held: multiset<nat>) returns (found: (Block, bool))
      requires Valid(held)
      modifies this`work, blocks, blocks.blocks`children
      ensures Valid(held) && IsBlock(blocks.blocks, found.0, pc)
      ensures found.1 == (pc !in old(work).known)
      ensures work == if found.1 then old(work).(known := old(work).known + [pc]) else old(work)
      ensures if found.1 then fresh(found.0) && blocks.blocks == old(blocks.blocks) + [found.0] else blocks.blocks == old(blocks.blocks)
    {
      hide Conserved;
      hide BlockMap.Valid;
      ghost var before := blocks.blocks;
      var block, isNew := blocks.FindOrAdd(pc);
      found := (block, isNew);
      if isNew {
        work := work.(known := work.known + [pc]);
        MoreBlocksMatch(arena, items, work, before, block);
      }
    }

    method PutCompile(entry: nat, load: Payload, ghost held: multiset<nat>)
      requires Valid(held + multiset{entry}) && IsBlock(blocks.blocks, load.block, load.pc)
      modifies this`heads, this`arena, this`items, this`work
      ensures Valid(held) && work == old(work).(toCompile := [load.pc] + old(work).toCompile)
    {
      hide Conserved;
      hide BlockMap.Valid;
      hide Given;
      ghost var arena0, items0 := arena, items;
      Enqueue(CompileQueue, entry, load, held);
      GivenCompile(arena0, items0, arena, items, entry, load, work, blocks.blocks);
      hide Matches;
      work := work.(toCompile := [load.pc] + work.toCompile);
    }

    method PutCleanup(entry: nat, load: Payload, ghost held: multiset<nat>)
      requires Valid(held + multiset{entry})
      modifies this`heads, this`arena, this`items, this`work
      ensures Valid(held) && work == old(work).(toFree := [load.compiler] + old(work).toFree)
    {
      hide Conserved;
      hide BlockMap.Valid;
      hide Given;
      ghost var arena0, items0 := arena, items;
      Enqueue(CleanupQueue, entry, load, held);
      GivenCleanup(arena0, items0, arena, items, entry, load, work, blocks.blocks);
      hide Matches;
      work := work.(toFree := [load.compiler] + work.toFree);
    }

    method PutLink(entry: nat, load: Payload, ghost exit: Exit, ghost held: multiset<nat>)
      requires Valid(held + multiset{entry}) && IsBlock(blocks.blocks, load.block, exit.target) && load.toBody == exit.toBody
      modifies this`heads, this`arena, this`items, this`work
      ensures Valid(held) && work == old(work).(toLink := [Link(load.jump, exit)] + old(work).toLink)
    {
      hide Conserved;
      hide BlockMap.Valid;
      hide Given;
      ghost var arena0, items0 := arena, items;
      Enqueue(LinkQueue, entry, load, held);
      GivenLink(arena0, items0, arena, items, entry, load, work, blocks.blocks, exit);
      hide Matches;
      work := work.(toLink := [Link(load.jump, exit)] + work.toLink);
    }

    method PutPool(entry: nat, ghost held: multiset<nat>)
      requires Valid(held + multiset{entry})
      modifies this`heads, this`arena, this`items
      ensures Valid(held)
    {
      hide Conserved;
      hide BlockMap.Valid;
      hide Given;
      ghost var arena0, items0 := arena, items;
      HeldApart(arena, heads, items, held + multiset{entry}, entry);
      var load := arena[entry].load;
      Enqueue(EntryPool, entry, load, held);
      GivenPool(arena0, items0, arena, items, entry, load, work, blocks.blocks);
      hide Matches;
    }

    /** Emits jump "k" of the block at "pc". */
    method EmitJump(pc: Addr, k: nat, exit: Exit, ghost held: multiset<nat>)
      requires Valid(held)
      modifies this, blocks, blocks.blocks`children
      ensures Valid(held) && work == old(work).Emit(pc, k, exit)
      ensures old(blocks.blocks) <= blocks.blocks
      ensures forall b :: b in blocks.blocks ==> b in old(blocks.blocks) || fresh(b)
    {
      var entry := AllocEntry(held);
      var block := QueueBlock(exit.target, held + multiset{entry});
      PutLink(entry, Payload(exit.toBody, block, 0, Jump(pc, k), 0), exit, held);
    }

    /** Takes the next block to compile off its queue. */
    method TakeCompile() returns (entry: nat, block: Block, pc: Addr)
      requires Valid(multiset{}) && work.toCompile != []
      modifies this`heads, this`items, this`work
      ensures Valid(multiset{entry}) && entry < |arena| && work == old(work).Take()
      ensures pc == old(work).toCompile[0] && IsBlock(blocks.blocks, block, pc)
    {
      hide Conserved;
      hide BlockMap.Valid;
      var e := Dequeue(CompileQueue, multiset{});
      entry := e;
      block := arena[entry].load.block;
      pc := arena[entry].load.pc;
      work := work.Take();
      assert multiset{} + multiset{entry} == multiset{entry};
    }

    /** Records the code generated for a block. */
    method FinishBlock(block: Block, pc: Addr, code: Code, ghost held: multiset<nat>)
      requires Valid(held) && IsBlock(blocks.blocks, block, pc)
      modifies this`work, block`fn, block`headAddr, block`bodyAddr
      ensures Valid(held) && work == old(work).Finish(pc, code)
    {
      hide Conserved;
      hide Matches;
      hide BlocksMatch;
      forall b | b in blocks.blocks && b.key == pc ensures b == block {
        SameKey(blocks.hash, blocks.blocks, blocks.Kids(), b, block);
      }
      hide BlockMap.Valid;
      KeyKnown(work.known, blocks.blocks, block);
      block.fn := code.fn;
      block.headAddr := code.head;
      block.bodyAddr := code.body;
      work := work.Finish(pc, code);
      MatchesCodes(arena, items, old(work), work, blocks.blocks);
      assert Generated();
      hide Generated;
    }

    /** Compiles one block: emits its jumps, which may make more blocks known. */
    method Compile(entry: nat, block: Block, pc: Addr, code: Code)
      requires Valid(multiset{entry}) && IsBlock(blocks.blocks, block, pc)
      modifies this, blocks, blocks.blocks
      ensures Valid(multiset{entry})
      ensures work == old(work).EmitAll(pc, code.exits, |code.exits|).Finish(pc, code)
      ensures old(blocks.blocks) <= blocks.blocks
      ensures forall b :: b in blocks.blocks ==> b in old(blocks.blocks) || fresh(b)
    {
      hide Valid;
      for k := 0 to |code.exits|
        invariant Valid(multiset{entry}) && IsBlock(blocks.blocks, block, pc)
        invariant work == old(work).EmitAll(pc, code.exits, k)
        invariant old(blocks.blocks) <= blocks.blocks
        invariant forall b :: b in blocks.blocks ==> b in old(blocks.blocks) || fresh(b)
      {
        assert forall i :: 0 <= i < |blocks.blocks| ==> blocks.blocks[i] in old(blocks.blocks) || fresh(blocks.blocks[i]);
        EmitJump(pc, k, code.exits[k], multiset{entry});
      }
      FinishBlock(block, pc, code, multiset{entry});
    }

    /** Compiles the first block of the queue and recycles its entry. */
    method CompileOne(code: Addr -> Code)
      requires Valid(multiset{}) && work.toCompile != []
      modifies this, blocks, blocks.blocks
      ensures Valid(multiset{}) && work == old(work).CompileFirst(code)
      ensures old(blocks.blocks) <= blocks.blocks
      ensures forall b :: b in blocks.blocks ==> b in old(blocks.blocks) || fresh(b)
    {
      hide Valid;
      var entry, block, pc := TakeCompile();
      Compile(entry, block, pc, code(pc));
      assert multiset{} + multiset{entry} == multiset{entry};
      PutPool(entry, multiset{});
    }

    /** Compiles the blocks of the queue until none is left. */
    method CompileAll(code: Addr -> Code)
      requires Valid(multiset{}) && work.Inv([]) && Generates(code)
      modifies this, blocks, blocks.blocks
      ensures Valid(multiset{}) && work == Worklist.CompileAll(old(work), code)
      ensures forall b :: b in blocks.blocks ==> b in old(blocks.blocks) || fresh(b)
      ensures old(blocks.blocks) <= blocks.blocks
    {
      hide Valid;
      hide Work.Inv;
      QueueEmpty(CompileQueue, multiset{});
      while heads.compile != NULL
        invariant Valid(multiset{}) && work.Inv([])
        invariant heads.compile == NULL <==> work.toCompile == []
        invariant Worklist.CompileAll(work, code) == Worklist.CompileAll(old(work), code)
        invariant old(blocks.blocks) <= blocks.blocks
        invariant forall b :: b in blocks.blocks ==> b in old(blocks.blocks) || fresh(b)
        decreases NUM_ADDRS - |work.known|, |work.toCompile|
      {
        CompileFirstInv(work, code);
        CompileFirstProgress(work, code);
        assert forall i :: 0 <= i < |blocks.blocks| ==> blocks.blocks[i] in old(blocks.blocks) || fresh(blocks.blocks[i]);
        CompileOne(code);
        QueueEmpty(CompileQueue, multiset{});
      }
    }

    /** A queue whose head is null holds nothing. */
    lemma QueueEmpty(q: Queue, held: multiset<nat>)
      requires Valid(held)
      ensures heads.Of(q) == NULL <==> items.Of(q) == []
      ensures items.compile == [] <==> work.toCompile == []
      ensures items.link == [] <==> work.toLink == []
      ensures items.cleanup == [] <==> work.toFree == []
    {
      assert Chained(arena, heads.Of(q), items.Of(q));
    }

    /** Links the jumps of the queue to the addresses of their targets.  The ghost record of
        what was linked is "work.linked". */
    method LinkAll()
      requires Valid(multiset{})
      modifies this`heads, this`arena, this`items, this`work
      ensures Valid(multiset{}) && work == old(work).LinkAll()
    {
      hide Valid;
      QueueEmpty(LinkQueue, multiset{});
      while heads.link != NULL
        invariant Valid(multiset{}) && work.LinkAll() == old(work).LinkAll()
        invariant heads.link == NULL <==> work.toLink == []
        decreases |work.toLink|
      {
        LinkOne();
        QueueEmpty(LinkQueue, multiset{});
      }
    }

    method LinkOne()
      requires Valid(multiset{}) && work.toLink != []
      modifies this`heads, this`arena, this`items, this`work
      ensures Valid(multiset{}) && work == old(work).LinkFirst()
    {
      hide BlockMap.Valid;
      hide Conserved;
      var e := Dequeue(LinkQueue, multiset{});
      var entry: nat := e;
      var load := arena[entry].load;
      var target := if load.toBody then load.block.bodyAddr else load.block.headAddr;
      assert target == work.Destination(work.toLink[0].exit);
      // The jump is patched unless its target has no address.
      work := work.(toLink := work.toLink[1..],
                    linked := if target != 0 then work.linked[load.jump := target] else work.linked);
      assert multiset{} + multiset{entry} == multiset{entry};
      PutPool(entry, multiset{});
    }

    /** Frees the compilers of the queue. */
    method FreeAll()
      requires Valid(multiset{})
      modifies this`heads, this`arena, this`items, this`work
      ensures Valid(multiset{}) && work == old(work).FreeAll()
    {
      hide Valid;
      QueueEmpty(CleanupQueue, multiset{});
      while heads.cleanup != NULL
        invariant Valid(multiset{}) && work.FreeAll() == old(work).FreeAll()
        invariant heads.cleanup == NULL <==> work.toFree == []
        decreases |work.toFree|
      {
        FreeOne();
        QueueEmpty(CleanupQueue, multiset{});
      }
    }

    method FreeOne()
      requires Valid(multiset{}) && work.toFree != []
      modifies this`heads, this`arena, this`items, this`work
      ensures Valid(multiset{}) && work == old(work).FreeFirst()
    {
      hide BlockMap.Valid;
      hide Conserved;
      var e := Dequeue(CleanupQueue, multiset{});
      var entry: nat := e;
      work := work.(toFree := work.toFree[1..], freed := work.freed + [arena[entry].load.compiler]);
      assert multiset{} + multiset{entry} == multiset{entry};
      PutPool(entry, multiset{});
    }

    /** The block of "pc", compiled and linked together with everything it leads to. */
    method GetBlock(pc: Addr, code: Addr -> Code) returns (block: Block)
      requires Valid(multiset{}) && work.Inv([]) && work.Idle() && Generates(code)
      modifies this, blocks, blocks.blocks
      ensures Valid(multiset{}) && work == Compiled(old(work), pc, code)
      ensures IsBlock(blocks.blocks, block, pc)
    {
      hide Work.Inv;
      hide Compiled;
      hide Generates;
      block := QueueBlock(pc, multiset{});
      CompiledCases(old(work), pc, code);
      HasCode(block, pc);
      hide Valid;
      if block.fn != 0 {
        return;
      }
      CompileAll(code);
      LinkAll();
      FreeAll();
    }

    lemma HasCode(block: Block, pc: Addr)
      requires Valid(multiset{}) && work.Inv([]) && IsBlock(blocks.blocks, block, pc)
      ensures block.fn != 0 <==> pc in work.codes
    {
    }

    /** After a call every entry that was ever allocated is back in the pool. */
    lemma AllPooled()
      requires Valid(multiset{}) && work.Idle()
      ensures items.compile == [] && items.link == [] && items.cleanup == []
      ensures multiset(items.pool) == multiset(Upto(|arena|)) && Chained(arena, heads.pool, items.pool)
    {
      assert Chained(arena, heads.Of(EntryPool), items.Of(EntryPool));
    }
  }

  lemma CompiledCases(w: Work, pc: Addr, code: Addr -> Code)
    requires w.Inv([]) && Generates(code)
    ensures w.Queue(pc).Inv([])
    ensures Compiled(w, pc, code) ==
      if pc in w.Queue(pc).codes then w.Queue(pc)
      else Worklist.CompileAll(w.Queue(pc), code).LinkAll().FreeAll()
  {
    QueueInv(w, [], pc);
    hide Work.Inv;
  }

  lemma SameKey(hash: Addr -> nat, blocks: seq<Block>, kids: Links, x: Block, y: Block)
    requires Shape(hash, blocks, kids) && x in blocks && y in blocks && x.key == y.key
    ensures x == y
  {
    var i :| 0 <= i < |blocks| && blocks[i] == x;
    var j :| 0 <= j < |blocks| && blocks[j] == y;
  }

  lemma KeyKnown(keys: seq<Addr>, blocks: seq<Block>, b: Block)
    requires BlocksMatch(keys, blocks) && b in blocks
    ensures b.key in keys
  {
    var i :| 0 <= i < |blocks| && blocks[i] == b;
    assert keys[i] in keys;
  }
}