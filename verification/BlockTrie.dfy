/** The hash trie of blocks: a node holds a block, and two bits of the hash choose the child
    to go on with.  One search serves lookup and insertion. */
module BlockTrie {
  import opened Hashing
  import Words

  const NUM_CHILDREN: nat := 4

  /** A hash shifted right by "d" digits. */
  function Rest(hash: nat, d: nat): nat
    decreases d
  {
    if d == 0 then hash else Rest(hash / NUM_CHILDREN, d - 1)
  }

  function Digit(hash: nat, d: nat): (c: nat)
    ensures c < NUM_CHILDREN
  {
    Rest(hash, d) % NUM_CHILDREN
  }

  /** The first "n" digits of a hash: the way from the root to depth "n". */
  function Digits(hash: nat, n: nat): (p: seq<nat>)
    ensures |p| == n
  {
    if n == 0 then [] else Digits(hash, n - 1) + [Digit(hash, n - 1)]
  }

  lemma {:induction false} RestStep(hash: nat, d: nat)
    ensures Rest(hash, d + 1) == Rest(hash, d) / NUM_CHILDREN
    decreases d
  {
    if d > 0 {
      RestStep(hash / NUM_CHILDREN, d - 1);
    }
  }

  /** The child chosen at depth "d" is two bits of the hash: those at 2 d and 2 d + 1. */
  lemma {:induction false} WayBits(hash: nat, d: nat)
    ensures Digit(hash, d) ==
      (if Words.Digit(hash, 2 * d) then 1 else 0) + (if Words.Digit(hash, 2 * d + 1) then 2 else 0)
    decreases d
  {
    if d == 0 {
      Words.DigitHalf(hash, 0);
      Words.DigitHalf(hash / 2, 0);
    } else {
      WayBits(hash / NUM_CHILDREN, d - 1);
      Words.DigitHalf(hash, 2 * d - 1);
      Words.DigitHalf(hash / 2, 2 * d - 2);
      Words.DigitHalf(hash, 2 * d);
      Words.DigitHalf(hash / 2, 2 * d - 1);
      assert hash / 2 / 2 == hash / 4;
    }
  }

  lemma {:induction false} DigitsPrefix(hash: nat, n: nat, d: nat)
    requires d <= n
    ensures Digits(hash, n)[..d] == Digits(hash, d)
    decreases n
  {
    if d < n {
      DigitsPrefix(hash, n - 1, d);
      assert Digits(hash, n)[..d] == Digits(hash, n - 1)[..d];
    }
  }

  function Pow4(n: nat): nat {
    if n == 0 then 1 else 4 * Pow4(n - 1)
  }

  lemma SixteenDigits()
    ensures Pow4(16) == HASHES
  {
    assert Pow4(4) == 0x100;
    assert Pow4(8) == 4 * (4 * (4 * (4 * Pow4(4))));
    assert Pow4(12) == 4 * (4 * (4 * (4 * Pow4(8))));
    assert Pow4(16) == 4 * (4 * (4 * (4 * Pow4(12))));
  }

  /** Hashes that agree on all their digits are equal. */
  lemma {:induction false} SameDigits(g: nat, h: nat, n: nat)
    requires Digits(g, n) == Digits(h, n) && g < Pow4(n) && h < Pow4(n)
    ensures g == h
    decreases n
  {
    if n > 0 {
      FirstDigit(g, n);
      FirstDigit(h, n);
      DigitsTail(g, n);
      DigitsTail(h, n);
      SameDigits(g / 4, h / 4, n - 1);
    }
  }

  lemma FirstDigit(h: nat, n: nat)
    requires n > 0
    ensures Digits(h, n)[0] == h % 4
  {
    DigitsPrefix(h, n, 1);
    assert Digits(h, n)[..1][0] == Digits(h, 1)[0];
  }

  lemma {:induction false} DigitsTail(h: nat, n: nat)
    requires n > 0
    ensures Digits(h, n)[1..] == Digits(h / NUM_CHILDREN, n - 1)
    decreases n
  {
    if n > 1 {
      DigitsTail(h, n - 1);
      assert Digits(h, n)[1..] == Digits(h, n - 1)[1..] + [Digit(h, n - 1)];
    }
  }

  class Block {
    const key: Addr
    var children: seq<Block?>
    var next: Block?
    // What code generation leaves behind: 0 until then.
    var fn: nat
    var headAddr: nat
    var bodyAddr: nat
    // Where the block hangs: its parent, and the digits from the root.
    ghost const parent: Block?
    ghost const path: seq<nat>

    constructor (key: Addr, next: Block?, ghost parent: Block?, ghost path: seq<nat>)
      ensures this.key == key && this.next == next && this.parent == parent && this.path == path
      ensures children == [null, null, null, null] && fn == 0 && headAddr == 0 && bodyAddr == 0
    {
      this.key, this.next, this.parent, this.path := key, next, parent, path;
      children, fn, headAddr, bodyAddr := [null, null, null, null], 0, 0, 0;
    }
  }

  // ---- the shape of the trie, on values ----

  type Links = map<Block, seq<Block?>>

  ghost predicate Distinct(blocks: seq<Block>) {
    forall i, j :: 0 <= i < j < |blocks| ==>
      blocks[i] != blocks[j] && blocks[i].key != blocks[j].key && blocks[i].path != blocks[j].path
  }

  /** Block "i" hangs below an earlier one, along the digits of its hash. */
  ghost predicate Hangs(hash: Addr -> nat, blocks: seq<Block>, kids: Links, i: nat)
    requires i < |blocks|
  {
    var b := blocks[i];
    && b.path == Digits(hash(b.key), |b.path|)
    && (i == 0 <==> b.path == [])
    && (i > 0 ==>
        && b.parent in blocks[..i] && b.parent in kids && |kids[b.parent]| == NUM_CHILDREN
        && b.path == b.parent.path + [b.path[|b.path| - 1]]
        && b.path[|b.path| - 1] < NUM_CHILDREN
        && kids[b.parent][b.path[|b.path| - 1]] == b)
  }

  /** The children of block "i" are later blocks, one digit further on. */
  ghost predicate Branches(blocks: seq<Block>, kids: Links, i: nat)
    requires i < |blocks|
  {
    var b := blocks[i];
    && b in kids && |kids[b]| == NUM_CHILDREN
    && forall c :: 0 <= c < NUM_CHILDREN && kids[b][c] != null ==>
         kids[b][c] in blocks[i + 1..] && kids[b][c].path == b.path + [c]
  }

  ghost predicate Shape(hash: Addr -> nat, blocks: seq<Block>, kids: Links) {
    && Distinct(blocks)
    && (forall i :: 0 <= i < |blocks| ==> Hangs(hash, blocks, kids, i))
    && (forall i :: 0 <= i < |blocks| ==> Branches(blocks, kids, i))
  }

  lemma SamePath(blocks: seq<Block>, x: Block, y: Block)
    requires Distinct(blocks) && x in blocks && y in blocks && x.path == y.path
    ensures x == y
  {
    var i :| 0 <= i < |blocks| && blocks[i] == x;
    var j :| 0 <= j < |blocks| && blocks[j] == y;
  }

  /** Every block has an ancestor at every depth up to its own. */
  lemma {:induction false} Ancestor(hash: Addr -> nat, blocks: seq<Block>, kids: Links, i: nat, d: nat) returns (j: nat)
    requires Shape(hash, blocks, kids) && i < |blocks| && d <= |blocks[i].path|
    ensures j < |blocks| && blocks[j].path == blocks[i].path[..d]
    decreases i
  {
    var b := blocks[i];
    if d == |b.path| {
      j := i;
      assert b.path[..d] == b.path;
    } else {
      assert Hangs(hash, blocks, kids, i);
      j :| 0 <= j < i && blocks[j] == b.parent;
      j := Ancestor(hash, blocks, kids, j, d);
      assert b.path[..d] == b.parent.path[..d];
    }
  }

  /** A block on the way to a deeper one has a child that leads there. */
  lemma LeadsOn(hash: Addr -> nat, blocks: seq<Block>, kids: Links, owner: Block, i: nat)
    requires Shape(hash, blocks, kids) && owner in blocks && i < |blocks| && owner.path < blocks[i].path
    ensures var c := blocks[i].path[|owner.path|]; owner in kids && c < |kids[owner]| && kids[owner][c] != null
  {
    var d := |owner.path| + 1;
    var j := Ancestor(hash, blocks, kids, i, d);
    var a := blocks[j];
    assert a.path == owner.path + [blocks[i].path[d - 1]];
    assert Hangs(hash, blocks, kids, j);
    assert a.parent.path == a.path[..d - 1] == owner.path;
    SamePath(blocks, a.parent, owner);
  }

  /** The empty slot where "key" belongs: the root slot if "owner" is null, and one of the
      owner's children otherwise. */
  ghost predicate EmptySlot(hash: Addr -> nat, blocks: seq<Block>, kids: Links, key: Addr, owner: Block?, slot: nat) {
    if owner == null then blocks == []
    else
      && owner in blocks && owner.path == Digits(hash(key), |owner.path|)
      && slot == Digit(hash(key), |owner.path|)
      && owner in kids && |kids[owner]| == NUM_CHILDREN && kids[owner][slot] == null
  }

  /** If the way of a key ends below "owner", no block deeper down has the key. */
  lemma DeadEnd(hash: Addr -> nat, blocks: seq<Block>, kids: Links, key: Addr, owner: Block, slot: nat, i: nat)
    requires Shape(hash, blocks, kids) && EmptySlot(hash, blocks, kids, key, owner, slot)
    requires i < |blocks| && blocks[i].key == key
    ensures |blocks[i].path| <= |owner.path|
  {
    assert Hangs(hash, blocks, kids, i);
    var n, d := |blocks[i].path|, |owner.path|;
    if n > d {
      DigitsPrefix(hash(key), n, d);
      DigitsPrefix(hash(key), n, d + 1);
      assert blocks[i].path[d] == Digits(hash(key), n)[..d + 1][d] == Digit(hash(key), d);
      LeadsOn(hash, blocks, kids, owner, i);
    }
  }

  ghost function PathTo(owner: Block?, slot: nat): seq<nat> {
    if owner == null then [] else owner.path + [slot]
  }

  lemma SlotPathNew(hash: Addr -> nat, blocks: seq<Block>, kids: Links, key: Addr, owner: Block?, slot: nat)
    requires Shape(hash, blocks, kids) && EmptySlot(hash, blocks, kids, key, owner, slot)
    ensures forall b :: b in blocks ==> b.path != PathTo(owner, slot)
    ensures PathTo(owner, slot) == Digits(hash(key), |PathTo(owner, slot)|)
  {
    forall i | 0 <= i < |blocks| ensures blocks[i].path != PathTo(owner, slot) {
      if blocks[i].path == PathTo(owner, slot) {
        LeadsOn(hash, blocks, kids, owner, i);
      }
    }
  }

  /** The links after "block" has been put into a slot. */
  ghost function Linked(kids: Links, block: Block, owner: Block?, slot: nat): Links {
    (if owner in kids && slot < |kids[owner]| then kids[owner := kids[owner][slot := block]] else kids)
    [block := [null, null, null, null]]
  }

  lemma LinkedHangs(hash: Addr -> nat, blocks: seq<Block>, kids: Links, block: Block, owner: Block?, slot: nat, i: nat)
    requires i < |blocks| && Hangs(hash, blocks, kids, i) && block !in blocks
    requires EmptySlot(hash, blocks, kids, block.key, owner, slot)
    ensures Hangs(hash, blocks + [block], Linked(kids, block, owner, slot), i)
  {
    assert (blocks + [block])[..i] == blocks[..i];
    hide Digits;
  }

  lemma LinkedBranches(blocks: seq<Block>, kids: Links, block: Block, owner: Block?, slot: nat, i: nat)
    requires i < |blocks| && Branches(blocks, kids, i) && block !in blocks
    requires owner != null ==> owner in kids && slot < |kids[owner]|
    requires block.path == PathTo(owner, slot)
    ensures Branches(blocks + [block], Linked(kids, block, owner, slot), i)
  {
    var blocks' := blocks + [block];
    assert blocks'[i + 1..] == blocks[i + 1..] + [block];
    assert block in blocks'[i + 1..];
  }

  lemma LinkedLast(hash: Addr -> nat, blocks: seq<Block>, kids: Links, block: Block, owner: Block?, slot: nat)
    requires EmptySlot(hash, blocks, kids, block.key, owner, slot) && block !in blocks
    requires block.parent == owner && block.path == PathTo(owner, slot)
    requires block.path == Digits(hash(block.key), |block.path|)
    requires owner == null <==> blocks == []
    ensures Hangs(hash, blocks + [block], Linked(kids, block, owner, slot), |blocks|)
    ensures Branches(blocks + [block], Linked(kids, block, owner, slot), |blocks|)
  {
    assert (blocks + [block])[..|blocks|] == blocks;
    hide Digits;
  }

  /** Filling the empty slot of its key with a new block keeps the shape: every earlier block
      stays where its key leads, and the new one is where its key leads. */
  lemma LinkedShape(hash: Addr -> nat, blocks: seq<Block>, kids: Links, block: Block, owner: Block?, slot: nat)
    requires Shape(hash, blocks, kids) && EmptySlot(hash, blocks, kids, block.key, owner, slot)
    requires block !in blocks && (forall b :: b in blocks ==> b.key != block.key)
    requires block.parent == owner && block.path == PathTo(owner, slot)
    ensures Shape(hash, blocks + [block], Linked(kids, block, owner, slot))
  {
    SlotPathNew(hash, blocks, kids, block.key, owner, slot);
    assert Distinct(blocks + [block]);
    hide Distinct;
    LinkedLast(hash, blocks, kids, block, owner, slot);
    var blocks', kids', n := blocks + [block], Linked(kids, block, owner, slot), |blocks|;
    forall i | 0 <= i < n + 1 ensures Hangs(hash, blocks', kids', i) && Branches(blocks', kids', i) {
      if i < n {
        LinkedHangs(hash, blocks, kids, block, owner, slot, i);
        LinkedBranches(blocks, kids, block, owner, slot, i);
      }
    }
    hide Hangs;
    hide Branches;
    hide Linked;
  }

  /** With an injective 32-bit hash a block is at most sixteen children away from the root. */
  lemma DepthBound(hash: Addr -> nat, blocks: seq<Block>, kids: Links, i: nat)
    requires Shape(hash, blocks, kids) && i < |blocks|
    requires forall x: Addr :: hash(x) < HASHES
    requires forall x: Addr, y: Addr :: hash(x) == hash(y) ==> x == y
    ensures |blocks[i].path| <= 16
  {
    var b := blocks[i];
    assert Hangs(hash, blocks, kids, i);
    if |b.path| > 16 {
      var j := Ancestor(hash, blocks, kids, i, 16);
      assert Hangs(hash, blocks, kids, j);
      hide Digits;
      hide Pow4;
      DigitsPrefix(hash(b.key), |b.path|, 16);
      SixteenDigits();
      SameDigits(hash(blocks[j].key), hash(b.key), 16);
    }
  }

  /** The trie of the compiler is at most sixteen children deep. */
  lemma ProspectorDepth(blocks: seq<Block>, kids: Links, i: nat)
    requires Shape(Prospector32, blocks, kids) && i < |blocks|
    ensures |blocks[i].path| <= 16
  {
    forall x: Addr ensures Prospector32(x) < HASHES { Prospector32Bound(x); }
    forall x: Addr, y: Addr ensures Prospector32(x) == Prospector32(y) ==> x == y {
      if Prospector32(x) == Prospector32(y) { Prospector32Injective(x, y); }
    }
    hide Prospector32;
    DepthBound(Prospector32, blocks, kids, i);
  }

  // ---- the walk of a search, on values ----

  /** A search for "key" has followed "d" digits: it came through slot "slot" of "owner" to
      block number "at", or to nothing, and no block it passed has the key. */
  ghost predicate Walked(hash: Addr -> nat, blocks: seq<Block>, kids: Links, key: Addr, owner: Block?, slot: nat,
                         itr: Block?, d: nat, at: nat)
  {
    && (itr != null ==> at < |blocks| && itr == blocks[at] && itr.path == Digits(hash(key), d))
    && (if owner == null then d == 0 && itr == (if blocks == [] then null else blocks[0])
        else
          && d > 0 && owner in blocks && owner.path == Digits(hash(key), d - 1) && slot == Digit(hash(key), d - 1)
          && owner in kids && |kids[owner]| == NUM_CHILDREN && kids[owner][slot] == itr)
    && (forall b :: b in blocks && |b.path| < d && b.path == Digits(hash(key), |b.path|) ==> b.key != key)
  }

  lemma WalkStarts(hash: Addr -> nat, blocks: seq<Block>, kids: Links, key: Addr)
    requires Shape(hash, blocks, kids)
    ensures Walked(hash, blocks, kids, key, null, 0, if blocks == [] then null else blocks[0], 0, 0)
  {
    if blocks != [] {
      assert Hangs(hash, blocks, kids, 0);
    }
  }

  lemma WalkStep(hash: Addr -> nat, blocks: seq<Block>, kids: Links, key: Addr, owner: Block?, slot: nat,
                 itr: Block, d: nat, at: nat)
    returns (at': nat)
    requires Shape(hash, blocks, kids) && Walked(hash, blocks, kids, key, owner, slot, itr, d, at) && itr.key != key
    ensures itr in kids && |kids[itr]| == NUM_CHILDREN && at < |blocks|
    ensures var c := Digit(hash(key), d);
      Walked(hash, blocks, kids, key, itr, c, kids[itr][c], d + 1, at') && (kids[itr][c] != null ==> at < at' < |blocks|)
  {
    assert Branches(blocks, kids, at);
    forall b | b in blocks && b.path == Digits(hash(key), d) ensures b.key != key {
      SamePath(blocks, b, itr);
    }
    hide Distinct;
    var child := kids[itr][Digit(hash(key), d)];
    at' := at;
    if child != null {
      at' :| at < at' < |blocks| && blocks[at'] == child;
    }
  }

  lemma WalkEnds(hash: Addr -> nat, blocks: seq<Block>, kids: Links, key: Addr, owner: Block?, slot: nat, d: nat, at: nat)
    requires Shape(hash, blocks, kids) && Walked(hash, blocks, kids, key, owner, slot, null, d, at)
    ensures EmptySlot(hash, blocks, kids, key, owner, slot) && forall b :: b in blocks ==> b.key != key
  {
    forall i | 0 <= i < |blocks| ensures blocks[i].key != key {
      assert Hangs(hash, blocks, kids, i);
      if blocks[i].key == key {
        DeadEnd(hash, blocks, kids, key, owner, slot, i);
      }
    }
  }

  // ---- the trie as the compiler updates it ----

  class BlockMap {
    const hash: Addr -> nat
    var root: Block?
    var first: Block?
    var numBlocks: nat
    // The blocks in the order of their insertion.
    ghost var blocks: seq<Block>

    ghost function Kids(): Links
      reads this, blocks`children
    {
      map b | b in blocks :: b.children
    }

    /** The list that starts at "first" goes through all blocks, the newest first. */
    ghost predicate Listed()
      reads this, blocks`next
    {
      && numBlocks == |blocks|
      && first == (if blocks == [] then null else blocks[|blocks| - 1])
      && (blocks != [] ==> blocks[0].next == null)
      && forall i, j :: 0 <= j && i == j + 1 < |blocks| ==> blocks[i].next == blocks[j]
    }

    ghost predicate Valid()
      reads this, blocks`children, blocks`next
    {
      && root == (if blocks == [] then null else blocks[0])
      && Listed() && Shape(hash, blocks, Kids())
    }

    ghost predicate Has(key: Addr)
      reads this
    {
      exists b :: b in blocks && b.key == key
    }

    constructor (hash: Addr -> nat)
      ensures Valid() && blocks == [] && this.hash == hash
    {
      this.hash := hash;
      root, first, numBlocks, blocks := null, null, 0, [];
    }

    /** The search: the block of "key", or the empty slot where it belongs. */
    method Search(key: Addr) returns (owner: Block?, slot: nat, result: Block?)
      requires Valid()
      ensures result != null ==> result in blocks && result.key == key
      ensures result == null <==> !Has(key)
      ensures result == null ==> EmptySlot(hash, blocks, Kids(), key, owner, slot)
    {
      owner, slot, result := null, 0, null;
      var itr := root;
      var h := hash(key);
      ghost var d, at := 0, 0;
      WalkStarts(hash, blocks, Kids(), key);
      while itr != null
        invariant h == Rest(hash(key), d)
        invariant Walked(hash, blocks, Kids(), key, owner, slot, itr, d, at)
        decreases if itr == null then 0 else |blocks| - at
      {
        if itr.key == key {
          result := itr;
          return;
        }
        ghost var at' := WalkStep(hash, blocks, Kids(), key, owner, slot, itr, d, at);
        owner := itr;
        slot := h % NUM_CHILDREN;
        itr := itr.children[slot];
        h := h / NUM_CHILDREN;
        RestStep(hash(key), d);
        at, d := at', d + 1;
      }
      WalkEnds(hash, blocks, Kids(), key, owner, slot, d, at);
      hide Shape;
      hide Walked;
    }

    /** Fills the empty slot of its key with a new block. */
    method Hang(block: Block, owner: Block?, slot: nat)
      requires Valid() && !Has(block.key) && EmptySlot(hash, blocks, Kids(), block.key, owner, slot)
      requires block !in blocks && block.next == first && block.children == [null, null, null, null]
      requires block.parent == owner && block.path == PathTo(owner, slot)
      modifies this, blocks`children
      ensures Valid() && blocks == old(blocks) + [block]
    {
      assert |blocks| > 0 ==> blocks[|blocks| - 1] == first;
      ghost var kids := Kids();
      LinkedShape(hash, blocks, kids, block, owner, slot);
      assert owner != null ==> owner in blocks && slot < |owner.children|;
      hide Shape;
      hide EmptySlot;
      if owner == null {
        root := block;
      } else {
        owner.children := owner.children[slot := block];
      }
      first := block;
      numBlocks := numBlocks + 1;
      blocks := blocks + [block];
      assert Kids() == Linked(kids, block, owner, slot) by { hide Listed; }
      assert Listed() by {
        hide Kids;
        assert forall i :: 0 <= i < |blocks| - 1 ==> blocks[i] == old(blocks[i]);
      }
    }

    /** The block of "key", made and hung into the empty slot if there is none. */
    method FindOrAdd(key: Addr) returns (block: Block, isNew: bool)
      requires Valid()
      modifies this, blocks`children
      ensures Valid() && block in blocks && block.key == key
      ensures isNew == !old(Has(key))
      ensures blocks == if isNew then old(blocks) + [block] else old(blocks)
      ensures isNew ==> fresh(block) && block.fn == 0 && block.headAddr == 0 && block.bodyAddr == 0
    {
      var owner, slot, result := Search(key);
      isNew := result == null;
      if !isNew {
        block := result;
        return;
      }
      hide Shape;
      block := new Block(key, first, owner, PathTo(owner, slot));
      Hang(block, owner, slot);
    }
  }
}
