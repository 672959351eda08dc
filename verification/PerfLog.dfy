/** The log of address marks behind the perf hook: a list of chunks that are recycled through
    a pool, and the debug record that is written from it in two passes.  Chunks live in an
    arena that only grows; a pointer to a chunk is its index. */
module PerfLog {
  import opened Words
  import opened Uxn
  import opened Symbols
  import opened LinkedLists

  const CHUNK_SIZE: nat := 16

  datatype Mapping = Mapping(mark: nat, addr: nat)

  /** The first "len" of the mappings are in use. */
  datatype Marks = Marks(len: nat, mappings: seq<Mapping>)

  type Chunk = Node<Marks>

  /** What is written to the dump file. */
  datatype Piece =
    | Header(totalSize: nat, codeAddr: nat, nrEntry: nat)
    | Line(codeAddr: nat, line: nat, col: nat, filename: string)

  const HEADER_SIZE: nat := 16 + 16
  const ENTRY_SIZE: nat := 16

  /** Sizes are announced in 32 bits. */
  const SIZES: nat := 0x1_0000_0000

  function Cut(size: nat): nat {
    size % SIZES
  }

  /** Adding to a cut size what a line adds. */
  function Grown(size: nat, name: nat): nat {
    Cut(Cut(size + ENTRY_SIZE) + name + 1)
  }

  /** Bytes written: file names are terminated by a zero. */
  function Size(p: Piece): nat {
    match p
    case Header(_, _, _) => HEADER_SIZE
    case Line(_, _, _, filename) => ENTRY_SIZE + |filename| + 1
  }

  /** The bytes of a number in memory, the lowest first. */
  function Field(v: nat, width: nat): (b: seq<nat>)
    ensures |b| == width
  {
    if width == 0 then [] else [v % 256] + Field(v / 256, width - 1)
  }

  function Text(s: string): (b: seq<nat>)
    ensures |b| == |s| + 1
  {
    if s == "" then [0] else [s[0] as nat] + Text(s[1..])
  }

  const DEBUG_INFO: nat := 2

  /** What is written for a piece, field by field: the header of a debug record with its kind, size
      and time stamp, the address and the number of entries; and an entry with address, line,
      column and file name. */
  function Written(p: Piece, time: nat): seq<nat> {
    match p
    case Header(size, codeAddr, entries) =>
      Field(DEBUG_INFO, 4) + Field(size, 4) + Field(time, 8) + Field(codeAddr, 8) + Field(entries, 8)
    case Line(codeAddr, line, col, filename) => Field(codeAddr, 8) + Field(line, 4) + Field(col, 4) + Text(filename)
  }

  function AllWritten(pieces: seq<Piece>, time: nat): seq<nat> {
    if pieces == [] then [] else AllWritten(pieces[..|pieces| - 1], time) + Written(pieces[|pieces| - 1], time)
  }

  /** The sizes that are added up are those of the bytes written. */
  lemma {:induction false} WrittenSize(pieces: seq<Piece>, time: nat)
    ensures |AllWritten(pieces, time)| == TotalSize(pieces)
    decreases |pieces|
  {
    if pieces != [] {
      WrittenSize(pieces[..|pieces| - 1], time);
    }
  }

  function TotalSize(pieces: seq<Piece>): nat {
    if pieces == [] then 0 else TotalSize(pieces[..|pieces| - 1]) + Size(pieces[|pieces| - 1])
  }

  lemma {:induction false} TotalSizeAdds(a: seq<Piece>, b: seq<Piece>)
    ensures TotalSize(a + b) == TotalSize(a) + TotalSize(b)
    decreases |b|
  {
    if b == [] {
      assert a + b == a;
    } else {
      var n := |b| - 1;
      assert (a + b)[..|a + b| - 1] == a + b[..n];
      TotalSizeAdds(a, b[..n]);
    }
  }

  // ---- lists of chunks ----

  /** A list extended at its end. */
  lemma {:induction false} ChainedSnoc(arena: seq<Chunk>, arena': seq<Chunk>, head: int, items: seq<nat>, c: nat)
    requires Chained(arena, head, items) && items != [] && NoDup(items) && c !in items && c < |arena'| && |arena| <= |arena'|
    requires forall x :: x in items && x < |arena| && x != items[|items| - 1] ==> arena'[x].next == arena[x].next
    requires items[|items| - 1] < |arena'| && arena'[items[|items| - 1]].next == c && arena'[c].next == NULL
    ensures Chained(arena', head, items + [c])
    decreases |items|
  {
    assert (items + [c])[1..] == items[1..] + [c];
    if |items| > 1 {
      assert items[1..][|items| - 2] == items[|items| - 1];
      ChainedSnoc(arena, arena', arena[head].next, items[1..], c);
    } else {
      assert [c][1..] == [];
    }
  }

  /** What the chunks of a list hold. */
  ghost function Contents(arena: seq<Chunk>, items: seq<nat>): seq<Mapping>
    decreases |items|
  {
    if items == [] then []
    else
      var last := items[|items| - 1];
      Contents(arena, items[..|items| - 1]) +
        if last < |arena| && arena[last].load.len <= |arena[last].load.mappings| then arena[last].load.mappings[..arena[last].load.len] else []
  }

  lemma {:induction false} ContentsFrame(arena: seq<Chunk>, arena': seq<Chunk>, items: seq<nat>)
    requires |arena| <= |arena'| && forall c :: c in items ==> c < |arena|
    requires forall c :: c in items ==> arena'[c].load.len == arena[c].load.len && arena'[c].load.mappings == arena[c].load.mappings
    ensures Contents(arena', items) == Contents(arena, items)
    decreases |items|
  {
    if items != [] {
      var n := |items| - 1;
      assert items[n] in items && forall c :: c in items[..n] ==> c in items;
      ContentsFrame(arena, arena', items[..n]);
    }
  }

  ghost predicate GoodChunk(c: Chunk) {
    |c.load.mappings| == CHUNK_SIZE && c.load.len <= CHUNK_SIZE
  }

  /** All chunks of a list but the last are full, and the last is not empty. */
  ghost predicate Packed(arena: seq<Chunk>, items: seq<nat>) {
    items == [] ||
    (var n := |items| - 1;
     Full(arena, items[..n]) && items[n] < |arena| && 1 <= arena[items[n]].load.len <= CHUNK_SIZE)
  }

  // ---- the record ----

  /** The line written for a mapping whose address has a symbol. */
  ghost function LineOf(m: Mapping, table: Table, resolve: nat -> nat): Piece {
    match Lookup(table, m.addr)
    case None => Line(resolve(m.mark), 0, 0, "")
    case Some(i) => Line(resolve(m.mark), table[i].line, table[i].col, table[i].filename)
  }

  ghost function Lines(log: seq<Mapping>, table: Table, resolve: nat -> nat): (lines: seq<Piece>)
    ensures |lines| == |log|
  {
    if log == [] then []
    else Lines(log[..|log| - 1], table, resolve) + [LineOf(log[|log| - 1], table, resolve)]
  }

  lemma {:induction false} LinesAdd(a: seq<Mapping>, b: seq<Mapping>, table: Table, resolve: nat -> nat)
    ensures Lines(a + b, table, resolve) == Lines(a, table, resolve) + Lines(b, table, resolve)
    decreases |b|
  {
    if b == [] {
      assert a + b == a;
    } else {
      var n := |b| - 1;
      assert (a + b)[..|a + b| - 1] == a + b[..n];
      LinesAdd(a, b[..n], table, resolve);
    }
  }

  ghost predicate AllKnown(log: seq<Mapping>, table: Table) {
    forall i :: 0 <= i < |log| ==> Lookup(table, log[i].addr).Some?
  }

  // ---- conservation of chunks ----

  lemma UptoCounts(items: seq<nat>, free: seq<nat>, n: nat, c: nat)
    requires multiset(items) + multiset(free) == multiset(Upto(n))
    ensures multiset(items)[c] + multiset(free)[c] == if c < n then 1 else 0
  {
    UptoOnce(n, c);
    assert (multiset(items) + multiset(free))[c] == multiset(items)[c] + multiset(free)[c];
  }

  /** Chunks of a list are different, known, and not in the pool. */
  lemma Apart(items: seq<nat>, free: seq<nat>, n: nat)
    requires multiset(items) + multiset(free) == multiset(Upto(n))
    ensures NoDup(items) && (forall c :: c in items ==> c < n && c !in free) && (forall c :: c in free ==> c < n)
  {
    forall c | c in items ensures c < n && c !in free { UptoCounts(items, free, n, c); }
    forall c | c in free ensures c < n { UptoCounts(items, free, n, c); }
    forall i, j | 0 <= i < j < |items| ensures items[i] != items[j] {
      TwiceIn(items, i, j);
      UptoCounts(items, free, n, items[i]);
    }
  }

  lemma InFront(items: seq<nat>, chunk: nat, free: seq<nat>, n: nat)
    requires multiset(items + [chunk]) + multiset(free) == multiset(Upto(n))
    ensures NoDup(items) && (forall c :: c in items ==> c < n && c !in free) && LastOf(items) != chunk
  {
    Apart(items + [chunk], free, n);
    assert forall i :: 0 <= i < |items| ==> (items + [chunk])[i] == items[i];
    assert (items + [chunk])[|items|] == chunk;
    forall c | c in items ensures c < n && c !in free { assert c in items + [chunk]; }
  }

  lemma TakeFirst(items: seq<nat>, free: seq<nat>, n: nat)
    requires multiset(items) + multiset(free) == multiset(Upto(n)) && free != []
    ensures multiset(items + [free[0]]) + multiset(free[1..]) == multiset(Upto(n))
    ensures free[0] !in items && free[0] < n && free[0] !in free[1..]
  {
    Apart(items, free, n);
    assert free == [free[0]] + free[1..];
    Apart(items + [free[0]], free[1..], n);
  }

  lemma MakeNew(items: seq<nat>, free: seq<nat>, n: nat)
    requires multiset(items) + multiset(free) == multiset(Upto(n))
    ensures multiset(items + [n]) + multiset(free) == multiset(Upto(n + 1))
    ensures n !in items && n !in free
  {
    Apart(items, free, n);
    assert Upto(n + 1) == Upto(n) + [n];
  }

  /** The arena after an empty chunk has been linked behind the last one. */
  ghost function Extended(arena: seq<Chunk>, last: int, chunk: nat): seq<Chunk>
    requires chunk < |arena|
  {
    var arena1 := arena[chunk := arena[chunk].(load := arena[chunk].load.(len := 0), next := NULL)];
    if 0 <= last < |arena| then arena1[last := arena1[last].(next := chunk)] else arena1
  }

  ghost function LastOf(items: seq<nat>): int {
    if items == [] then NULL else items[|items| - 1]
  }

  lemma ExtendedChain(arena: seq<Chunk>, first: int, items: seq<nat>, chunk: nat)
    requires Chained(arena, first, items) && NoDup(items) && chunk !in items && chunk < |arena|
    requires forall c :: c in items ==> c < |arena|
    ensures Chained(Extended(arena, LastOf(items), chunk), if items == [] then chunk else first, items + [chunk])
  {
    if items == [] {
      assert [chunk][1..] == [] && items + [chunk] == [chunk];
    } else {
      assert items[|items| - 1] in items;
      ChainedSnoc(arena, Extended(arena, LastOf(items), chunk), first, items, chunk);
    }
  }

  lemma ExtendedPool(arena: seq<Chunk>, items: seq<nat>, chunk: nat, pool: int, free: seq<nat>)
    requires Chained(arena, pool, free) && chunk < |arena| && chunk !in free
    requires forall c :: c in items ==> c < |arena| && c !in free
    ensures Chained(Extended(arena, LastOf(items), chunk), pool, free)
  {
    assert items != [] ==> items[|items| - 1] in items;
    ChainedFrame(arena, Extended(arena, LastOf(items), chunk), pool, free);
  }

  /** All chunks of a list are full. */
  ghost predicate Full(arena: seq<Chunk>, items: seq<nat>) {
    forall c :: c in items ==> c < |arena| && arena[c].load.len == CHUNK_SIZE
  }

  ghost predicate GoodChunks(arena: seq<Chunk>) {
    forall i :: 0 <= i < |arena| ==> GoodChunk(arena[i])
  }

  /** A list of full chunks followed by an empty one. */
  ghost predicate Ready(arena: seq<Chunk>, items: seq<nat>, chunk: nat) {
    chunk < |arena| && arena[chunk].load.len == 0 && chunk !in items && Full(arena, items) && GoodChunks(arena)
  }

  lemma ExtendedReady(arena: seq<Chunk>, last: int, items: seq<nat>, chunk: nat)
    requires GoodChunks(arena) && chunk < |arena| && chunk !in items && Full(arena, items) && last != chunk
    ensures Ready(Extended(arena, last, chunk), items, chunk)
    ensures forall c :: c in items ==> Extended(arena, last, chunk)[c].load.mappings == arena[c].load.mappings
  {
  }

  lemma ExtendedContents(arena: seq<Chunk>, arena1: seq<Chunk>, last: int, items: seq<nat>, chunk: nat)
    requires |arena| <= |arena1| && (forall i :: 0 <= i < |arena| ==> arena1[i] == arena[i]) && GoodChunks(arena1)
    requires Full(arena, items) && chunk < |arena1| && chunk !in items && last != chunk
    ensures Contents(Extended(arena1, last, chunk), items) == Contents(arena, items)
    ensures Ready(Extended(arena1, last, chunk), items, chunk)
  {
    assert Full(arena1, items);
    ExtendedReady(arena1, last, items, chunk);
    hide Extended;
    hide GoodChunks;
    ContentsFrame(arena, Extended(arena1, last, chunk), items);
    hide Contents;
  }

  /** Every chunk is in the list or in the pool, once. */
  ghost predicate Conserved(arena: seq<Chunk>, first: int, items: seq<nat>, pool: int, free: seq<nat>) {
    && Chained(arena, first, items) && Chained(arena, pool, free)
    && multiset(items) + multiset(free) == multiset(Upto(|arena|))
  }

  /** As before, with one chunk in neither. */
  ghost predicate Taken(arena: seq<Chunk>, first: int, items: seq<nat>, pool: int, free: seq<nat>, chunk: nat) {
    && Chained(arena, first, items) && Chained(arena, pool, free) && chunk < |arena|
    && multiset(items + [chunk]) + multiset(free) == multiset(Upto(|arena|))
  }

  lemma TakenNew(arena: seq<Chunk>, first: int, items: seq<nat>, pool: int, free: seq<nat>, blank: Chunk)
    requires Conserved(arena, first, items, pool, free)
    ensures Taken(arena + [blank], first, items, pool, free, |arena|)
  {
    MakeNew(items, free, |arena|);
    ChainedFrame(arena, arena + [blank], first, items);
    ChainedFrame(arena, arena + [blank], pool, free);
    hide Chained;
    hide Upto;
  }

  lemma TakenPooled(arena: seq<Chunk>, first: int, items: seq<nat>, pool: int, free: seq<nat>)
    requires Conserved(arena, first, items, pool, free) && pool != NULL
    ensures free != [] && pool == free[0] < |arena|
    ensures Taken(arena, first, items, arena[pool].next, free[1..], free[0])
  {
    TakeFirst(items, free, |arena|);
    hide Upto;
  }

  lemma TakenExtended(arena: seq<Chunk>, first: int, items: seq<nat>, pool: int, free: seq<nat>, chunk: nat)
    requires Taken(arena, first, items, pool, free, chunk)
    ensures Conserved(Extended(arena, LastOf(items), chunk), if items == [] then chunk else first, items + [chunk], pool, free)
    ensures chunk !in items && LastOf(items) != chunk
  {
    InFront(items, chunk, free, |arena|);
    Apart(items + [chunk], free, |arena|);
    assert (items + [chunk])[|items|] == chunk && chunk in items + [chunk];
    assert forall i :: 0 <= i < |items| ==> items[i] == (items + [chunk])[i] != chunk;
    ExtendedChain(arena, first, items, chunk);
    ExtendedPool(arena, items, chunk, pool, free);
    hide Chained;
    hide Upto;
  }

  /** The arena after a mapping has been put into the last chunk of a list. */
  ghost function Filled(arena: seq<Chunk>, chunk: nat, m: Mapping): seq<Chunk>
    requires chunk < |arena| && GoodChunk(arena[chunk]) && arena[chunk].load.len < CHUNK_SIZE
  {
    var c := arena[chunk];
    arena[chunk := c.(load := Marks(c.load.len + 1, c.load.mappings[c.load.len := m]))]
  }

  lemma FilledContents(arena: seq<Chunk>, items: seq<nat>, m: Mapping)
    requires items != [] && (Packed(arena, items) || Ready(arena, items[..|items| - 1], items[|items| - 1]))
    requires GoodChunks(arena) && items[|items| - 1] < |arena| && arena[items[|items| - 1]].load.len < CHUNK_SIZE
    requires items[|items| - 1] !in items[..|items| - 1]
    ensures var arena' := Filled(arena, items[|items| - 1], m);
      Contents(arena', items) == Contents(arena, items) + [m] && Packed(arena', items) && GoodChunks(arena')
  {
    var n := |items| - 1;
    var c := arena[items[n]];
    var arena' := Filled(arena, items[n], m);
    ContentsFrame(arena, arena', items[..n]);
    assert c.load.mappings[c.load.len := m][..c.load.len + 1] == c.load.mappings[..c.load.len] + [m];
    assert Contents(arena, items) == Contents(arena, items[..n]) + c.load.mappings[..c.load.len];
  }

  lemma FilledConserved(arena: seq<Chunk>, first: int, items: seq<nat>, pool: int, free: seq<nat>, chunk: nat, m: Mapping)
    requires Conserved(arena, first, items, pool, free)
    requires chunk < |arena| && GoodChunk(arena[chunk]) && arena[chunk].load.len < CHUNK_SIZE
    ensures Conserved(Filled(arena, chunk, m), first, items, pool, free)
  {
    ChainedFrame(arena, Filled(arena, chunk, m), first, items);
    ChainedFrame(arena, Filled(arena, chunk, m), pool, free);
    hide Chained;
    hide Upto;
  }

  lemma LastApart(arena: seq<Chunk>, first: int, items: seq<nat>, pool: int, free: seq<nat>)
    requires Conserved(arena, first, items, pool, free) && items != []
    ensures items[|items| - 1] !in items[..|items| - 1] && items[|items| - 1] < |arena|
  {
    Apart(items, free, |arena|);
    assert items[|items| - 1] in items;
  }

  lemma ReadyContents(arena: seq<Chunk>, items: seq<nat>, chunk: nat)
    requires Ready(arena, items, chunk)
    ensures Contents(arena, items + [chunk]) == Contents(arena, items)
  {
    assert (items + [chunk])[..|items|] == items;
    assert GoodChunk(arena[chunk]);
  }

  /** The debug record of a block: a header, the lines of the log, and a dummy line. */
  ghost function Record(log: seq<Mapping>, table: Table, resolve: nat -> nat, codeStart: nat, codeSize: nat): seq<Piece>
    requires codeSize > 0
  {
    var lines := Lines(log, table, resolve);
    [Header(Cut(HEADER_SIZE + ENTRY_SIZE + 1 + TotalSize(lines)), codeStart, |log| + 1)] + lines + [Line(codeStart + codeSize - 1, 0, 0, "")]
  }

  /** The header of the record gives the number of bytes written, cut to 32 bits, and the number of
      lines. */
  lemma RecordSize(log: seq<Mapping>, table: Table, resolve: nat -> nat, codeStart: nat, codeSize: nat)
    requires codeSize > 0
    ensures var record := Record(log, table, resolve, codeStart, codeSize);
      record[0] == Header(Cut(TotalSize(record)), codeStart, |record| - 1)
      && forall time: nat :: record[0].totalSize == Cut(|AllWritten(record, time)|)
  {
    var lines := Lines(log, table, resolve);
    var header := Header(Cut(HEADER_SIZE + ENTRY_SIZE + 1 + TotalSize(lines)), codeStart, |log| + 1);
    var dummy := Line(codeStart + codeSize - 1, 0, 0, "");
    TotalSizeAdds([header], lines);
    TotalSizeAdds([header] + lines, [dummy]);
    assert [header][..0] == [] && [dummy][..0] == [];
    assert TotalSize([header]) == HEADER_SIZE && TotalSize([dummy]) == ENTRY_SIZE + 1;
    forall time: nat ensures |AllWritten(Record(log, table, resolve, codeStart, codeSize), time)| == TotalSize(Record(log, table, resolve, codeStart, codeSize)) {
      WrittenSize(Record(log, table, resolve, codeStart, codeSize), time);
    }
  }

  /** A dump entry that says of the code at a mark: this symbol's line, column and file. */
  ghost predicate Describes(p: Piece, codeAddr: nat, sym: Symbol) {
    p.Line? && p.codeAddr == codeAddr && p.line == sym.line && p.col == sym.col && p.filename == sym.filename
  }

  /** Every recorded pair, in its place: the address its mark resolves to, and the line, column
      and file of whichever symbol of the table contains its address. */
  ghost predicate Describe(pieces: seq<Piece>, log: seq<Mapping>, table: Table, resolve: nat -> nat) {
    && |pieces| == |log|
    && forall k, i :: 0 <= k < |log| && 0 <= i < |table| && Contains(table[i], log[k].addr) ==>
         Describes(pieces[k], resolve(log[k].mark), table[i])
  }

  lemma {:induction false} LinesDescribe(log: seq<Mapping>, table: Table, resolve: nat -> nat)
    requires Sorted(table)
    ensures Describe(Lines(log, table, resolve), log, table, resolve)
    decreases |log|
  {
    if log != [] {
      var n := |log| - 1;
      LinesDescribe(log[..n], table, resolve);
      forall i | 0 <= i < |table| && Contains(table[i], log[n].addr)
        ensures Describes(LineOf(log[n], table, resolve), resolve(log[n].mark), table[i])
      {
        LookupUnique(table, log[n].addr, i);
      }
    }
  }

  /** The record, entry by entry: the header, a line for every recorded pair, and at the last
      byte of the code a line that belongs to no file. */
  lemma RecordEntries(log: seq<Mapping>, table: Table, resolve: nat -> nat, codeStart: nat, codeSize: nat)
    requires codeSize > 0 && Sorted(table)
    ensures var record := Record(log, table, resolve, codeStart, codeSize);
      && |record| == |log| + 2 && record[0].Header? && record[0].codeAddr == codeStart && record[0].nrEntry == |log| + 1
      && Describe(record[1..|log| + 1], log, table, resolve)
      && record[|log| + 1].Line? && record[|log| + 1].codeAddr == codeStart + codeSize - 1
      && record[|log| + 1].line == 0 && record[|log| + 1].col == 0 && record[|log| + 1].filename == ""
  {
    LinesDescribe(log, table, resolve);
    var record := Record(log, table, resolve, codeStart, codeSize);
    assert record[1..|log| + 1] == Lines(log, table, resolve);
  }

  class PerfHook {
    var arena: seq<Chunk>
    var first: int
    var last: int
    var len: nat
    var pool: int
    var dump: seq<Piece>
    // The list and the pool as sequences.
    ghost var items: seq<nat>
    ghost var free: seq<nat>

    ghost function Log(): seq<Mapping>
      reads this
    {
      Contents(arena, items)
    }

    ghost predicate Valid()
      reads this
    {
      && Conserved(arena, first, items, pool, free) && last == LastOf(items)
      && Packed(arena, items) && len == |Log()| && GoodChunks(arena)
    }

    constructor ()
      ensures Valid() && Log() == [] && dump == []
    {
      arena, first, last, len, pool, dump := [], NULL, NULL, 0, NULL, [];
      items, free := [], [];
    }

    /** A chunk nobody uses: the first of the pool, or a new one. */
    method TakeChunk() returns (chunk: nat)
      requires Conserved(arena, first, items, pool, free) && GoodChunks(arena)
      modifies this`arena, this`pool, this`free
      ensures Taken(arena, first, items, pool, free, chunk) && GoodChunks(arena)
      ensures old(pool) != NULL ==> |arena| == |old(arena)| && chunk == old(pool)
      ensures old(pool) == NULL ==> |arena| == |old(arena)| + 1 && chunk == |old(arena)|
      ensures |arena| >= |old(arena)| && forall i :: 0 <= i < |old(arena)| ==> arena[i] == old(arena)[i]
    {
      hide Conserved;
      hide Taken;
      if pool == NULL {
        chunk := |arena|;
        var blank := Node(NULL, Marks(0, seq(CHUNK_SIZE, i => Mapping(0, 0))));
        TakenNew(arena, first, items, pool, free, blank);
        arena := arena + [blank];
      } else {
        TakenPooled(arena, first, items, pool, free);
        chunk := pool;
        pool := arena[chunk].next;
        free := free[1..];
      }
    }

    /** Links a chunk behind the last one. */
    method LinkChunk(chunk: nat)
      requires chunk < |arena| && last == LastOf(items) && (first == NULL <==> items == [])
      requires items != [] ==> LastOf(items) < |arena|
      modifies this`arena, this`first, this`last, this`items
      ensures arena == Extended(old(arena), LastOf(old(items)), chunk) && items == old(items) + [chunk]
      ensures last == chunk && first == if old(items) == [] then chunk else old(first)
    {
      arena := arena[chunk := arena[chunk].(load := arena[chunk].load.(len := 0), next := NULL)];
      if first == NULL {
        first := chunk;
      } else {
        arena := arena[last := arena[last].(next := chunk)];
      }
      last := chunk;
      items := items + [chunk];
    }

    /** Puts an empty chunk at the end of the list. */
    method AddChunk() returns (chunk: nat)
      requires Valid() && Full(arena, items)
      modifies this`arena, this`first, this`last, this`pool, this`items, this`free
      ensures Conserved(arena, first, items, pool, free) && last == LastOf(items)
      ensures items == old(items) + [chunk] && Ready(arena, old(items), chunk)
      ensures |arena| == |old(arena)| + if old(pool) == NULL then 1 else 0
      ensures Contents(arena, old(items)) == old(Log())
    {
      assert items == [] <==> first == NULL;
      hide Conserved;
      hide Contents;
      hide Packed;
      hide Extended;
      chunk := TakeChunk();
      TakenExtended(arena, first, items, pool, free, chunk);
      ExtendedContents(old(arena), arena, LastOf(items), items, chunk);
      assert items != [] ==> LastOf(items) < |arena| by { LastKnown(arena, items); }
      hide Taken;
      hide GoodChunks;
      LinkChunk(chunk);
    }

    /** Records that the code of the opcode at "pc" starts at "mark". */
    method LogOpcode(mark: nat, pc: nat)
      requires Valid()
      modifies this`arena, this`first, this`last, this`pool, this`items, this`free, this`len
      ensures Valid() && Log() == old(Log()) + [Mapping(mark, pc)]
      ensures |arena| == |old(arena)| + if old(pool) == NULL && Full(old(arena), old(items)) then 1 else 0
    {
      hide Conserved;
      hide Contents;
      LastIs(arena, first, items, pool, free);
      var chunk: nat;
      if last == NULL || arena[last].load.len == CHUNK_SIZE {
        assert Full(arena, items) by { PackedFull(arena, items); }
        chunk := AddChunk();
        ReadyContents(arena, old(items), chunk);
        assert items[..|items| - 1] == old(items);
      } else {
        chunk := last;
      }
      LastApart(arena, first, items, pool, free);
      FilledContents(arena, items, Mapping(mark, pc));
      FilledConserved(arena, first, items, pool, free, chunk, Mapping(mark, pc));
      hide Packed;
      hide Ready;
      hide Full;
      var n := arena[chunk].load.len;
      arena := arena[chunk := arena[chunk].(load := Marks(n + 1, arena[chunk].load.mappings[n := Mapping(mark, pc)]))];
      len := len + 1;
    }

    /** The size of the debug record: the first pass over the log. */
    method MeasureRecord(table: Table, resolve: nat -> nat) returns (size: nat)
      requires Valid() && Sorted(table) && AllKnown(Log(), table)
      ensures size == Cut(HEADER_SIZE + ENTRY_SIZE + 1 + TotalSize(Lines(Log(), table, resolve)))
    {
      hide Valid;
      hide Contents;
      hide Lines;
      size := HEADER_SIZE + ENTRY_SIZE + 1;
      assert size == Cut(size);
      hide Cut;
      hide Grown;
      ghost var total: nat := size;
      var hint: nat := 0;
      var itr := first;
      ghost var k := 0;
      ValidChain();
      NothingYet(arena, items, table, resolve);
      while itr != NULL
        invariant k <= |items| && hint <= |table| && Chained(arena, itr, items[k..])
        invariant size == Cut(total)
        invariant total == HEADER_SIZE + ENTRY_SIZE + 1 + TotalSize(Lines(Contents(arena, items[..k]), table, resolve))
        decreases |items| - k
      {
        OneMore(arena, items, k);
        ghost var before: nat := total;
        var i := 0;
        LinesNil(table, resolve);
        while i < arena[itr].load.len
          invariant i <= arena[itr].load.len && hint <= |table|
          invariant size == Cut(total)
          invariant total == before + TotalSize(Lines(arena[itr].load.mappings[..i], table, resolve))
        {
          KnownAt(arena, items, k, i, table);
          var symbol;
          symbol, hint := FindSymbol(table, arena[itr].load.mappings[i].addr, hint);
          GrownBy(total, |table[symbol.value].filename|);
          size := Grown(size, |table[symbol.value].filename|);
          total := total + ENTRY_SIZE + |table[symbol.value].filename| + 1;
          LinesNext(arena[itr].load.mappings, i, table, resolve);
          i := i + 1;
        }
        LinesJoin(arena, items, k, table, resolve);
        itr := arena[itr].next;
        k := k + 1;
      }
      assert items[..k] == items;
    }

    /** Writes the lines of one chunk. */
    method WriteChunk(chunk: nat, table: Table, resolve: nat -> nat, hint: nat) returns (newHint: nat)
      requires Sorted(table) && hint <= |table| && chunk < |arena| && arena[chunk].load.len <= |arena[chunk].load.mappings|
      requires forall i :: 0 <= i < arena[chunk].load.len ==> Lookup(table, arena[chunk].load.mappings[i].addr).Some?
      modifies this`dump
      ensures dump == old(dump) + Lines(arena[chunk].load.mappings[..arena[chunk].load.len], table, resolve) && newHint <= |table|
    {
      hide Lines;
      newHint := hint;
      var i := 0;
      LinesNil(table, resolve);
      while i < arena[chunk].load.len
        invariant i <= arena[chunk].load.len && newHint <= |table|
        invariant dump == old(dump) + Lines(arena[chunk].load.mappings[..i], table, resolve)
      {
        var m, symbol := arena[chunk].load.mappings[i], None;
        symbol, newHint := FindSymbol(table, m.addr, newHint);
        var sym := table[symbol.value];
        dump := dump + [Line(resolve(m.mark), sym.line, sym.col, sym.filename)];
        LinesNext(arena[chunk].load.mappings, i, table, resolve);
        i := i + 1;
      }
    }

    /** Puts the first chunk of what is left of the list back into the pool. */
    method ReleaseChunk(chunk: nat, ghost rest: seq<nat>) returns (next: int)
      requires Conserved(arena, chunk, rest, pool, free) && GoodChunks(arena)
      modifies this`arena, this`pool, this`free
      ensures rest != [] && Conserved(arena, next, rest[1..], pool, free) && GoodChunks(arena) && |arena| == |old(arena)|
      ensures forall i :: 0 <= i < |arena| ==> arena[i].load.len == old(arena)[i].load.len && arena[i].load.mappings == old(arena)[i].load.mappings
    {
      Released(arena, chunk, rest, pool, free);
      hide Conserved;
      next := arena[chunk].next;
      arena := arena[chunk := arena[chunk].(next := pool)];
      pool := chunk;
      free := [chunk] + free;
    }

    /** The second pass: writes the lines of the log and puts its chunks back into the pool. */
    method WriteLines(table: Table, resolve: nat -> nat)
      requires Valid() && Sorted(table) && AllKnown(Log(), table)
      modifies this`arena, this`first, this`last, this`len, this`pool, this`dump, this`items, this`free
      ensures Valid() && items == [] && multiset(free) == multiset(Upto(|arena|)) && |arena| == |old(arena)|
      ensures dump == old(dump) + Lines(old(Log()), table, resolve)
      ensures Describe(dump[|old(dump)|..], old(Log()), table, resolve)
    {
      hide Contents;
      hide Lines;
      hide Packed;
      hide Conserved;
      ghost var arena0, items0, log := arena, items, Log();
      var hint: nat := 0;
      var itr := first;
      ghost var k := 0;
      assert items[0..] == items;
      LinesNil(table, resolve);
      NothingYet(arena, items, table, resolve);
      while itr != NULL
        invariant items == items0 && k <= |items| && hint <= |table| && GoodChunks(arena) && |arena| == |arena0|
        invariant Conserved(arena, itr, items[k..], pool, free)
        invariant forall i :: 0 <= i < |arena| ==> arena[i].load.len == arena0[i].load.len && arena[i].load.mappings == arena0[i].load.mappings
        invariant dump == old(dump) + Lines(Contents(arena0, items[..k]), table, resolve)
        decreases |items| - k
      {
        ListGoesOn(arena, itr, items[k..], pool, free);
        ChunkKnown(arena0, items, k, table);
        hint := WriteChunk(itr, table, resolve, hint);
        LinesJoin(arena0, items, k, table, resolve);
        assert items[k..][1..] == items[k + 1..];
        itr := ReleaseChunk(itr, items[k..]);
        k := k + 1;
      }
      ListGoesOn(arena, itr, items[k..], pool, free);
      assert items[..k] == items && items[k..] == [];
      first, last, len, items := NULL, NULL, 0, [];
      EmptyLog(arena);
      AllFree(arena, itr, items0[k..], pool, free);
      LinesDescribe(log, table, resolve);
      assert dump[|old(dump)|..] == Lines(log, table, resolve);
    }

    /** Writes the debug record of a block and empties the log.  What is announced in the header
        is what follows: the number of lines, and the size of the record in bytes. */
    method EndBlock(table: Table, resolve: nat -> nat, codeStart: nat, codeSize: nat)
      requires Valid() && Sorted(table) && AllKnown(Log(), table) && codeSize > 0
      modifies this`arena, this`first, this`last, this`len, this`pool, this`dump, this`items, this`free
      ensures Valid() && Log() == [] && |arena| == |old(arena)|
      ensures old(Log()) != [] ==> multiset(free) == multiset(Upto(|arena|))
      ensures if old(Log()) == [] then dump == old(dump) else
        var record := Record(old(Log()), table, resolve, codeStart, codeSize);
        && dump == old(dump) + record
        && record[0] == Header(Cut(TotalSize(record)), codeStart, |record| - 1) && |record| == |old(Log())| + 2
        && Describe(record[1..|record| - 1], old(Log()), table, resolve)
        && record[|record| - 1] == Line(codeStart + codeSize - 1, 0, 0, "")
    {
      hide Lines;
      hide Contents;
      if len > 0 {
        ghost var log, dump0 := Log(), dump;
        var size := MeasureRecord(table, resolve);
        dump := dump + [Header(size, codeStart, len + 1)];
        WriteLines(table, resolve);
        dump := dump + [Line(codeStart + codeSize - 1, 0, 0, "")];
        RecordSize(log, table, resolve, codeStart, codeSize);
        RecordEntries(log, table, resolve, codeStart, codeSize);
        assert dump == dump0 + Record(log, table, resolve, codeStart, codeSize);
        EmptyLog(arena);
      }
    }

    lemma ValidChain()
      requires Valid()
      ensures Chained(arena, first, items) && items[0..] == items && GoodChunks(arena)
    {
    }
  }

  /** A sum cut to 32 bits at every step. */
  lemma GrownBy(total: nat, name: nat)
    ensures Grown(Cut(total), name) == Cut(total + ENTRY_SIZE + name + 1)
  {
    ModSum(total, ENTRY_SIZE);
    ModSum(total + ENTRY_SIZE, name + 1);
  }

  lemma ModSum(a: nat, b: nat)
    ensures (a % SIZES + b) % SIZES == (a + b) % SIZES
  {
    ModUnique(a + b, SIZES, a / SIZES + (a % SIZES + b) / SIZES, (a % SIZES + b) % SIZES);
  }

  lemma LinesNil(table: Table, resolve: nat -> nat)
    ensures TotalSize(Lines([], table, resolve)) == 0
  {
  }

  lemma NothingYet(arena: seq<Chunk>, items: seq<nat>, table: Table, resolve: nat -> nat)
    ensures TotalSize(Lines(Contents(arena, items[..0]), table, resolve)) == 0
  {
  }

  /** The chunk a pass over the list has come to. */
  lemma OneMore(arena: seq<Chunk>, items: seq<nat>, k: nat)
    requires k <= |items| && exists head :: head != NULL && Chained(arena, head, items[k..])
    ensures k < |items|
  {
    assert items[k..] == [] <==> k == |items|;
  }

  lemma KnownAt(arena: seq<Chunk>, items: seq<nat>, k: nat, i: nat, table: Table)
    requires AllKnown(Contents(arena, items), table) && k < |items| && items[k] < |arena|
    requires i < arena[items[k]].load.len <= |arena[items[k]].load.mappings|
    ensures Lookup(table, arena[items[k]].load.mappings[i].addr).Some?
  {
    ContentsPrefix(arena, items, k + 1);
    assert items[..k + 1][..k] == items[..k];
    var before := Contents(arena, items[..k]);
    assert Contents(arena, items[..k + 1])[|before| + i] == arena[items[k]].load.mappings[i];
  }

  lemma {:induction false} ContentsPrefix(arena: seq<Chunk>, items: seq<nat>, k: nat)
    requires k <= |items|
    ensures Contents(arena, items[..k]) <= Contents(arena, items)
    decreases |items|
  {
    if k == |items| {
      assert items[..k] == items;
    } else {
      var n := |items| - 1;
      ContentsPrefix(arena, items[..n], k);
      assert items[..n][..k] == items[..k];
    }
  }

  lemma LinesNext(mappings: seq<Mapping>, i: nat, table: Table, resolve: nat -> nat)
    requires i < |mappings| && Lookup(table, mappings[i].addr).Some?
    ensures Lines(mappings[..i + 1], table, resolve) == Lines(mappings[..i], table, resolve) + [LineOf(mappings[i], table, resolve)]
    ensures TotalSize(Lines(mappings[..i + 1], table, resolve)) == TotalSize(Lines(mappings[..i], table, resolve))
      + ENTRY_SIZE + |table[Lookup(table, mappings[i].addr).value].filename| + 1
  {
    assert mappings[..i + 1][..i] == mappings[..i];
    var lines := Lines(mappings[..i], table, resolve);
    var line := LineOf(mappings[i], table, resolve);
    assert (lines + [line])[..|lines|] == lines;
  }

  lemma LinesJoin(arena: seq<Chunk>, items: seq<nat>, k: nat, table: Table, resolve: nat -> nat)
    requires k < |items| && items[k] < |arena| && GoodChunk(arena[items[k]])
    ensures var here := arena[items[k]].load.mappings[..arena[items[k]].load.len];
      Lines(Contents(arena, items[..k + 1]), table, resolve)
        == Lines(Contents(arena, items[..k]), table, resolve) + Lines(here, table, resolve)
      && TotalSize(Lines(Contents(arena, items[..k + 1]), table, resolve))
        == TotalSize(Lines(Contents(arena, items[..k]), table, resolve)) + TotalSize(Lines(here, table, resolve))
  {
    var here := arena[items[k]].load.mappings[..arena[items[k]].load.len];
    assert items[..k + 1][..k] == items[..k];
    LinesAdd(Contents(arena, items[..k]), here, table, resolve);
    TotalSizeAdds(Lines(Contents(arena, items[..k]), table, resolve), Lines(here, table, resolve));
  }

  lemma ChunkKnown(arena: seq<Chunk>, items: seq<nat>, k: nat, table: Table)
    requires AllKnown(Contents(arena, items), table) && k < |items| && items[k] < |arena| && GoodChunk(arena[items[k]])
    ensures forall i :: 0 <= i < arena[items[k]].load.len ==> Lookup(table, arena[items[k]].load.mappings[i].addr).Some?
  {
    forall i | 0 <= i < arena[items[k]].load.len ensures Lookup(table, arena[items[k]].load.mappings[i].addr).Some? {
      KnownAt(arena, items, k, i, table);
    }
  }

  /** Moving the first chunk of a list to the front of the pool loses none. */
  lemma Released(arena: seq<Chunk>, first: int, items: seq<nat>, pool: int, free: seq<nat>)
    requires Conserved(arena, first, items, pool, free) && first != NULL
    ensures items != [] && first == items[0] < |arena|
    ensures Conserved(arena[first := arena[first].(next := pool)], arena[first].next, items[1..], first, [first] + free)
  {
    hide Upto;
    Apart(items, free, |arena|);
    var arena' := arena[first := arena[first].(next := pool)];
    assert forall i :: 0 <= i < |items[1..]| ==> items[1..][i] == items[i + 1];
    ChainedFrame(arena, arena', arena[first].next, items[1..]);
    ChainedFrame(arena, arena', pool, free);
    assert ([items[0]] + free)[1..] == free;
    hide Chained;
    MovedOver(items, free);
  }

  lemma MovedOver(items: seq<nat>, free: seq<nat>)
    requires items != []
    ensures multiset(items[1..]) + multiset([items[0]] + free) == multiset(items) + multiset(free)
  {
    assert items == [items[0]] + items[1..];
  }

  lemma ListGoesOn(arena: seq<Chunk>, head: int, rest: seq<nat>, pool: int, free: seq<nat>)
    requires Conserved(arena, head, rest, pool, free)
    ensures head != NULL <==> rest != []
    ensures head != NULL ==> head == rest[0] < |arena|
  {
  }

  lemma AllFree(arena: seq<Chunk>, head: int, rest: seq<nat>, pool: int, free: seq<nat>)
    requires Conserved(arena, head, rest, pool, free) && rest == []
    ensures multiset(free) == multiset(Upto(|arena|)) && Conserved(arena, NULL, [], pool, free)
  {
    hide Upto;
  }

  lemma EmptyLog(arena: seq<Chunk>)
    ensures Packed(arena, []) && Contents(arena, []) == []
  {
  }

  lemma LastIs(arena: seq<Chunk>, first: int, items: seq<nat>, pool: int, free: seq<nat>)
    requires Conserved(arena, first, items, pool, free)
    ensures items != [] ==> items[|items| - 1] < |arena|
  {
    Apart(items, free, |arena|);
    assert items != [] ==> items[|items| - 1] in items;
  }

  lemma PackedFull(arena: seq<Chunk>, items: seq<nat>)
    requires Packed(arena, items) && (items == [] || arena[items[|items| - 1]].load.len == CHUNK_SIZE)
    ensures Full(arena, items)
  {
    if items != [] {
      var n := |items| - 1;
      assert items == items[..n] + [items[n]];
    }
  }

  lemma LastKnown(arena: seq<Chunk>, items: seq<nat>)
    requires Full(arena, items)
    ensures items != [] ==> LastOf(items) < |arena|
  {
    assert items != [] ==> items[|items| - 1] in items;
  }
}
