/** The compiler of one block as it works: stack caches, reference counts and emitted code are
    updated in place.  Every method is proved equal to the step of module Emission that
    describes it. */
module JitContext {
  import opened Target
  import opened Emission
  import opened Facts
  import Allocator
  import Uxn

  /** Cells of deferred pushes, the oldest first. */
  class StackCache {
    const cells: array<Cell>
    var len: nat

    ghost predicate Valid()
      reads this
    {
      cells.Length == CACHE_SIZE && len <= CACHE_SIZE
    }

    ghost function Contents(): seq<Cell>
      requires Valid()
      reads this, cells
    {
      cells[..len]
    }

    constructor ()
      ensures Valid() && Contents() == [] && fresh(cells)
    {
      cells := new Cell[CACHE_SIZE](_ => Cell(0, false, false));
      len := 0;
    }

    method Append(cell: Cell)
      requires Valid() && len < CACHE_SIZE
      modifies this, cells
      ensures Valid() && Contents() == old(Contents()) + [cell]
    {
      cells[len] := cell;
      len := len + 1;
    }

    method RemoveLast()
      requires Valid() && len > 0
      modifies this
      ensures Valid() && Contents() == old(Contents())[..old(len) - 1]
    {
      len := len - 1;
    }

    method Put(i: nat, cell: Cell)
      requires Valid() && i < len
      modifies cells
      ensures Valid() && Contents() == old(Contents())[i := cell]
    {
      cells[i] := cell;
    }

    /** Forgets the "n" oldest cells and moves the others down. */
    method RemoveFirst(n: nat)
      requires Valid() && n <= len
      modifies this, cells
      ensures Valid() && Contents() == old(Contents())[n..]
    {
      len := len - n;
      for i := 0 to len
        invariant len == old(len) - n && Valid()
        invariant forall j :: 0 <= j < i ==> cells[j] == old(cells[j + n])
        invariant forall j :: i <= j < CACHE_SIZE ==> cells[j] == old(cells[j])
      {
        cells[i] := cells[i + n];
      }
    }
  }

  class Context {
    var code: seq<Instr>
    var memBase: nat
    const regRefCounts: array<nat>
    const wstCache: StackCache
    const rstCache: StackCache
    var wspReg: Reg
    var rspReg: Reg
    var currentOpcode: nat
    // A violated assertion.
    var failed: bool
    // Observations for the proofs.
    ghost var sharedWrite: bool
    ghost var lateSpill: bool

    ghost predicate Valid()
      reads this, wstCache, rstCache
    {
      && regRefCounts.Length == NUM_OPS
      && wstCache != rstCache && wstCache.cells != rstCache.cells
      && wstCache.Valid() && rstCache.Valid()
    }

    ghost function State(): (e: Emitter)
      requires Valid()
      reads this, regRefCounts, wstCache, wstCache.cells, rstCache, rstCache.cells
      ensures e.opcode == currentOpcode && e.memBase == memBase && e.code == code && e.wspReg == wspReg && e.rspReg == rspReg
      ensures |e.Cache(false)| == wstCache.len && |e.Cache(true)| == rstCache.len
      ensures |e.refs| == NUM_OPS
    {
      Emitter(code, memBase, regRefCounts[..], wstCache.Contents(), rstCache.Contents(), wspReg, rspReg,
              currentOpcode, sharedWrite, lateSpill, failed)
    }

    constructor ()
      ensures Valid() && fresh(regRefCounts) && fresh(wstCache) && fresh(wstCache.cells) && fresh(rstCache) && fresh(rstCache.cells)
      ensures State() == Emitter([], 0, seq(NUM_OPS, i => 0), [], [], WSP, RSP, 0, false, false, false)
    {
      code, memBase, wspReg, rspReg, currentOpcode, failed := [], 0, WSP, RSP, 0, false;
      sharedWrite, lateSpill := false, false;
      regRefCounts := new nat[NUM_OPS](_ => 0);
      wstCache := new StackCache();
      rstCache := new StackCache();
    }

    function Cache(flagR: bool): StackCache
    {
      if flagR then rstCache else wstCache
    }

    method Emit(i: Instr)
      requires Valid()
      modifies this`code
      ensures Valid() && State() == old(State()).Emit(i)
    {
      code := code + [i];
    }

    /** Proof only: notes that a register is about to be changed in place. */
    ghost method Own(reg: Reg)
      requires Valid()
      modifies this`sharedWrite
      ensures Valid() && State() == old(State()).Own(reg)
    {
      if State().Count(reg) != 1 {
        sharedWrite := true;
      }
    }

    // ---- registers ----

    method FindFreeReg() returns (reg: Reg)
      requires Valid()
      ensures reg == FindFree(State().refs, 0)
    {
      for i := 0 to NUM_OPS
        invariant FindFree(State().refs, i) == FindFree(State().refs, 0)
      {
        if regRefCounts[i] == 0 {
          return OP_MIN + i;
        }
      }
      return 0;
    }

    method RetainReg(reg: Reg)
      requires Valid()
      modifies this`failed, regRefCounts
      ensures Valid() && State() == old(State()).Retain(reg)
    {
      if OP_MIN <= reg <= OP_MAX {
        regRefCounts[reg - OP_MIN] := regRefCounts[reg - OP_MIN] + 1;
      } else {
        failed := true;
      }
    }

    method ReleaseReg(reg: Reg)
      requires Valid()
      modifies this`failed, regRefCounts
      ensures Valid() && State() == old(State()).Release(reg)
    {
      if OP_MIN <= reg <= OP_MAX && regRefCounts[reg - OP_MIN] > 0 {
        regRefCounts[reg - OP_MIN] := regRefCounts[reg - OP_MIN] - 1;
      } else {
        failed := true;
      }
    }

    // ---- spilling ----

    method SetMemBase(base: nat)
      requires Valid()
      modifies this`code, this`memBase
      ensures Valid() && State() == old(State()).SetMemBase(base)
    {
      if memBase != base {
        Emit(Op2(Alu.ADD, MEM_BASE, R(VM), Imm(base)));
        memBase := base;
      }
    }

    method DoPush(cell: Cell, flagR: bool)
      requires Valid()
      modifies this`code, this`memBase
      ensures Valid() && State() == old(State()).DoPush(cell, flagR)
    {
      SetMemBase(StackBase(flagR));
      hide State;
      hide Emitter.SetMemBase;
      var sp := StackPtr(flagR);
      Emit(Op1(MOV_U8, R(MEM_OFFSET), R(sp)));
      if cell.isShort {
        Emit(Op2(Alu.LSHR, TMP, R(cell.reg), Imm(8)));
        Emit(Op1(MOV_U8, Mem, R(TMP)));
        Emit(Op2(Alu.ADD, sp, R(sp), Imm(1)));
        Emit(Op1(MOV_U8, R(MEM_OFFSET), R(sp)));
        Emit(Op2(Alu.AND, TMP, R(cell.reg), Imm(0xff)));
        Emit(Op1(MOV_U8, Mem, R(TMP)));
      } else {
        Emit(Op1(MOV_U8, Mem, R(cell.reg)));
      }
      Emit(Op2(Alu.ADD, sp, R(sp), Imm(1)));
    }

    // ---- cells ----

    function CacheLen(flagR: bool): (n: nat)
      requires Valid()
      reads this, wstCache, rstCache, regRefCounts, wstCache.cells, rstCache.cells
      ensures n == |State().Cache(flagR)|
    {
      Cache(flagR).len
    }

    function CellAt(flagR: bool, i: nat): (c: Cell)
      requires Valid() && i < CacheLen(flagR)
      reads this, wstCache, rstCache, regRefCounts, wstCache.cells, rstCache.cells
      ensures c == State().Cache(flagR)[i]
    {
      Cache(flagR).cells[i]
    }

    method AppendCell(flagR: bool, cell: Cell)
      requires Valid() && CacheLen(flagR) < CACHE_SIZE
      modifies wstCache, wstCache.cells, rstCache, rstCache.cells
      ensures Valid() && State() == old(State()).WithCache(flagR, old(State()).Cache(flagR) + [cell])
    {
      Cache(flagR).Append(cell);
    }

    method RemoveLastCell(flagR: bool)
      requires Valid() && CacheLen(flagR) > 0
      modifies wstCache, rstCache
      ensures Valid() && State() == old(State()).WithCache(flagR, old(State()).Cache(flagR)[..|old(State()).Cache(flagR)| - 1])
    {
      Cache(flagR).RemoveLast();
    }

    method PutCell(flagR: bool, i: nat, cell: Cell)
      requires Valid() && i < CacheLen(flagR)
      modifies wstCache.cells, rstCache.cells
      ensures Valid() && State() == old(State()).WithCache(flagR, old(State()).Cache(flagR)[i := cell])
    {
      Cache(flagR).Put(i, cell);
    }

    method RemoveFirstCells(flagR: bool, n: nat)
      requires Valid() && n <= CacheLen(flagR)
      modifies wstCache, wstCache.cells, rstCache, rstCache.cells
      ensures Valid() && State() == old(State()).WithCache(flagR, old(State()).Cache(flagR)[n..])
    {
      Cache(flagR).RemoveFirst(n);
    }

    // ---- the caches as a whole ----

    predicate FlagR()
      reads this
    {
      Uxn.FlagR(currentOpcode)
    }

    predicate FlagK()
      reads this
    {
      Uxn.FlagK(currentOpcode)
    }

    predicate Flag2()
      reads this
    {
      Uxn.Flag2(currentOpcode)
    }

    /** A violated assertion of the original. */
    method Fail()
      requires Valid()
      modifies this`failed
      ensures Valid() && State() == old(State()).(failed := true)
    {
      failed := true;
    }

    /** Writes out and forgets the oldest cell, if there is one. */
    method Spill(flagR: bool) returns (spilled: bool)
      requires Valid()
      modifies this, regRefCounts, wstCache, wstCache.cells, rstCache, rstCache.cells
      ensures Valid() && State() == old(State()).Spill(flagR)
      ensures spilled <==> old(State()).Cache(flagR) != []
      ensures !spilled ==> State() == old(State())
    {
      hide State;
      hide Emitter.DoPush;
      if CacheLen(flagR) == 0 {
        return false;
      }
      var cell := CellAt(flagR, 0);
      Allocator.DoPushBooks(State(), cell, flagR);
      if cell.needFlush {
        DoPush(cell, flagR);
      }
      ReleaseReg(cell.reg);
      RemoveFirstCells(flagR, 1);
      spilled := true;
    }

    method AllocReg() returns (reg: Reg)
      requires Valid()
      modifies this, regRefCounts, wstCache, wstCache.cells, rstCache, rstCache.cells
      ensures Valid() && (State(), reg) == old(State()).Alloc()
    {
      hide State;
      hide Emitter.Spill;
      hide Emitter.Retain;
      hide FindFree;
      reg := FindFreeReg();
      while reg == 0 && CacheLen(false) + CacheLen(true) > 0
        invariant Valid() && State().Alloc() == old(State()).Alloc() && reg == FindFree(State().refs, 0)
        decreases State().Cached()
      {
        // The current cache first, then the opposing one.
        var flagR := FlagR();
        var spilled := Spill(flagR);
        if !spilled {
          spilled := Spill(!flagR);
        }
        reg := FindFreeReg();
      }
      if reg == 0 {
        Fail();
      } else {
        RetainReg(reg);
      }
    }

    /** An allocation on behalf of a pop. */
    method AllocInPop() returns (reg: Reg)
      requires Valid()
      modifies this, regRefCounts, wstCache, wstCache.cells, rstCache, rstCache.cells
      ensures Valid() && (State(), reg) == old(State()).AllocInPop()
    {
      reg := AllocReg();
      if State().Cached() != old(State()).Cached() {
        NoteSpill();
      }
      hide State;
      hide Emitter.Alloc;
    }

    ghost method NoteSpill()
      requires Valid()
      modifies this`lateSpill
      ensures Valid() && State() == old(State()).(lateSpill := true)
    {
      lateSpill := true;
    }

    /** Writes out every cell that is not in memory yet. */
    method Flush(flagR: bool)
      requires Valid()
      modifies this, regRefCounts, wstCache, wstCache.cells, rstCache, rstCache.cells
      ensures Valid() && State() == old(State()).Flush(flagR, 0)
    {
      hide State;
      hide Emitter.DoPush;
      var i := 0;
      while i < CacheLen(flagR)
        invariant Valid() && State().Flush(flagR, i) == old(State()).Flush(flagR, 0)
        decreases CacheLen(flagR) - i
      {
        var cell := CellAt(flagR, i);
        if cell.needFlush {
          Allocator.DoPushBooks(State(), cell, flagR);
          DoPush(cell, flagR);
          PutCell(flagR, i, cell.(needFlush := false));
        }
        i := i + 1;
      }
    }

    method Clear(flagR: bool)
      requires Valid()
      modifies this, regRefCounts, wstCache, wstCache.cells, rstCache, rstCache.cells
      ensures Valid() && State() == old(State()).Clear(flagR)
    {
      hide State;
      hide Emitter.Spill;
      ghost var n := |State().Cache(flagR)|;
      var spilled := Spill(flagR);
      while spilled
        invariant Valid() && State().Clear(flagR) == old(State()).Clear(flagR)
        invariant !spilled ==> State().Cache(flagR) == []
        decreases State().Cached(), if spilled then 1 else 0
      {
        spilled := Spill(flagR);
      }
    }

    method ClearBoth()
      requires Valid()
      modifies this, regRefCounts, wstCache, wstCache.cells, rstCache, rstCache.cells
      ensures Valid() && State() == old(State()).ClearBoth()
    {
      hide State;
      hide Emitter.Clear;
      Clear(false);
      Clear(true);
    }

    /** Drops the cells that are in memory, and counts the registers of the others. */
    method RetainCache(flagR: bool)
      requires Valid()
      modifies this, regRefCounts, wstCache, wstCache.cells, rstCache, rstCache.cells
      ensures Valid() && State() == old(State()).RetainCache(flagR)
    {
      hide State;
      hide Emitter.Retain;
      ghost var cells := State().Cache(flagR);
      var numFlushed := 0;
      for i := 0 to CacheLen(flagR)
        invariant numFlushed == NumFlushed(cells[..i])
      {
        assert cells[..i + 1][..i] == cells[..i];
        if !CellAt(flagR, i).needFlush {
          numFlushed := numFlushed + 1;
        }
      }
      assert cells[..|cells|] == cells;
      RemoveFirstCells(flagR, numFlushed);
      var i := 0;
      while i < CacheLen(flagR)
        invariant Valid() && State().RetainFrom(flagR, i) == old(State()).RetainCache(flagR)
        decreases CacheLen(flagR) - i
      {
        RetainKeeps(State(), CellAt(flagR, i).reg, flagR);
        RetainReg(CellAt(flagR, i).reg);
        i := i + 1;
      }
    }

    method CachePush(flagR: bool, reg: Reg, isShort: bool)
      requires Valid()
      modifies this, regRefCounts, wstCache, wstCache.cells, rstCache, rstCache.cells
      ensures Valid() && State() == old(State()).CachePush(flagR, reg, isShort)
    {
      if CacheLen(flagR) >= CACHE_SIZE {
        var spilled := Spill(flagR);
      }
      assert CacheLen(flagR) < CACHE_SIZE by { SpillShrinks(old(State()), flagR); }
      hide State;
      hide Emitter.Spill;
      hide Emitter.Retain;
      AppendCell(flagR, Cell(reg, isShort, true));
      RetainReg(reg);
    }

    // ---- pops ----

    /** The register of the stack pointer that pops move. */
    function SpReg(flagR: bool): Reg
      reads this
    {
      if flagR then rspReg else wspReg
    }

    method ReadBack(reg: Reg, flag2: bool, flagR: bool)
      requires Valid()
      modifies this`code
      ensures Valid() && State() == old(State()).ReadBack(reg, flag2, flagR)
    {
      hide State;
      var sp := SpReg(flagR);
      Emit(Op2(Alu.SUB, sp, R(sp), Imm(1)));
      Emit(Op1(MOV_U8, R(MEM_OFFSET), R(sp)));
      Emit(Op1(MOV_U8, R(reg), Mem));
      if flag2 {
        Emit(Op2(Alu.SUB, sp, R(sp), Imm(1)));
        Emit(Op1(MOV_U8, R(MEM_OFFSET), R(sp)));
        Emit(Op1(MOV_U8, R(TMP), Mem));
        Emit(Op2(Alu.SHL, TMP, R(TMP), Imm(8)));
        Emit(Op2(Alu.OR, reg, R(reg), R(TMP)));
      }
    }

    method PopFromMem(flag2: bool, flagR: bool) returns (reg: Reg)
      requires Valid()
      modifies this, regRefCounts, wstCache, wstCache.cells, rstCache, rstCache.cells
      ensures Valid() && (State(), reg) == old(State()).PopFromMem(flag2, flagR)
    {
      hide State;
      hide Emitter.AllocInPop;
      hide Emitter.SetMemBase;
      hide Emitter.ReadBack;
      SetMemBase(StackBase(flagR));
      reg := AllocInPop();
      ReadBack(reg, flag2, flagR);
    }

    /** Pops a byte or a short.  The top cell is copied before a register is allocated: a spill
        moves the cells, and the slot it was in keeps its old contents. */
    method CachePop(flag2: bool, flagR: bool) returns (reg: Reg)
      requires Valid()
      modifies this, regRefCounts, wstCache, wstCache.cells, rstCache, rstCache.cells
      ensures Valid() && (State(), reg) == old(State()).CachePop(flag2, flagR)
      decreases flag2
    {
      hide State;
      hide Emitter.PopFromMem;
      if CacheLen(flagR) == 0 {
        reg := PopFromMem(flag2, flagR);
        return;
      }
      var top := CellAt(flagR, CacheLen(flagR) - 1);
      if flag2 {
        RemoveLastCell(flagR);
        if top.isShort {
          return top.reg;
        }
        hide Emitter.PopByte;
        var hi := CachePop(false, flagR);
        Own(hi);
        Emit(Op2(Alu.SHL, hi, R(hi), Imm(8)));
        Emit(Op2(Alu.OR, hi, R(hi), R(top.reg)));
        ReleaseReg(top.reg);
        return hi;
      } else if top.isShort {
        reg := Split(top, flagR);
      } else {
        RemoveLastCell(flagR);
        return top.reg;
      }
    }

    method Split(top: Cell, flagR: bool) returns (reg: Reg)
      requires Valid() && CacheLen(flagR) > 0 && top == CellAt(flagR, CacheLen(flagR) - 1)
      modifies this, regRefCounts, wstCache, wstCache.cells, rstCache, rstCache.cells
      ensures Valid() && (State(), reg) == old(State()).Split(flagR)
    {
      hide State;
      hide Emitter.PopFromMem;
      hide Emitter.AllocInPop;
      var n := CacheLen(flagR) - 1;
      reg := AllocInPop();
      if CacheLen(flagR) == 0 {
        ReleaseReg(reg);
        reg := PopFromMem(false, flagR);
      } else {
        Own(top.reg);
        Emit(Op1(MOV_U8, R(reg), R(top.reg)));
        Emit(Op2(Alu.LSHR, top.reg, R(top.reg), Imm(8)));
        if CacheLen(flagR) == n + 1 {
          PutCell(flagR, n, CellAt(flagR, n).(isShort := false));
        }
      }
    }

    method DiscardFromMem(flag2: bool, flagR: bool)
      requires Valid()
      modifies this`code
      ensures Valid() && State() == old(State()).DiscardFromMem(if flag2 then 2 else 1, flagR)
    {
      hide State;
      var sp := SpReg(flagR);
      Emit(Op2(Alu.SUB, sp, R(sp), Imm(if flag2 then 2 else 1)));
    }

    method CacheDiscard(flag2: bool, flagR: bool)
      requires Valid()
      modifies this, regRefCounts, wstCache, wstCache.cells, rstCache, rstCache.cells
      ensures Valid() && State() == old(State()).Discard(flag2, flagR)
      decreases flag2
    {
      hide State;
      if CacheLen(flagR) == 0 {
        DiscardFromMem(flag2, flagR);
        return;
      }
      var top := CellAt(flagR, CacheLen(flagR) - 1);
      if flag2 {
        RemoveLastCell(flagR);
        ReleaseReg(top.reg);
        if !top.isShort {
          hide Emitter.DiscardByte;
          CacheDiscard(false, flagR);
        }
      } else if top.isShort {
        Own(top.reg);
        Emit(Op2(Alu.LSHR, top.reg, R(top.reg), Imm(8)));
        PutCell(flagR, CacheLen(flagR) - 1, top.(isShort := false));
      } else {
        RemoveLastCell(flagR);
        ReleaseReg(top.reg);
      }
    }

    /** Defers the push of an operand the current opcode holds. */
    method PushReg(reg: Reg, isShort: bool, flagR: bool)
      requires Valid()
      modifies this, regRefCounts, wstCache, wstCache.cells, rstCache, rstCache.cells
      ensures Valid() && State() == old(State()).Push(reg, isShort, flagR)
    {
      var count := RefCount(reg);
      hide State;
      hide Emitter.CachePush;
      if count == 0 {
        Fail();
      } else {
        CachePush(flagR, reg, isShort);
      }
    }

    method RefCount(reg: Reg) returns (n: nat)
      requires Valid()
      ensures n == State().Count(reg)
    {
      n := if OP_MIN <= reg <= OP_MAX then regRefCounts[reg - OP_MIN] else 0;
    }

    // ---- the start of an opcode ----

    method ResetRefCounts()
      requires Valid()
      modifies regRefCounts
      ensures Valid() && State() == old(State()).(refs := seq(NUM_OPS, i => 0))
    {
      for i := 0 to NUM_OPS
        invariant forall j :: 0 <= j < i ==> regRefCounts[j] == 0
      {
        regRefCounts[i] := 0;
      }
      assert regRefCounts[..] == seq(NUM_OPS, i => 0);
    }

    method SetOpcode(op: nat)
      requires Valid()
      modifies this`currentOpcode
      ensures Valid() && State() == old(State()).(opcode := op)
    {
      currentOpcode := op;
    }

    method SetPointers(w: Reg, r: Reg)
      requires Valid()
      modifies this`wspReg, this`rspReg
      ensures Valid() && State() == old(State()).(wspReg := w, rspReg := r)
    {
      wspReg, rspReg := w, r;
    }

    method SetCode(newCode: seq<Instr>)
      requires Valid()
      modifies this`code
      ensures Valid() && State() == old(State()).(code := newCode)
    {
      code := newCode;
    }

    method ForgetMemBase()
      requires Valid()
      modifies this`memBase
      ensures Valid() && State() == old(State()).(memBase := 0)
    {
      memBase := 0;
    }

    /** Rebuilds the reference counts, and in keep mode gives the opcode copies of the stack
        pointers and writes out the current cache. */
    method Begin(op: nat)
      requires Valid()
      modifies this, regRefCounts, wstCache, wstCache.cells, rstCache, rstCache.cells
      ensures Valid() && State() == old(State()).Begin(op)
    {
      hide State;
      hide Emitter.RetainCache;
      hide Emitter.EnterKeep;
      hide Uxn.FlagK;
      ResetRefCounts();
      RetainCache(false);
      RetainCache(true);
      SetOpcode(op);
      if FlagK() {
        EnterKeep();
      } else {
        SetPointers(WSP, RSP);
      }
    }

    method EnterKeep()
      requires Valid()
      modifies this, regRefCounts, wstCache, wstCache.cells, rstCache, rstCache.cells
      ensures Valid() && State() == old(State()).EnterKeep()
    {
      hide State;
      hide Emitter.Alloc;
      hide Emitter.Flush;
      hide Uxn.FlagR;
      var flagR := FlagR();
      var w := AllocReg();
      var r := AllocReg();
      Emit(Op1(MOV_U8, R(w), R(WSP)));
      Emit(Op1(MOV_U8, R(r), R(RSP)));
      SetPointers(w, r);
      Flush(flagR);
    }
  }

  lemma RetainKeeps(e: Emitter, reg: Reg, r: bool)
    ensures e.Retain(reg).Cache(r) == e.Cache(r)
  {
  }

  lemma SpillShrinks(e: Emitter, r: bool)
    ensures |e.Spill(r).Cache(r)| == if e.Cache(r) == [] then 0 else |e.Cache(r)| - 1
  {
    if e.Cache(r) != [] {
      Allocator.DoPushBooks(e, e.Cache(r)[0], r);
      hide Emitter.DoPush;
    }
  }
}
