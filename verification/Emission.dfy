/** The code emitter as functions on values: the deferred-push stack caches, the operand
    register allocator and the emitters of the opcodes.  Class JitContext carries
    these steps out in place and is proved equal to them. */
module Emission {
  import opened Words
  import opened Target
  import Uxn

  const CACHE_SIZE: nat := 4
  const NUM_OPS: nat := OP_MAX - OP_MIN + 1

  predicate IsOp(reg: Reg) {
    OP_MIN <= reg <= OP_MAX
  }

  /** A value whose push is deferred: the register that holds it, its width, and whether its
      bytes still have to be written to the stack in memory. */
  datatype Cell = Cell(reg: Reg, isShort: bool, needFlush: bool)

  /** The first register nothing refers to, or 0. */
  function FindFree(refs: seq<nat>, from: nat): Reg
    decreases |refs| - from
  {
    if from >= |refs| then 0
    else if refs[from] == 0 then OP_MIN + from
    else FindFree(refs, from + 1)
  }

  function NumFlushed(cells: seq<Cell>): (n: nat)
    ensures n <= |cells|
  {
    if cells == [] then 0
    else NumFlushed(cells[..|cells| - 1]) + if cells[|cells| - 1].needFlush then 0 else 1
  }

  function StackBase(r: bool): nat {
    if r then RS_BASE else WS_BASE
  }

  function StackPtr(r: bool): Reg {
    if r then RSP else WSP
  }

  function Mask(short: bool): Loc {
    Imm(if short then 0xffff else 0xff)
  }

  /** The emitter's state.  "failed" records a violated assertion of the original.
      "sharedWrite" and "lateSpill" are observations only: the first is set when a register
      with several holders is changed in place, the second when an allocation made by a pop
      had to spill. */
  datatype Emitter = Emitter(
    code: seq<Instr>, memBase: nat, refs: seq<nat>,
    wcache: seq<Cell>, rcache: seq<Cell>, wspReg: Reg, rspReg: Reg,
    opcode: nat, sharedWrite: bool, lateSpill: bool, failed: bool)
  {
    predicate Hazard() {
      sharedWrite || lateSpill
    }

    /** Code is only ever appended, and what has been observed stays observed. */
    predicate Grows(e': Emitter) {
      code <= e'.code && (sharedWrite ==> e'.sharedWrite) && (lateSpill ==> e'.lateSpill)
    }

    function Emit(i: Instr): (e: Emitter)
      ensures forall m {:trigger Exec(e.code, m)} :: Exec(e.code, m) == Step(i, Exec(code, m))
    {
      assert (code + [i])[..|code|] == code;
      this.(code := code + [i])
    }

    function Cache(r: bool): seq<Cell> {
      if r then rcache else wcache
    }

    function WithCache(r: bool, cells: seq<Cell>): Emitter {
      if r then this.(rcache := cells) else this.(wcache := cells)
    }

    function Cached(): nat {
      |wcache| + |rcache|
    }

    function SpReg(r: bool): Reg {
      if r then rspReg else wspReg
    }

    // ---- registers ----

    function Count(reg: Reg): nat {
      if IsOp(reg) && reg - OP_MIN < |refs| then refs[reg - OP_MIN] else 0
    }

    function Retain(reg: Reg): (e': Emitter)
      ensures Grows(e')
    {
      if IsOp(reg) && reg - OP_MIN < |refs|
      then this.(refs := refs[reg - OP_MIN := refs[reg - OP_MIN] + 1])
      else this.(failed := true)
    }

    function Release(reg: Reg): (e': Emitter)
      ensures Grows(e')
    {
      if Count(reg) > 0
      then this.(refs := refs[reg - OP_MIN := refs[reg - OP_MIN] - 1])
      else this.(failed := true)
    }

    /** Notes that "reg" is about to be changed in place. */
    function Own(reg: Reg): (e': Emitter)
      ensures Grows(e')
    {
      if Count(reg) == 1 then this else this.(sharedWrite := true)
    }

    function Alloc(): (p: (Emitter, Reg))
      ensures Grows(p.0)
      decreases Cached()
    {
      var reg := FindFree(refs, 0);
      if reg != 0 then (Retain(reg), reg)
      else if Cached() == 0 then (this.(failed := true), 0)
      else
        var first := Uxn.FlagR(opcode);
        Spill(if Cache(first) != [] then first else !first).Alloc()
    }

    /** Allocation on behalf of a pop. */
    function AllocInPop(): (p: (Emitter, Reg))
      ensures Grows(p.0)
    {
      var (e, reg) := Alloc();
      (if e.Cached() == Cached() then e else e.(lateSpill := true), reg)
    }

    // ---- stack caches ----

    function SetMemBase(base: nat): (e': Emitter)
      ensures Grows(e')
    {
      if memBase != base
      then Emit(Op2(Alu.ADD, MEM_BASE, R(VM), Imm(base))).(memBase := base)
      else this
    }

    function DoPush(cell: Cell, r: bool): (e': Emitter)
      ensures Grows(e')
      ensures e'.wcache == wcache && e'.rcache == rcache
    {
      var sp := StackPtr(r);
      var e := SetMemBase(StackBase(r));
      if cell.isShort then
        e.Emit(Op1(MOV_U8, R(MEM_OFFSET), R(sp)))
         .Emit(Op2(Alu.LSHR, TMP, R(cell.reg), Imm(8)))
         .Emit(Op1(MOV_U8, Mem, R(TMP)))
         .Emit(Op2(Alu.ADD, sp, R(sp), Imm(1)))
         .Emit(Op1(MOV_U8, R(MEM_OFFSET), R(sp)))
         .Emit(Op2(Alu.AND, TMP, R(cell.reg), Imm(0xff)))
         .Emit(Op1(MOV_U8, Mem, R(TMP)))
         .Emit(Op2(Alu.ADD, sp, R(sp), Imm(1)))
      else
        e.Emit(Op1(MOV_U8, R(MEM_OFFSET), R(sp)))
         .Emit(Op1(MOV_U8, Mem, R(cell.reg)))
         .Emit(Op2(Alu.ADD, sp, R(sp), Imm(1)))
    }

    /** Writes out and forgets the oldest cell. */
    function Spill(r: bool): (e': Emitter)
      ensures Grows(e')
      ensures Cache(r) != [] ==> e'.Cached() == Cached() - 1
    {
      var cells := Cache(r);
      if cells == [] then this
      else
        var e := if cells[0].needFlush then DoPush(cells[0], r) else this;
        e.Release(cells[0].reg).WithCache(r, cells[1..])
    }

    /** Writes out every cell from index "from" on, keeping it in the cache. */
    function Flush(r: bool, from: nat): (e': Emitter)
      ensures Grows(e')
      decreases |Cache(r)| - from
    {
      var cells := Cache(r);
      if from >= |cells| then this
      else if !cells[from].needFlush then Flush(r, from + 1)
      else DoPush(cells[from], r).WithCache(r, cells[from := cells[from].(needFlush := false)]).Flush(r, from + 1)
    }

    function Clear(r: bool): (e': Emitter)
      ensures Grows(e')
      decreases |Cache(r)|
    {
      if Cache(r) == [] then this else Spill(r).Clear(r)
    }

    function ClearBoth(): (e': Emitter)
      ensures Grows(e')
    {
      Clear(false).Clear(true)
    }

    function RetainFrom(r: bool, from: nat): (e': Emitter)
      ensures Grows(e')
      decreases |Cache(r)| - from
    {
      if from >= |Cache(r)| then this else Retain(Cache(r)[from].reg).RetainFrom(r, from + 1)
    }

    /** Drops as many of the oldest cells as there are flushed cells, and counts the rest. */
    function RetainCache(r: bool): (e': Emitter)
      ensures Grows(e')
    {
      WithCache(r, Cache(r)[NumFlushed(Cache(r))..]).RetainFrom(r, 0)
    }

    function CachePush(r: bool, reg: Reg, short: bool): (e': Emitter)
      ensures Grows(e')
    {
      var e := if |Cache(r)| >= CACHE_SIZE then Spill(r) else this;
      e.WithCache(r, e.Cache(r) + [Cell(reg, short, true)]).Retain(reg)
    }

    /** Moves the opcode's stack pointer down and reads the value it passes over. */
    function ReadBack(reg: Reg, short: bool, r: bool): (e': Emitter)
      ensures Grows(e')
    {
      var sp := SpReg(r);
      var e1 := Emit(Op2(Alu.SUB, sp, R(sp), Imm(1)))
               .Emit(Op1(MOV_U8, R(MEM_OFFSET), R(sp)))
               .Emit(Op1(MOV_U8, R(reg), Mem));
      if !short then e1
      else
        e1.Emit(Op2(Alu.SUB, sp, R(sp), Imm(1)))
          .Emit(Op1(MOV_U8, R(MEM_OFFSET), R(sp)))
          .Emit(Op1(MOV_U8, R(TMP), Mem))
          .Emit(Op2(Alu.SHL, TMP, R(TMP), Imm(8)))
          .Emit(Op2(Alu.OR, reg, R(reg), R(TMP)))
    }

    function PopFromMem(short: bool, r: bool): (p: (Emitter, Reg))
      ensures Grows(p.0)
    {
      var (e, reg) := SetMemBase(StackBase(r)).AllocInPop();
      (e.ReadBack(reg, short, r), reg)
    }

    /** Splits the short on top: its low byte goes to a new register, its high byte stays.
        A spill during the allocation shifts the cells, and the cell that is then marked as a
        byte is no longer part of the cache. */
    function Split(r: bool): (p: (Emitter, Reg))
      ensures Grows(p.0)
      requires Cache(r) != []
    {
      var cells := Cache(r);
      var n := |cells| - 1;
      var (e, reg) := AllocInPop();
      if e.Cache(r) == [] then e.Release(reg).PopFromMem(false, r)
      else
        var e1 := e.Own(cells[n].reg)
                   .Emit(Op1(MOV_U8, R(reg), R(cells[n].reg)))
                   .Emit(Op2(Alu.LSHR, cells[n].reg, R(cells[n].reg), Imm(8)));
        (if |e1.Cache(r)| == n + 1 then e1.WithCache(r, e1.Cache(r)[n := e1.Cache(r)[n].(isShort := false)]) else e1, reg)
    }

    function PopByte(r: bool): (p: (Emitter, Reg))
      ensures Grows(p.0)
    {
      var cells := Cache(r);
      if cells == [] then PopFromMem(false, r)
      else
        var top := cells[|cells| - 1];
        if top.isShort then Split(r) else (WithCache(r, cells[..|cells| - 1]), top.reg)
    }

    /** Joins the byte held by "low" with the byte below it. */
    function JoinBelow(r: bool, low: Reg): (p: (Emitter, Reg))
      ensures Grows(p.0)
    {
      var (e, hi) := PopByte(r);
      (e.Own(hi)
        .Emit(Op2(Alu.SHL, hi, R(hi), Imm(8)))
        .Emit(Op2(Alu.OR, hi, R(hi), R(low)))
        .Release(low), hi)
    }

    function PopShort(r: bool): (p: (Emitter, Reg))
      ensures Grows(p.0)
    {
      var cells := Cache(r);
      if cells == [] then PopFromMem(true, r)
      else
        var top := cells[|cells| - 1];
        var e := WithCache(r, cells[..|cells| - 1]);
        if top.isShort then (e, top.reg) else e.JoinBelow(r, top.reg)
    }

    function CachePop(short: bool, r: bool): (p: (Emitter, Reg))
      ensures Grows(p.0)
    {
      if short then PopShort(r) else PopByte(r)
    }

    function DiscardFromMem(n: nat, r: bool): (e': Emitter)
      ensures Grows(e')
    {
      Emit(Op2(Alu.SUB, SpReg(r), R(SpReg(r)), Imm(n)))
    }

    function DiscardByte(r: bool): (e': Emitter)
      ensures Grows(e')
    {
      var cells := Cache(r);
      if cells == [] then DiscardFromMem(1, r)
      else
        var n := |cells| - 1;
        var top := cells[n];
        if top.isShort then
          Own(top.reg).Emit(Op2(Alu.LSHR, top.reg, R(top.reg), Imm(8)))
                      .WithCache(r, cells[n := top.(isShort := false)])
        else WithCache(r, cells[..n]).Release(top.reg)
    }

    function Discard(short: bool, r: bool): (e': Emitter)
      ensures Grows(e')
    {
      if !short then DiscardByte(r)
      else
        var cells := Cache(r);
        if cells == [] then DiscardFromMem(2, r)
        else
          var top := cells[|cells| - 1];
          var e := WithCache(r, cells[..|cells| - 1]).Release(top.reg);
          if top.isShort then e else e.DiscardByte(r)
    }

    /** Push of an operand the current opcode holds. */
    function Push(reg: Reg, short: bool, r: bool): (e': Emitter)
      ensures Grows(e')
    {
      if Count(reg) == 0 then this.(failed := true) else CachePush(r, reg, short)
    }

    // ---- memory access ----

    function LoadTo(reg: Reg, addr: Reg, wide: bool, short: bool): (e': Emitter)
      ensures Grows(e')
    {
      var e := SetMemBase(RAM_BASE)
                 .Emit(Op1(MOV_U16, R(MEM_OFFSET), R(addr)))
                 .Emit(Op1(MOV_U8, R(reg), Mem));
      if !short then e
      else
        e.Emit(Op2(Alu.SHL, reg, R(reg), Imm(8)))
         .Emit(Op2(Alu.ADD, MEM_OFFSET, R(MEM_OFFSET), Imm(1)))
         .Emit(Op2(Alu.AND, MEM_OFFSET, R(MEM_OFFSET), Mask(wide)))
         .Emit(Op1(MOV_U8, R(TMP), Mem))
         .Emit(Op2(Alu.OR, reg, R(reg), R(TMP)))
    }

    function StoreFrom(reg: Reg, addr: Reg, wide: bool, short: bool): (e': Emitter)
      ensures Grows(e')
    {
      var e := SetMemBase(RAM_BASE).Emit(Op1(MOV_U16, R(MEM_OFFSET), R(addr)));
      if !short then e.Emit(Op1(MOV_U8, Mem, R(reg)))
      else
        e.Emit(Op2(Alu.LSHR, TMP, R(reg), Imm(8)))
         .Emit(Op1(MOV_U8, Mem, R(TMP)))
         .Emit(Op2(Alu.ADD, MEM_OFFSET, R(MEM_OFFSET), Imm(1)))
         .Emit(Op2(Alu.AND, MEM_OFFSET, R(MEM_OFFSET), Mask(wide)))
         .Emit(Op1(MOV_U8, Mem, R(reg)))
    }

    /** Loads the literal at "pc" into a new register. */
    function Immediate(pc: nat, short: bool): (p: (Emitter, Reg))
      ensures Grows(p.0)
    {
      var (e, reg) := Alloc();
      (e.LiteralTo(reg, pc, short), reg)
    }

    function LiteralTo(reg: Reg, pc: nat, short: bool): (e': Emitter)
      ensures Grows(e')
    {
      var e := SetMemBase(RAM_BASE).Emit(Op1(MOV_U16, R(MEM_OFFSET), Imm(pc)));
      if !short then e.Emit(Op1(MOV_U8, R(reg), Mem))
      else if pc < 0xffff then e.Emit(LoadU16(reg)).Emit(RevU16(reg))
      else
        e.Emit(Op1(MOV_U8, R(reg), Mem))
         .Emit(Op2(Alu.SHL, reg, R(reg), Imm(8)))
         .Emit(Op1(MOV_U16, R(MEM_OFFSET), Imm(pc + 1)))
         .Emit(Op1(MOV_U8, R(TMP), Mem))
         .Emit(Op2(Alu.OR, reg, R(reg), R(TMP)))
    }

    /** Turns the signed byte in "reg" into an address relative to "pc". */
    function Relative(reg: Reg, pc: nat): (e': Emitter)
      ensures Grows(e')
    {
      Own(reg).Emit(Op1(MOV_S8, R(reg), R(reg))).Emit(Op2(Alu.ADD, reg, R(reg), Imm(pc)))
    }

    // ---- opcodes ----

    /** What happens before every opcode: the reference counts are rebuilt from the cells that
        are still to be written, and in keep mode the opcode gets copies of the stack pointers
        while the current cache is written out. */
    function Begin(op: nat): (e': Emitter)
      ensures Grows(e')
    {
      var e := this.(refs := seq(NUM_OPS, i => 0)).RetainCache(false).RetainCache(true).(opcode := op);
      if Uxn.FlagK(op) then e.EnterKeep() else e.(wspReg := WSP, rspReg := RSP)
    }

    function EnterKeep(): (e': Emitter)
      ensures Grows(e')
    {
      var (e1, w) := Alloc();
      var (e2, r) := e1.Alloc();
      e2.Emit(Op1(MOV_U8, R(w), R(WSP)))
        .Emit(Op1(MOV_U8, R(r), R(RSP)))
        .(wspReg := w, rspReg := r)
        .Flush(Uxn.FlagR(opcode), 0)
    }

    function Calculate(op: Uxn.Op, c: Reg, a: Reg, b: Reg, short: bool): (e': Emitter)
      ensures Grows(e')
    {
      match op
      case Add => Emit(Op2(Alu.ADD, c, R(a), R(b))).Emit(Op2(Alu.AND, c, R(c), Mask(short)))
      case Sub => Emit(Op2(Alu.SUB, c, R(a), R(b))).Emit(Op2(Alu.AND, c, R(c), Mask(short)))
      case Mul => Emit(Op2(Alu.MUL, c, R(a), R(b))).Emit(Op2(Alu.AND, c, R(c), Mask(short)))
      case And => Emit(Op2(Alu.AND, c, R(a), R(b)))
      case Ora => Emit(Op2(Alu.OR, c, R(a), R(b)))
      case Eor => Emit(Op2(Alu.XOR, c, R(a), R(b)))
      case Div =>
        Emit(IfZero(b,
          [Op1(MOV, R(c), Imm(0))],
          [Op1(MOV, R(TMP), R(MEM_BASE)), Op1(MOV, R(MEM_BASE), R(a)), Op1(MOV, R(MEM_OFFSET), R(b)),
           DivUW, Op1(MOV, R(c), R(MEM_BASE)), Op1(MOV, R(MEM_BASE), R(TMP))]))
      case _ =>
        Emit(Op2(Alu.AND, TMP, R(b), Imm(0x0f)))
        .Emit(Op2(Alu.LSHR, c, R(a), R(TMP)))
        .Emit(Op2(Alu.LSHR, TMP, R(b), Imm(4)))
        .Emit(Op2(Alu.SHL, c, R(c), R(TMP)))
        .Emit(Op2(Alu.AND, c, R(c), Mask(short)))
    }

    function Condition(op: Uxn.Op): Cond {
      match op
      case Equ => EQUAL
      case Neq => NOT_EQUAL
      case Gth => GREATER
      case _ => LESS
    }

    function Comparison(op: Uxn.Op, short: bool, r: bool): (e': Emitter)
      ensures Grows(e')
    {
      var (e1, b) := CachePop(short, r);
      var (e2, a) := e1.CachePop(short, r);
      var (e3, c) := e2.Alloc();
      e3.Emit(Compare(a, b)).Emit(SetFlag(c, Condition(op))).Push(c, false, r)
    }

    function Arithmetic(op: Uxn.Op, short: bool, r: bool): (e': Emitter)
      ensures Grows(e')
    {
      var (e1, b) := CachePop(short && op != Uxn.Sft, r);
      var (e2, a) := e1.CachePop(short, r);
      var (e3, c) := e2.Alloc();
      e3.Calculate(op, c, a, b, short).Push(c, short, r)
    }

    /** Loads: zero-page, relative to "pc", or absolute. */
    function LoadOp(op: Uxn.Op, pc: nat, short: bool, r: bool): (e': Emitter)
      ensures Grows(e')
    {
      var (e1, addr) := CachePop(op.Lda?, r);
      var (e2, v) := (if op.Ldr? then e1.Relative(addr, pc) else e1).Alloc();
      e2.LoadTo(v, addr, !op.Ldz?, short).Push(v, short, r)
    }

    function StoreOp(op: Uxn.Op, pc: nat, short: bool, r: bool): (e': Emitter)
      ensures Grows(e')
    {
      var (e1, addr) := CachePop(op.Sta?, r);
      var (e2, v) := e1.CachePop(short, r);
      (if op.Str? then e2.Relative(addr, pc) else e2).StoreFrom(v, addr, !op.Stz?, short)
    }

    /** The opcodes that neither jump nor talk to a device.  "pc" is the address after the opcode. */
    function Plain(pc: nat): (e': Emitter)
      ensures Grows(e')
    {
      var r, k, short := Uxn.FlagR(opcode), Uxn.FlagK(opcode), Uxn.Flag2(opcode);
      var op := Uxn.OpOf(opcode);
      match op
      case Lit => var (e, lit) := Immediate(pc, short); e.Push(lit, short, r)
      case Inc =>
        var (e, a) := CachePop(short, r);
        e.Own(a).Emit(Op2(Alu.ADD, a, R(a), Imm(1))).Emit(Op2(Alu.AND, a, R(a), Mask(short))).Push(a, short, r)
      case Pop => if k then this else Discard(short, r)
      case Nip =>
        var (e, b) := CachePop(short, r);
        (if k then e else e.Discard(short, r)).Push(b, short, r)
      case Swp =>
        var (e1, b) := CachePop(short, r);
        var (e2, a) := e1.CachePop(short, r);
        e2.Push(b, short, r).Push(a, short, r)
      case Rot =>
        var (e1, c) := CachePop(short, r);
        var (e2, b) := e1.CachePop(short, r);
        var (e3, a) := e2.CachePop(short, r);
        e3.Push(b, short, r).Push(c, short, r).Push(a, short, r)
      case Dup =>
        var (e, a) := CachePop(short, r);
        e.Push(a, short, r).Push(a, short, r)
      case Ovr =>
        var (e1, b) := CachePop(short, r);
        var (e2, a) := e1.CachePop(short, r);
        e2.Push(a, short, r).Push(b, short, r).Push(a, short, r)
      case Equ | Neq | Gth | Lth => Comparison(op, short, r)
      case Sth => var (e, a) := CachePop(short, r); e.Push(a, short, !r)
      case Ldz | Ldr | Lda => LoadOp(op, pc, short, r)
      case Stz | Str | Sta => StoreOp(op, pc, short, r)
      case Add | Sub | Mul | Div | And | Ora | Eor | Sft => Arithmetic(op, short, r)
      case _ => this
    }
  }

  predicate IsPlain(op: Uxn.Op) {
    !(op.Brk? || op.Jci? || op.Jmi? || op.Jsi? || op.Jmp? || op.Jcn? || op.Jsr? || op.Dei? || op.Deo?)
  }
}
