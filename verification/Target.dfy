/** The machine the compiler emits code for: twelve registers, the two operand stacks, the device
    page and the 64 KiB main memory of the virtual machine, and the few instructions the compiler
    uses.  Memory is reached only through "base register plus offset register". */
module Target {
  import opened Words
  import Devices

  type Reg = nat

  // Register numbering.
  const MEM_BASE: Reg := 0
  const MEM_OFFSET: Reg := 1
  const TMP: Reg := 2
  const OP_MIN: Reg := 3
  const OP_MAX: Reg := 8
  const VM: Reg := 9
  const WSP: Reg := 10
  const RSP: Reg := 11
  const NUM_REGS: nat := 12

  // Offsets of the regions inside the virtual machine's record.
  // Only their being distinct and non-zero matters.
  const WS_BASE: nat := 0x100
  const RS_BASE: nat := 0x200
  const DEV_BASE: nat := 0x300
  const RAM_BASE: nat := 0x400

  /** How control has left the emitted code, if it has. */
  datatype Exit =
    | Running
    | Returned(target: nat)              // a return to the calling frame or the trampoline
    | Jumped(target: nat)                // a linked jump to the body of a block
    | Called(callee: nat, ret: nat)      // a native call of the head of a block

  ghost predicate AreBytes(s: seq<nat>) {
    forall i :: 0 <= i < |s| ==> s[i] < 256
  }

  datatype Machine = Machine(
    regs: seq<nat>, ws: seq<nat>, rs: seq<nat>, ram: seq<nat>,
    order: int,                          // flags: sign of the last comparison
    fault: bool,                         // an access fell outside every region
    exit: Exit,
    io: Devices.Io)
  {
    ghost predicate Shaped() {
      && |regs| == NUM_REGS && |ws| == 256 && |rs| == 256 && |ram| == 0x1_0000
      && AreBytes(ws) && AreBytes(rs) && AreBytes(ram) && io.Shaped()
    }

    function Get(r: Reg): nat {
      if r < |regs| then regs[r] else 0
    }

    function Set(r: Reg, v: nat): Machine {
      if r < |regs| then this.(regs := regs[r := v]) else this
    }
  }

  datatype Loc = R(reg: Reg) | Imm(value: nat) | Mem
  datatype Mov = MOV | MOV_U8 | MOV_U16 | MOV_S8
  datatype Alu = ADD | SUB | MUL | AND | OR | XOR | SHL | LSHR
  datatype Cond = EQUAL | NOT_EQUAL | GREATER | LESS

  datatype Instr =
    | Op1(mov: Mov, dst: Loc, src: Loc)
    | Op2(alu: Alu, d: Reg, a: Loc, b: Loc)
    | Compare(x: Reg, y: Reg)
    | SetFlag(d: Reg, cond: Cond)
    | LoadU16(d: Reg)                    // unaligned little-endian load
    | RevU16(d: Reg)
    | DivUW                              // R0 := R0 / R1
    | IfZero(x: Reg, zero: seq<Instr>, nonzero: seq<Instr>)
    | UnlessLowByteZero(x: Reg, body: seq<Instr>)
    | IfEqual(x: Reg, value: nat, body: seq<Instr>)
    | CallDevice(isInput: bool, short: bool)
    | Leave(src: Loc)                    // return from the native function
    | JumpBody(target: nat)              // linked jump
    | JumpBodyIfEqual(x: Reg, target: nat)
    | CallHead(target: nat, ret: nat)    // linked native call; "ret" is compared with what comes back

  /** The byte region selected by the base register. */
  datatype Region = Ws | Rs | Dev | Ram | Nowhere

  function Address(vm: nat, base: nat): nat {
    (vm + base) % WORD
  }

  function Selected(m: Machine): Region {
    if m.Get(MEM_BASE) == Address(m.Get(VM), WS_BASE) then Ws
    else if m.Get(MEM_BASE) == Address(m.Get(VM), RS_BASE) then Rs
    else if m.Get(MEM_BASE) == Address(m.Get(VM), DEV_BASE) then Dev
    else if m.Get(MEM_BASE) == Address(m.Get(VM), RAM_BASE) then Ram
    else Nowhere
  }

  function Bytes(m: Machine, region: Region): seq<nat> {
    match region
    case Ws => m.ws
    case Rs => m.rs
    case Dev => m.io.page
    case Ram => m.ram
    case Nowhere => []
  }

  /** True when an access of "size" bytes at the current base and offset stays in its region. */
  predicate InReach(m: Machine, size: nat) {
    m.Get(MEM_OFFSET) + size <= |Bytes(m, Selected(m))|
  }

  function Load(m: Machine): nat {
    if InReach(m, 1) then Bytes(m, Selected(m))[m.Get(MEM_OFFSET)] else 0
  }

  function Store(m: Machine, v: nat): Machine {
    if !InReach(m, 1) then m.(fault := true)
    else
      var at := m.Get(MEM_OFFSET);
      match Selected(m)
      case Ws => m.(ws := m.ws[at := v % 256])
      case Rs => m.(rs := m.rs[at := v % 256])
      case Dev => m.(io := m.io.(page := m.io.page[at := v % 256]))
      case Ram => m.(ram := m.ram[at := v % 256])
      case Nowhere => m
  }

  function Value(m: Machine, loc: Loc): nat {
    match loc
    case R(r) => m.Get(r)
    case Imm(v) => v
    case Mem => Load(m)
  }

  function Touch(m: Machine, loc: Loc): Machine {
    if loc.Mem? && !InReach(m, 1) then m.(fault := true) else m
  }

  function Moved(mov: Mov, v: nat): nat {
    match mov
    case MOV => v
    case MOV_U8 => v % 256
    case MOV_U16 => v % 0x1_0000
    case MOV_S8 => SignExtend8(v)
  }

  function Shl(v: nat, n: nat): nat {
    (v * Pow2(n)) % WORD
  }

  function Lshr(v: nat, n: nat): nat {
    Quotient(v, Pow2(n))
  }

  function Calc(alu: Alu, a: nat, b: nat): nat {
    match alu
    case ADD => (a + b) % WORD
    case SUB => (a - b) % WORD
    case MUL => (a * b) % WORD
    case AND => And(a, b)
    case OR => Or(a, b)
    case XOR => Xor(a, b)
    case SHL => Shl(a, b)
    case LSHR => Lshr(a, b)
  }

  predicate Satisfies(order: int, cond: Cond) {
    match cond
    case EQUAL => order == 0
    case NOT_EQUAL => order != 0
    case GREATER => order > 0
    case LESS => order < 0
  }

  /** The helpers behind the device opcodes: one request, or two at successive ports, of which
      the first yields the high byte. */
  function Helped(m: Machine, isInput: bool, port: nat, short: bool): Devices.Reply {
    match Devices.Ask(m.io, m.ram, isInput, port)
    case Silence => Devices.Silence
    case Reply(io, ram, hi, junk) =>
      if !short then Devices.Reply(io, ram, hi, junk)
      else
        match Devices.Ask(io, ram, isInput, (port + 1) % 256)
        case Silence => Devices.Silence
        case Reply(io', ram', lo, junk') => Devices.Reply(io', ram', hi * 256 + lo, junk')
  }

  /** A call keeps the registers that hold the virtual machine and its pointers, and returns
      its result in the first one; what it leaves in the others is not known. */
  function Clobbered(regs: seq<nat>, value: nat, junk: seq<nat>): seq<nat> {
    seq(|regs|, i requires 0 <= i < |regs| => if i == 0 then value else if i >= VM then regs[i] else if i < |junk| then junk[i] else 0)
  }

  /** A device is called with the virtual machine and the port in the first two registers. */
  function DeviceCall(m: Machine, isInput: bool, short: bool): Machine {
    if m.Get(MEM_BASE) != m.Get(VM) then m.(fault := true)
    else
      match Helped(m, isInput, m.Get(MEM_OFFSET) % 256, short)
      case Silence => m.(fault := true)
      case Reply(io, ram, value, junk) => m.(io := io, ram := ram, regs := Clobbered(m.regs, value, junk))
  }

  /** One instruction.  Once control has left, nothing further happens. */
  function Step(i: Instr, m: Machine): Machine
    decreases i
  {
    if m.exit != Running then m else
    match i
    case Op1(mov, dst, src) =>
      var v := Moved(mov, Value(m, src));
      var m' := Touch(m, src);
      (match dst
       case R(r) => m'.Set(r, v)
       case Imm(_) => m'
       case Mem => Store(m', v))
    case Op2(alu, d, a, b) => m.Set(d, Calc(alu, Value(m, a), Value(m, b)))
    case Compare(x, y) => m.(order := m.Get(x) - m.Get(y))
    case SetFlag(d, cond) => m.Set(d, if Satisfies(m.order, cond) then 1 else 0)
    case LoadU16(d) =>
      if InReach(m, 2) then
        var bytes, at := Bytes(m, Selected(m)), m.Get(MEM_OFFSET);
        m.Set(d, bytes[at] + 256 * bytes[at + 1])
      else m.(fault := true)
    case RevU16(d) => m.Set(d, m.Get(d) % 256 * 256 + m.Get(d) / 256 % 256)
    case DivUW =>
      if m.Get(MEM_OFFSET) == 0 then m.(fault := true)
      else m.Set(MEM_BASE, Quotient(m.Get(MEM_BASE), m.Get(MEM_OFFSET)))
    case IfZero(x, zero, nonzero) => if m.Get(x) == 0 then Exec(zero, m) else Exec(nonzero, m)
    case UnlessLowByteZero(x, body) => if And(m.Get(x), 0xff) == 0 then m else Exec(body, m)
    case IfEqual(x, value, body) => if m.Get(x) == value then Exec(body, m) else m
    case CallDevice(isInput, short) => DeviceCall(m, isInput, short)
    case Leave(src) => m.(exit := Returned(Value(m, src) % 0x1_0000_0000))
    case JumpBody(target) => m.(exit := Jumped(target))
    case JumpBodyIfEqual(x, target) => if m.Get(x) == target then m.(exit := Jumped(target)) else m
    case CallHead(target, ret) => m.(exit := Called(target, ret))
  }

  function Exec(code: seq<Instr>, m: Machine): Machine
    decreases code
  {
    if code == [] then m
    else Step(code[|code| - 1], Exec(code[..|code| - 1], m))
  }

  lemma ExecSnoc(code: seq<Instr>, i: Instr, m: Machine)
    ensures Exec(code + [i], m) == Step(i, Exec(code, m))
  {
    assert (code + [i])[..|code|] == code;
  }

  lemma {:induction false} ExecAppend(code: seq<Instr>, more: seq<Instr>, m: Machine)
    ensures Exec(code + more, m) == Exec(more, Exec(code, m))
    decreases |more|
  {
    if more == [] {
      assert code + more == code;
    } else {
      var front, last := more[..|more| - 1], more[|more| - 1];
      ExecAppend(code, front, m);
      assert code + more == (code + front) + [last];
      ExecSnoc(code + front, last, m);
    }
  }

  // ---- single instructions, on a running machine ----

  lemma StepMov(mov: Mov, d: Reg, s: Reg, m: Machine)
    requires m.exit == Running && d < |m.regs| && s < |m.regs|
    ensures Step(Op1(mov, R(d), R(s)), m) == m.(regs := m.regs[d := Moved(mov, m.regs[s])])
  {
    hide Calc;
    hide Exec;
  }

  lemma StepMovImm(mov: Mov, d: Reg, v: nat, m: Machine)
    requires m.exit == Running && d < |m.regs|
    ensures Step(Op1(mov, R(d), Imm(v)), m) == m.(regs := m.regs[d := Moved(mov, v)])
  {
    hide Calc;
    hide Exec;
  }

  lemma StepAlu(alu: Alu, d: Reg, a: Reg, b: Reg, m: Machine)
    requires m.exit == Running && d < |m.regs| && a < |m.regs| && b < |m.regs|
    ensures Step(Op2(alu, d, R(a), R(b)), m) == m.(regs := m.regs[d := Calc(alu, m.regs[a], m.regs[b])])
  {
    hide Calc;
    hide Exec;
  }

  lemma StepAluImm(alu: Alu, d: Reg, a: Reg, v: nat, m: Machine)
    requires m.exit == Running && d < |m.regs| && a < |m.regs|
    ensures Step(Op2(alu, d, R(a), Imm(v)), m) == m.(regs := m.regs[d := Calc(alu, m.regs[a], v)])
  {
    hide Calc;
    hide Exec;
  }

  /** The machine with byte "v" at index "at" of a region. */
  function Put(m: Machine, region: Region, at: nat, v: nat): Machine
    requires at < |Bytes(m, region)|
  {
    match region
    case Ws => m.(ws := m.ws[at := v])
    case Rs => m.(rs := m.rs[at := v])
    case Dev => m.(io := m.io.(page := m.io.page[at := v]))
    case Ram => m.(ram := m.ram[at := v])
    case Nowhere => m
  }

  lemma StepPut(s: Reg, m: Machine)
    requires m.exit == Running && MEM_OFFSET < |m.regs| && s < |m.regs|
    requires m.regs[MEM_OFFSET] < |Bytes(m, Selected(m))|
    ensures Step(Op1(MOV_U8, Mem, R(s)), m) == Put(m, Selected(m), m.regs[MEM_OFFSET], m.regs[s] % 256)
  {
    hide Calc;
    hide Exec;
    var v := Moved(MOV_U8, m.regs[s]);
    assert v % 256 == v;
    assert Step(Op1(MOV_U8, Mem, R(s)), m) == Store(m, v) by { hide Store; hide Selected; }
    hide Step;
    hide Selected;
  }

  lemma StepGet(d: Reg, m: Machine)
    requires m.exit == Running && MEM_OFFSET < |m.regs| && d < |m.regs|
    requires m.regs[MEM_OFFSET] < |Bytes(m, Selected(m))| && AreBytes(Bytes(m, Selected(m)))
    ensures Step(Op1(MOV_U8, R(d), Mem), m) == m.(regs := m.regs[d := Bytes(m, Selected(m))[m.regs[MEM_OFFSET]]])
  {
    hide Calc;
    hide Exec;
    assert Touch(m, Mem) == m && Load(m) == Bytes(m, Selected(m))[m.regs[MEM_OFFSET]] by { hide Selected; hide Step; }
    hide Selected;
    assert Load(m) < 256 by { hide Step; }
  }
}
