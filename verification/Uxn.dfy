/** The reference: a plain byte-stack interpreter for uxn opcodes, written from the public
    Uxntal opcode reference.  Stacks are sequences of bytes with the top at the end; an opcode
    that would underflow a stack, or grow one beyond 256 bytes, has no outcome. */
module Uxn {
  import opened Words
  import Devices

  datatype Option<T> = None | Some(value: T)

  datatype Op =
    | Brk | Jci | Jmi | Jsi | Lit
    | Inc | Pop | Nip | Swp | Rot | Dup | Ovr | Equ | Neq | Gth | Lth | Jmp | Jcn | Jsr | Sth
    | Ldz | Stz | Ldr | Str | Lda | Sta | Dei | Deo
    | Add | Sub | Mul | Div | And | Ora | Eor | Sft

  const REGULAR: seq<Op> := [
    Inc, Pop, Nip, Swp, Rot, Dup, Ovr, Equ, Neq, Gth, Lth, Jmp, Jcn, Jsr, Sth,
    Ldz, Stz, Ldr, Str, Lda, Sta, Dei, Deo, Add, Sub, Mul, Div, And, Ora, Eor, Sft]

  /** The operation an opcode byte stands for: the low five bits, except for the eight bytes
      whose low five bits are zero. */
  function OpOf(code: nat): Op {
    if code % 32 != 0 then REGULAR[code % 32 - 1]
    else if code == 0x00 then Brk
    else if code == 0x20 then Jci
    else if code == 0x40 then Jmi
    else if code == 0x60 then Jsi
    else Lit
  }

  lemma RegularOp(code: nat)
    requires code % 32 != 0
    ensures OpOf(code) == REGULAR[code % 32 - 1]
  {
  }

  lemma LiteralOp(code: nat)
    requires Literal(code)
    ensures OpOf(code) == Lit
  {
  }

  lemma ImmediateOp()
    ensures OpOf(0x00) == Brk && OpOf(0x20) == Jci && OpOf(0x40) == Jmi && OpOf(0x60) == Jsi
  {
  }

  predicate ImmediateJump(code: nat) {
    code == 0x20 || code == 0x40 || code == 0x60
  }

  predicate Literal(code: nat) {
    code == 0x80 || code == 0xa0 || code == 0xc0 || code == 0xe0
  }

  predicate Flag2(code: nat) {
    code / 0x20 % 2 == 1 && !ImmediateJump(code)
  }

  predicate FlagR(code: nat) {
    code / 0x40 % 2 == 1 && !ImmediateJump(code)
  }

  predicate FlagK(code: nat) {
    code / 0x80 % 2 == 1 && !ImmediateJump(code) && !Literal(code)
  }

  // ---- opcode bytes ----

  /** The low five bits of an operation's byte. */
  function LowBits(op: Op): nat {
    match op
    case Brk | Jci | Jmi | Jsi | Lit => 0x00
    case Inc => 0x01
    case Pop => 0x02
    case Nip => 0x03
    case Swp => 0x04
    case Rot => 0x05
    case Dup => 0x06
    case Ovr => 0x07
    case Equ => 0x08
    case Neq => 0x09
    case Gth => 0x0a
    case Lth => 0x0b
    case Jmp => 0x0c
    case Jcn => 0x0d
    case Jsr => 0x0e
    case Sth => 0x0f
    case Ldz => 0x10
    case Stz => 0x11
    case Ldr => 0x12
    case Str => 0x13
    case Lda => 0x14
    case Sta => 0x15
    case Dei => 0x16
    case Deo => 0x17
    case Add => 0x18
    case Sub => 0x19
    case Mul => 0x1a
    case Div => 0x1b
    case And => 0x1c
    case Ora => 0x1d
    case Eor => 0x1e
    case Sft => 0x1f
  }

  /** The byte that stands for an operation in a mode.  Immediate jumps and BRK have no modes,
      and literals always keep. */
  function ByteOf(op: Op, short: bool, r: bool, k: bool): nat {
    var modes := (if short then 0x20 else 0) + (if r then 0x40 else 0);
    match op
    case Brk => 0x00
    case Jci => 0x20
    case Jmi => 0x40
    case Jsi => 0x60
    case Lit => 0x80 + modes
    case _ => LowBits(op) + modes + if k then 0x80 else 0
  }

  lemma FirstLow(i: nat)
    requires 0 <= i < 8
    ensures LowBits(REGULAR[i]) == i + 1
  {
    assert i == 0 || i == 1 || i == 2 || i == 3 || i == 4 || i == 5 || i == 6 || i == 7;
  }

  lemma SecondLow(i: nat)
    requires 8 <= i < 16
    ensures LowBits(REGULAR[i]) == i + 1
  {
    assert i == 8 || i == 9 || i == 10 || i == 11 || i == 12 || i == 13 || i == 14 || i == 15;
  }

  lemma ThirdLow(i: nat)
    requires 16 <= i < 24
    ensures LowBits(REGULAR[i]) == i + 1
  {
    assert i == 16 || i == 17 || i == 18 || i == 19 || i == 20 || i == 21 || i == 22 || i == 23;
  }

  lemma LastLow(i: nat)
    requires 24 <= i < 31
    ensures LowBits(REGULAR[i]) == i + 1
  {
    assert i == 24 || i == 25 || i == 26 || i == 27 || i == 28 || i == 29 || i == 30;
  }

  lemma LowBitsRegular(i: nat)
    requires i < 31
    ensures LowBits(REGULAR[i]) == i + 1
  {
    hide LowBits;
    if i < 8 { FirstLow(i); } else if i < 16 { SecondLow(i); } else if i < 24 { ThirdLow(i); } else { LastLow(i); }
  }

  lemma RegularLow(op: Op)
    requires LowBits(op) != 0
    ensures LowBits(op) <= 31 && REGULAR[LowBits(op) - 1] == op
  {
  }

  lemma ModeBits(low: nat, short: bool, r: bool, k: bool)
    requires 0 < low < 32
    ensures var code := low + (if short then 0x20 else 0) + (if r then 0x40 else 0) + if k then 0x80 else 0;
      code < 256 && code % 32 == low && Flag2(code) == short && FlagR(code) == r && FlagK(code) == k
  {
  }

  lemma RegularByte(op: Op, code: nat)
    requires code < 256 && LowBits(op) == code % 32 != 0
    ensures ByteOf(op, Flag2(code), FlagR(code), FlagK(code)) == code
  {
    assert ByteOf(op, Flag2(code), FlagR(code), FlagK(code)) ==
      LowBits(op) + (if Flag2(code) then 0x20 else 0) + (if FlagR(code) then 0x40 else 0) + if FlagK(code) then 0x80 else 0;
    hide LowBits;
  }

  /** Every byte is the byte of the operation and the modes it is decoded to. */
  lemma DecodedByte(code: nat)
    requires code < 256
    ensures ByteOf(OpOf(code), Flag2(code), FlagR(code), FlagK(code)) == code
  {
    if code % 32 != 0 {
      hide OpOf;
      hide LowBits;
      RegularOp(code);
      LowBitsRegular(code % 32 - 1);
      RegularByte(REGULAR[code % 32 - 1], code);
    } else {
      assert code == 0x20 * (code / 0x20) && code / 0x20 < 8;
    }
  }

  /** And every operation is decoded from its byte, with its modes. */
  lemma EncodedByte(op: Op, short: bool, r: bool, k: bool)
    requires LowBits(op) == 0 ==> !k && (op.Lit? || (!short && !r))
    ensures var code := ByteOf(op, short, r, k);
      code < 256 && OpOf(code) == op && Flag2(code) == short && FlagR(code) == r && FlagK(code) == k
  {
    var code := ByteOf(op, short, r, k);
    if LowBits(op) != 0 {
      hide OpOf;
      hide Flag2;
      hide FlagR;
      hide FlagK;
      ModeBits(LowBits(op), short, r, k);
      RegularOp(code);
      RegularLow(op);
    } else {
      hide OpOf;
      ImmediateOp();
      if op.Lit? { LiteralOp(code); }
    }
  }

  type Bytes = seq<nat>

  function BytesOf(v: nat, short: bool): (b: Bytes)
    ensures |b| == if short then 2 else 1
  {
    if short then [v / 256 % 256, v % 256] else [v % 256]
  }

  function Wrap(v: int, short: bool): nat {
    if short then v % 0x1_0000 else v % 256
  }

  function Peek(ram: Bytes, at: nat): nat {
    if at < |ram| then ram[at] else 0
  }

  function Poke(ram: Bytes, at: nat, v: nat): Bytes {
    if at < |ram| then ram[at := v % 256] else ram
  }

  /** The address after "at": zero-page addresses wrap at 256, the others at 64 KiB. */
  function After(at: nat, wide: bool): nat {
    Wrap(at + 1, wide)
  }

  function Fetch(ram: Bytes, at: nat, wide: bool, short: bool): nat {
    if short then Peek(ram, at) * 256 + Peek(ram, After(at, wide)) else Peek(ram, at)
  }

  function Write(ram: Bytes, at: nat, wide: bool, v: nat, short: bool): Bytes {
    if short then Poke(Poke(ram, at, v / 256), After(at, wide), v) else Poke(ram, at, v)
  }

  /** Address "pc" displaced by a signed byte. */
  function Displaced(pc: nat, offset: nat): nat {
    (pc + SignExtend8(offset)) % WORD % 0x1_0000
  }

  // ---- operands ----

  /** The operands of an operation, the topmost first: true for a short, false for a byte. */
  function Shape(op: Op, short: bool): seq<bool> {
    match op
    case Brk | Jmi | Jsi | Lit => []
    case Jci | Ldz | Ldr | Dei => [false]
    case Lda => [true]
    case Inc | Pop | Dup | Jmp | Jsr | Sth => [short]
    case Jcn => [short, false]
    case Stz | Str | Sft | Deo => [false, short]
    case Sta => [true, short]
    case Rot => [short, short, short]
    case Nip | Swp | Ovr | Equ | Neq | Gth | Lth | Add | Sub | Mul | Div | And | Ora | Eor => [short, short]
  }

  function PopValue(s: Bytes, short: bool): Option<(Bytes, nat)> {
    if short then
      if |s| < 2 then None else Some((s[..|s| - 2], s[|s| - 2] * 256 + s[|s| - 1]))
    else
      if |s| < 1 then None else Some((s[..|s| - 1], s[|s| - 1]))
  }

  function PopAll(s: Bytes, shape: seq<bool>): Option<(Bytes, seq<nat>)> {
    if shape == [] then Some((s, []))
    else
      match PopValue(s, shape[0])
      case None => None
      case Some((rest, v)) =>
        match PopAll(rest, shape[1..])
        case None => None
        case Some((rest', vs)) => Some((rest', [v] + vs))
  }

  // ---- effects ----

  /** What an operation does besides popping: bytes pushed on the current and on the other
      stack, the new memory, and where execution continues (0x10000 after BRK). */
  datatype Effect = Effect(cur: Bytes, oth: Bytes, ram: Bytes, pc: nat)

  function Truth(b: bool): Bytes {
    if b then [1] else [0]
  }

  function Arith(op: Op, short: bool, a: nat, b: nat): nat {
    match op
    case Add => Wrap(a + b, short)
    case Sub => Wrap(a - b, short)
    case Mul => Wrap(a * b, short)
    case Div => Quotient(a, b)
    case And => Words.And(a, b)
    case Ora => Or(a, b)
    case Eor => Xor(a, b)
    case _ => Wrap(Quotient(a, Pow2(b % 16)) * Pow2(b / 16), short)
  }

  /** What the bitwise operations do to every binary digit. */
  lemma BitwiseMeaning(short: bool, a: nat, b: nat, k: nat)
    ensures Digit(Arith(And, short, a, b), k) <==> Digit(a, k) && Digit(b, k)
    ensures Digit(Arith(Ora, short, a, b), k) <==> Digit(a, k) || Digit(b, k)
    ensures Digit(Arith(Eor, short, a, b), k) <==> Digit(a, k) != Digit(b, k)
  {
    hide Digit;
    BitwiseDigits(a, b, k);
    hide Words.And;
    hide Or;
    hide Xor;
  }

  /** A shift goes right by the low half of its operand's byte and then left by the high half, and
      drops what leaves the width. */
  lemma ShiftMeaning(short: bool, a: nat, b: nat, k: nat)
    ensures Digit(Arith(Sft, short, a, b), k) <==>
      k < (if short then 16 else 8) && k >= b / 16 && Digit(a, k - b / 16 + b % 16)
  {
    var n, left, width := b % 16, b / 16, if short then 16 else 8;
    var down := a / Pow2(n);
    Masks();
    assert Arith(Sft, short, a, b) == down * Pow2(left) % Pow2(width) by { assert Quotient(a, Pow2(n)) == down; hide Quotient; hide Pow2; }
    hide Arith;
    hide Pow2;
    hide Digit;
    CutDigit(down * Pow2(left), width, k);
    ShiftLeftDigit(down, left, k);
    if k >= left {
      ShiftRightDigit(a, n, k - left);
    }
  }

  /** What the four others are: sums, differences and products cut to the width, and quotients. */
  lemma ArithNumbers(short: bool, a: nat, b: nat)
    ensures var width := if short then 0x1_0000 else 256;
      && (Arith(Add, short, a, b) - (a + b)) % width == 0 && Arith(Add, short, a, b) < width
      && (Arith(Sub, short, a, b) - (a - b)) % width == 0 && Arith(Sub, short, a, b) < width
      && (Arith(Mul, short, a, b) - a * b) % width == 0 && Arith(Mul, short, a, b) < width
    ensures b > 0 ==> Arith(Div, short, a, b) * b <= a < (Arith(Div, short, a, b) + 1) * b
    ensures b == 0 ==> Arith(Div, short, a, b) == 0
  {
    QuotientRest(a, b);
    hide Quotient;
    CutRest(a + b, short);
    CutRest(a - b, short);
    CutRest(a * b, short);
  }

  lemma CutRest(v: int, short: bool)
    ensures var width := if short then 0x1_0000 else 256; (Wrap(v, short) - v) % width == 0
  {
    var width := if short then 0x1_0000 else 256;
    ModUnique(Wrap(v, short) - v, width, -(v / width), 0);
  }

  predicate Compares(op: Op, a: nat, b: nat) {
    match op
    case Equ => a == b
    case Neq => a != b
    case Gth => a > b
    case _ => a < b
  }

  function JumpTarget(pc: nat, short: bool, v: nat): nat {
    if short then v else Displaced(pc, v)
  }

  /** "pc" is the address after the opcode; "x", "y", "z" are the operands, topmost first. */
  function Act(op: Op, short: bool, x: nat, y: nat, z: nat, ram: Bytes, pc: nat): Effect {
    var after2 := (pc + 2) % 0x1_0000;
    var immediate := (after2 + Fetch(ram, pc, true, true)) % 0x1_0000;
    match op
    case Brk => Effect([], [], ram, 0x1_0000)
    case Jci => Effect([], [], ram, if x != 0 then immediate else after2)
    case Jmi => Effect([], [], ram, immediate)
    case Jsi => Effect([], BytesOf(after2, true), ram, immediate)
    case Lit =>
      Effect(BytesOf(Fetch(ram, pc, true, short), short), [], ram, (pc + if short then 2 else 1) % 0x1_0000)
    case Inc => Effect(BytesOf(Wrap(x + 1, short), short), [], ram, pc)
    case Pop => Effect([], [], ram, pc)
    case Nip => Effect(BytesOf(x, short), [], ram, pc)
    case Swp => Effect(BytesOf(x, short) + BytesOf(y, short), [], ram, pc)
    case Rot => Effect(BytesOf(y, short) + BytesOf(x, short) + BytesOf(z, short), [], ram, pc)
    case Dup => Effect(BytesOf(x, short) + BytesOf(x, short), [], ram, pc)
    case Ovr => Effect(BytesOf(y, short) + BytesOf(x, short) + BytesOf(y, short), [], ram, pc)
    case Equ | Neq | Gth | Lth => Effect(Truth(Compares(op, y, x)), [], ram, pc)
    case Jmp => Effect([], [], ram, JumpTarget(pc, short, x))
    case Jcn => Effect([], [], ram, if y != 0 then JumpTarget(pc, short, x) else pc)
    case Jsr => Effect([], BytesOf(pc, true), ram, JumpTarget(pc, short, x))
    case Sth => Effect([], BytesOf(x, short), ram, pc)
    case Ldz => Effect(BytesOf(Fetch(ram, x, false, short), short), [], ram, pc)
    case Stz => Effect([], [], Write(ram, x, false, y, short), pc)
    case Ldr => Effect(BytesOf(Fetch(ram, Displaced(pc, x), true, short), short), [], ram, pc)
    case Str => Effect([], [], Write(ram, Displaced(pc, x), true, y, short), pc)
    case Lda => Effect(BytesOf(Fetch(ram, x, true, short), short), [], ram, pc)
    case Sta => Effect([], [], Write(ram, x, true, y, short), pc)
    case Add | Sub | Mul | Div | And | Ora | Eor | Sft => Effect(BytesOf(Arith(op, short, y, x), short), [], ram, pc)
    case Dei | Deo => Effect([], [], ram, pc)
  }

  // ---- steps ----

  datatype Vm = Vm(pc: nat, wst: Bytes, rst: Bytes, ram: Bytes, io: Devices.Io) {
    function Stack(r: bool): Bytes {
      if r then rst else wst
    }

    function With(r: bool, cur: Bytes, oth: Bytes): Vm {
      if r then this.(rst := cur, wst := oth) else this.(wst := cur, rst := oth)
    }

    ghost predicate Valid() {
      && |ram| == 0x1_0000 && |wst| <= 256 && |rst| <= 256
      && (forall i :: 0 <= i < |ram| ==> ram[i] < 256)
    }
  }

  // ---- devices ----

  /** What a device opcode does: the bytes it pushes, and devices and memory after it. */
  datatype Exchange = Exchange(cur: Bytes, ram: Bytes, io: Devices.Io)

  /** Reads one byte, or two from successive ports. */
  function Input(short: bool, port: nat, ram: Bytes, io: Devices.Io): Option<Exchange> {
    match Devices.Ask(io, ram, true, port % 256)
    case Silence => None
    case Reply(io', ram', hi, _) =>
      if !short then Some(Exchange([hi], ram', io'))
      else
        match Devices.Ask(io', ram', true, (port + 1) % 256)
        case Silence => None
        case Reply(io'', ram'', lo, _) => Some(Exchange([hi, lo], ram'', io''))
  }

  /** The device page with one or two bytes put at a port. */
  function Paged(page: Bytes, port: nat, v: nat, short: bool): Bytes {
    if short then Poke(Poke(page, port % 256, v / 256), (port + 1) % 256, v) else Poke(page, port % 256, v)
  }

  /** Puts one or two bytes into the device page, and then tells the devices. */
  function Output(short: bool, port: nat, v: nat, ram: Bytes, io: Devices.Io): Option<Exchange> {
    match Devices.Ask(io.(page := Paged(io.page, port, v, short)), ram, false, port % 256)
    case Silence => None
    case Reply(io', ram', _, _) =>
      if !short then Some(Exchange([], ram', io'))
      else
        match Devices.Ask(io', ram', false, (port + 1) % 256)
        case Silence => None
        case Reply(io'', ram'', _, _) => Some(Exchange([], ram'', io''))
  }

  predicate IsDevice(op: Op) {
    op.Dei? || op.Deo?
  }

  /** A device opcode, given its operands and the address after it. */
  function Exchanged(op: Op, short: bool, args: seq<nat>, ram: Bytes, io: Devices.Io): Option<Exchange> {
    if op.Dei? then Input(short, Nth(args, 0), ram, io) else Output(short, Nth(args, 0), Nth(args, 1), ram, io)
  }

  /** The state after an opcode, unless a stack has grown too large. */
  function Settled(vm: Vm, r: bool, cur: Bytes, oth: Bytes, ram: Bytes, io: Devices.Io, pc: nat): Option<Vm> {
    if |cur| > 256 || |oth| > 256 then None else Some(vm.With(r, cur, oth).(ram := ram, io := io, pc := pc))
  }

  function Nth(args: seq<nat>, i: nat): nat {
    if i < |args| then args[i] else 0
  }

  /** Executes one opcode byte, given the address after it. */
  function Perform(vm: Vm, code: nat, pc: nat): Option<Vm> {
    var op, r, short := OpOf(code), FlagR(code), Flag2(code);
    var cur := vm.Stack(r);
    match PopAll(cur, Shape(op, short))
    case None => None
    case Some((rest, args)) =>
      if IsDevice(op) then
        match Exchanged(op, short, args, vm.ram, vm.io)
        case None => None
        case Some(x) => Settled(vm, r, (if FlagK(code) then cur else rest) + x.cur, vm.Stack(!r), x.ram, x.io, pc)
      else
        var e := Act(op, short, Nth(args, 0), Nth(args, 1), Nth(args, 2), vm.ram, pc);
        Settled(vm, r, (if FlagK(code) then cur else rest) + e.cur, vm.Stack(!r) + e.oth, e.ram, vm.io, e.pc)
  }

  function Step(vm: Vm): Option<Vm> {
    if vm.pc >= |vm.ram| then None
    else Perform(vm, vm.ram[vm.pc], (vm.pc + 1) % 0x1_0000)
  }
}
