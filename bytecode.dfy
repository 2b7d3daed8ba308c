/**
 * The instruction set of the VM: the `BC` opcodes, the `TY` slot kinds and
 * `INST`, with the numbering C++ gives the enumerators.
 */
module Bytecode {
  import opened Int32
  import opened Optional

  /** `VM::TY`: the kind a push or pop names. Slots do not record it. */
  datatype Ty = TyInt | TyFloat | TyString | TyFunc | TyPtr

  /** The five members of each arithmetic family, in declaration order. */
  datatype ArithOp = Add | Sub | Mul | Div | Mod

  /** `VM::BC`, grouped by family. */
  datatype Opcode =
    | Halt
    | Push(pushKind: Ty)
    | Pop(popKind: Ty)
    | Dup
    | Addr
    | Load
    | Store
    | Call
    | Retn
    | IntArith(intOp: ArithOp)
    | FloatArith(floatOp: ArithOp)
    | Brk
    | DumpStack
    | DumpCode

  /** Number of `BC` enumerators; valid opcodes are 0 .. Count - 1. */
  const Count: int := 30

  /**
   * `INST`: an opcode and a signed 32-bit argument. The opcode is held as the
   * raw number stored in the instruction, which need not name an enumerator.
   */
  datatype Inst = Inst(bc: int32, arg: int32)

  function TyIndex(t: Ty): (i: int)
    ensures 0 <= i < 5
  {
    match t
    case TyInt => 0
    case TyFloat => 1
    case TyString => 2
    case TyFunc => 3
    case TyPtr => 4
  }

  function TyAt(i: int): (t: Ty)
    requires 0 <= i < 5
    ensures TyIndex(t) == i
  {
    if i == 0 then TyInt else if i == 1 then TyFloat else if i == 2 then TyString
    else if i == 3 then TyFunc else TyPtr
  }

  function ArithIndex(o: ArithOp): (i: int)
    ensures 0 <= i < 5
  {
    match o
    case Add => 0
    case Sub => 1
    case Mul => 2
    case Div => 3
    case Mod => 4
  }

  function ArithAt(i: int): (o: ArithOp)
    requires 0 <= i < 5
    ensures ArithIndex(o) == i
  {
    if i == 0 then Add else if i == 1 then Sub else if i == 2 then Mul
    else if i == 3 then Div else Mod
  }

  /** The enumerator value of an opcode (`BC_HALT = 0`, then one more each). */
  function Encode(op: Opcode): (v: int32)
    ensures 0 <= v < Count as int32
  {
    match op
    case Halt => 0
    case Push(t) => (1 + TyIndex(t)) as int32
    case Pop(t) => (6 + TyIndex(t)) as int32
    case Dup => 11
    case Addr => 12
    case Load => 13
    case Store => 14
    case Call => 15
    case Retn => 16
    case IntArith(o) => (17 + ArithIndex(o)) as int32
    case FloatArith(o) => (22 + ArithIndex(o)) as int32
    case Brk => 27
    case DumpStack => 28
    case DumpCode => 29
  }

  /** The opcode a raw number names, if any. */
  function Decode(bc: int32): (r: Option<Opcode>)
    ensures r.Some? <==> 0 <= bc < Count as int32
    ensures r.Some? ==> Encode(r.value) == bc
  {
    if bc == 0 then Some(Halt)
    else if 1 <= bc < 6 then Some(Push(TyAt(bc as int - 1)))
    else if 6 <= bc < 11 then Some(Pop(TyAt(bc as int - 6)))
    else if bc == 11 then Some(Dup)
    else if bc == 12 then Some(Addr)
    else if bc == 13 then Some(Load)
    else if bc == 14 then Some(Store)
    else if bc == 15 then Some(Call)
    else if bc == 16 then Some(Retn)
    else if 17 <= bc < 22 then Some(IntArith(ArithAt(bc as int - 17)))
    else if 22 <= bc < 27 then Some(FloatArith(ArithAt(bc as int - 22)))
    else if bc == 27 then Some(Brk)
    else if bc == 28 then Some(DumpStack)
    else if bc == 29 then Some(DumpCode)
    else None
  }

  /** Every opcode survives encoding: the numbering is one-to-one. */
  lemma DecodeEncode(op: Opcode)
    ensures Decode(Encode(op)) == Some(op)
  {
    match op
    case Push(t) => assert TyAt(TyIndex(t)) == t;
    case Pop(t) => assert TyAt(TyIndex(t)) == t;
    case IntArith(o) => assert ArithAt(ArithIndex(o)) == o;
    case FloatArith(o) => assert ArithAt(ArithIndex(o)) == o;
    case _ =>
  }
}
