/**
 * What each instruction does to the operand stack, `top` and `ip`, as a
 * function of the machine state; and what a sequence of instructions, a
 * single step of the fetch loop and a bounded run do. The class in
 * vm.dfy is proved to follow these functions.
 *
 * Slots are raw 32-bit cells: no slot records the kind of value it holds,
 * so every `PUSH_<kind>` behaves alike and so does every `POP_<kind>`. An
 * address is a stack index. A fault leaves the state as it was.
 */
module Semantics {
  import opened Int32
  import opened Optional
  import opened Bytecode

  /** Which structural check an instruction failed. */
  datatype FaultKind =
    | BadOpcode       // the instruction's number names no opcode
    | StackOverflow   // a slot at or beyond the stack's capacity is touched
    | StackUnderflow  // an operand below slot 0 is needed
    | BadOffset       // stack[top + arg] lies outside the stack
    | BadAddress      // the address STORE writes through lies outside the stack
    | BadFunction     // the id CALL finds is not in the function table
    | DivByZero       // integer DIV or MOD by zero
    | BadIp           // the fetch loop's ip lies outside the code

  /** How an instruction (or a step, or a run) ended. */
  datatype Signal = Continue | Halted | Break | Fault(kind: FaultKind)

  /** The machine's execution state: the stack's slots, `_top` and `_ip`. */
  datatype Machine = Machine(stack: seq<int32>, top: int, ip: int32)

  datatype Outcome = Outcome(signal: Signal, next: Machine)

  /** The floating-point unit: the bits a float operation yields from two slots' bits. */
  type Fpu = (ArithOp, int32, int32) -> int32

  /** `0 <= top <= capacity <= INT_MAX`, so `top` and every slot index fit the `int` that names them. */
  predicate Wf(m: Machine) {
    0 <= m.top <= |m.stack| <= Max
  }

  predicate InStack(m: Machine, i: int) {
    0 <= i < |m.stack|
  }

  /** The signals that end a sequence of instructions. */
  predicate Stops(s: Signal) {
    s.Halted? || s.Fault?
  }

  /** `after` differs from `before` at most in slot i. */
  predicate OnlySlotChanged(before: seq<int32>, after: seq<int32>, i: int) {
    |after| == |before| && forall j :: 0 <= j < |before| && j != i ==> after[j] == before[j]
  }

  function Fail(m: Machine, k: FaultKind): Outcome {
    Outcome(Fault(k), m)
  }

  /**
   * Integer arithmetic on `stack[top - 1] op stack[top - 2]`, exactly,
   * before wrap-around; DIV and MOD truncate as C++ does.
   */
  function IntOp(o: ArithOp, a: int32, b: int32): (r: int)
    requires (o == Div || o == Mod) ==> b != 0
    ensures o == Div ==> r * (b as int) + TruncMod(a as int, b as int) == a as int
    ensures o == Div ==> Min <= r <= Max + 1
    ensures o == Mod ==> Min < r <= Max
  {
    match o
    case Add => a as int + b as int
    case Sub => a as int - b as int
    case Mul => a as int * b as int
    case Div =>
      DivModIdentity(a as int, b as int);
      QuotientBound(a as int, b as int);
      TruncDiv(a as int, b as int)
    case Mod => TruncMod(a as int, b as int)
  }

  /**
   * `exec(inst)`: the effect of one instruction, from the comments of the
   * `BC` enumeration.
   *
   * CALL: the comment reads `ip = stack[top-1]`, while the calling
   * convention reads "get id from top" and the VM holds a function table;
   * here the slot below `top` is a function id, resolved through the table.
   * LOAD: its comment is a copy of ADDR's, and it is modelled as written.
   * Arithmetic: only `+` is shown; the others are taken in the same operand
   * order, `stack[top - 1] op stack[top - 2]`, with the destination
   * `stack[top + arg]` computed before the two pops.
   */
  function Apply(m: Machine, inst: Inst, ftable: seq<int32>, fpu: Fpu): (o: Outcome)
    requires Wf(m)
    ensures Wf(o.next) && |o.next.stack| == |m.stack|
    ensures o.signal.Fault? ==> o.next == m
    ensures o.signal == Fault(BadOpcode) <==> Decode(inst.bc).None?
    ensures o.signal.Halted? <==> Decode(inst.bc) == Some(Halt)
    ensures o.signal.Break? <==> Decode(inst.bc) == Some(Brk)
    ensures Decode(inst.bc) != Some(Call) && Decode(inst.bc) != Some(Retn) ==> o.next.ip == m.ip
  {
    if Decode(inst.bc).None? then Fail(m, BadOpcode)
    else
      var top, arg := m.top, inst.arg as int;
      match Decode(inst.bc).value
      case Halt => Outcome(Halted, m)
      case Push(_) =>
        // stack[top] = arg; top++;
        if top == |m.stack| then Fail(m, StackOverflow)
        else Outcome(Continue, m.(stack := m.stack[top := inst.arg], top := top + 1))
      case Pop(_) =>
        // top--; stack[top + arg] = stack[top];
        if top == 0 then Fail(m, StackUnderflow)
        else if !InStack(m, top - 1 + arg) then Fail(m, BadOffset)
        else Outcome(Continue, m.(stack := m.stack[top - 1 + arg := m.stack[top - 1]], top := top - 1))
      case Dup =>
        // stack[top] = stack[top + arg]; top++;
        if top == |m.stack| then Fail(m, StackOverflow)
        else if !InStack(m, top + arg) then Fail(m, BadOffset)
        else Outcome(Continue, m.(stack := m.stack[top := m.stack[top + arg]], top := top + 1))
      case Addr =>
        // stack[top] = &stack[top + arg]; top++;
        if top == |m.stack| then Fail(m, StackOverflow)
        else if !InStack(m, top + arg) then Fail(m, BadOffset)
        else Outcome(Continue, m.(stack := m.stack[top := (top + arg) as int32], top := top + 1))
      case Load =>
        // the same comment as ADDR's
        if top == |m.stack| then Fail(m, StackOverflow)
        else if !InStack(m, top + arg) then Fail(m, BadOffset)
        else Outcome(Continue, m.(stack := m.stack[top := (top + arg) as int32], top := top + 1))
      case Store =>
        // *stack[top + arg] = stack[top];
        if top == |m.stack| then Fail(m, StackOverflow)
        else if !InStack(m, top + arg) then Fail(m, BadOffset)
        else if !InStack(m, m.stack[top + arg] as int) then Fail(m, BadAddress)
        else Outcome(Continue, m.(stack := m.stack[m.stack[top + arg] as int := m.stack[top]]))
      case Call =>
        // stack[top] = ip; ip = <entry of the function whose id is stack[top-1]>; top++;
        if top == 0 then Fail(m, StackUnderflow)
        else if top == |m.stack| then Fail(m, StackOverflow)
        else if !(0 <= m.stack[top - 1] as int < |ftable|) then Fail(m, BadFunction)
        else Outcome(Continue, m.(stack := m.stack[top := m.ip], ip := ftable[m.stack[top - 1]], top := top + 1))
      case Retn =>
        // ip = stack[top]; top--;
        // CALL leaves the saved address in slot top - 1, so RETN returns to it
        // only once the callee has lowered `top` by one with that slot intact
        // (RetnReturnsToCaller); right after CALL it reads the slot above.
        if top == 0 then Fail(m, StackUnderflow)
        else if top == |m.stack| then Fail(m, StackOverflow)
        else Outcome(Continue, m.(ip := m.stack[top], top := top - 1))
      case IntArith(op) =>
        // stack[top + arg] = stack[top - 1] op stack[top - 2]; top--; top--;
        if top < 2 then Fail(m, StackUnderflow)
        else if !InStack(m, top + arg) then Fail(m, BadOffset)
        else if (op == Div || op == Mod) && m.stack[top - 2] == 0 then Fail(m, DivByZero)
        else
          var r := Wrap(IntOp(op, m.stack[top - 1], m.stack[top - 2]));
          Outcome(Continue, m.(stack := m.stack[top + arg := r], top := top - 2))
      case FloatArith(op) =>
        // as the integer family, with the result's bits from the floating-point unit
        if top < 2 then Fail(m, StackUnderflow)
        else if !InStack(m, top + arg) then Fail(m, BadOffset)
        else
          var r := fpu(op, m.stack[top - 1], m.stack[top - 2]);
          Outcome(Continue, m.(stack := m.stack[top + arg := r], top := top - 2))
      case Brk => Outcome(Break, m)
      case DumpStack => Outcome(Continue, m)
      case DumpCode => Outcome(Continue, m)
  }

  /**
   * `execn(insts, count)`: the instructions in order, stopping at the first
   * HALT or fault. A breakpoint does not stop the sequence.
   */
  function ApplyAll(m: Machine, insts: seq<Inst>, ftable: seq<int32>, fpu: Fpu): (o: Outcome)
    requires Wf(m)
    ensures Wf(o.next) && |o.next.stack| == |m.stack|
    ensures o.signal == Continue || Stops(o.signal)
    decreases |insts|
  {
    if insts == [] then Outcome(Continue, m)
    else
      var before := ApplyAll(m, insts[..|insts| - 1], ftable, fpu);
      if Stops(before.signal) then before
      else
        var o := Apply(before.next, insts[|insts| - 1], ftable, fpu);
        if Stops(o.signal) then o else Outcome(Continue, o.next)
  }

  /**
   * `step()`: fetch `code[ip]`. HALT leaves `ip` on itself; any other
   * instruction runs with `ip` already moved past it, so that CALL saves
   * the address of the instruction after the call. On a fault the state,
   * `ip` included, stays as it was before the step.
   */
  function StepOnce(m: Machine, code: seq<Inst>, ftable: seq<int32>, fpu: Fpu): (o: Outcome)
    requires Wf(m) && |code| <= Max
    ensures Wf(o.next) && |o.next.stack| == |m.stack|
    ensures o.signal.Fault? ==> o.next == m
    ensures o.signal == Fault(BadIp) <==> !(0 <= m.ip as int < |code|)
    ensures o.signal.Halted? ==> o.next == m
    ensures o.signal.Halted? <==> 0 <= m.ip as int < |code| && Decode(code[m.ip].bc) == Some(Halt)
    ensures o.signal.Break? <==> 0 <= m.ip as int < |code| && Decode(code[m.ip].bc) == Some(Brk)
    ensures o.signal.Break? ==> o.next == m.(ip := m.ip + 1)
    ensures 0 <= m.ip as int < |code| && !Stops(o.signal)
            && Decode(code[m.ip].bc) != Some(Call) && Decode(code[m.ip].bc) != Some(Retn)
            ==> o.next.ip as int == m.ip as int + 1
    ensures 0 <= m.ip as int < |code| && !Stops(o.signal)
            ==> Decode(code[m.ip].bc).Some?
                && o.next.top == m.top + NetEffect(Decode(code[m.ip].bc).value)
  {
    if !(0 <= m.ip as int < |code|) then Fail(m, BadIp)
    else if Decode(code[m.ip].bc) == Some(Halt) then Outcome(Halted, m)
    else
      var o := Apply(m.(ip := m.ip + 1), code[m.ip], ftable, fpu);
      if o.signal.Fault? then Fail(m, o.signal.kind) else o
  }

  /** `run()` for at most `fuel` steps: it stops at HALT, a breakpoint or a fault. */
  function RunFor(m: Machine, code: seq<Inst>, ftable: seq<int32>, fpu: Fpu, fuel: nat): (o: Outcome)
    requires Wf(m) && |code| <= Max
    ensures Wf(o.next) && |o.next.stack| == |m.stack|
    ensures o.signal.Halted? ==> 0 <= o.next.ip as int < |code| && Decode(code[o.next.ip].bc) == Some(Halt)
    ensures o.signal.Break? ==> 1 <= o.next.ip as int <= |code| && Decode(code[o.next.ip as int - 1].bc) == Some(Brk)
    ensures o.signal == Fault(BadIp) ==> !(0 <= o.next.ip as int < |code|)
    decreases fuel
  {
    if fuel == 0 then Outcome(Continue, m)
    else
      var o := StepOnce(m, code, ftable, fpu);
      if o.signal != Continue then o else RunFor(o.next, code, ftable, fpu, fuel - 1)
  }

  /** RunFor unfolded by one step. */
  lemma RunForUnfold(m: Machine, code: seq<Inst>, ftable: seq<int32>, fpu: Fpu, fuel: nat)
    requires Wf(m) && |code| <= Max && fuel > 0
    ensures StepOnce(m, code, ftable, fpu).signal != Continue
            ==> RunFor(m, code, ftable, fpu, fuel) == StepOnce(m, code, ftable, fpu)
    ensures StepOnce(m, code, ftable, fpu).signal == Continue
            ==> RunFor(m, code, ftable, fpu, fuel) == RunFor(StepOnce(m, code, ftable, fpu).next, code, ftable, fpu, fuel - 1)
  {
  }

  /**
   * The net change of `top` each opcode's comment states: +1 for push, dup,
   * addr, load and call, -1 for pop and retn, -2 for arithmetic, 0 otherwise.
   */
  function NetEffect(op: Opcode): int {
    match op
    case Push(_) => 1
    case Pop(_) => -1
    case Dup => 1
    case Addr => 1
    case Load => 1
    case Call => 1
    case Retn => -1
    case IntArith(_) => -2
    case FloatArith(_) => -2
    case _ => 0
  }

  function TotalEffect(insts: seq<Inst>): int
    decreases |insts|
  {
    if insts == [] then 0
    else
      var last := Decode(insts[|insts| - 1].bc);
      TotalEffect(insts[..|insts| - 1]) + (if last.Some? then NetEffect(last.value) else 0)
  }

  /** PUSH_<kind>: `arg` lands in the old `top` slot, `top` rises by one, nothing else changes; a full stack faults. */
  lemma PushEffect(m: Machine, kind: Ty, v: int32, ftable: seq<int32>, fpu: Fpu)
    requires Wf(m)
    ensures var o := Apply(m, Inst(Encode(Push(kind)), v), ftable, fpu);
      if m.top < |m.stack| then
        o.signal == Continue && o.next.top == m.top + 1 && o.next.ip == m.ip
        && o.next.stack[m.top] == v && OnlySlotChanged(m.stack, o.next.stack, m.top)
      else
        o == Fail(m, StackOverflow)
  {
    DecodeEncode(Push(kind));
  }

  /**
   * POP_<kind>: `top` falls by one and the slot at the new `top` is copied
   * into slot `top + arg`; nothing else changes.
   */
  lemma PopEffect(m: Machine, kind: Ty, arg: int32, ftable: seq<int32>, fpu: Fpu)
    requires Wf(m)
    ensures var o := Apply(m, Inst(Encode(Pop(kind)), arg), ftable, fpu);
      if m.top == 0 then o == Fail(m, StackUnderflow)
      else if !InStack(m, m.top - 1 + arg as int) then o == Fail(m, BadOffset)
      else
        o.signal == Continue && o.next.top == m.top - 1 && o.next.ip == m.ip
        && o.next.stack[m.top - 1 + arg as int] == m.stack[m.top - 1]
        && OnlySlotChanged(m.stack, o.next.stack, m.top - 1 + arg as int)
  {
    DecodeEncode(Pop(kind));
  }

  /** The kind a push or pop names makes no difference: slots are untyped. */
  lemma KindsAgree(m: Machine, k1: Ty, k2: Ty, arg: int32, ftable: seq<int32>, fpu: Fpu)
    requires Wf(m)
    ensures Apply(m, Inst(Encode(Push(k1)), arg), ftable, fpu) == Apply(m, Inst(Encode(Push(k2)), arg), ftable, fpu)
    ensures Apply(m, Inst(Encode(Pop(k1)), arg), ftable, fpu) == Apply(m, Inst(Encode(Pop(k2)), arg), ftable, fpu)
  {
    DecodeEncode(Push(k1));
    DecodeEncode(Push(k2));
    DecodeEncode(Pop(k1));
    DecodeEncode(Pop(k2));
  }

  /** ApplyAll unfolded at its last instruction. */
  lemma ApplyAllSnoc(m: Machine, insts: seq<Inst>, inst: Inst, ftable: seq<int32>, fpu: Fpu)
    requires Wf(m)
    ensures var before := ApplyAll(m, insts, ftable, fpu);
      ApplyAll(m, insts + [inst], ftable, fpu)
      == if Stops(before.signal) then before
         else var o := Apply(before.next, inst, ftable, fpu);
              if Stops(o.signal) then o else Outcome(Continue, o.next)
  {
    assert (insts + [inst])[..|insts|] == insts;
  }

  /** A push followed by a pop to offset 0 restores `top` and leaves the pushed value in the old `top` slot. */
  lemma PushPopRoundTrip(m: Machine, k1: Ty, k2: Ty, v: int32, ftable: seq<int32>, fpu: Fpu)
    requires Wf(m) && m.top < |m.stack|
    ensures ApplyAll(m, [Inst(Encode(Push(k1)), v), Inst(Encode(Pop(k2)), 0)], ftable, fpu)
         == Outcome(Continue, m.(stack := m.stack[m.top := v]))
  {
    var push, pop := Inst(Encode(Push(k1)), v), Inst(Encode(Pop(k2)), 0);
    PushEffect(m, k1, v, ftable, fpu);
    var mid := Apply(m, push, ftable, fpu).next;
    PopEffect(mid, k2, 0, ftable, fpu);
    ApplyAllSnoc(m, [], push, ftable, fpu);
    ApplyAllSnoc(m, [push], pop, ftable, fpu);
    assert [push] + [pop] == [push, pop];
    assert mid.stack == m.stack[m.top := v];
  }

  /** DUP: slot `top + arg` is copied into slot `top` and `top` rises by one; the source slot keeps its value. */
  lemma DupEffect(m: Machine, arg: int32, ftable: seq<int32>, fpu: Fpu)
    requires Wf(m) && m.top < |m.stack| && InStack(m, m.top + arg as int)
    ensures var o := Apply(m, Inst(Encode(Dup), arg), ftable, fpu);
      o.signal == Continue && o.next.top == m.top + 1 && o.next.ip == m.ip
      && o.next.stack[m.top] == m.stack[m.top + arg as int]
      && (arg != 0 ==> o.next.stack[m.top + arg as int] == m.stack[m.top + arg as int])
      && OnlySlotChanged(m.stack, o.next.stack, m.top)
  {
    DecodeEncode(Dup);
  }

  /** ADDR: the index of slot `top + arg` is written into slot `top` and `top` rises by one. */
  lemma AddrEffect(m: Machine, arg: int32, ftable: seq<int32>, fpu: Fpu)
    requires Wf(m) && m.top < |m.stack| && InStack(m, m.top + arg as int)
    ensures var o := Apply(m, Inst(Encode(Addr), arg), ftable, fpu);
      o.signal == Continue && o.next.top == m.top + 1 && o.next.ip == m.ip
      && o.next.stack[m.top] as int == m.top + arg as int
      && OnlySlotChanged(m.stack, o.next.stack, m.top)
  {
    DecodeEncode(Addr);
  }

  /**
   * STORE: slot `top` is written through the address held in slot
   * `top + arg`; `top` stays and no other slot changes. An address outside
   * the stack faults.
   */
  lemma StoreEffect(m: Machine, arg: int32, ftable: seq<int32>, fpu: Fpu)
    requires Wf(m) && m.top < |m.stack| && InStack(m, m.top + arg as int)
    ensures var o := Apply(m, Inst(Encode(Store), arg), ftable, fpu);
      var target := m.stack[m.top + arg as int] as int;
      if InStack(m, target) then
        o.signal == Continue && o.next.top == m.top && o.next.ip == m.ip
        && o.next.stack[target] == m.stack[m.top]
        && OnlySlotChanged(m.stack, o.next.stack, target)
      else
        o == Fail(m, BadAddress)
  {
    DecodeEncode(Store);
  }

  /**
   * CALL: the current `ip` (the return address) goes into slot `top`, `top`
   * rises by one and `ip` becomes the entry of the function whose id is in
   * the slot below; an id outside the table faults.
   */
  lemma CallEffect(m: Machine, arg: int32, ftable: seq<int32>, fpu: Fpu)
    requires Wf(m) && 0 < m.top < |m.stack|
    ensures var o := Apply(m, Inst(Encode(Call), arg), ftable, fpu);
      var id := m.stack[m.top - 1] as int;
      if 0 <= id < |ftable| then
        o.signal == Continue && o.next.top == m.top + 1 && o.next.ip == ftable[id]
        && o.next.stack[m.top] == m.ip && OnlySlotChanged(m.stack, o.next.stack, m.top)
      else
        o == Fail(m, BadFunction)
  {
    DecodeEncode(Call);
  }

  /** RETN: `ip` is taken from slot `top`, `top` falls by one and no slot changes. */
  lemma RetnEffect(m: Machine, arg: int32, ftable: seq<int32>, fpu: Fpu)
    requires Wf(m) && 0 < m.top < |m.stack|
    ensures var o := Apply(m, Inst(Encode(Retn), arg), ftable, fpu);
      o.signal == Continue && o.next.top == m.top - 1 && o.next.ip == m.stack[m.top]
      && o.next.stack == m.stack
  {
    DecodeEncode(Retn);
  }

  /**
   * RETN returns to the address CALL saved once the callee has lowered
   * `top` by one from where CALL left it, keeping the saved slot intact:
   * `ip` becomes the caller's `ip` and `top` ends one below the id's slot.
   */
  lemma RetnReturnsToCaller(m: Machine, c: Machine, arg: int32, ftable: seq<int32>, fpu: Fpu)
    requires Wf(m) && 0 < m.top < |m.stack| && 0 <= m.stack[m.top - 1] as int < |ftable|
    requires var called := Apply(m, Inst(Encode(Call), arg), ftable, fpu).next;
      Wf(c) && c.top == called.top - 1 && |c.stack| == |called.stack|
      && c.stack[c.top] == called.stack[c.top]
    ensures var o := Apply(c, Inst(Encode(Retn), arg), ftable, fpu);
      o.signal == Continue && o.next.ip == m.ip && o.next.top == m.top - 1
  {
    CallEffect(m, arg, ftable, fpu);
    RetnEffect(c, arg, ftable, fpu);
  }

  /**
   * RETN straight after CALL does not return: it reads the slot above the
   * saved address. From ip 3, CALL saves 3 in slot 1, and RETN then takes
   * `ip` from slot 2.
   */
  lemma CallThenRetnDoesNotReturn(fpu: Fpu)
    ensures var m := Machine([0, 0, 7], 1, 3);
      var prog := [Inst(Encode(Call), 0), Inst(Encode(Retn), 0)];
      ApplyAll(m, prog, [5], fpu) == Outcome(Continue, Machine([0, 3, 7], 1, 7))
  {
    var m, call, retn := Machine([0, 0, 7], 1, 3), Inst(Encode(Call), 0), Inst(Encode(Retn), 0);
    CallEffect(m, 0, [5], fpu);
    var called := Machine([0, 3, 7], 2, 5);
    assert Apply(m, call, [5], fpu) == Outcome(Continue, called);
    RetnEffect(called, 0, [5], fpu);
    assert Apply(called, retn, [5], fpu) == Outcome(Continue, Machine([0, 3, 7], 1, 7));
    ApplyAllSnoc(m, [], call, [5], fpu);
    ApplyAllSnoc(m, [call], retn, [5], fpu);
    assert [] + [call] == [call] && [call] + [retn] == [call, retn];
  }

  /**
   * Integer ADD/SUB/MUL/DIV/MOD: the 32-bit result of
   * `stack[top - 1] op stack[top - 2]` goes into slot `top + arg`, with
   * `top` read before the pops, and `top` falls by two. A zero divisor faults.
   */
  lemma IntArithEffect(m: Machine, op: ArithOp, arg: int32, ftable: seq<int32>, fpu: Fpu)
    requires Wf(m) && 2 <= m.top && InStack(m, m.top + arg as int)
    ensures var o := Apply(m, Inst(Encode(IntArith(op)), arg), ftable, fpu);
      var a, b := m.stack[m.top - 1], m.stack[m.top - 2];
      if (op == Div || op == Mod) && b == 0 then
        o == Fail(m, DivByZero)
      else
        o.signal == Continue && o.next.top == m.top - 2 && o.next.ip == m.ip
        && o.next.stack[m.top + arg as int] == Wrap(IntOp(op, a, b))
        && (Min <= IntOp(op, a, b) <= Max ==> o.next.stack[m.top + arg as int] as int == IntOp(op, a, b))
        && OnlySlotChanged(m.stack, o.next.stack, m.top + arg as int)
  {
    DecodeEncode(IntArith(op));
  }

  /** BRK and the two dumps change nothing; BRK reports a breakpoint. */
  lemma QuietOpcodes(m: Machine, arg: int32, ftable: seq<int32>, fpu: Fpu)
    requires Wf(m)
    ensures Apply(m, Inst(Encode(Brk), arg), ftable, fpu) == Outcome(Break, m)
    ensures Apply(m, Inst(Encode(DumpStack), arg), ftable, fpu) == Outcome(Continue, m)
    ensures Apply(m, Inst(Encode(DumpCode), arg), ftable, fpu) == Outcome(Continue, m)
  {
    DecodeEncode(Brk);
    DecodeEncode(DumpStack);
    DecodeEncode(DumpCode);
  }

  /** One instruction that neither halts nor faults moves `top` by its opcode's net effect. */
  lemma ApplyNetEffect(m: Machine, inst: Inst, ftable: seq<int32>, fpu: Fpu)
    requires Wf(m) && !Stops(Apply(m, inst, ftable, fpu).signal)
    ensures Decode(inst.bc).Some?
    ensures Apply(m, inst, ftable, fpu).next.top == m.top + NetEffect(Decode(inst.bc).value)
  {
  }

  /**
   * Over any sequence that runs to its end without a HALT or a fault, the
   * final `top` is the initial `top` plus the sum of the net effects.
   */
  lemma {:induction false} TopFollowsNetEffects(m: Machine, insts: seq<Inst>, ftable: seq<int32>, fpu: Fpu)
    requires Wf(m) && ApplyAll(m, insts, ftable, fpu).signal == Continue
    ensures ApplyAll(m, insts, ftable, fpu).next.top == m.top + TotalEffect(insts)
    decreases |insts|
  {
    if insts != [] {
      var prefix := insts[..|insts| - 1];
      TopFollowsNetEffects(m, prefix, ftable, fpu);
      ApplyNetEffect(ApplyAll(m, prefix, ftable, fpu).next, insts[|insts| - 1], ftable, fpu);
    }
  }

  /** Once a sequence has stopped, the instructions after the stop are not run. */
  lemma {:induction false} StoppedStaysStopped(m: Machine, insts: seq<Inst>, k: nat, ftable: seq<int32>, fpu: Fpu)
    requires Wf(m) && k <= |insts| && Stops(ApplyAll(m, insts[..k], ftable, fpu).signal)
    ensures ApplyAll(m, insts, ftable, fpu) == ApplyAll(m, insts[..k], ftable, fpu)
    decreases |insts| - k
  {
    if k < |insts| {
      var longer := insts[..k + 1];
      assert longer[..k] == insts[..k];
      assert insts[..k + 1][..k + 1] == longer;
      StoppedStaysStopped(m, insts, k + 1, ftable, fpu);
    } else {
      assert insts[..k] == insts;
    }
  }

  /** A run that has stopped before its fuel ran out ends the same with more fuel. */
  lemma {:induction false} MoreFuelSameStop(m: Machine, code: seq<Inst>, ftable: seq<int32>, fpu: Fpu, fuel: nat, more: nat)
    requires Wf(m) && |code| <= Max && fuel <= more
    requires RunFor(m, code, ftable, fpu, fuel).signal != Continue
    ensures RunFor(m, code, ftable, fpu, more) == RunFor(m, code, ftable, fpu, fuel)
    decreases fuel
  {
    var o := StepOnce(m, code, ftable, fpu);
    if o.signal == Continue {
      MoreFuelSameStop(o.next, code, ftable, fpu, fuel - 1, more - 1);
    }
  }

  /**
   * A breakpoint suspends a run with `ip` just past it and nothing else
   * changed, so the next run resumes at the following instruction.
   */
  lemma BreakSuspendsRun(m: Machine, code: seq<Inst>, ftable: seq<int32>, fpu: Fpu, fuel: nat)
    requires Wf(m) && |code| <= Max && 0 <= m.ip as int < |code| && Decode(code[m.ip].bc) == Some(Brk)
    requires fuel > 0
    ensures RunFor(m, code, ftable, fpu, fuel) == Outcome(Break, m.(ip := m.ip + 1))
  {
  }

  /** `PUSH 3; PUSH 6; DIV_INT -2` leaves 6 / 3 = 2 in the slot the two operands began at. */
  lemma DivideExample(ftable: seq<int32>, fpu: Fpu)
    ensures var m := Machine([0, 0, 0], 0, 0);
      var prog := [Inst(Encode(Push(TyInt)), 3), Inst(Encode(Push(TyInt)), 6), Inst(Encode(IntArith(Div)), -2)];
      ApplyAll(m, prog, ftable, fpu) == Outcome(Continue, Machine([2, 6, 0], 0, 0))
  {
    var p0, p1, d := Inst(Encode(Push(TyInt)), 3), Inst(Encode(Push(TyInt)), 6), Inst(Encode(IntArith(Div)), -2);
    var m0, m1, m2 := Machine([0, 0, 0], 0, 0), Machine([3, 0, 0], 1, 0), Machine([3, 6, 0], 2, 0);
    DivideSteps(m0, m1, m2, 3, 6, ftable, fpu);
    IntArithEffect(m2, Div, -2, ftable, fpu);
    assert TruncDiv(6, 3) == 2;
    assert Apply(m2, d, ftable, fpu) == Outcome(Continue, Machine([2, 6, 0], 0, 0));
    ApplyAllSnoc(m0, [p0, p1], d, ftable, fpu);
    assert [p0, p1] + [d] == [p0, p1, d];
  }

  /** The two pushes of the examples below, one at a time. */
  lemma DivideSteps(m0: Machine, m1: Machine, m2: Machine, x: int32, y: int32, ftable: seq<int32>, fpu: Fpu)
    requires m0 == Machine([0, 0, 0], 0, 0) && m1 == Machine([x, 0, 0], 1, 0) && m2 == Machine([x, y, 0], 2, 0)
    ensures ApplyAll(m0, [Inst(Encode(Push(TyInt)), x), Inst(Encode(Push(TyInt)), y)], ftable, fpu) == Outcome(Continue, m2)
  {
    var p0, p1 := Inst(Encode(Push(TyInt)), x), Inst(Encode(Push(TyInt)), y);
    PushEffect(m0, TyInt, x, ftable, fpu);
    assert Apply(m0, p0, ftable, fpu) == Outcome(Continue, m1);
    PushEffect(m1, TyInt, y, ftable, fpu);
    assert Apply(m1, p1, ftable, fpu) == Outcome(Continue, m2);
    ApplyAllSnoc(m0, [], p0, ftable, fpu);
    ApplyAllSnoc(m0, [p0], p1, ftable, fpu);
    assert [] + [p0] == [p0] && [p0] + [p1] == [p0, p1];
  }

  /** The same program with a zero divisor faults with DivByZero after the two pushes. */
  lemma DivideByZeroExample(ftable: seq<int32>, fpu: Fpu)
    ensures var m := Machine([0, 0, 0], 0, 0);
      var prog := [Inst(Encode(Push(TyInt)), 0), Inst(Encode(Push(TyInt)), 6), Inst(Encode(IntArith(Div)), -2)];
      ApplyAll(m, prog, ftable, fpu) == Fail(Machine([0, 6, 0], 2, 0), DivByZero)
  {
    var p0, p1, d := Inst(Encode(Push(TyInt)), 0), Inst(Encode(Push(TyInt)), 6), Inst(Encode(IntArith(Div)), -2);
    var m0, m1, m2 := Machine([0, 0, 0], 0, 0), Machine([0, 0, 0], 1, 0), Machine([0, 6, 0], 2, 0);
    DivideSteps(m0, m1, m2, 0, 6, ftable, fpu);
    IntArithEffect(m2, Div, -2, ftable, fpu);
    assert Apply(m2, d, ftable, fpu) == Fail(m2, DivByZero);
    ApplyAllSnoc(m0, [p0, p1], d, ftable, fpu);
    assert [p0, p1] + [d] == [p0, p1, d];
  }
}
