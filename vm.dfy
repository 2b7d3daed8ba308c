/**
 * `struct VM`: the operand stack as a buffer of raw slots updated in place,
 * `_top`, `_ip`, the code and the function table. Each entry point is
 * proved to follow the functions of module Semantics.
 */
module VirtualMachine {
  import opened Int32
  import opened Optional
  import opened Bytecode
  import opened Semantics

  class VM {
    /** `_stack`: raw slots; `top` is the index of the next free one. */
    var stack: array<int32>
    var top: int
    /** `_ip`: index into `code` of the next instruction to fetch. */
    var ip: int32
    /** `_code`. */
    var code: array<Inst>
    /** `_ftable` and `_fcount`: entry offsets of functions 0 .. fcount - 1. */
    var ftable: array<int32>
    var fcount: int
    /** Floating-point arithmetic, which this model leaves abstract. */
    const fpu: Fpu

    ghost predicate Valid()
      reads this
    {
      0 <= top <= stack.Length <= Max && code.Length <= Max
      && 0 <= fcount <= ftable.Length && stack != ftable
    }

    /** The execution state the semantics speak of. */
    ghost function State(): (m: Machine)
      reads this, stack
      requires Valid()
      ensures Wf(m)
    {
      Machine(stack[..], top, ip)
    }

    ghost function Functions(): seq<int32>
      reads this, ftable
      requires Valid()
    {
      ftable[..fcount]
    }

    /** A machine with an empty stack of `capacity` slots, about to run `code` from offset 0. */
    constructor (capacity: nat, code: array<Inst>, ftable: array<int32>, fcount: int, fpu: Fpu)
      requires capacity <= Max && code.Length <= Max && 0 <= fcount <= ftable.Length
      ensures Valid() && fresh(stack) && stack.Length == capacity
      ensures top == 0 && ip == 0
      ensures this.code == code && this.ftable == ftable && this.fcount == fcount && this.fpu == fpu
    {
      stack := new int32[capacity];
      top, ip := 0, 0;
      this.code, this.ftable, this.fcount, this.fpu := code, ftable, fcount, fpu;
    }

    /** `exec(inst)`: one instruction, family by family. */
    method Exec(inst: Inst) returns (signal: Signal)
      requires Valid()
      modifies this`top, this`ip, stack
      ensures Valid()
      ensures Outcome(signal, State()) == Apply(old(State()), inst, Functions(), fpu)
    {
      var decoded := Decode(inst.bc);
      if decoded.None? {
        return Fault(BadOpcode);
      }
      match decoded.value
      case Halt => signal := Halted;
      case Push(_) => signal := ExecPush(inst);
      case Pop(_) => signal := ExecPop(inst);
      case Dup => signal := ExecDup(inst);
      case Addr => signal := ExecAddr(inst);
      case Load => signal := ExecAddr(inst);
      case Store => signal := ExecStore(inst);
      case Call => signal := ExecCall(inst);
      case Retn => signal := ExecRetn(inst);
      case IntArith(_) => signal := ExecArith(inst);
      case FloatArith(_) => signal := ExecArith(inst);
      case Brk => signal := Break;
      case DumpStack => signal := Continue;
      case DumpCode => signal := Continue;
    }

    /** PUSH_<kind>: `stack[top] = arg; top++;` */
    method ExecPush(inst: Inst) returns (signal: Signal)
      requires Valid() && Decode(inst.bc).Some? && Decode(inst.bc).value.Push?
      modifies this`top, stack
      ensures Valid()
      ensures Outcome(signal, State()) == Apply(old(State()), inst, Functions(), fpu)
    {
      if top == stack.Length { return Fault(StackOverflow); }
      stack[top] := inst.arg;
      top := top + 1;
      signal := Continue;
    }

    /** POP_<kind>: `top--; stack[top + arg] = stack[top];` */
    method ExecPop(inst: Inst) returns (signal: Signal)
      requires Valid() && Decode(inst.bc).Some? && Decode(inst.bc).value.Pop?
      modifies this`top, stack
      ensures Valid()
      ensures Outcome(signal, State()) == Apply(old(State()), inst, Functions(), fpu)
    {
      var arg := inst.arg as int;
      if top == 0 { return Fault(StackUnderflow); }
      if !(0 <= top - 1 + arg < stack.Length) { return Fault(BadOffset); }
      top := top - 1;
      stack[top + arg] := stack[top];
      signal := Continue;
    }

    /** DUP: `stack[top] = stack[top + arg]; top++;` */
    method ExecDup(inst: Inst) returns (signal: Signal)
      requires Valid() && Decode(inst.bc) == Some(Dup)
      modifies this`top, stack
      ensures Valid()
      ensures Outcome(signal, State()) == Apply(old(State()), inst, Functions(), fpu)
    {
      var arg := inst.arg as int;
      if top == stack.Length { return Fault(StackOverflow); }
      if !(0 <= top + arg < stack.Length) { return Fault(BadOffset); }
      stack[top] := stack[top + arg];
      top := top + 1;
      signal := Continue;
    }

    /** ADDR, and LOAD as its comment reads: `stack[top] = &stack[top + arg]; top++;` */
    method ExecAddr(inst: Inst) returns (signal: Signal)
      requires Valid() && (Decode(inst.bc) == Some(Addr) || Decode(inst.bc) == Some(Load))
      modifies this`top, stack
      ensures Valid()
      ensures Outcome(signal, State()) == Apply(old(State()), inst, Functions(), fpu)
    {
      var arg := inst.arg as int;
      if top == stack.Length { return Fault(StackOverflow); }
      if !(0 <= top + arg < stack.Length) { return Fault(BadOffset); }
      stack[top] := (top + arg) as int32;
      top := top + 1;
      signal := Continue;
    }

    /** STORE: `*stack[top + arg] = stack[top];` */
    method ExecStore(inst: Inst) returns (signal: Signal)
      requires Valid() && Decode(inst.bc) == Some(Store)
      modifies stack
      ensures Valid()
      ensures Outcome(signal, State()) == Apply(old(State()), inst, Functions(), fpu)
    {
      var arg := inst.arg as int;
      if top == stack.Length { return Fault(StackOverflow); }
      if !(0 <= top + arg < stack.Length) { return Fault(BadOffset); }
      var target := stack[top + arg] as int;
      if !(0 <= target < stack.Length) { return Fault(BadAddress); }
      stack[target] := stack[top];
      signal := Continue;
    }

    /** CALL: `stack[top] = ip; ip = ftable[stack[top-1]]; top++;` */
    method ExecCall(inst: Inst) returns (signal: Signal)
      requires Valid() && Decode(inst.bc) == Some(Call)
      modifies this`top, this`ip, stack
      ensures Valid()
      ensures Outcome(signal, State()) == Apply(old(State()), inst, Functions(), fpu)
    {
      if top == 0 { return Fault(StackUnderflow); }
      if top == stack.Length { return Fault(StackOverflow); }
      var id := stack[top - 1] as int;
      if !(0 <= id < fcount) { return Fault(BadFunction); }
      stack[top] := ip;
      ip := ftable[id];
      top := top + 1;
      signal := Continue;
    }

    /** RETN: `ip = stack[top]; top--;` */
    method ExecRetn(inst: Inst) returns (signal: Signal)
      requires Valid() && Decode(inst.bc) == Some(Retn)
      modifies this`top, this`ip
      ensures Valid()
      ensures Outcome(signal, State()) == Apply(old(State()), inst, Functions(), fpu)
    {
      if top == 0 { return Fault(StackUnderflow); }
      if top == stack.Length { return Fault(StackOverflow); }
      ip := stack[top];
      top := top - 1;
      signal := Continue;
    }

    /** The arithmetic families: `stack[top + arg] = stack[top - 1] op stack[top - 2]; top--; top--;` */
    method ExecArith(inst: Inst) returns (signal: Signal)
      requires Valid() && Decode(inst.bc).Some?
      requires Decode(inst.bc).value.IntArith? || Decode(inst.bc).value.FloatArith?
      modifies this`top, stack
      ensures Valid()
      ensures Outcome(signal, State()) == Apply(old(State()), inst, Functions(), fpu)
    {
      var arg := inst.arg as int;
      if top < 2 { return Fault(StackUnderflow); }
      if !(0 <= top + arg < stack.Length) { return Fault(BadOffset); }
      var a, b := stack[top - 1], stack[top - 2];
      var result;
      match Decode(inst.bc).value {
        case IntArith(op) =>
          if (op == Div || op == Mod) && b == 0 { return Fault(DivByZero); }
          result := Wrap(IntOp(op, a, b));
        case FloatArith(op) =>
          result := fpu(op, a, b);
      }
      stack[top + arg] := result;
      top := top - 2;
      signal := Continue;
    }

    /** `execn(insts, count)`: the first `count` instructions, until a HALT or a fault. */
    method ExecN(insts: array<Inst>, count: int) returns (signal: Signal)
      requires Valid() && count <= insts.Length
      modifies this`top, this`ip, stack
      ensures Valid()
      ensures Outcome(signal, State()) == ApplyAll(old(State()), insts[..if count < 0 then 0 else count], Functions(), fpu)
    {
      var n := if count < 0 then 0 else count;
      var i := 0;
      signal := Continue;
      while i < n
        invariant 0 <= i <= n && Valid()
        invariant signal == Continue
        invariant Outcome(signal, State()) == ApplyAll(old(State()), insts[..i], Functions(), fpu)
      {
        var s := Exec(insts[i]);
        ApplyAllSnoc(old(State()), insts[..i], insts[i], Functions(), fpu);
        assert insts[..i] + [insts[i]] == insts[..i + 1];
        if Stops(s) {
          assert insts[..n][..i + 1] == insts[..i + 1];
          StoppedStaysStopped(old(State()), insts[..n], i + 1, Functions(), fpu);
          return s;
        }
        i := i + 1;
      }
    }

    /** `step()`: fetch the instruction at `ip` and execute it. */
    method Step() returns (signal: Signal)
      requires Valid()
      modifies this`top, this`ip, stack
      ensures Valid()
      ensures Outcome(signal, State()) == StepOnce(old(State()), code[..], Functions(), fpu)
    {
      if !(0 <= ip as int < code.Length) {
        return Fault(BadIp);
      }
      ghost var m, program, functions := State(), code[..], Functions();
      var inst := code[ip];
      assert inst == program[m.ip];
      if Decode(inst.bc) == Some(Halt) {
        return Halted;
      }
      ip := ip + 1;
      assert State() == m.(ip := m.ip + 1);
      signal := Exec(inst);
      if signal.Fault? {
        ip := ip - 1;
        assert State() == m;
      }
    }

    /** `run()`, for at most `fuel` steps: until HALT, a breakpoint or a fault. */
    method Run(fuel: nat) returns (signal: Signal)
      requires Valid()
      modifies this`top, this`ip, stack
      ensures Valid()
      ensures Outcome(signal, State()) == RunFor(old(State()), code[..], Functions(), fpu, fuel)
    {
      ghost var program, functions := code[..], Functions();
      ghost var goal := RunFor(State(), program, functions, fpu, fuel);
      var left: nat := fuel;
      signal := Continue;
      while left > 0
        invariant left <= fuel && Valid() && signal == Continue
        invariant code[..] == program && Functions() == functions
        invariant goal == RunFor(State(), program, functions, fpu, left)
      {
        ghost var before := State();
        signal := Step();
        RunForUnfold(before, program, functions, fpu, left);
        if signal != Continue {
          return;
        }
        left := left - 1;
      }
    }
  }
}
