# A model of the lang-test-02 bytecode VM, its IR nodes and `Slice`

This project models three headers of a small compiled language's back end:

- **vm.h**: a stack-based bytecode virtual machine. The operand stack is a buffer of slots that are updated in place (`_stack`, declared as `mem8*` at vm.h:133). This model makes each slot a 32-bit integer; that is enough because an address is a stack index here. `top` is the index of the next free slot, `ip` is the index of the next instruction, and a function table maps function ids to code offsets. Every opcode changes the stack, `top` and `ip` as its comment in the `BC` enumeration says, read as set out below. The class `VirtualMachine.VM` holds this state in arrays and fields. Its entry points (`Exec`, `ExecN`, `Step`, `Run`) are proved to follow the pure functions of module `Semantics` (`Apply`, `ApplyAll`, `StepOnce`, `RunFor`). The lemmas of `Semantics` state what each opcode family does.
- **intermediate.h**: the closed family of intermediate-representation nodes. The datatype `Intermediate.Node` has one constructor per node struct. The functions `GetTypeId`, `ToStringType` and `ToStringValue` follow the virtual methods of those structs. A `shared_ptr` field is an `Option`, where `None` stands for a null pointer. `ToStringValue` yields `None` wherever the C++ code would dereference a null pointer.
- **slice.h**: the half-open range `Slice` with `Length`, `==` and `!=`.

Supporting modules:
- `Int32`: C++ `int`, two's complement wrap-around, and `/` and `%` truncating toward zero.
- `Decimal`: the decimal text that `slow_lexical_cast` produces for integers, with a reader that recovers the number.
- `Bytecode`: the opcode numbering.

## How the VM is read

- Slots are untyped. Every `PUSH_<kind>` behaves alike, and so does every `POP_<kind>`.
- An address is a stack index. `ADDR` writes `top + arg`. `STORE` writes the value of slot `top` into the slot whose index is held in slot `top + arg`. This follows vm.h:51. `STORE` leaves `top` where it is.
- `CALL`: the opcode comment (vm.h:54-56) sets `ip = stack[top-1]`. The calling-convention comment (vm.h:10) calls that slot a function id, and the VM holds `_ftable`. So `CALL` resolves the id through the function table. An id outside `0 .. fcount-1` is a fault. The return address goes into slot `top`, above the id, as vm.h:54 says. The calling-convention line "set top = retn ip" (vm.h:10) could also be read as overwriting the id's own slot; the opcode comment is followed.
- `RETN` takes `ip` from slot `top` and lowers `top` by one (vm.h:59-60). That is the slot just above the one where `CALL` saved the return address, so `RETN` returns to the caller only once the callee has lowered `top` by one and left the saved slot intact.
- `LOAD`'s comment is identical to `ADDR`'s (vm.h:43-49), so `LOAD` is modelled as a second `ADDR`. Nothing further is proved about it.
- Arithmetic: only `+` is written out (vm.h:63). `SUB`, `MUL`, `DIV` and `MOD` use the same operand order, `stack[top-1] op stack[top-2]`. The destination `stack[top+arg]` is computed before the two pops. The dividend is therefore the value pushed last: `PUSH 6; PUSH 3; DIV_INT` divides 3 by 6, and `PUSH 3; PUSH 6; DIV_INT` divides 6 by 3. `Semantics.DivideExample` shows the second.
- Integer results wrap to 32 bits. Division and remainder truncate as in C++. A zero divisor is a `DivByZero` fault.
- Instead of crashing, every instruction checks the indices it touches. A failed check returns a `Fault(kind)` signal and leaves the state unchanged. An opcode number outside the enumeration is a `BadOpcode` fault.
- `step()` fetches `code[ip]`, which is a `BadIp` fault when out of range. On `HALT`, `ip` stays on the halt instruction. Any other instruction runs with `ip` already advanced, so `CALL` saves the address of the instruction after the call.
- `BRK` moves `ip` past itself and suspends `run()`. `execn` stops at `HALT` or at a fault, not at `BRK`.

## Model

| member | source | states |
|---|---|---|
| `Slices.DefaultSlice` | slice.h:11 | the default slice has both ends at zero, so its length is 0 |
| `Slices.Length` | slice.h:14 | start plus length is end; the length is zero exactly for an empty range and negative exactly when End is before Start |
| `Slices.CreateKeepsEnds` | slice.h:12-14 | `Slice(s, e)` keeps s and e, and its length is e - s |
| `Slices.Equal` | slice.h:16-19 | `==` holds exactly when the two slices are the same range |
| `Slices.NotEqual` | slice.h:21-24 | `!=` holds exactly when the two slices differ |
| `Slices.NotEqualNegatesEqual` | slice.h:21-24 | `!=` is the negation of `==` |
| `Slices.EqualIsEquivalence` | slice.h:16-19 | `==` is reflexive, symmetric and transitive |
| `Slices.EqualSlicesHaveEqualLength` | slice.h:14-19 | equal slices have equal lengths |
| `Intermediate.Value` | intermediate.h:12-28 | the enumerators of `IntermediateType::Type` take the values 0 to 13 |
| `Intermediate.NewBlock` | intermediate.h:134-137 | a new block holds a non-null, empty statement list and reports the block tag |
| `Intermediate.GetTypeId` | intermediate.h:47-212 | every node reports a value in 0 .. 13, and one in 1 .. 6 exactly when it is an expression node |
| `Intermediate.ToStringType` | intermediate.h:48-213 | every type name begins with "Intermediate" |
| `Intermediate.ToStringValue` | intermediate.h:49-214 | only a binary operation or a call can lack a rendering (a null dereference); a well-formed expression tree always renders |
| `Intermediate.ValueIsInjective` | intermediate.h:12-28 | distinct enumerators have distinct values |
| `Intermediate.TagOf` | intermediate.h:45-215 | every node's `GetTypeId` is the value of one enumerator, the one named after the node's struct |
| `Intermediate.TypeIdIdentifiesKind` | intermediate.h:45-215 | two nodes report the same `GetTypeId` exactly when they are of the same kind |
| `Intermediate.TypeNameMatchesTag` | intermediate.h:45-215 | `ToStringType` spells the identifier of the enumerator that `GetTypeId` returns |
| `Intermediate.FixedRenderings` | intermediate.h:45-215 | base, expression, block, function, store, load, new and delete nodes render "<nul>", "<expr>", "block", "function", "store", "load", "new" and "delete" |
| `Intermediate.LiteralsRenderTheirText` | intermediate.h:103-129 | string literals and identifiers render exactly their stored text |
| `Intermediate.IntegerLiteralReadsBack` | intermediate.h:77-88 | an integer literal renders as signed decimal text that reads back as its value |
| `Intermediate.NullOperandsDoNotRender` | intermediate.h:62-75 | a binary operation with a null operand, or a call with a null callee or argument list, has no rendering |
| `Intermediate.CallRendersArgumentCount` | intermediate.h:162-175 | a call renders as the callee's text, then "(", then decimal digits that read back as the argument count, then ")" |
| `Intermediate.Words` | intermediate.h:62-75 | an expression tree has an odd number of words: one more operand than operators |
| `Intermediate.ExpressionRendersWords` | intermediate.h:62-75 | a well-formed expression tree renders as its operand and operator words, left to right, joined by single spaces |
| `Decimal.NatToDecimal` | intermediate.h:171 | an argument count renders as a non-empty string of digits with no leading zero |
| `Decimal.NatRoundTrip` | intermediate.h:171 | reading the digits back gives the count |
| `Decimal.IntToDecimal` | intermediate.h:85 | an `int` renders as digits, preceded by '-' exactly when negative |
| `Decimal.IntRoundTrip` | intermediate.h:85 | reading the text back gives the integer |
| `Int32.Wrap` | vm.h:63-70 | an arithmetic result is reduced modulo 2^32 into the int32 range, and is unchanged when it already fits |
| `Int32.TruncDiv` | vm.h:66-70 | integer division rounds toward zero |
| `Int32.TruncMod` | vm.h:66-70 | the remainder is smaller in magnitude than the divisor and takes the dividend's sign |
| `Int32.QuotientBound` | vm.h:66-70 | a quotient is no larger in magnitude than its dividend |
| `Int32.DivModIdentity` | vm.h:66-70 | quotient times divisor plus remainder is the dividend |
| `Bytecode.Encode` | vm.h:19-87 | every opcode has a number in 0 .. 29 |
| `Bytecode.Decode` | vm.h:19-87 | a number decodes exactly when it is in 0 .. 29, and to the opcode that encodes to it |
| `Bytecode.DecodeEncode` | vm.h:19-87 | the numbering is one-to-one: decoding an opcode's number gives the opcode back |
| `Semantics.Apply` | vm.h:19-87 | one instruction keeps `0 <= top <= capacity <= INT_MAX`; a fault changes nothing; unknown opcodes fault; only HALT halts and only BRK breaks; only CALL and RETN move `ip` |
| `Semantics.ApplyAll` | vm.h:151 | a sequence keeps the stack invariant and ends either completed or at its first HALT or fault |
| `Semantics.StepOnce` | vm.h:148 | a step faults with BadIp exactly when `ip` is outside the code; it halts exactly at a HALT in `code[ip]` and breaks exactly at a BRK there, BRK moving `ip` past itself; a fault or HALT changes nothing; an instruction that completes moves `top` by the net effect of `code[ip]`'s opcode and, unless it is CALL or RETN, advances `ip` by one |
| `Semantics.RunFor` | vm.h:153 | a run keeps the stack invariant; it halts only with `ip` on a HALT instruction, breaks only with `ip` just past a BRK, and faults with BadIp only with `ip` outside the code |
| `Semantics.IntOp` | vm.h:63-70 | the integer operations before wrapping; the quotient and remainder satisfy the division identity, the quotient exceeds the int32 range by at most one and the remainder always fits |
| `Semantics.PushEffect` | vm.h:23-30 | PUSH writes `arg` into the old `top` slot and raises `top` by one; no other slot and not `ip` changes; a full stack faults |
| `Semantics.PopEffect` | vm.h:31-37 | POP lowers `top` by one and copies the slot at the new `top` into slot `top + arg`; no other slot changes |
| `Semantics.KindsAgree` | vm.h:23-37 | all push kinds have one effect, and so do all pop kinds |
| `Semantics.PushPopRoundTrip` | vm.h:23-37 | PUSH v then POP 0 restores `top` and leaves v in the old `top` slot |
| `Semantics.DupEffect` | vm.h:39-41 | DUP copies slot `top + arg` into slot `top` and raises `top` by one; the source slot is unchanged |
| `Semantics.AddrEffect` | vm.h:43-45 | ADDR writes the index `top + arg` into slot `top` and raises `top` by one |
| `Semantics.StoreEffect` | vm.h:51-52 | STORE writes slot `top` into the slot addressed by `stack[top + arg]`; `top` and all other slots stay; a bad address faults |
| `Semantics.CallEffect` | vm.h:54-57 | CALL saves `ip` in slot `top`, raises `top` by one and jumps to the table entry of the id below; an unknown id faults |
| `Semantics.RetnEffect` | vm.h:59-61 | RETN takes `ip` from slot `top` and lowers `top` by one; no slot changes |
| `Semantics.RetnReturnsToCaller` | vm.h:54-61 | after a CALL, a RETN issued once `top` is one below where CALL left it, with the saved slot intact, returns to the instruction after the call with `top` one below the caller's |
| `Semantics.CallThenRetnDoesNotReturn` | vm.h:54-61 | a RETN directly after a CALL reads the slot above the saved address and does not return to the caller |
| `Semantics.IntArithEffect` | vm.h:63-70 | integer arithmetic writes `stack[top-1] op stack[top-2]`, wrapped to 32 bits, into slot `top + arg` (pre-pop `top`) and lowers `top` by two; a zero divisor faults |
| `Semantics.QuietOpcodes` | vm.h:81-86 | BRK and the dumps change nothing; BRK signals a breakpoint |
| `Semantics.ApplyNetEffect` | vm.h:19-87 | an instruction that neither halts nor faults moves `top` by its opcode's net effect |
| `Semantics.TopFollowsNetEffects` | vm.h:19-87 | after a completed sequence, `top` is the initial `top` plus the sum of the net effects |
| `Semantics.StoppedStaysStopped` | vm.h:151 | instructions after a HALT or a fault are not run |
| `Semantics.MoreFuelSameStop` | vm.h:153 | a run that stopped ends the same with more fuel |
| `Semantics.BreakSuspendsRun` | vm.h:81-82 | a breakpoint suspends the run with `ip` just past it and nothing else changed |
| `Semantics.DivideExample` | vm.h:63-69 | PUSH 3; PUSH 6; DIV_INT -2 leaves 2 in slot 0 and `top` at 0 |
| `Semantics.DivideByZeroExample` | vm.h:63-69 | with a zero divisor, the same program faults with DivByZero after the two pushes |
| `VirtualMachine.VM.constructor` | vm.h:132-140 | a new machine has an empty stack of the given capacity, `ip` at 0, and the given code and function table |
| `VirtualMachine.VM.Exec` | vm.h:149 | executing one instruction in place yields exactly the state and signal that `Apply` gives |
| `VirtualMachine.VM.ExecPush` | vm.h:23-30 | the in-place PUSH follows `Apply` |
| `VirtualMachine.VM.ExecPop` | vm.h:31-37 | the in-place POP follows `Apply` |
| `VirtualMachine.VM.ExecDup` | vm.h:39-41 | the in-place DUP follows `Apply` |
| `VirtualMachine.VM.ExecAddr` | vm.h:43-49 | the in-place ADDR and LOAD follow `Apply` |
| `VirtualMachine.VM.ExecStore` | vm.h:51-52 | the in-place STORE follows `Apply` |
| `VirtualMachine.VM.ExecCall` | vm.h:54-57 | the in-place CALL follows `Apply` |
| `VirtualMachine.VM.ExecRetn` | vm.h:59-61 | the in-place RETN follows `Apply` |
| `VirtualMachine.VM.ExecArith` | vm.h:63-79 | the in-place arithmetic follows `Apply` |
| `VirtualMachine.VM.ExecN` | vm.h:151 | the loop over `count` instructions yields what `ApplyAll` gives for the first `count` of them |
| `VirtualMachine.VM.Step` | vm.h:148 | fetching and executing `code[ip]` yields what `StepOnce` gives |
| `VirtualMachine.VM.Run` | vm.h:153 | the run loop yields what `RunFor` gives |

## Left out

- Floating-point arithmetic (`BC_*_FLOAT`, vm.h:72-79): the slot bookkeeping is modelled, but the result bits come from a parameter function (`Fpu`). Float values stay opaque.
- The float literal's rendering (intermediate.h:98) and `Operation::ToString` (declared in operation.h, which is not part of this model): both are parameter functions of `Intermediate.Renderer`.
- `slow_lexical_cast` is not part of this model. On integers it is taken to give plain decimal text, as stream output does.
- `print_stack`, `print_code` and `print_data`, and the output of `BC_DUMP_STACK`/`BC_DUMP_CODE`: console output only. The dump opcodes are state no-ops.
- `init`, `release` and the `_memblock` arena carved by pointer arithmetic: allocation plumbing. The stack, code and function table are separate arrays. The data segment `_data` is not read by any instruction comment, so it is not modelled.
- `StackDebugInfo`, `FunctionDebugInfo` and `FRAME`: debug records that execution never reads. The union type-punning has no meaning here.
- `bcstr` and `size(TY)`: only declarations are shown.
- token.h: declarations only.
- `shared_ptr` ownership and sharing: nodes are values. `IntermediateNew`'s `identifier` and `type`, and `IntermediateDelete`'s `identifier`, are base-class `Intermediate` values that carry no data, so those constructors have no fields.
- The call/return depth property of the calling convention (depth after a matched CALL … RETN is depth before plus one): it depends on the callee's code. As written, `RETN` reads `stack[top]`, the slot above the address `CALL` saved, so a `CALL` followed directly by `RETN` does not return (`Semantics.CallThenRetnDoesNotReturn`); it returns only under the condition `Semantics.RetnReturnsToCaller` states.
- Slot width: `_stack` is a `mem8*` buffer whose element type is not defined in vm.h, and ADDR's comment (vm.h:43) stores a pointer into a slot, so real slots are at least pointer-sized. The model narrows every slot to 32 bits and stores a stack index where the source stores a pointer.
- `LOAD` as a dereference, and an ADDR–STORE–LOAD round trip: the header gives LOAD no such behaviour.
- `VirtualMachine.VM.Run`: bounded by a `fuel` argument. The source loops until HALT, so a run that never halts is not modelled beyond its fuel.
- `Slices.Length`: gives the exact difference. In C++, `End - Start` on two `int`s can overflow, which is undefined behaviour. That case is not modelled.
- `Semantics.IntArithEffect`: signed overflow is undefined behaviour in C++ and is modelled as two's complement wrap-around. That includes `INT_MIN / -1`.
