/**
 * The intermediate-representation nodes: a closed family of kinds, each with
 * a numeric type tag, a type name and a textual rendering.
 *
 * A `shared_ptr` field is an `Option`: `None` is a null pointer. Rendering
 * a node whose rendering would dereference a null pointer yields `None`
 * (the C++ behaviour is undefined there).
 */
module Intermediate {
  import opened Int32
  import opened Optional
  import Decimal

  /** `IntermediateType::Type`, in declaration order. */
  datatype TypeId =
    | Intermediate
    | IntermediateExpression
    | IntermediateBinaryOperation
    | IntermediateLiteralInteger
    | IntermediateLiteralFloat
    | IntermediateLiteralString
    | IntermediateLiteralIdentifier
    | IntermediateBlock
    | IntermediateFunction
    | IntermediateCall
    | IntermediateStore
    | IntermediateLoad
    | IntermediateNew
    | IntermediateDelete

  /** The value C++ gives each enumerator: its position, counting from zero. */
  function Value(t: TypeId): (v: int)
    ensures 0 <= v < 14
  {
    match t
    case Intermediate => 0
    case IntermediateExpression => 1
    case IntermediateBinaryOperation => 2
    case IntermediateLiteralInteger => 3
    case IntermediateLiteralFloat => 4
    case IntermediateLiteralString => 5
    case IntermediateLiteralIdentifier => 6
    case IntermediateBlock => 7
    case IntermediateFunction => 8
    case IntermediateCall => 9
    case IntermediateStore => 10
    case IntermediateLoad => 11
    case IntermediateNew => 12
    case IntermediateDelete => 13
  }

  /** The enumerator's identifier, as text. */
  function Identifier(t: TypeId): string {
    match t
    case Intermediate => "Intermediate"
    case IntermediateExpression => "IntermediateExpression"
    case IntermediateBinaryOperation => "IntermediateBinaryOperation"
    case IntermediateLiteralInteger => "IntermediateLiteralInteger"
    case IntermediateLiteralFloat => "IntermediateLiteralFloat"
    case IntermediateLiteralString => "IntermediateLiteralString"
    case IntermediateLiteralIdentifier => "IntermediateLiteralIdentifier"
    case IntermediateBlock => "IntermediateBlock"
    case IntermediateFunction => "IntermediateFunction"
    case IntermediateCall => "IntermediateCall"
    case IntermediateStore => "IntermediateStore"
    case IntermediateLoad => "IntermediateLoad"
    case IntermediateNew => "IntermediateNew"
    case IntermediateDelete => "IntermediateDelete"
  }

  /** `Operation::Type`, declared in operation.h, which is not part of this model. */
  type OpType = nat

  /** The bits of a C++ `float`; their meaning is not modelled. */
  type FloatBits = bv32

  /** `IntermediatePtr` and friends: a possibly null pointer to a node. */
  type NodePtr = Option<Node>

  /** `IntermediateListPtr`: a possibly null pointer to a list of node pointers. */
  type ListPtr = Option<seq<NodePtr>>

  /**
   * One constructor per node struct. `IntermediateNew` and `IntermediateDelete`
   * hold their operands as base-class `Intermediate` values, which carry no
   * data, so those constructors have no fields.
   *
   * The pointer fields are looser than the C++ types: `lhs` and `rhs` of a
   * binary operation are `IntermediateExpressionPtr` and a function's `block`
   * is an `IntermediateBlockPtr`, while here each may point to any node.
   * `WellFormedExpr` restores the expression restriction where it matters.
   *
   * Fields keep their C++ names, except that the four literal structs all
   * call their payload `value`: here those are `intValue`, `floatValue`,
   * `text` and `name`, since one destructor name must have one type.
   */
  datatype Node =
    | Base
    | Expression
    | BinaryOperation(op: OpType, lhs: NodePtr, rhs: NodePtr)
    | LiteralInteger(intValue: int32)
    | LiteralFloat(floatValue: FloatBits)
    | LiteralString(text: string)
    | LiteralIdentifier(name: string)
    | Block(value: ListPtr)
    | Function(ident: NodePtr, args: ListPtr, block: NodePtr)
    | Call(ident: NodePtr, args: ListPtr)
    | Store(lhs: NodePtr, rhs: NodePtr)
    | Load
    | New
    | Delete

  /** The nodes whose struct derives from `IntermediateExpression`. */
  predicate IsExpression(n: Node) {
    n.Expression? || n.BinaryOperation? || n.LiteralInteger? || n.LiteralFloat?
    || n.LiteralString? || n.LiteralIdentifier?
  }

  /** The `IntermediateBlock` constructor: a fresh, empty statement list. */
  function NewBlock(): (b: Node)
    ensures b.Block? && b.value == Some([])
    ensures GetTypeId(b) == Value(IntermediateBlock)
  {
    Block(Some([]))
  }

  /** `GetTypeId`: each struct returns the enumerator that bears its name. */
  function GetTypeId(n: Node): (id: int)
    ensures 0 <= id < 14
    ensures IsExpression(n) <==> 1 <= id <= 6
  {
    match n
    case Base => Value(Intermediate)
    case Expression => Value(IntermediateExpression)
    case BinaryOperation(_, _, _) => Value(IntermediateBinaryOperation)
    case LiteralInteger(_) => Value(IntermediateLiteralInteger)
    case LiteralFloat(_) => Value(IntermediateLiteralFloat)
    case LiteralString(_) => Value(IntermediateLiteralString)
    case LiteralIdentifier(_) => Value(IntermediateLiteralIdentifier)
    case Block(_) => Value(IntermediateBlock)
    case Function(_, _, _) => Value(IntermediateFunction)
    case Call(_, _) => Value(IntermediateCall)
    case Store(_, _) => Value(IntermediateStore)
    case Load => Value(IntermediateLoad)
    case New => Value(IntermediateNew)
    case Delete => Value(IntermediateDelete)
  }

  /** `ToStringType`: each struct returns a string literal of its own. */
  function ToStringType(n: Node): (s: string)
    ensures |s| >= 12 && s[..12] == "Intermediate"
  {
    match n
    case Base => "Intermediate"
    case Expression => "IntermediateExpression"
    case BinaryOperation(_, _, _) => "IntermediateBinaryOperation"
    case LiteralInteger(_) => "IntermediateLiteralInteger"
    case LiteralFloat(_) => "IntermediateLiteralFloat"
    case LiteralString(_) => "IntermediateLiteralString"
    case LiteralIdentifier(_) => "IntermediateLiteralIdentifier"
    case Block(_) => "IntermediateBlock"
    case Function(_, _, _) => "IntermediateFunction"
    case Call(_, _) => "IntermediateCall"
    case Store(_, _) => "IntermediateStore"
    case Load => "IntermediateLoad"
    case New => "IntermediateNew"
    case Delete => "IntermediateDelete"
  }

  /** Two nodes are built by the same struct. */
  predicate SameKind(a: Node, b: Node) {
    (a.Base? && b.Base?) || (a.Expression? && b.Expression?)
    || (a.BinaryOperation? && b.BinaryOperation?) || (a.LiteralInteger? && b.LiteralInteger?)
    || (a.LiteralFloat? && b.LiteralFloat?) || (a.LiteralString? && b.LiteralString?)
    || (a.LiteralIdentifier? && b.LiteralIdentifier?) || (a.Block? && b.Block?)
    || (a.Function? && b.Function?) || (a.Call? && b.Call?) || (a.Store? && b.Store?)
    || (a.Load? && b.Load?) || (a.New? && b.New?) || (a.Delete? && b.Delete?)
  }

  /**
   * The string conversions this model does not define: `Operation::ToString`
   * and `slow_lexical_cast` applied to a `float`.
   */
  datatype Renderer = Renderer(opText: OpType -> string, floatText: FloatBits -> string)

  /** `ToStringValue`; None where the C++ would dereference a null pointer. */
  function ToStringValue(r: Renderer, n: Node): (s: Option<string>)
    ensures s.None? ==> n.BinaryOperation? || n.Call?
    ensures WellFormedExpr(n) ==> s.Some?
    decreases n
  {
    match n
    case Base => Some("<nul>")
    case Expression => Some("<expr>")
    case BinaryOperation(op, lhs, rhs) =>
      if lhs.None? || rhs.None? then None
      else
        var left, right := ToStringValue(r, lhs.value), ToStringValue(r, rhs.value);
        if left.None? || right.None? then None
        else Some(left.value + " " + r.opText(op) + " " + right.value)
    case LiteralInteger(v) => Some(Decimal.IntToDecimal(v as int))
    case LiteralFloat(v) => Some(r.floatText(v))
    case LiteralString(v) => Some(v)
    case LiteralIdentifier(v) => Some(v)
    case Block(_) => Some("block")
    case Function(_, _, _) => Some("function")
    case Call(ident, args) =>
      if ident.None? || args.None? then None
      else
        var callee := ToStringValue(r, ident.value);
        if callee.None? then None
        else Some(callee.value + "(" + Decimal.NatToDecimal(|args.value|) + ")")
    case Store(_, _) => Some("store")
    case Load => Some("load")
    case New => Some("new")
    case Delete => Some("delete")
  }

  /** Distinct kinds report distinct tags, and one kind always the same tag. */
  lemma TypeIdIdentifiesKind(a: Node, b: Node)
    ensures GetTypeId(a) == GetTypeId(b) <==> SameKind(a, b)
  {
    var ta, tb := TagOf(a), TagOf(b);
    ValueIsInjective(ta, tb);
    assert SameKind(a, b) <==> ta == tb by {
      match a
      case BinaryOperation(_, _, _) =>
      case Block(_) =>
      case Function(_, _, _) =>
      case Call(_, _) =>
      case Store(_, _) =>
      case _ =>
    }
  }

  /** The enumerator a node's `GetTypeId` returns. */
  function TagOf(n: Node): (t: TypeId)
    ensures Value(t) == GetTypeId(n)
  {
    match n
    case Base => Intermediate
    case Expression => IntermediateExpression
    case BinaryOperation(_, _, _) => IntermediateBinaryOperation
    case LiteralInteger(_) => IntermediateLiteralInteger
    case LiteralFloat(_) => IntermediateLiteralFloat
    case LiteralString(_) => IntermediateLiteralString
    case LiteralIdentifier(_) => IntermediateLiteralIdentifier
    case Block(_) => IntermediateBlock
    case Function(_, _, _) => IntermediateFunction
    case Call(_, _) => IntermediateCall
    case Store(_, _) => IntermediateStore
    case Load => IntermediateLoad
    case New => IntermediateNew
    case Delete => IntermediateDelete
  }

  /** Distinct enumerators have distinct values. */
  lemma ValueIsInjective(s: TypeId, t: TypeId)
    ensures Value(s) == Value(t) <==> s == t
  {
  }

  /** `ToStringType` spells the identifier of the enumerator `GetTypeId` returns. */
  lemma TypeNameMatchesTag(n: Node, t: TypeId)
    requires Value(t) == GetTypeId(n)
    ensures ToStringType(n) == Identifier(t)
  {
  }

  /** The base node, a bare expression and the statement-like kinds render fixed words. */
  lemma FixedRenderings(r: Renderer, value: ListPtr, ident: NodePtr, args: ListPtr,
                        block: NodePtr, lhs: NodePtr, rhs: NodePtr)
    ensures ToStringValue(r, Base) == Some("<nul>")
    ensures ToStringValue(r, Expression) == Some("<expr>")
    ensures ToStringValue(r, Block(value)) == Some("block")
    ensures ToStringValue(r, Function(ident, args, block)) == Some("function")
    ensures ToStringValue(r, Store(lhs, rhs)) == Some("store")
    ensures ToStringValue(r, Load) == Some("load")
    ensures ToStringValue(r, New) == Some("new")
    ensures ToStringValue(r, Delete) == Some("delete")
  {
  }

  /** String literals and identifiers render exactly the text they hold. */
  lemma LiteralsRenderTheirText(r: Renderer, v: string)
    ensures ToStringValue(r, LiteralString(v)) == Some(v)
    ensures ToStringValue(r, LiteralIdentifier(v)) == Some(v)
  {
  }

  /** An integer literal renders as decimal text that reads back as its value. */
  lemma IntegerLiteralReadsBack(r: Renderer, v: int32)
    ensures var s := ToStringValue(r, LiteralInteger(v));
      s.Some? && |s.value| > 0
      && Decimal.AllDigits(if s.value[0] == '-' then s.value[1..] else s.value)
      && Decimal.IntValueOf(s.value) == v as int
  {
    Decimal.IntRoundTrip(v as int);
  }

  /** A binary operation or call with a null operand, as a default-constructed one has. */
  lemma NullOperandsDoNotRender(r: Renderer, op: OpType, n: NodePtr, ident: NodePtr, args: ListPtr)
    ensures ToStringValue(r, BinaryOperation(op, None, n)) == None
    ensures ToStringValue(r, BinaryOperation(op, n, None)) == None
    ensures ToStringValue(r, Call(None, args)) == None
    ensures ToStringValue(r, Call(ident, None)) == None
  {
  }

  /**
   * A call renders as its callee's text, then the number of arguments in
   * decimal between parentheses: reading the digits back gives the count.
   */
  lemma CallRendersArgumentCount(r: Renderer, ident: Node, args: seq<NodePtr>)
    requires ToStringValue(r, ident).Some?
    ensures var callee, s := ToStringValue(r, ident).value, ToStringValue(r, Call(Some(ident), Some(args)));
      s.Some? && |s.value| >= |callee| + 3
      && s.value[..|callee|] == callee && s.value[|callee|] == '(' && s.value[|s.value| - 1] == ')'
      && Decimal.AllDigits(s.value[|callee| + 1..|s.value| - 1])
      && Decimal.ValueOf(s.value[|callee| + 1..|s.value| - 1]) == |args|
  {
    var callee := ToStringValue(r, ident).value;
    var digits := Decimal.NatToDecimal(|args|);
    var s := callee + "(" + digits + ")";
    assert ToStringValue(r, Call(Some(ident), Some(args))) == Some(s);
    assert s[|callee| + 1..|s| - 1] == digits;
    Decimal.NatRoundTrip(|args|);
  }

  /**
   * An expression tree as the code generator builds it: every binary
   * operation has two non-null operands that are themselves expressions.
   */
  predicate WellFormedExpr(n: Node) {
    IsExpression(n)
    && (n.BinaryOperation? ==>
          n.lhs.Some? && n.rhs.Some? && WellFormedExpr(n.lhs.value) && WellFormedExpr(n.rhs.value))
  }

  /** The words of an expression tree read left to right: operands and operators in order. */
  function Words(r: Renderer, n: Node): (ws: seq<string>)
    requires WellFormedExpr(n)
    ensures |ws| % 2 == 1
  {
    match n
    case BinaryOperation(op, lhs, rhs) => Words(r, lhs.value) + [r.opText(op)] + Words(r, rhs.value)
    case Expression => ["<expr>"]
    case LiteralInteger(v) => [Decimal.IntToDecimal(v as int)]
    case LiteralFloat(v) => [r.floatText(v)]
    case LiteralString(v) => [v]
    case LiteralIdentifier(v) => [v]
  }

  /** Words separated by single spaces. */
  function Join(ws: seq<string>): string
    requires |ws| > 0
  {
    if |ws| == 1 then ws[0] else ws[0] + " " + Join(ws[1..])
  }

  lemma {:induction false} JoinAround(a: seq<string>, w: string, b: seq<string>)
    requires |a| > 0 && |b| > 0
    ensures Join(a + [w] + b) == Join(a) + " " + w + " " + Join(b)
    decreases |a|
  {
    if |a| == 1 {
      assert (a + [w] + b)[1..] == [w] + b;
    } else {
      assert (a + [w] + b)[1..] == a[1..] + [w] + b;
      JoinAround(a[1..], w, b);
    }
  }

  /**
   * A well-formed expression renders, and its text is its words, operands
   * and operators alike, joined by single spaces.
   */
  lemma {:induction false} ExpressionRendersWords(r: Renderer, n: Node)
    requires WellFormedExpr(n)
    ensures ToStringValue(r, n) == Some(Join(Words(r, n)))
  {
    if n.BinaryOperation? {
      ExpressionRendersWords(r, n.lhs.value);
      ExpressionRendersWords(r, n.rhs.value);
      JoinAround(Words(r, n.lhs.value), r.opText(n.op), Words(r, n.rhs.value));
    }
  }
}
