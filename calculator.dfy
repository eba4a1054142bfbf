/**
 * The safe calculator of the tool layer: a recursive evaluator over an
 * already parsed Python expression tree that accepts only whitelisted
 * operators, functions and node kinds, and a string wrapper that turns
 * every outcome into a reply instead of raising.
 *
 * The model computes Python's integer arithmetic, lists and tuples, and
 * the comparisons `min` and `max` make, with CPython 3.12's exception
 * messages. Floats are values without a number (`VFloat`): a step that
 * needs a float's value ends in `Unmodelled`, which means that the model
 * makes no prediction for that input.
 */
module Calculator {
  import opened Wrappers
  import Text

  // ---------------------------------------------------------------------
  // The expression tree (the part of Python's `ast` the evaluator looks at)
  // ---------------------------------------------------------------------

  datatype BinOperator =
    Add | Sub | Mult | Div | FloorDiv | Mod | Pow | MatMult | LShift | RShift | BitOr | BitXor | BitAnd

  datatype UnaryOperator = USub | UAdd | Not | Invert

  /** The value of an `ast.Constant` node, by its Python type. */
  datatype Literal =
    | IntLit(i: int)
    | BoolLit(b: bool)
    | FloatLit
    | ComplexLit
    | StrLit(s: string)
    | BytesLit
    | NoneLit
    | EllipsisLit

  datatype Node =
    | Expression(body: Node)
    | Constant(value: Literal)
    | BinOp(left: Node, op: BinOperator, right: Node)
    | UnaryOp(uop: UnaryOperator, operand: Node)
    | Call(func: Node, args: seq<Node>, keywords: seq<Keyword>)
    | Name(id: string)
    | List(elts: seq<Node>)
    | Tuple(elts: seq<Node>)
      /** Any other node class (`Compare`, `Attribute`, `Subscript`, `Starred`, ...), by its class name. */
    | Other(kind: string, children: seq<Node>)

  /** A keyword argument `arg=value` of a call; the evaluator never looks at these. */
  datatype Keyword = Keyword(arg: string, value: Node)

  /** The result of `ast.parse(..., mode='eval')`, which is not part of this model. */
  datatype ParseResult = Parsed(tree: Node) | SyntaxError(msg: string) | ParserValueError(msg: string)

  // ---------------------------------------------------------------------
  // Values and outcomes
  // ---------------------------------------------------------------------

  /**
   * A Python value the evaluator can produce. `VFloat` is a float whose
   * value the model does not track: it records only that there is one.
   */
  datatype Value = VInt(i: int) | VBool(b: bool) | VFloat | VList(items: seq<Value>) | VTuple(items: seq<Value>)

  /** The Python exceptions the evaluator can raise, by the class the wrapper distinguishes. */
  datatype Error = ValueError(msg: string) | ZeroDivision | TypeError(msg: string) | OverflowError(msg: string)

  /**
   * The outcome of a step. `Unmodelled` means that the model makes no
   * prediction: the step needs a float's value, and it may give a value or
   * raise.
   */
  datatype Outcome<T> = Done(v: T) | Raised(e: Error) | Unmodelled

  predicate IsNumber(v: Value) { v.VInt? || v.VBool? }

  predicate IsSequence(v: Value) { v.VList? || v.VTuple? }

  /** The integer a number stands for (`True` is 1, `False` is 0). */
  function AsInt(v: Value): int
    requires IsNumber(v)
  {
    match v
    case VInt(i) => i
    case VBool(b) => if b then 1 else 0
  }

  function TypeName(v: Value): string {
    match v
    case VInt(_) => "int"
    case VBool(_) => "bool"
    case VFloat => "float"
    case VList(_) => "list"
    case VTuple(_) => "tuple"
  }

  /** A sequence of the same kind as `v` holding `items`. */
  function SameKind(v: Value, items: seq<Value>): Value
    requires IsSequence(v)
  {
    if v.VList? then VList(items) else VTuple(items)
  }

  // ---------------------------------------------------------------------
  // The whitelists
  // ---------------------------------------------------------------------

  /** The binary operator classes that are keys of `_OPERATORS`. */
  predicate AllowedBinary(op: BinOperator) {
    op in {Add, Sub, Mult, Div, FloorDiv, Mod, Pow}
  }

  /** The unary operator classes that are keys of `_OPERATORS`. */
  predicate AllowedUnary(op: UnaryOperator) {
    op == USub || op == UAdd
  }

  function BinName(op: BinOperator): string {
    match op
    case Add => "Add" case Sub => "Sub" case Mult => "Mult" case Div => "Div"
    case FloorDiv => "FloorDiv" case Mod => "Mod" case Pow => "Pow" case MatMult => "MatMult"
    case LShift => "LShift" case RShift => "RShift" case BitOr => "BitOr"
    case BitXor => "BitXor" case BitAnd => "BitAnd"
  }

  function UnaryName(op: UnaryOperator): string {
    match op
    case USub => "USub" case UAdd => "UAdd" case Not => "Not" case Invert => "Invert"
  }

  /** The functions of `_MATH_FUNCS`. */
  datatype Builtin =
    Abs | Round | Min | Max | Sum | Len | Sqrt | Sin | Cos | Tan | Log | Log10 | Exp | Floor | Ceil

  /** An entry of `_MATH_FUNCS`: a function, or one of the float constants `pi` and `e`. */
  datatype MathEntry = Function(f: Builtin) | FloatConstant

  const MathFuncs: map<string, MathEntry> := map[
    "abs" := Function(Abs), "round" := Function(Round), "min" := Function(Min),
    "max" := Function(Max), "sum" := Function(Sum), "len" := Function(Len),
    "sqrt" := Function(Sqrt), "sin" := Function(Sin), "cos" := Function(Cos),
    "tan" := Function(Tan), "log" := Function(Log), "log10" := Function(Log10),
    "exp" := Function(Exp), "floor" := Function(Floor), "ceil" := Function(Ceil),
    "pi" := FloatConstant, "e" := FloatConstant
  ]

  // ---------------------------------------------------------------------
  // Python integer arithmetic
  // ---------------------------------------------------------------------

  /** Python's `a // b`: the quotient rounded towards negative infinity. */
  function FloorDivInt(a: int, b: int): int
    requires b != 0
  {
    if b > 0 then a / b else (-a) / (-b)
  }

  /** Python's `a % b`: the remainder that goes with `FloorDivInt`. */
  function ModInt(a: int, b: int): int
    requires b != 0
  {
    a - b * FloorDivInt(a, b)
  }

  /**
   * Python's division law: `a == b * (a // b) + a % b`, where the remainder
   * has the sign of the divisor and is smaller than it in magnitude.
   */
  lemma FloorDivModLaw(a: int, b: int)
    requires b != 0
    ensures a == b * FloorDivInt(a, b) + ModInt(a, b)
    ensures b > 0 ==> 0 <= ModInt(a, b) < b
    ensures b < 0 ==> b < ModInt(a, b) <= 0
  {
    if b < 0 {
      var q := (-a) / (-b);
      var r := (-a) % (-b);
      assert -a == (-b) * q + r && 0 <= r < -b;
      assert ModInt(a, b) == a - b * q;
      assert a - b * q == -r;
    }
  }

  /** Python's `//` differs from Dafny's Euclidean `/` exactly for negative divisors with a remainder. */
  lemma FloorDivExample()
    ensures FloorDivInt(7, -2) == -4 && ModInt(7, -2) == -1
    ensures FloorDivInt(-7, 2) == -4 && ModInt(-7, 2) == 1
  {
  }

  function Power(x: int, n: nat): int {
    if n == 0 then 1 else x * Power(x, n - 1)
  }

  /**
   * `10 ** 308`, below the largest finite double (about `1.8 * 10 ** 308`):
   * an integer of at most this magnitude converts to a float without
   * `OverflowError`, and so does a quotient of at most this magnitude.
   */
  const FloatSafe: int := 100000000000000000000000000000000000000000000000000000000000000000000000000000000000000000000000000000000000000000000000000000000000000000000000000000000000000000000000000000000000000000000000000000000000000000000000000000000000000000000000000000000000000000000000000000000000000000000000000000000000000000000

  function Magnitude(n: int): nat {
    if n < 0 then -n else n
  }

  /** A number that converts to a float without raising. */
  predicate SmallNumber(v: Value) {
    IsNumber(v) && Magnitude(AsInt(v)) <= FloatSafe
  }

  /** The extremes of `Py_ssize_t`, which a repetition count must fit. */
  const SsizeMin: int := -0x8000_0000_0000_0000
  const SsizeMax: int := 0x7fff_ffff_ffff_ffff

  /** `s * n` for a list or tuple: `n` copies of `s`, none when `n <= 0`. */
  function Repeat(s: seq<Value>, n: int): (r: seq<Value>)
    decreases n
  {
    if n <= 0 then [] else s + Repeat(s, n - 1)
  }

  lemma {:induction false} RepeatLength(s: seq<Value>, n: int)
    ensures |Repeat(s, n)| == if n <= 0 then 0 else |s| * n
  {
    if n > 0 { RepeatLength(s, n - 1); }
  }

  /** `seq * n` and `n * seq`: the count must fit `Py_ssize_t` before anything is repeated. */
  function RepeatSequence(v: Value, n: int): Outcome<Value>
    requires IsSequence(v)
  {
    if n < SsizeMin || SsizeMax < n then Raised(OverflowError("cannot fit 'int' into an index-sized integer"))
    else Done(SameKind(v, Repeat(v.items, n)))
  }

  function OperandError(symbol: string, a: Value, b: Value): Error {
    TypeError("unsupported operand type(s) for " + symbol + ": '" + TypeName(a) + "' and '" + TypeName(b) + "'")
  }

  /** `seq + b` for a `b` of another type: the sequence's own concatenation refuses it. */
  function ConcatError(a: Value, b: Value): Error {
    TypeError("can only concatenate " + TypeName(a) + " (not \"" + TypeName(b) + "\") to " + TypeName(a))
  }

  /** `seq * b` for a `b` that is not an integer. */
  function MultiplierError(b: Value): Error {
    TypeError("can't multiply sequence by non-int of type '" + TypeName(b) + "'")
  }

  /**
   * `+`, `-` or `*` with a float operand and a number or float operand: a
   * float, unless an integer operand is too large to convert, which the
   * model does not decide.
   */
  function FloatArithmetic(a: Value, b: Value): Outcome<Value> {
    if (a.VFloat? || SmallNumber(a)) && (b.VFloat? || SmallNumber(b)) then Done(VFloat) else Unmodelled
  }

  /** `/`, `//` or `%` with a float operand: by an integer zero it raises; otherwise the float's value decides. */
  function FloatDivision(a: Value, b: Value): Outcome<Value> {
    if a.VFloat? && IsNumber(b) && AsInt(b) == 0 then Raised(ZeroDivision) else Unmodelled
  }

  /** `_OPERATORS[op](a, b)` for a whitelisted binary operator. */
  function ApplyBinary(op: BinOperator, a: Value, b: Value): Outcome<Value>
    requires AllowedBinary(op)
  {
    var numeric := (IsNumber(a) || a.VFloat?) && (IsNumber(b) || b.VFloat?);
    match op
    case Add =>
      if IsNumber(a) && IsNumber(b) then Done(VInt(AsInt(a) + AsInt(b)))
      else if IsSequence(a) then
        (if (a.VList? && b.VList?) || (a.VTuple? && b.VTuple?) then Done(SameKind(a, a.items + b.items))
         else Raised(ConcatError(a, b)))
      else if numeric then FloatArithmetic(a, b)
      else Raised(OperandError("+", a, b))
    case Sub =>
      if IsNumber(a) && IsNumber(b) then Done(VInt(AsInt(a) - AsInt(b)))
      else if numeric then FloatArithmetic(a, b)
      else Raised(OperandError("-", a, b))
    case Mult =>
      if IsNumber(a) && IsNumber(b) then Done(VInt(AsInt(a) * AsInt(b)))
      else if IsSequence(a) then (if IsNumber(b) then RepeatSequence(a, AsInt(b)) else Raised(MultiplierError(b)))
      else if IsSequence(b) then (if IsNumber(a) then RepeatSequence(b, AsInt(a)) else Raised(MultiplierError(a)))
      else FloatArithmetic(a, b)
    case Div =>
      if IsNumber(a) && IsNumber(b) then
        (if AsInt(b) == 0 then Raised(ZeroDivision)
         else if Magnitude(AsInt(a)) <= FloatSafe * Magnitude(AsInt(b)) then Done(VFloat)
         else Unmodelled)
      else if numeric then FloatDivision(a, b)
      else Raised(OperandError("/", a, b))
    case FloorDiv =>
      if IsNumber(a) && IsNumber(b) then
        (if AsInt(b) == 0 then Raised(ZeroDivision) else Done(VInt(FloorDivInt(AsInt(a), AsInt(b)))))
      else if numeric then FloatDivision(a, b)
      else Raised(OperandError("//", a, b))
    case Mod =>
      if IsNumber(a) && IsNumber(b) then
        (if AsInt(b) == 0 then Raised(ZeroDivision) else Done(VInt(ModInt(AsInt(a), AsInt(b)))))
      else if numeric then FloatDivision(a, b)
      else Raised(OperandError("%", a, b))
    case Pow =>
      if IsNumber(a) && IsNumber(b) then
        (if AsInt(b) >= 0 then Done(VInt(Power(AsInt(a), AsInt(b))))
         else if !SmallNumber(b) then Unmodelled          // the exponent does not convert to a float
         else if AsInt(a) == 0 then Raised(ZeroDivision)  // 0 ** -n raises ZeroDivisionError
         else if SmallNumber(a) then Done(VFloat)
         else Unmodelled)
      else if numeric then Unmodelled
      else Raised(OperandError("** or pow()", a, b))
  }

  /** `_OPERATORS[op](a)` for a whitelisted unary operator. */
  function ApplyUnary(op: UnaryOperator, a: Value): Outcome<Value>
    requires AllowedUnary(op)
  {
    if a.VFloat? then Done(VFloat)
    else if !IsNumber(a) then
      Raised(TypeError("bad operand type for unary " + (if op == USub then "-" else "+") + ": '" + TypeName(a) + "'"))
    else if op == USub then Done(VInt(-AsInt(a)))
    else Done(VInt(AsInt(a)))
  }

  // ---------------------------------------------------------------------
  // Comparisons, as `min` and `max` make them
  // ---------------------------------------------------------------------

  /**
   * Python's `a == b`. Numbers compare by value, sequences of one kind
   * element by element (different lengths are unequal at once), and values
   * of different kinds are unequal. A float compared with a number needs its
   * value, so that is `Unmodelled`.
   */
  function Equals(a: Value, b: Value): Outcome<bool>
    decreases a
  {
    if IsNumber(a) && IsNumber(b) then Done(AsInt(a) == AsInt(b))
    else if (a.VFloat? || IsNumber(a)) && (b.VFloat? || IsNumber(b)) then Unmodelled
    else if (a.VList? && b.VList?) || (a.VTuple? && b.VTuple?) then
      (if |a.items| != |b.items| then Done(false) else ItemsEqual(a.items, b.items, a))
    else Done(false)
  }

  /** Two sequences of equal length are equal when their elements are, compared from the left. */
  function ItemsEqual(xs: seq<Value>, ys: seq<Value>, ghost parent: Value): Outcome<bool>
    requires forall x | x in xs :: x < parent
    decreases parent, |xs|
  {
    if xs == [] || ys == [] then Done(true)
    else
      assert xs[0] in xs;
      assert forall x | x in xs[1..] :: x in xs;
      match Equals(xs[0], ys[0])
      case Done(true) => ItemsEqual(xs[1..], ys[1..], parent)
      case Done(false) => Done(false)
      case _ => Unmodelled
  }

  /**
   * Python's `a > b` (`greater`) or `a < b`. Numbers compare by value.
   * Sequences of one kind compare at their first unequal elements, or by
   * length when one is a prefix of the other. Other pairs raise TypeError.
   */
  function Compare(greater: bool, a: Value, b: Value): Outcome<bool>
    decreases a
  {
    if IsNumber(a) && IsNumber(b) then Done(if greater then AsInt(a) > AsInt(b) else AsInt(a) < AsInt(b))
    else if (a.VFloat? || IsNumber(a)) && (b.VFloat? || IsNumber(b)) then Unmodelled
    else if (a.VList? && b.VList?) || (a.VTuple? && b.VTuple?) then CompareItems(greater, a.items, b.items, a)
    else
      Raised(TypeError((if greater then "'>'" else "'<'") + " not supported between instances of '"
        + TypeName(a) + "' and '" + TypeName(b) + "'"))
  }

  function CompareItems(greater: bool, xs: seq<Value>, ys: seq<Value>, ghost parent: Value): Outcome<bool>
    requires forall x | x in xs :: x < parent
    decreases parent, |xs|
  {
    if xs == [] || ys == [] then Done(if greater then |xs| > |ys| else |xs| < |ys|)
    else
      assert xs[0] in xs;
      assert forall x | x in xs[1..] :: x in xs;
      match Equals(xs[0], ys[0])
      case Done(true) => CompareItems(greater, xs[1..], ys[1..], parent)
      case Done(false) => Compare(greater, xs[0], ys[0])
      case _ => Unmodelled
  }

  // ---------------------------------------------------------------------
  // The functions of the table
  // ---------------------------------------------------------------------

  function BuiltinName(f: Builtin): string {
    match f
    case Abs => "abs" case Round => "round" case Min => "min" case Max => "max"
    case Sum => "sum" case Len => "len" case Sqrt => "sqrt" case Sin => "sin"
    case Cos => "cos" case Tan => "tan" case Log => "log" case Log10 => "log10"
    case Exp => "exp" case Floor => "floor" case Ceil => "ceil"
  }

  predicate AllNumbers(vs: seq<Value>) {
    forall i :: 0 <= i < |vs| ==> IsNumber(vs[i])
  }

  function SumInts(vs: seq<Value>): int
    requires AllNumbers(vs)
  {
    if vs == [] then 0 else AsInt(vs[0]) + SumInts(vs[1..])
  }

  /** `sum(items, start)`: `start + items[0] + items[1] + ...`, from the left, stopping at the first failure. */
  function SumFrom(acc: Value, items: seq<Value>): Outcome<Value>
    decreases |items|
  {
    if items == [] then Done(acc)
    else
      match ApplyBinary(Add, acc, items[0])
      case Done(v) => SumFrom(v, items[1..])
      case Raised(e) => Raised(e)
      case Unmodelled => Unmodelled
  }

  /** The index of the first smallest (`least`) or first largest element, as `min` and `max` return it. */
  function Extreme(vs: seq<Value>, least: bool): (k: nat)
    requires |vs| > 0 && AllNumbers(vs)
    ensures k < |vs|
    ensures forall i :: 0 <= i < |vs| ==> if least then AsInt(vs[k]) <= AsInt(vs[i]) else AsInt(vs[i]) <= AsInt(vs[k])
    ensures forall i :: 0 <= i < k ==> AsInt(vs[i]) != AsInt(vs[k])
  {
    if |vs| == 1 then 0
    else
      var k := Extreme(vs[..|vs| - 1], least);
      var last := |vs| - 1;
      if (least && AsInt(vs[last]) < AsInt(vs[k])) || (!least && AsInt(vs[k]) < AsInt(vs[last])) then last else k
  }

  /**
   * The loop of `min` and `max`: the first item is the best so far, and a
   * later item replaces it when `item > best` (`max`) or `item < best`
   * (`min`) holds.
   */
  function Best(greater: bool, items: seq<Value>): Outcome<Value>
    requires |items| > 0
    decreases |items|
  {
    if |items| == 1 then Done(items[0])
    else
      var last := items[|items| - 1];
      match Best(greater, items[..|items| - 1])
      case Done(best) =>
        (match Compare(greater, last, best)
         case Done(replace) => Done(if replace then last else best)
         case Raised(e) => Raised(e)
         case Unmodelled => Unmodelled)
      case Raised(e) => Raised(e)
      case Unmodelled => Unmodelled
  }

  function NotIterable(v: Value): Error {
    TypeError("'" + TypeName(v) + "' object is not iterable")
  }

  /** `min(...)` and `max(...)`: one iterable argument, or two or more values. */
  function MinMax(f: Builtin, args: seq<Value>): Outcome<Value>
    requires f == Min || f == Max
  {
    var name := BuiltinName(f);
    if args == [] then Raised(TypeError(name + " expected at least 1 argument, got 0"))
    else if |args| == 1 && !IsSequence(args[0]) then Raised(NotIterable(args[0]))
    else
      var items := if |args| == 1 then args[0].items else args;
      if items == [] then Raised(ValueError(name + "() arg is an empty sequence"))
      else Best(f == Max, items)
  }

  /** The error of a one-argument function called with another number of arguments. */
  function CountError(qualified: string, args: seq<Value>): Error {
    TypeError(qualified + "() takes exactly one argument (" + Text.IntToDecimal(|args|) + " given)")
  }

  /**
   * `round(x, n)` for integers: `x` itself when `n >= 0`, otherwise the
   * multiple of `10 ** -n` nearest to `x`, a tie going to the even multiple.
   */
  function RoundInt(x: int, n: int): int {
    if n >= 0 then x
    else
      PowerPositive(10, -n);
      RoundQuotient(x, Power(10, -n)) * Power(10, -n)
  }

  /** `x / m` rounded to the nearest integer, a tie going to the even one (`_PyLong_DivmodNear`). */
  function RoundQuotient(x: int, m: int): int
    requires m > 0
  {
    var q := FloorDivInt(x, m);
    var r := x - q * m;
    if 2 * r > m || (2 * r == m && q % 2 == 1) then q + 1 else q
  }

  lemma {:induction false} PowerPositive(x: int, n: nat)
    requires x > 0
    ensures Power(x, n) > 0
  {
    if n > 0 { PowerPositive(x, n - 1); }
  }

  /** The error of a value used where an integer index is needed. */
  function NotAnInteger(v: Value): Error {
    TypeError("'" + TypeName(v) + "' object cannot be interpreted as an integer")
  }

  /** `func(*args)` for a function of `_MATH_FUNCS`. */
  function ApplyBuiltin(f: Builtin, args: seq<Value>): Outcome<Value> {
    match f
    case Abs =>
      if |args| != 1 then Raised(CountError("abs", args))
      else if IsNumber(args[0]) then Done(VInt(Magnitude(AsInt(args[0]))))
      else if args[0].VFloat? then Done(VFloat)
      else Raised(TypeError("bad operand type for abs(): '" + TypeName(args[0]) + "'"))
    case Round =>
      if args == [] then Raised(TypeError("round() missing required argument 'number' (pos 1)"))
      else if |args| > 2 then Raised(TypeError("round() takes at most 2 arguments (" + Text.IntToDecimal(|args|) + " given)"))
      else if IsSequence(args[0]) then Raised(TypeError("type " + TypeName(args[0]) + " doesn't define __round__ method"))
      else if |args| == 2 && !IsNumber(args[1]) then Raised(NotAnInteger(args[1]))
      else if args[0].VFloat? then Unmodelled  // a float rounded
      else if |args| == 1 then Done(VInt(AsInt(args[0])))
      else Done(VInt(RoundInt(AsInt(args[0]), AsInt(args[1]))))
    case Floor | Ceil =>
      if |args| != 1 then Raised(CountError("math." + BuiltinName(f), args))
      else if IsNumber(args[0]) then Done(VInt(AsInt(args[0])))
      else if args[0].VFloat? then Unmodelled  // a float rounded to an integer
      else Raised(TypeError("must be real number, not " + TypeName(args[0])))
    case Len =>
      if |args| != 1 then Raised(CountError("len", args))
      else if !IsSequence(args[0]) then Raised(TypeError("object of type '" + TypeName(args[0]) + "' has no len()"))
      else Done(VInt(|args[0].items|))
    case Sum =>
      if args == [] then Raised(TypeError("sum() takes at least 1 positional argument (0 given)"))
      else if |args| > 2 then Raised(TypeError("sum() takes at most 2 arguments (" + Text.IntToDecimal(|args|) + " given)"))
      else if !IsSequence(args[0]) then Raised(NotIterable(args[0]))
      else SumFrom(if |args| == 2 then args[1] else VInt(0), args[0].items)
    case Min | Max => MinMax(f, args)
    case Sqrt | Sin | Cos | Tan | Log | Log10 | Exp => Unmodelled  // float functions
  }

  // ---------------------------------------------------------------------
  // The evaluator (`_safe_eval_node`)
  // ---------------------------------------------------------------------

  function EvalConstant(c: Literal): Outcome<Value> {
    match c
    case IntLit(i) => Done(VInt(i))
    case BoolLit(b) => Done(VBool(b))
    case FloatLit => Done(VFloat)
    case ComplexLit => Unmodelled
    case StrLit(_) => Raised(ValueError("Unsupported constant type: <class 'str'>"))
    case BytesLit => Raised(ValueError("Unsupported constant type: <class 'bytes'>"))
    case NoneLit => Raised(ValueError("Unsupported constant type: <class 'NoneType'>"))
    case EllipsisLit => Raised(ValueError("Unsupported constant type: <class 'ellipsis'>"))
  }

  /** Whether a constant is of the types the evaluator accepts (`int`, `float`, `complex`, and `bool` as an `int`). */
  predicate NumericLiteral(c: Literal) {
    c.IntLit? || c.BoolLit? || c.FloatLit? || c.ComplexLit?
  }

  function Eval(node: Node): Outcome<Value>
    decreases node, 1
  {
    match node
    case Expression(body) => Eval(body)
    case Constant(c) => EvalConstant(c)
    case BinOp(l, op, r) =>
      if !AllowedBinary(op) then Raised(ValueError("Unsupported operator: " + BinName(op)))
      else
        (match Eval(l)
         case Raised(e) => Raised(e)
         case Unmodelled => Unmodelled
         case Done(a) =>
           match Eval(r)
           case Raised(e) => Raised(e)
           case Unmodelled => Unmodelled
           case Done(b) => ApplyBinary(op, a, b))
    case UnaryOp(op, x) =>
      if !AllowedUnary(op) then Raised(ValueError("Unsupported unary operator: " + UnaryName(op)))
      else
        (match Eval(x)
         case Raised(e) => Raised(e)
         case Unmodelled => Unmodelled
         case Done(a) => ApplyUnary(op, a))
    case Call(f, args, _) =>
      if !f.Name? then Raised(ValueError("Only direct function calls are supported"))
      else if f.id !in MathFuncs then Raised(ValueError("Unsupported function: " + f.id))
      else
        (match EvalAll(args, node)
         case Raised(e) => Raised(e)
         case Unmodelled => Unmodelled
         case Done(vs) =>
           match MathFuncs[f.id]
           case Function(g) => ApplyBuiltin(g, vs)
           case FloatConstant => Raised(TypeError("'float' object is not callable")))
    case Name(id) =>
      if id in MathFuncs && MathFuncs[id].FloatConstant? then Done(VFloat)  // pi and e
      else Raised(ValueError("Unsupported variable: " + id))
    case List(elts) =>
      (match EvalAll(elts, node)
       case Raised(e) => Raised(e)
       case Unmodelled => Unmodelled
       case Done(vs) => Done(VList(vs)))
    case Tuple(elts) =>
      (match EvalAll(elts, node)
       case Raised(e) => Raised(e)
       case Unmodelled => Unmodelled
       case Done(vs) => Done(VTuple(vs)))
    case Other(kind, _) => Raised(ValueError("Unsupported expression type: " + kind))
  }

  /** The nodes evaluated one after the other, left to right; the first failure stops the rest. */
  function EvalAll(nodes: seq<Node>, ghost parent: Node): Outcome<seq<Value>>
    requires forall n | n in nodes :: n < parent
    decreases parent, 0, |nodes|
  {
    if nodes == [] then Done([])
    else
      assert nodes[0] in nodes;
      match Eval(nodes[0])
      case Raised(e) => Raised(e)
      case Unmodelled => Unmodelled
      case Done(v) =>
        assert forall n | n in nodes[1..] :: n in nodes;
        match EvalAll(nodes[1..], parent)
        case Raised(e) => Raised(e)
        case Unmodelled => Unmodelled
        case Done(vs) => Done([v] + vs)
  }

  // ---------------------------------------------------------------------
  // Rendering a result (`str(result)`) and the wrapper (`safe_calculate`)
  // ---------------------------------------------------------------------

  /** The `ValueError` of `str(n)` for an integer of more than `Text.MaxStrDigits` digits. */
  const StrLimitMessage: string :=
    "Exceeds the limit (4300 digits) for integer string conversion; use sys.set_int_max_str_digits() to increase the limit"

  /**
   * `str(v)` (the elements of a sequence by their `repr`, which for these
   * types is the same text). Rendering raises only for an integer beyond the
   * digit limit; `Unmodelled` here means that a float's text is needed and
   * nothing raises.
   */
  function Str(v: Value): Outcome<string> {
    match v
    case VInt(i) => if Text.DigitCount(i) > Text.MaxStrDigits then Raised(ValueError(StrLimitMessage)) else Done(Text.IntToDecimal(i))
    case VBool(b) => Done(if b then "True" else "False")
    case VFloat => Unmodelled
    case VList(items) => Enclose("[", StrItems(items, v), "]")
    case VTuple(items) =>
      if |items| == 1 then
        assert items[0] in items;
        Enclose("(", Str(items[0]), ",)")
      else Enclose("(", StrItems(items, v), ")")
  }

  function Enclose(open: string, inner: Outcome<string>, close: string): Outcome<string> {
    if inner.Done? then Done(open + inner.v + close) else inner
  }

  /**
   * The elements' `repr`s separated by ", ", from the left: the first
   * element that raises decides; a float's unknown text does not stop the
   * elements after it.
   */
  function StrItems(items: seq<Value>, ghost parent: Value): Outcome<string>
    requires forall x | x in items :: x < parent
    decreases parent, |items|
  {
    if items == [] then Done("")
    else
      assert items[0] in items;
      assert forall x | x in items[1..] :: x in items;
      var first := Str(items[0]);
      if |items| == 1 then first
      else
        var rest := StrItems(items[1..], parent);
        if first.Raised? then first
        else if rest.Raised? then rest
        else if first.Done? && rest.Done? then Done(first.v + ", " + rest.v)
        else Unmodelled
  }

  /** The reply for an exception: ZeroDivisionError has a fixed text, every other one its message. */
  function ErrorReply(e: Error): string {
    match e
    case ZeroDivision => "Error: Division by zero"
    case ValueError(msg) => "Error: " + msg
    case TypeError(msg) => "Error: " + msg
    case OverflowError(msg) => "Error: " + msg
  }

  /**
   * `safe_calculate(expr)`: parse the stripped text, evaluate, render, and
   * map every outcome to a reply. `None` stands for a reply the model does
   * not predict: a float's value or text is needed.
   */
  function SafeCalculate(parse: string -> ParseResult, expr: string): Option<string> {
    match parse(Text.Strip(expr))
    case SyntaxError(msg) => Some("Syntax error: " + msg)
    case ParserValueError(msg) => Some("Error: " + msg)
    case Parsed(tree) =>
      match Eval(tree)
      case Done(v) =>
        (match Str(v)
         case Done(text) => Some(text)
         case Raised(e) => Some(ErrorReply(e))
         case Unmodelled => None)
      case Raised(e) => Some(ErrorReply(e))
      case Unmodelled => None
  }

  // ---------------------------------------------------------------------
  // Properties of the evaluator
  // ---------------------------------------------------------------------

  /**
   * Constants: numbers evaluate to themselves and every other constant type
   * is rejected with "Unsupported constant type".
   */
  lemma ConstantRule(c: Literal)
    ensures NumericLiteral(c) <==> !Eval(Constant(c)).Raised?
    ensures c.IntLit? ==> Eval(Constant(c)) == Done(VInt(c.i))
    ensures c.BoolLit? ==> Eval(Constant(c)) == Done(VBool(c.b))
    ensures c.FloatLit? ==> Eval(Constant(c)) == Done(VFloat)
    ensures !NumericLiteral(c) ==>
      Eval(Constant(c)).Raised? && Eval(Constant(c)).e.ValueError? &&
      Text.StartsWith(Eval(Constant(c)).e.msg, "Unsupported constant type: ")
  {
  }

  /** An operator outside the whitelist is rejected before either operand is looked at. */
  lemma OperatorCheckedFirst(l: Node, op: BinOperator, r: Node, u: UnaryOperator, x: Node)
    ensures !AllowedBinary(op) ==> Eval(BinOp(l, op, r)) == Raised(ValueError("Unsupported operator: " + BinName(op)))
    ensures !AllowedUnary(u) ==> Eval(UnaryOp(u, x)) == Raised(ValueError("Unsupported unary operator: " + UnaryName(u)))
    ensures AllowedBinary(op) <==> op in {Add, Sub, Mult, Div, FloorDiv, Mod, Pow}
  {
  }

  /**
   * A whitelisted binary node evaluates its left operand first, then its
   * right one, and applies the operator to the two results; a failure of
   * the left operand is the node's failure, whatever the right one does.
   */
  lemma BinaryRule(l: Node, op: BinOperator, r: Node)
    requires AllowedBinary(op)
    ensures !Eval(l).Done? ==> Eval(BinOp(l, op, r)) == (if Eval(l).Raised? then Raised(Eval(l).e) else Unmodelled)
    ensures Eval(l).Done? && !Eval(r).Done? ==> Eval(BinOp(l, op, r)) == (if Eval(r).Raised? then Raised(Eval(r).e) else Unmodelled)
    ensures Eval(l).Done? && Eval(r).Done? ==> Eval(BinOp(l, op, r)) == ApplyBinary(op, Eval(l).v, Eval(r).v)
  {
  }

  /** Integer operands get Python's integer arithmetic, with floor division and its remainder. */
  lemma IntegerArithmetic(a: int, b: int)
    ensures ApplyBinary(Add, VInt(a), VInt(b)) == Done(VInt(a + b))
    ensures ApplyBinary(Sub, VInt(a), VInt(b)) == Done(VInt(a - b))
    ensures ApplyBinary(Mult, VInt(a), VInt(b)) == Done(VInt(a * b))
    ensures b == 0 ==> forall op :: op in {Div, FloorDiv, Mod} ==> ApplyBinary(op, VInt(a), VInt(b)) == Raised(ZeroDivision)
    ensures b != 0 ==>
      && ApplyBinary(FloorDiv, VInt(a), VInt(b)).Done?
      && ApplyBinary(Mod, VInt(a), VInt(b)).Done?
      && a == b * ApplyBinary(FloorDiv, VInt(a), VInt(b)).v.i + ApplyBinary(Mod, VInt(a), VInt(b)).v.i
      && (b > 0 ==> 0 <= ApplyBinary(Mod, VInt(a), VInt(b)).v.i < b)
      && (b < 0 ==> b < ApplyBinary(Mod, VInt(a), VInt(b)).v.i <= 0)
    ensures b >= 0 ==> ApplyBinary(Pow, VInt(a), VInt(b)) == Done(VInt(Power(a, b)))
    ensures b < 0 && a == 0 && Magnitude(b) <= FloatSafe ==> ApplyBinary(Pow, VInt(a), VInt(b)) == Raised(ZeroDivision)
    ensures b < 0 && a != 0 && Magnitude(a) <= FloatSafe && Magnitude(b) <= FloatSafe ==>
      ApplyBinary(Pow, VInt(a), VInt(b)) == Done(VFloat)
    ensures b != 0 && Magnitude(a) <= FloatSafe * Magnitude(b) ==> ApplyBinary(Div, VInt(a), VInt(b)) == Done(VFloat)
  {
    if b != 0 { FloorDivModLaw(a, b); }
  }

  /**
   * A sequence of nodes evaluates, left to right, to the list of the
   * element results when every element succeeds; otherwise its outcome is
   * that of the first element that does not succeed.
   */
  lemma EvalAllSpec(nodes: seq<Node>, parent: Node)
    requires forall n | n in nodes :: n < parent
    ensures EvalAll(nodes, parent).Done? <==> forall i :: 0 <= i < |nodes| ==> Eval(nodes[i]).Done?
    ensures EvalAll(nodes, parent).Done? ==>
      && |EvalAll(nodes, parent).v| == |nodes|
      && forall i :: 0 <= i < |nodes| ==> Eval(nodes[i]) == Done(EvalAll(nodes, parent).v[i])
    ensures !EvalAll(nodes, parent).Done? ==>
      exists k :: 0 <= k < |nodes| && (forall i :: 0 <= i < k ==> Eval(nodes[i]).Done?) &&
        (Eval(nodes[k]) == if EvalAll(nodes, parent).Raised? then Raised(EvalAll(nodes, parent).e) else Unmodelled)
  {
    var outs := Outcomes(nodes);
    EvalAllIsSequence(nodes, parent);
    SequenceSpec(outs);
    if !EvalAll(nodes, parent).Done? {
      var k :| 0 <= k < |outs| && (forall i :: 0 <= i < k ==> outs[i].Done?) &&
        (outs[k] == if Sequence(outs).Raised? then Raised(Sequence(outs).e) else Unmodelled);
      assert Eval(nodes[k]) == outs[k];
    }
  }

  /** The outcomes of evaluating each node on its own. */
  function Outcomes(nodes: seq<Node>): (outs: seq<Outcome<Value>>)
    ensures |outs| == |nodes| && forall i :: 0 <= i < |nodes| ==> outs[i] == Eval(nodes[i])
  {
    seq(|nodes|, i requires 0 <= i < |nodes| => Eval(nodes[i]))
  }

  /**
   * Outcomes combined left to right: the list of the values when all
   * succeed, otherwise the first outcome that is not a success.
   */
  function Sequence(outs: seq<Outcome<Value>>): Outcome<seq<Value>>
    decreases |outs|
  {
    if outs == [] then Done([])
    else
      match outs[0]
      case Raised(e) => Raised(e)
      case Unmodelled => Unmodelled
      case Done(v) =>
        match Sequence(outs[1..])
        case Raised(e) => Raised(e)
        case Unmodelled => Unmodelled
        case Done(vs) => Done([v] + vs)
  }

  /** Evaluating a sequence of nodes combines their separate outcomes. */
  lemma {:induction false} EvalAllIsSequence(nodes: seq<Node>, parent: Node)
    requires forall n | n in nodes :: n < parent
    ensures EvalAll(nodes, parent) == Sequence(Outcomes(nodes))
    decreases |nodes|
  {
    if nodes != [] {
      assert forall n | n in nodes[1..] :: n in nodes;
      EvalAllIsSequence(nodes[1..], parent);
      assert Outcomes(nodes)[1..] == Outcomes(nodes[1..]);
    }
  }

  lemma {:induction false} SequenceSpec(outs: seq<Outcome<Value>>)
    ensures Sequence(outs).Done? <==> forall i :: 0 <= i < |outs| ==> outs[i].Done?
    ensures Sequence(outs).Done? ==>
      && |Sequence(outs).v| == |outs|
      && forall i :: 0 <= i < |outs| ==> outs[i] == Done(Sequence(outs).v[i])
    ensures !Sequence(outs).Done? ==>
      exists k :: 0 <= k < |outs| && (forall i :: 0 <= i < k ==> outs[i].Done?) &&
        (outs[k] == if Sequence(outs).Raised? then Raised(Sequence(outs).e) else Unmodelled)
    decreases |outs|
  {
    if outs != [] {
      var rest := outs[1..];
      SequenceSpec(rest);
      if outs[0].Done? && !Sequence(rest).Done? {
        var k :| 0 <= k < |rest| && (forall i :: 0 <= i < k ==> rest[i].Done?) &&
          (rest[k] == if Sequence(rest).Raised? then Raised(Sequence(rest).e) else Unmodelled);
        assert forall i :: 0 <= i < k + 1 ==> outs[i].Done? by {
          forall i | 0 <= i < k + 1 ensures outs[i].Done? {
            if i > 0 { assert outs[i] == rest[i - 1]; }
          }
        }
        assert outs[k + 1] == rest[k];
      }
      if outs[0].Done? && Sequence(rest).Done? {
        forall i | 0 <= i < |outs| ensures outs[i] == Done(Sequence(outs).v[i]) {
          if i > 0 { assert outs[i] == rest[i - 1]; }
        }
      }
      if (forall i :: 0 <= i < |outs| ==> outs[i].Done?) {
        forall i | 0 <= i < |rest| ensures rest[i].Done? {
          assert rest[i] == outs[i + 1];
        }
      }
    }
  }

  /** The outcome of evaluating a sequence of nodes does not depend on the node they came from. */
  lemma {:induction false} EvalAllParentIrrelevant(nodes: seq<Node>, p: Node, q: Node)
    requires forall n | n in nodes :: n < p
    requires forall n | n in nodes :: n < q
    ensures EvalAll(nodes, p) == EvalAll(nodes, q)
  {
    if nodes != [] {
      assert forall n | n in nodes[1..] :: n in nodes;
      EvalAllParentIrrelevant(nodes[1..], p, q);
    }
  }

  /**
   * Calls: only a bare name that is in the function table is called, with
   * its arguments evaluated in order; any other callee and an unknown name
   * are rejected before any argument is evaluated, and keyword arguments
   * play no part.
   */
  lemma CallRule(f: Node, args: seq<Node>, kws: seq<Keyword>, kws': seq<Keyword>)
    ensures !f.Name? ==> Eval(Call(f, args, kws)) == Raised(ValueError("Only direct function calls are supported"))
    ensures f.Name? && f.id !in MathFuncs ==> Eval(Call(f, args, kws)) == Raised(ValueError("Unsupported function: " + f.id))
    ensures f.Name? && f.id in MathFuncs && MathFuncs[f.id].Function? && (forall i :: 0 <= i < |args| ==> Eval(args[i]).Done?) ==>
      Eval(Call(f, args, kws)) == ApplyBuiltin(MathFuncs[f.id].f, seq(|args|, i requires 0 <= i < |args| => Eval(args[i]).v))
    ensures Eval(Call(f, args, kws)) == Eval(Call(f, args, kws'))
  {
    var node, node' := Call(f, args, kws), Call(f, args, kws');
    EvalAllParentIrrelevant(args, node, node');
    EvalAllSpec(args, node);
    if EvalAll(args, node).Done? {
      assert EvalAll(args, node).v == seq(|args|, i requires 0 <= i < |args| => Eval(args[i]).v);
    }
  }

  /**
   * Names: the only names accepted are the float constants `pi` and `e`;
   * every other name, including a function name such as `sqrt` used as a
   * variable, is rejected.
   */
  lemma NameRule(id: string)
    ensures Eval(Name(id)).Done? <==> id == "pi" || id == "e"
    ensures Eval(Name(id)).Done? ==> Eval(Name(id)).v == VFloat
    ensures id != "pi" && id != "e" ==> Eval(Name(id)) == Raised(ValueError("Unsupported variable: " + id))
    ensures Eval(Name("sqrt")) == Raised(ValueError("Unsupported variable: sqrt"))
  {
    assert MathFuncs["sqrt"] == Function(Sqrt);
    assert "Unsupported variable: " + "sqrt" == "Unsupported variable: sqrt";
  }

  /**
   * Lists evaluate element by element: when they succeed, the result has
   * the same length and holds each element's value in order.
   */
  lemma ListRule(elts: seq<Node>)
    ensures Eval(List(elts)).Done? <==> forall i :: 0 <= i < |elts| ==> Eval(elts[i]).Done?
    ensures Eval(List(elts)).Done? ==>
      && Eval(List(elts)).v.VList?
      && |Eval(List(elts)).v.items| == |elts|
      && forall i :: 0 <= i < |elts| ==> Eval(elts[i]) == Done(Eval(List(elts)).v.items[i])
  {
    EvalAllSpec(elts, List(elts));
  }

  /** Tuples evaluate element by element, as lists do. */
  lemma TupleRule(elts: seq<Node>)
    ensures Eval(Tuple(elts)).Done? <==> forall i :: 0 <= i < |elts| ==> Eval(elts[i]).Done?
    ensures Eval(Tuple(elts)).Done? ==>
      && Eval(Tuple(elts)).v.VTuple?
      && |Eval(Tuple(elts)).v.items| == |elts|
      && forall i :: 0 <= i < |elts| ==> Eval(elts[i]) == Done(Eval(Tuple(elts)).v.items[i])
  {
    EvalAllSpec(elts, Tuple(elts));
  }

  /** Every node class without a branch of its own is rejected. */
  lemma OtherRule(kind: string, children: seq<Node>)
    ensures Eval(Other(kind, children)) == Raised(ValueError("Unsupported expression type: " + kind))
  {
  }

  /**
   * `safe_calculate` never raises: a syntax error gives "Syntax error: ...",
   * division by zero gives exactly "Error: Division by zero", every other
   * exception, from evaluating or from `str`, gives "Error: " and its
   * message, and a success gives the value's `str`.
   */
  lemma SafeCalculateReplies(parse: string -> ParseResult, expr: string)
    ensures var p, r := parse(Text.Strip(expr)), SafeCalculate(parse, expr);
      && (p.SyntaxError? ==> r == Some("Syntax error: " + p.msg))
      && (p.ParserValueError? ==> r == Some("Error: " + p.msg))
      && (p.Parsed? && Eval(p.tree).Done? && Str(Eval(p.tree).v).Done? ==> r == Some(Str(Eval(p.tree).v).v))
      && (p.Parsed? && Eval(p.tree).Done? && Str(Eval(p.tree).v).Raised? ==> r == Some(ErrorReply(Str(Eval(p.tree).v).e)))
      && (p.Parsed? && Eval(p.tree).Raised? ==> r == Some(ErrorReply(Eval(p.tree).e)))
      && (r.None? <==> p.Parsed? && (Eval(p.tree).Unmodelled? || (Eval(p.tree).Done? && Str(Eval(p.tree).v).Unmodelled?)))
  {
  }

  /**
   * The reply to an exception: exactly "Error: Division by zero" for
   * ZeroDivisionError, and "Error: " followed by the message for the others.
   */
  lemma ErrorReplySpec(e: Error)
    ensures e.ZeroDivision? <==> ErrorReply(e) == "Error: Division by zero" && !(e.ValueError? || e.TypeError? || e.OverflowError?)
    ensures !e.ZeroDivision? ==> ErrorReply(e) == "Error: " + e.msg
  {
  }

  /**
   * An integer result of at most 4300 digits is printed in decimal, and
   * different integers of at most 4300 digits give different replies.
   */
  lemma IntegerReply(parse: string -> ParseResult, expr: string, expr': string)
    requires parse(Text.Strip(expr)).Parsed? && parse(Text.Strip(expr')).Parsed?
    requires Eval(parse(Text.Strip(expr)).tree).Done? && Eval(parse(Text.Strip(expr)).tree).v.VInt?
    requires Eval(parse(Text.Strip(expr')).tree).Done? && Eval(parse(Text.Strip(expr')).tree).v.VInt?
    requires Text.DigitCount(Eval(parse(Text.Strip(expr)).tree).v.i) <= Text.MaxStrDigits
    requires Text.DigitCount(Eval(parse(Text.Strip(expr')).tree).v.i) <= Text.MaxStrDigits
    ensures SafeCalculate(parse, expr) == Some(Text.IntToDecimal(Eval(parse(Text.Strip(expr)).tree).v.i))
    ensures SafeCalculate(parse, expr) == SafeCalculate(parse, expr') ==>
      Eval(parse(Text.Strip(expr)).tree) == Eval(parse(Text.Strip(expr')).tree)
  {
    var a, b := Eval(parse(Text.Strip(expr)).tree).v.i, Eval(parse(Text.Strip(expr')).tree).v.i;
    if SafeCalculate(parse, expr) == SafeCalculate(parse, expr') {
      Text.IntToDecimalInjective(a, b);
    }
  }

  /** An integer of more than 4300 digits cannot be printed: `str` raises, and so does a list holding it. */
  lemma IntegerReplyLimit(parse: string -> ParseResult, expr: string, n: int)
    requires parse(Text.Strip(expr)).Parsed? && Eval(parse(Text.Strip(expr)).tree) == Done(VInt(n))
    requires Text.DigitCount(n) > Text.MaxStrDigits
    ensures SafeCalculate(parse, expr) == Some("Error: " + StrLimitMessage)
    ensures Str(VList([VFloat, VInt(n)])) == Raised(ValueError(StrLimitMessage))
  {
    var inner := [VFloat, VInt(n)];
    assert inner[1..] == [VInt(n)];
    assert Str(VInt(n)) == Raised(ValueError(StrLimitMessage));
    assert StrItems(inner[1..], VList(inner)) == Raised(ValueError(StrLimitMessage));
    assert Str(VFloat) == Unmodelled;
  }

  /** Worked examples: the trees Python produces for a few inputs, and their outcomes. */
  lemma ArithmeticExamples()
    ensures Eval(Expression(BinOp(Constant(IntLit(2)), Add, Constant(IntLit(2))))) == Done(VInt(4))
    ensures Eval(Expression(BinOp(Constant(IntLit(1)), Div, Constant(IntLit(0))))) == Raised(ZeroDivision)
  {
  }

  lemma FloorExamples()
    ensures Eval(BinOp(Constant(IntLit(0)), Pow, UnaryOp(USub, Constant(IntLit(1))))) == Raised(ZeroDivision)
    ensures Eval(BinOp(Constant(IntLit(-7)), FloorDiv, Constant(IntLit(2)))) == Done(VInt(-4))
  {
  }

  lemma StringConstantExample()
    ensures Eval(Constant(StrLit("x"))) == Raised(ValueError("Unsupported constant type: <class 'str'>"))
  {
  }

  /** A sequence of nodes whose elements evaluate to `vs` evaluates to `vs`. */
  lemma EvalAllDone(nodes: seq<Node>, parent: Node, vs: seq<Value>)
    requires forall n | n in nodes :: n < parent
    requires |vs| == |nodes| && forall i :: 0 <= i < |nodes| ==> Eval(nodes[i]) == Done(vs[i])
    ensures EvalAll(nodes, parent) == Done(vs)
  {
    EvalAllSpec(nodes, parent);
    assert EvalAll(nodes, parent).v == vs;
  }

  /** Three integer constants side by side evaluate to the three integers. */
  lemma ConstantsValue(nodes: seq<Node>, parent: Node, a: int, b: int, c: int)
    requires nodes == [Constant(IntLit(a)), Constant(IntLit(b)), Constant(IntLit(c))]
    requires forall n | n in nodes :: n < parent
    ensures EvalAll(nodes, parent) == Done([VInt(a), VInt(b), VInt(c)])
  {
    EvalAllDone(nodes, parent, [VInt(a), VInt(b), VInt(c)]);
  }

  lemma SumOfThree(a: int, b: int, c: int)
    ensures SumInts([VInt(a), VInt(b), VInt(c)]) == a + b + c
  {
    assert [VInt(a), VInt(b), VInt(c)][1..] == [VInt(b), VInt(c)];
    assert [VInt(b), VInt(c)][1..] == [VInt(c)];
    assert [VInt(c)][1..] == [];
    assert SumInts([VInt(c)]) == c;
    assert SumInts([VInt(b), VInt(c)]) == b + c;
  }

  /** A call of a table function whose arguments evaluate to `vs` applies the function to `vs`. */
  lemma CallOfBuiltin(call: Node, g: Builtin, vs: seq<Value>)
    requires call.Call? && call.func.Name? && call.func.id in MathFuncs && MathFuncs[call.func.id] == Function(g)
    requires EvalAll(call.args, call) == Done(vs)
    ensures Eval(call) == ApplyBuiltin(g, vs)
  {
  }

  /** A list of three integer constants evaluates to the list of the three integers. */
  lemma ListOfThree(list: Node, a: int, b: int, c: int)
    requires list == List([Constant(IntLit(a)), Constant(IntLit(b)), Constant(IntLit(c))])
    ensures Eval(list) == Done(VList([VInt(a), VInt(b), VInt(c)]))
  {
    ConstantsValue(list.elts, list, a, b, c);
  }

  /** The table entries the examples call. */
  lemma TableEntries()
    ensures "sum" in MathFuncs && MathFuncs["sum"] == Function(Sum)
    ensures "max" in MathFuncs && MathFuncs["max"] == Function(Max)
    ensures "min" in MathFuncs && MathFuncs["min"] == Function(Min)
  {
  }

  lemma SumOfList(a: int, b: int, c: int)
    ensures ApplyBuiltin(Sum, [VList([VInt(a), VInt(b), VInt(c)])]) == Done(VInt(a + b + c))
  {
    var items := [VInt(a), VInt(b), VInt(c)];
    SumSpec(VInt(0), items);
    SumOfThree(a, b, c);
  }

  /** `sum([1, 2, 3])` is 6. */
  lemma SumExample(call: Node)
    requires call == Call(Name("sum"), [List([Constant(IntLit(1)), Constant(IntLit(2)), Constant(IntLit(3))])], [])
    ensures Eval(call) == Done(VInt(6))
  {
    var vals := [VInt(1), VInt(2), VInt(3)];
    ListOfThree(call.args[0], 1, 2, 3);
    EvalAllDone(call.args, call, [VList(vals)]);
    TableEntries();
    CallOfBuiltin(call, Sum, [VList(vals)]);
    SumOfList(1, 2, 3);
  }

  /** `max(a, True, c)` with `a < c` and `1 < c` is `c`: `True` takes part as 1. */
  lemma MaxOfThree(a: int, c: int)
    requires 1 < c && a < c
    ensures Extreme([VInt(a), VBool(true), VInt(c)], false) == 2
  {
    assert [VInt(a), VBool(true), VInt(c)][..2] == [VInt(a), VBool(true)];
  }

  /** `max(3, True, 7)` is 7. */
  lemma MaxExample(call: Node)
    requires call == Call(Name("max"), [Constant(IntLit(3)), Constant(BoolLit(true)), Constant(IntLit(7))], [])
    ensures Eval(call) == Done(VInt(7))
  {
    var args := [VInt(3), VBool(true), VInt(7)];
    EvalAllDone(call.args, call, args);
    TableEntries();
    CallOfBuiltin(call, Max, args);
    MaxOfThree(3, 7);
    BestOfNumbers(true, args);
  }

  /** `min([])` is rejected as an empty sequence. */
  lemma MinEmptyExample(call: Node)
    requires call == Call(Name("min"), [List([])], [])
    ensures Eval(call) == Raised(ValueError("min() arg is an empty sequence"))
  {
    assert Eval(call.args[0]) == Done(VList([]));
    EvalAllDone(call.args, call, [VList([])]);
    TableEntries();
    CallOfBuiltin(call, Min, [VList([])]);
    EmptyArgument(Min, [VList([])]);
    MinMessage();
  }

  /** `min` and `max` of one empty iterable reject it, naming the function. */
  lemma EmptyArgument(f: Builtin, args: seq<Value>)
    requires (f == Min || f == Max) && args == [VList([])]
    ensures MinMax(f, args) == Raised(ValueError(BuiltinName(f) + "() arg is an empty sequence"))
  {
  }

  lemma MinMessage()
    ensures BuiltinName(Min) + "() arg is an empty sequence" == "min() arg is an empty sequence"
  {
  }

  lemma ReplyExamples()
    ensures Eval(Call(Other("Attribute", [Name("os")]), [], [])) == Raised(ValueError("Only direct function calls are supported"))
    ensures Str(VTuple([VInt(1)])) == Done("(1,)")
    ensures Str(VList([VInt(1), VBool(true)])) == Done("[1, True]")
  {
    assert Text.DigitCount(1) == 1;
    assert Str(VInt(1)) == Done("1");
    assert "(" + "1" + ",)" == "(1,)";
    assert [VInt(1), VBool(true)][1..] == [VBool(true)];
    assert StrItems([VBool(true)], VList([VInt(1), VBool(true)])) == Done("True");
    assert "1" + ", " + "True" == "1, True";
    assert StrItems([VInt(1), VBool(true)], VList([VInt(1), VBool(true)])) == Done("1, True");
    assert "[" + "1, True" + "]" == "[1, True]";
  }

  /**
   * `sum` of numbers from a number: the start itself for no items (so
   * `sum([], True)` is `True`), otherwise the integer sum.
   */
  lemma {:induction false} SumSpec(start: Value, items: seq<Value>)
    requires IsNumber(start) && AllNumbers(items)
    ensures items == [] ==> SumFrom(start, items) == Done(start)
    ensures items != [] ==> SumFrom(start, items) == Done(VInt(AsInt(start) + SumInts(items)))
    decreases |items|
  {
    if items != [] {
      var next := VInt(AsInt(start) + AsInt(items[0]));
      assert ApplyBinary(Add, start, items[0]) == Done(next);
      SumSpec(next, items[1..]);
    }
  }

  /** `sum([], True)` is `True`, `sum([[1]], [])` is `[1]`, and `sum([[1]])` adds a list to 0. */
  lemma SumExamples()
    ensures ApplyBuiltin(Sum, [VList([]), VBool(true)]) == Done(VBool(true))
    ensures ApplyBuiltin(Sum, [VList([VList([VInt(1)])]), VList([])]) == Done(VList([VInt(1)]))
    ensures ApplyBuiltin(Sum, [VList([VList([VInt(1)])])]) ==
      Raised(TypeError("unsupported operand type(s) for +: 'int' and 'list'"))
  {
    assert [] + [VInt(1)] == [VInt(1)];
    assert [VList([VInt(1)])][1..] == [];
    assert "unsupported operand type(s) for " + "+" + ": '" + "int" + "' and '" + "list" + "'"
      == "unsupported operand type(s) for +: 'int' and 'list'";
  }

  /** On numbers, the loop of `min` and `max` returns the element `Extreme` picks. */
  lemma {:induction false} BestOfNumbers(greater: bool, items: seq<Value>)
    requires |items| > 0 && AllNumbers(items)
    ensures Best(greater, items) == Done(items[Extreme(items, !greater)])
    decreases |items|
  {
    if |items| > 1 {
      var init := items[..|items| - 1];
      BestOfNumbers(greater, init);
      assert init[Extreme(init, !greater)] == items[Extreme(init, !greater)];
    }
  }

  /**
   * Sequences compare element by element: `max([1], [2])` is `[2]`, and a
   * list against an integer raises TypeError naming both types.
   */
  lemma CompareExamples()
    ensures MinMax(Max, [VList([VInt(1)]), VList([VInt(2)])]) == Done(VList([VInt(2)]))
    ensures MinMax(Max, [VInt(1), VList([VInt(1)])]) ==
      Raised(TypeError("'>'" + " not supported between instances of '" + "list" + "' and '" + "int" + "'"))
    ensures MinMax(Min, [VList([VInt(1), VInt(2)]), VList([VInt(1)])]) == Done(VList([VInt(1)]))
  {
    assert [VInt(1), VInt(2)][1..] == [VInt(2)];
    assert [VInt(1)][1..] == [];
    assert [VList([VInt(1)]), VList([VInt(2)])][..1] == [VList([VInt(1)])];
    assert Compare(true, VList([VInt(2)]), VList([VInt(1)])) == Done(true);
    assert [VInt(1), VList([VInt(1)])][..1] == [VInt(1)];
    assert [VList([VInt(1), VInt(2)]), VList([VInt(1)])][..1] == [VList([VInt(1), VInt(2)])];
    assert Compare(false, VList([VInt(1)]), VList([VInt(1), VInt(2)])) == Done(true);
  }

  /**
   * `round(x, n)` on integers: `x` when `n >= 0`; otherwise a multiple of
   * `10 ** -n` at most half of it away from `x`, and on a tie the multiple
   * whose quotient is even.
   */
  lemma RoundIntSpec(x: int, n: int)
    ensures n >= 0 ==> RoundInt(x, n) == x
    ensures n < 0 ==>
      var m := Power(10, -n);
      && m > 0
      && RoundInt(x, n) == RoundQuotient(x, m) * m
      && 2 * Magnitude(x - RoundInt(x, n)) <= m
      && (2 * Magnitude(x - RoundInt(x, n)) == m ==> RoundQuotient(x, m) % 2 == 0)
  {
    if n < 0 {
      var m := Power(10, -n);
      PowerPositive(10, -n);
      RoundQuotientSpec(x, m);
    }
  }

  /** The rounded quotient is the nearest one, and on a tie the even one. */
  lemma RoundQuotientSpec(x: int, m: int)
    requires m > 0
    ensures var k := RoundQuotient(x, m);
      && 2 * Magnitude(x - k * m) <= m
      && (2 * Magnitude(x - k * m) == m ==> k % 2 == 0)
  {
    var q := FloorDivInt(x, m);
    var rem := x - q * m;
    assert 0 <= rem < m;
    assert (q + 1) * m == q * m + m;
  }

  /** `round(5, 1)` is 5, and ties round to the even multiple: 25 and 15 both give 20. */
  lemma RoundExamples()
    ensures ApplyBuiltin(Round, [VInt(5), VInt(1)]) == Done(VInt(5))
    ensures ApplyBuiltin(Round, [VInt(25), VInt(-1)]) == Done(VInt(20))
    ensures ApplyBuiltin(Round, [VInt(15), VInt(-1)]) == Done(VInt(20))
    ensures ApplyBuiltin(Round, [VInt(-26), VInt(-1)]) == Done(VInt(-30))
    ensures ApplyBuiltin(Round, [VList([]), VInt(1)]) == Raised(TypeError("type " + "list" + " doesn't define __round__ method"))
    ensures ApplyBuiltin(Round, [VInt(5), VFloat]) == Raised(TypeError("'float" + "' object cannot be interpreted as an integer"))
  {
    assert Power(10, 1) == 10;
    RoundTexts();
  }

  lemma RoundTexts()
    ensures "type " + TypeName(VList([])) + " doesn't define __round__ method" == "type " + "list" + " doesn't define __round__ method"
    ensures NotAnInteger(VFloat) == TypeError("'float" + "' object cannot be interpreted as an integer")
  {
    assert "'" + "float" == "'float";
  }

  /**
   * The argument-count errors name the function as CPython does: `math.`
   * for the math module's functions, and the signature's own wording for
   * `round` and `sum`.
   */
  lemma CountErrorExamples()
    ensures ApplyBuiltin(Floor, []) == Raised(TypeError("math.floor" + "() takes exactly one argument (" + "0" + " given)"))
    ensures ApplyBuiltin(Ceil, [VInt(1), VInt(2)]) == Raised(TypeError("math.ceil" + "() takes exactly one argument (" + "2" + " given)"))
    ensures ApplyBuiltin(Len, []) == Raised(TypeError("len" + "() takes exactly one argument (" + "0" + " given)"))
    ensures ApplyBuiltin(Sum, []) == Raised(TypeError("sum() takes at least 1 positional argument (0 given)"))
    ensures ApplyBuiltin(Round, []) == Raised(TypeError("round() missing required argument 'number' (pos 1)"))
  {
    FloorCountText();
    CeilCountText();
    LenCountText();
  }

  lemma FloorCountText()
    ensures CountError("math." + BuiltinName(Floor), []) == TypeError("math.floor" + "() takes exactly one argument (" + "0" + " given)")
  {
    assert Text.IntToDecimal(0) == "0";
    assert "math." + "floor" == "math.floor";
  }

  lemma CeilCountText()
    ensures CountError("math." + BuiltinName(Ceil), [VInt(1), VInt(2)]) == TypeError("math.ceil" + "() takes exactly one argument (" + "2" + " given)")
  {
    assert Text.IntToDecimal(2) == "2";
    assert "math." + "ceil" == "math.ceil";
  }

  lemma LenCountText()
    ensures CountError("len", []) == TypeError("len" + "() takes exactly one argument (" + "0" + " given)")
  {
    assert Text.IntToDecimal(0) == "0";
  }

  /**
   * `+` on a sequence joins it with a sequence of the same kind and refuses
   * any other right operand with the sequence's own message.
   */
  lemma SequenceConcat(s: Value, t: Value)
    requires IsSequence(s)
    ensures ((s.VList? && t.VList?) || (s.VTuple? && t.VTuple?)) ==>
      ApplyBinary(Add, s, t) == Done(SameKind(s, s.items + t.items))
    ensures !((s.VList? && t.VList?) || (s.VTuple? && t.VTuple?)) ==>
      ApplyBinary(Add, s, t) ==
        Raised(TypeError("can only concatenate " + TypeName(s) + " (not \"" + TypeName(t) + "\") to " + TypeName(s)))
  {
  }

  /**
   * `*` repeats a sequence by an integer that fits `Py_ssize_t`, from either
   * side, raises OverflowError beyond it, and refuses any other multiplier.
   */
  lemma SequenceRepeat(s: Value, t: Value, n: Value)
    requires IsSequence(s) && IsNumber(n)
    ensures SsizeMin <= AsInt(n) <= SsizeMax ==>
      && ApplyBinary(Mult, s, n) == Done(SameKind(s, Repeat(s.items, AsInt(n))))
      && ApplyBinary(Mult, n, s) == Done(SameKind(s, Repeat(s.items, AsInt(n))))
    ensures !(SsizeMin <= AsInt(n) <= SsizeMax) ==>
      ApplyBinary(Mult, s, n) == Raised(OverflowError("cannot fit 'int' into an index-sized integer"))
    ensures !IsNumber(t) ==> ApplyBinary(Mult, s, t) == Raised(TypeError("can't multiply sequence by non-int of type '" + TypeName(t) + "'"))
  {
    assert ApplyBinary(Mult, s, n) == RepeatSequence(s, AsInt(n));
    assert ApplyBinary(Mult, n, s) == RepeatSequence(s, AsInt(n));
    if !IsNumber(t) {
      assert ApplyBinary(Mult, s, t) == Raised(MultiplierError(t));
    }
  }

  lemma SequenceOperatorExamples()
    ensures ApplyBinary(Add, VList([VInt(1)]), VInt(1)) == Raised(TypeError("can only concatenate list (not \"int\") to list"))
    ensures ApplyBinary(Mult, VList([VInt(1)]), VList([VInt(1)])) == Raised(TypeError("can't multiply sequence by non-int of type 'list'"))
    ensures ApplyBinary(Mult, VList([VInt(1)]), VInt(100000000000000000000)) ==
      Raised(OverflowError("cannot fit 'int' into an index-sized integer"))
  {
    assert "can only concatenate " + "list" + " (not \"" + "int" + "\") to " + "list" == "can only concatenate list (not \"int\") to list";
    assert "can't multiply sequence by non-int of type '" + "list" + "'" == "can't multiply sequence by non-int of type 'list'";
  }

  /**
   * A float value is not a failure: in `1/2 + 1/0` the left operand is a
   * float and the right one's ZeroDivisionError is the outcome.
   */
  lemma FloatOperandExample()
    ensures Eval(BinOp(BinOp(Constant(IntLit(1)), Div, Constant(IntLit(2))), Add,
                       BinOp(Constant(IntLit(1)), Div, Constant(IntLit(0))))) == Raised(ZeroDivision)
    ensures Eval(BinOp(Constant(FloatLit), Add, Constant(IntLit(1)))) == Done(VFloat)
    ensures Eval(BinOp(Constant(FloatLit), Add, List([]))) == Raised(TypeError("unsupported operand type(s) for +: 'float' and 'list'"))
  {
    assert "unsupported operand type(s) for " + "+" + ": '" + "float" + "' and '" + "list" + "'"
      == "unsupported operand type(s) for +: 'float' and 'list'";
  }
}
