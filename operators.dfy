/** The value-level semantics of the Interpreter: truthiness, equality,
    the unary and binary operators, short-circuiting of `and`/`or`, literal
    values and the text `print` writes for a value. */
module Operators {
  import opened Wrappers
  import opened Tokens
  import opened Ast
  import opened Values

  /** `isTruthy`: JavaScript's `!!value`, so besides `nil`, `undefined`
      and `false`, the number 0 and the empty string are falsy too. */
  predicate IsTruthy(v: Value)
  {
    match v
    case LoxNil => false
    case LoxUndefined => false
    case LoxBool(b) => b
    case LoxNumber(n) => n != 0.0
    case LoxString(s) => s != ""
    case _ => true
  }

  /** The rule of the Lox language: only `nil` (here also `undefined`) and
      `false` are falsy. */
  predicate LoxTruthy(v: Value)
  {
    !(v.LoxNil? || v.LoxUndefined? || v == LoxBool(false))
  }

  /** The falsy values are exactly `nil`, `undefined`, `false`, 0 and "". */
  lemma FalsyValues(v: Value)
    ensures !IsTruthy(v) <==> v in {LoxNil, LoxUndefined, LoxBool(false), LoxNumber(0.0), LoxString("")}
  {
  }

  /** The two rules disagree on exactly two values. */
  lemma TruthinessDiverges(v: Value)
    ensures IsTruthy(v) != LoxTruthy(v) <==> v == LoxNumber(0.0) || v == LoxString("")
  {
  }

  /** `isEqual`: JavaScript's `===`.  Primitive values compare by value
      (with no conversion between types, so `nil` and `undefined` are
      different); objects compare by identity. */
  predicate IsEqual(l: Value, r: Value)
  {
    match (l, r)
    case (LoxNil, LoxNil) => true
    case (LoxUndefined, LoxUndefined) => true
    case (LoxBool(a), LoxBool(b)) => a == b
    case (LoxNumber(a), LoxNumber(b)) => a == b
    case (LoxString(a), LoxString(b)) => a == b
    case (LoxFunction(f), LoxFunction(g)) => f.serial == g.serial
    case (LoxClass(c), LoxClass(d)) => c.serial == d.serial
    case (LoxInstance(a, _), LoxInstance(b, _)) => a == b
    case (NativeClock, NativeClock) => true
    case _ => false
  }

  /** `===` is an equivalence, and values of different kinds are never
      equal. */
  lemma IsEqualEquivalence(a: Value, b: Value, c: Value)
    ensures IsEqual(a, a)
    ensures IsEqual(a, b) ==> IsEqual(b, a)
    ensures IsEqual(a, b) && IsEqual(b, c) ==> IsEqual(a, c)
    ensures IsEqual(a, b) ==> Kind(a) == Kind(b)
  {
  }

  /** Which constructor a value is built with. */
  function Kind(v: Value): nat
  {
    match v
    case LoxNil => 0
    case LoxUndefined => 1
    case LoxBool(_) => 2
    case LoxNumber(_) => 3
    case LoxString(_) => 4
    case LoxFunction(_) => 5
    case LoxClass(_) => 6
    case LoxInstance(_, _) => 7
    case NativeClock => 8
  }

  /** A value that is not an object. */
  predicate Primitive(v: Value)
  {
    v.LoxNil? || v.LoxUndefined? || v.LoxBool? || v.LoxNumber? || v.LoxString?
  }

  const NumbersExpected := "Operands must be numbers."
  const NumberExpected := "Operand must be a number."
  const PlusOperands := "Operands must be two numbers or two strings."
  const DivisionByZero := "Operand can't be divided by zero"

  /** The operators whose operands must both be numbers. */
  predicate NumericOperator(kind: TokenType)
  {
    kind in {Greater, GreaterEqual, Less, LessEqual, Minus, Slash, Star}
  }

  /** `visitBinaryExpr` once both operands have been evaluated.  An
      operator token of any other kind falls through the source's `switch`
      and yields `undefined`. */
  function BinaryOp(operator: Token, l: Value, r: Value): (result: Eval)
    ensures result.Ok? ==> Primitive(result.value)
    ensures result.Fail? ==> result.failure.RuntimeError? && result.failure.token == operator
  {
    if NumericOperator(operator.kind) && !(l.LoxNumber? && r.LoxNumber?) then
      Fail(RuntimeError(operator, NumbersExpected))
    else
      match operator.kind
      case Greater => Ok(LoxBool(l.n > r.n))
      case GreaterEqual => Ok(LoxBool(l.n >= r.n))
      case Less => Ok(LoxBool(l.n < r.n))
      case LessEqual => Ok(LoxBool(l.n <= r.n))
      case Minus => Ok(LoxNumber(l.n - r.n))
      case Star => Ok(LoxNumber(l.n * r.n))
      case Slash => if r.n == 0.0 then Fail(RuntimeError(operator, DivisionByZero)) else Ok(LoxNumber(l.n / r.n))
      case Plus =>
        if l.LoxNumber? && r.LoxNumber? then Ok(LoxNumber(l.n + r.n))
        else if l.LoxString? && r.LoxString? then Ok(LoxString(l.s + r.s))
        else Fail(RuntimeError(operator, PlusOperands))
      case BangEqual => Ok(LoxBool(!IsEqual(l, r)))
      case EqualEqual => Ok(LoxBool(IsEqual(l, r)))
      case _ => Ok(LoxUndefined)
  }

  /** Comparisons, `-`, `*` and `/` fail with "Operands must be numbers."
      exactly when an operand is not a number; otherwise only `/` can fail,
      and only when the divisor is zero. */
  lemma NumericOperands(operator: Token, l: Value, r: Value)
    requires NumericOperator(operator.kind)
    ensures BinaryOp(operator, l, r) == Fail(RuntimeError(operator, NumbersExpected)) <==> !(l.LoxNumber? && r.LoxNumber?)
    ensures l.LoxNumber? && r.LoxNumber? ==>
      (BinaryOp(operator, l, r).Fail? <==> operator.kind == Slash && r.n == 0.0)
  {
  }

  /** The type check of `/` comes before the zero check: a non-number
      operand is reported as such even when the divisor is zero. */
  lemma DivisionChecksTypesFirst(operator: Token, l: Value)
    requires operator.kind == Slash
    ensures !l.LoxNumber? ==> BinaryOp(operator, l, LoxNumber(0.0)) == Fail(RuntimeError(operator, NumbersExpected))
    ensures l.LoxNumber? ==> BinaryOp(operator, l, LoxNumber(0.0)) == Fail(RuntimeError(operator, DivisionByZero))
  {
  }

  /** `+` adds two numbers, concatenates two strings, and fails for every
      other pair of operands. */
  lemma PlusOverloading(operator: Token, l: Value, r: Value)
    requires operator.kind == Plus
    ensures l.LoxNumber? && r.LoxNumber? ==> BinaryOp(operator, l, r) == Ok(LoxNumber(l.n + r.n))
    ensures l.LoxString? && r.LoxString? ==> BinaryOp(operator, l, r) == Ok(LoxString(l.s + r.s))
    ensures BinaryOp(operator, l, r).Fail? <==> !(l.LoxNumber? && r.LoxNumber?) && !(l.LoxString? && r.LoxString?)
    ensures BinaryOp(operator, l, r).Fail? ==> BinaryOp(operator, l, r) == Fail(RuntimeError(operator, PlusOperands))
  {
  }

  /** `==` is `===` and `!=` its negation; neither ever fails. */
  lemma EqualityOperators(operator: Token, l: Value, r: Value)
    ensures operator.kind == EqualEqual ==> BinaryOp(operator, l, r) == Ok(LoxBool(IsEqual(l, r)))
    ensures operator.kind == BangEqual ==> BinaryOp(operator, l, r) == Ok(LoxBool(!IsEqual(l, r)))
  {
  }

  /** `visitUnaryExpr` once the operand has been evaluated: `!` negates
      truthiness, `-` needs a number, and any other operator yields
      `undefined`. */
  function UnaryOp(operator: Token, v: Value): (result: Eval)
    ensures result.Ok? ==> Primitive(result.value)
    ensures result.Fail? ==> result == Fail(RuntimeError(operator, NumberExpected))
  {
    match operator.kind
    case Bang => Ok(LoxBool(!IsTruthy(v)))
    case Minus => if v.LoxNumber? then Ok(LoxNumber(-v.n)) else Fail(RuntimeError(operator, NumberExpected))
    case _ => Ok(LoxUndefined)
  }

  /** `-` fails exactly on a non-number and negates a number; `!` never
      fails, and applied twice it gives the truthiness of the operand. */
  lemma UnaryOperators(operator: Token, v: Value)
    ensures operator.kind == Minus ==> (UnaryOp(operator, v).Fail? <==> !v.LoxNumber?)
    ensures operator.kind == Minus && v.LoxNumber? ==> UnaryOp(operator, v) == Ok(LoxNumber(-v.n))
    ensures operator.kind == Bang ==> UnaryOp(operator, UnaryOp(operator, v).value) == Ok(LoxBool(IsTruthy(v)))
  {
  }

  /** Whether the left operand of a logical expression is its result, so
      that the right operand is never evaluated: a truthy left operand of
      `or`, a falsy left operand of any other (that is, `and`). */
  predicate LeftDecides(operator: Token, left: Value)
  {
    if operator.kind == Or then IsTruthy(left) else !IsTruthy(left)
  }

  /** The value of a literal expression. */
  function LiteralToValue(literal: LiteralValue): (v: Value)
    ensures literal.NumberValue? <==> v.LoxNumber?
    ensures literal.StringValue? <==> v.LoxString?
    ensures literal.NumberValue? ==> v.n == DecimalToReal(literal.n)
    ensures literal.StringValue? ==> v.s == literal.s
    ensures Primitive(v)
  {
    match literal
    case NilValue => LoxNil
    case BoolValue(b) => LoxBool(b)
    case NumberValue(d) => LoxNumber(DecimalToReal(d))
    case StringValue(s) => LoxString(s)
    case UndefinedValue => LoxUndefined
  }

  // ---------------------------------------------------------------------
  // Text
  // ---------------------------------------------------------------------

  /** The decimal digits of `n`, most significant first, with no leading
      zero. */
  function NatToString(n: nat): (s: string)
    ensures |s| >= 1 && (forall i :: 0 <= i < |s| ==> '0' <= s[i] <= '9')
    ensures s[0] == '0' ==> n == 0
  {
    if n < 10 then [Digit(n)] else NatToString(n / 10) + [Digit(n % 10)]
  }

  function Digit(d: nat): (c: char)
    requires d < 10
    ensures '0' <= c <= '9' && c as int - '0' as int == d
  {
    (d + '0' as int) as char
  }

  /** The number a string of decimal digits denotes. */
  function DigitsValue(s: string): nat
    requires forall i :: 0 <= i < |s| ==> '0' <= s[i] <= '9'
  {
    if s == [] then 0 else DigitsValue(s[..|s| - 1]) * 10 + (s[|s| - 1] as int - '0' as int)
  }

  /** Reading the digits back gives the number. */
  lemma {:induction false} NatToStringRoundTrip(n: nat)
    ensures DigitsValue(NatToString(n)) == n
  {
    var s := NatToString(n);
    if n >= 10 {
      NatToStringRoundTrip(n / 10);
      assert s[..|s| - 1] == NatToString(n / 10);
    }
  }

  /** A template literal's rendering of an integer. */
  function IntToString(i: int): (s: string)
    ensures i >= 0 ==> s == NatToString(i)
    ensures i < 0 ==> s == "-" + NatToString(-i)
  {
    if i >= 0 then NatToString(i) else "-" + NatToString(-i)
  }

  /** The integer an optionally signed string of decimal digits denotes. */
  function SignedValue(s: string): int
    requires |s| > 0 && forall i :: 0 < i < |s| ==> '0' <= s[i] <= '9'
    requires s[0] == '-' || '0' <= s[0] <= '9'
  {
    if s[0] == '-' then
      assert forall k :: 0 <= k < |s| - 1 ==> s[1..][k] == s[k + 1];
      -(DigitsValue(s[1..]) as int)
    else DigitsValue(s)
  }

  /** The text of an integer starts with a minus sign exactly when it is
      negative, and reads back to the integer. */
  lemma IntToStringRoundTrip(i: int)
    ensures var s := IntToString(i); |s| > 0 && (s[0] == '-' <==> i < 0)
    ensures SignedValue(IntToString(i)) == i
  {
    if i >= 0 {
      NatToStringRoundTrip(i);
    } else {
      NatToStringRoundTrip(-i);
      assert IntToString(i)[1..] == NatToString(-i);
    }
  }

  /** A literal read from a NUMBER or STRING token evaluates to the
      token's own literal: the number's exact value, or the text. */
  lemma TokenLiteralValue(literal: Literal)
    ensures literal.NumberLiteral? ==> LiteralToValue(FromTokenLiteral(literal)) == LoxNumber(DecimalToReal(literal.number))
    ensures literal.StringLiteral? ==> LiteralToValue(FromTokenLiteral(literal)) == LoxString(literal.text)
    ensures literal.NoLiteral? ==> LiteralToValue(FromTokenLiteral(literal)) == LoxUndefined
  {
  }

  /** `stringify`: `nil` for `nil` and `undefined`, otherwise the value's
      `toString`.  The text JavaScript gives a number is a parameter. */
  function Stringify(v: Value, numberText: real -> string): (s: string)
    ensures v.LoxNil? || v.LoxUndefined? ==> s == "nil"
    ensures v.LoxString? ==> s == v.s
    ensures v.LoxNumber? ==> s == numberText(v.n)
  {
    match v
    case LoxNil => "nil"
    case LoxUndefined => "nil"
    case LoxBool(b) => if b then "true" else "false"
    case LoxNumber(n) => numberText(n)
    case LoxString(s) => s
    case LoxFunction(f) => "<function " + f.declaration.name.lexeme + ">"
    case LoxClass(c) => "<class " + c.name + ">"
    case LoxInstance(_, klass) => "<" + klass.name + " instance>"
    case NativeClock => "<native function>"
  }

  /** Objects print as their kind in angle brackets, in the texts their
      `toString` methods write: the function's declared name, the class's
      name, the instance's class name, or the native clock. */
  lemma StringifyObjects(v: Value, numberText: real -> string)
    ensures (v.LoxFunction? || v.LoxClass? || v.LoxInstance? || v.NativeClock?) <==>
            var s := Stringify(v, numberText); |s| >= 2 && s[0] == '<' && s[|s| - 1] == '>' && !v.LoxString? && !v.LoxNumber?
    ensures v.LoxFunction? ==> Stringify(v, numberText) == "<function " + v.f.declaration.name.lexeme + ">"
    ensures v.LoxClass? ==> Stringify(v, numberText) == "<class " + v.c.name + ">"
    ensures v.LoxInstance? ==> Stringify(v, numberText) == "<" + v.klass.name + " instance>"
    ensures v.NativeClock? ==> Stringify(v, numberText) == "<native function>"
    ensures v.LoxBool? ==> Stringify(v, numberText) == (if v.b then "true" else "false")
  {
  }
}
