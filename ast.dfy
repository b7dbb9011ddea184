/** The syntax tree shared by the Parser, the Resolver and the Interpreter.

    Each expression class of the source is one constructor of `Expr`.  The
    nodes the Resolver records a distance for (variables, assignments,
    `this` and `super`) carry an `id`, which stands for the node's object
    identity: the Interpreter's side table of distances is keyed by it.
    The statement kinds are those the Interpreter and the Resolver visit. */
module Ast {
  import opened Wrappers
  import opened Tokens

  /** The value of a literal expression: `false`, `true`, `null`, or the
      literal carried by a NUMBER or STRING token (`undefined` when the token
      carries none). */
  datatype LiteralValue =
    | NilValue
    | BoolValue(b: bool)
    | NumberValue(n: Decimal)
    | StringValue(s: string)
    | UndefinedValue

  datatype Expr =
    | Assign(id: nat, name: Token, value: Expr)
    | Binary(left: Expr, operator: Token, right: Expr)
    | Call(callee: Expr, paren: Token, arguments: seq<Expr>)
    | Get(obj: Expr, name: Token)
    | Grouping(expression: Expr)
    | Literal(literal: LiteralValue)
    | Logical(left: Expr, operator: Token, right: Expr)
    | Set(obj: Expr, name: Token, value: Expr)
    | Super(id: nat, keyword: Token, methodName: Token)
    | This(id: nat, keyword: Token)
    | Unary(operator: Token, right: Expr)
    | Variable(id: nat, name: Token)

  /** A function or method declaration.  A body entry is `None` where a
      declaration failed to parse. */
  datatype FunctionDecl = FunctionDecl(name: Token, params: seq<Token>, body: seq<Option<Stmt>>)

  /** The superclass clause of a class declaration: a variable reference. */
  datatype Superclass = Superclass(id: nat, name: Token)

  datatype Stmt =
    | Block(statements: seq<Option<Stmt>>)
    | Class(name: Token, superclass: Option<Superclass>, methods: seq<FunctionDecl>)
    | Expression(expression: Expr)
    | Function(decl: FunctionDecl)
    | If(condition: Expr, thenBranch: Stmt, elseBranch: Option<Stmt>)
    | Print(expression: Expr)
    | Return(keyword: Token, value: Option<Expr>)
    | Var(name: Token, initializer: Option<Expr>)
    | While(condition: Expr, body: Stmt)

  /** The literal value a NUMBER or STRING token's literal denotes. */
  function FromTokenLiteral(literal: Literal): (v: LiteralValue)
    ensures literal.NumberLiteral? ==> v == NumberValue(literal.number)
    ensures literal.StringLiteral? ==> v == StringValue(literal.text)
    ensures literal.NoLiteral? ==> v == UndefinedValue
  {
    match literal
    case NoLiteral => UndefinedValue
    case NumberLiteral(n) => NumberValue(n)
    case StringLiteral(s) => StringValue(s)
  }

  /** The ids of the nodes of `e` that carry one, left to right in the
      order the Parser creates them (an assignment after its value). */
  function ExprIds(e: Expr): seq<nat>
  {
    match e
    case Assign(id, _, value) => ExprIds(value) + [id]
    case Binary(left, _, right) => ExprIds(left) + ExprIds(right)
    case Call(callee, _, arguments) => ExprIds(callee) + ExprListIds(arguments)
    case Get(obj, _) => ExprIds(obj)
    case Grouping(inner) => ExprIds(inner)
    case Literal(_) => []
    case Logical(left, _, right) => ExprIds(left) + ExprIds(right)
    case Set(obj, _, value) => ExprIds(obj) + ExprIds(value)
    case Super(id, _, _) => [id]
    case This(id, _) => [id]
    case Unary(_, right) => ExprIds(right)
    case Variable(id, _) => [id]
  }

  function ExprListIds(es: seq<Expr>): seq<nat>
  {
    if es == [] then [] else ExprIds(es[0]) + ExprListIds(es[1..])
  }

  /** The ids of the nodes of `s` that carry one, those of its nested
      statements, function bodies, methods and superclass clause included. */
  function StmtNodeIds(s: Stmt): seq<nat>
    decreases s, 1
  {
    match s
    case Block(statements) => BlockNodeIds(s, |statements|)
    case Class(_, superclass, methods) =>
      (if superclass.Some? then [superclass.value.id] else []) + MethodNodeIds(s, |methods|)
    case Expression(e) => ExprIds(e)
    case Function(decl) => BodyNodeIds(decl, |decl.body|)
    case If(condition, thenBranch, elseBranch) =>
      ExprIds(condition) + StmtNodeIds(thenBranch) + (if elseBranch.Some? then StmtNodeIds(elseBranch.value) else [])
    case Print(e) => ExprIds(e)
    case Return(_, value) => if value.Some? then ExprIds(value.value) else []
    case Var(_, initializer) => if initializer.Some? then ExprIds(initializer.value) else []
    case While(condition, body) => ExprIds(condition) + StmtNodeIds(body)
  }

  /** The node ids of the first `n` statements of the block `s`. */
  function BlockNodeIds(s: Stmt, n: nat): seq<nat>
    requires s.Block? && n <= |s.statements|
    decreases s, 0, n
  {
    if n == 0 then []
    else BlockNodeIds(s, n - 1) + (if s.statements[n - 1].Some? then StmtNodeIds(s.statements[n - 1].value) else [])
  }

  /** The node ids of the first `n` methods of the class `s`. */
  function MethodNodeIds(s: Stmt, n: nat): seq<nat>
    requires s.Class? && n <= |s.methods|
    decreases s, 0, n
  {
    if n == 0 then []
    else MethodNodeIds(s, n - 1) + BodyNodeIds(s.methods[n - 1], |s.methods[n - 1].body|)
  }

  /** The node ids of the first `n` statements of a function body. */
  function BodyNodeIds(decl: FunctionDecl, n: nat): seq<nat>
    requires n <= |decl.body|
    decreases decl, 0, n
  {
    if n == 0 then []
    else BodyNodeIds(decl, n - 1) + (if decl.body[n - 1].Some? then StmtNodeIds(decl.body[n - 1].value) else [])
  }
}
