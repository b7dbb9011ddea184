/** Fuel is only a bound: a run of the reference semantics that finishes
    without running out of fuel gives the same result, in the same final
    state, with any larger amount.  So `OutOfFuel` stands for a program the
    fuel did not let finish, and is never a result of its own.

    The lemmas follow the functions of `Semantics` one for one, with the
    smaller amount `fuel` and the larger amount `more`. */
module Fuel {
  import opened Wrappers
  import opened Tokens
  import opened Ast
  import opened Values
  import opened Environment
  import opened Functions
  import opened Classes
  import opened Operators
  import opened Semantics

  /** An evaluation that did not run out of fuel. */
  ghost predicate Settled(o: Evaluated)
  {
    o.r != Fail(OutOfFuel)
  }

  /** An execution that did not run out of fuel. */
  ghost predicate Finished(x: Executed)
  {
    x.c != Raised(OutOfFuel)
  }

  // ---------------------------------------------------------------------
  // Expressions
  // ---------------------------------------------------------------------

  lemma {:induction false} EvalExprMore(cx: Context, st: State, e: Expr, fuel: nat, more: nat)
    requires StateOk(cx, st) && fuel <= more && Settled(EvalExpr(cx, st, e, fuel))
    ensures EvalExpr(cx, st, e, more) == EvalExpr(cx, st, e, fuel)
    decreases fuel, 3, e, 2, 0
  {
    match e
    case Assign(_, _, _) => EvalAssignMore(cx, st, e, fuel, more);
    case Binary(_, _, _) => EvalBinaryMore(cx, st, e, fuel, more);
    case Call(_, _, _) => EvalCallMore(cx, st, e, fuel, more);
    case Get(_, _) => EvalGetMore(cx, st, e, fuel, more);
    case Grouping(inner) => EvalExprMore(cx, st, inner, fuel, more);
    case Literal(_) =>
    case Logical(_, _, _) => EvalLogicalMore(cx, st, e, fuel, more);
    case Set(_, _, _) => EvalSetMore(cx, st, e, fuel, more);
    case Super(_, _, _) =>
    case This(_, _) =>
    case Unary(_, _) => EvalUnaryMore(cx, st, e, fuel, more);
    case Variable(_, _) =>
  }

  lemma {:induction false} EvalAssignMore(cx: Context, st: State, e: Expr, fuel: nat, more: nat)
    requires e.Assign? && StateOk(cx, st) && fuel <= more && Settled(EvalAssign(cx, st, e, fuel))
    ensures EvalAssign(cx, st, e, more) == EvalAssign(cx, st, e, fuel)
    decreases fuel, 3, e, 1, 0
  {
    EvalExprMore(cx, st, e.value, fuel, more);
  }

  lemma {:induction false} EvalBinaryMore(cx: Context, st: State, e: Expr, fuel: nat, more: nat)
    requires e.Binary? && StateOk(cx, st) && fuel <= more && Settled(EvalBinary(cx, st, e, fuel))
    ensures EvalBinary(cx, st, e, more) == EvalBinary(cx, st, e, fuel)
    decreases fuel, 3, e, 1, 0
  {
    var left := EvalExpr(cx, st, e.left, fuel);
    EvalExprMore(cx, st, e.left, fuel, more);
    if left.r.Ok? {
      EvalExprMore(cx, left.st, e.right, fuel, more);
    }
  }

  lemma {:induction false} EvalUnaryMore(cx: Context, st: State, e: Expr, fuel: nat, more: nat)
    requires e.Unary? && StateOk(cx, st) && fuel <= more && Settled(EvalUnary(cx, st, e, fuel))
    ensures EvalUnary(cx, st, e, more) == EvalUnary(cx, st, e, fuel)
    decreases fuel, 3, e, 1, 0
  {
    EvalExprMore(cx, st, e.right, fuel, more);
  }

  lemma {:induction false} EvalLogicalMore(cx: Context, st: State, e: Expr, fuel: nat, more: nat)
    requires e.Logical? && StateOk(cx, st) && fuel <= more && Settled(EvalLogical(cx, st, e, fuel))
    ensures EvalLogical(cx, st, e, more) == EvalLogical(cx, st, e, fuel)
    decreases fuel, 3, e, 1, 0
  {
    var left := EvalExpr(cx, st, e.left, fuel);
    EvalExprMore(cx, st, e.left, fuel, more);
    if left.r.Ok? && !LeftDecides(e.operator, left.r.value) {
      EvalExprMore(cx, left.st, e.right, fuel, more);
    }
  }

  lemma {:induction false} EvalGetMore(cx: Context, st: State, e: Expr, fuel: nat, more: nat)
    requires e.Get? && StateOk(cx, st) && fuel <= more && Settled(EvalGet(cx, st, e, fuel))
    ensures EvalGet(cx, st, e, more) == EvalGet(cx, st, e, fuel)
    decreases fuel, 3, e, 1, 0
  {
    EvalExprMore(cx, st, e.obj, fuel, more);
  }

  lemma {:induction false} EvalSetMore(cx: Context, st: State, e: Expr, fuel: nat, more: nat)
    requires e.Set? && StateOk(cx, st) && fuel <= more && Settled(EvalSet(cx, st, e, fuel))
    ensures EvalSet(cx, st, e, more) == EvalSet(cx, st, e, fuel)
    decreases fuel, 3, e, 1, 0
  {
    var receiver := EvalExpr(cx, st, e.obj, fuel);
    EvalExprMore(cx, st, e.obj, fuel, more);
    if receiver.r.Ok? && receiver.r.value.LoxInstance? {
      EvalExprMore(cx, receiver.st, e.value, fuel, more);
    }
  }

  lemma {:induction false} EvalCallMore(cx: Context, st: State, e: Expr, fuel: nat, more: nat)
    requires e.Call? && StateOk(cx, st) && fuel <= more && Settled(EvalCall(cx, st, e, fuel))
    ensures EvalCall(cx, st, e, more) == EvalCall(cx, st, e, fuel)
    decreases fuel, 3, e, 1, 0
  {
    var callee := EvalExpr(cx, st, e.callee, fuel);
    EvalExprMore(cx, st, e.callee, fuel, more);
    if callee.r.Ok? {
      EvalArgumentsMore(cx, callee.st, e, 0, callee.r.value, [], fuel, more);
    }
  }

  lemma {:induction false} EvalArgumentsMore(cx: Context, st: State, e: Expr, i: nat, callee: Value, done: seq<Value>, fuel: nat, more: nat)
    requires e.Call? && i <= |e.arguments| && StateOk(cx, st)
    requires ValueOk(callee, |st.frames|, |st.instances|) && ValuesOk(done, |st.frames|, |st.instances|)
    requires fuel <= more && Settled(EvalArguments(cx, st, e, i, callee, done, fuel))
    ensures EvalArguments(cx, st, e, i, callee, done, more) == EvalArguments(cx, st, e, i, callee, done, fuel)
    decreases fuel, 3, e, 0, |e.arguments| - i
  {
    if i == |e.arguments| {
      ApplyMore(cx, st, callee, done, e.paren, fuel, more);
    } else {
      var a := EvalExpr(cx, st, e.arguments[i], fuel);
      EvalExprMore(cx, st, e.arguments[i], fuel, more);
      if a.r.Ok? {
        ValueOkGrows(callee, |st.frames|, |st.instances|, |a.st.frames|, |a.st.instances|);
        ValuesOkGrows(done, |st.frames|, |st.instances|, |a.st.frames|, |a.st.instances|);
        EvalArgumentsMore(cx, a.st, e, i + 1, callee, done + [a.r.value], fuel, more);
      }
    }
  }

  // ---------------------------------------------------------------------
  // Calls
  // ---------------------------------------------------------------------

  lemma {:induction false} ApplyMore(cx: Context, st: State, callee: Value, arguments: seq<Value>, paren: Token, fuel: nat, more: nat)
    requires StateOk(cx, st) && ValueOk(callee, |st.frames|, |st.instances|) && ValuesOk(arguments, |st.frames|, |st.instances|)
    requires fuel <= more && Settled(Apply(cx, st, callee, arguments, paren, fuel))
    ensures Apply(cx, st, callee, arguments, paren, more) == Apply(cx, st, callee, arguments, paren, fuel)
    decreases fuel, 2, 0, 0, 0
  {
    if Callable(callee) && |arguments| == CalleeArity(callee) {
      match callee
      case LoxFunction(f) => InvokeMore(cx, st, f, arguments, fuel, more);
      case LoxClass(c) => InstantiateMore(cx, st, c, arguments, fuel, more);
      case NativeClock =>
    }
  }

  lemma {:induction false} InvokeMore(cx: Context, st: State, f: FunctionObject, arguments: seq<Value>, fuel: nat, more: nat)
    requires StateOk(cx, st) && f.closure < |st.frames| && ValuesOk(arguments, |st.frames|, |st.instances|)
    requires fuel <= more && Settled(Invoke(cx, st, f, arguments, fuel))
    ensures Invoke(cx, st, f, arguments, more) == Invoke(cx, st, f, arguments, fuel)
    decreases fuel, 0, 0, 0, 0
  {
    var frame := Frame(ParameterBindings(f.declaration.params, arguments), Some(f.closure));
    ParameterBindingsOk(f.declaration.params, arguments, |st.frames| + 1, |st.instances|);
    PushFrameOk(st.frames, st.instances, frame);
    ExecBlockMore(cx, st.(frames := st.frames + [frame]), f.declaration.body, |st.frames|, fuel - 1, more - 1, Stmt.Block(f.declaration.body));
  }

  lemma {:induction false} InstantiateMore(cx: Context, st: State, klass: ClassObject, arguments: seq<Value>, fuel: nat, more: nat)
    requires StateOk(cx, st) && ClassOk(klass, |st.frames|) && ValuesOk(arguments, |st.frames|, |st.instances|)
    requires fuel <= more && Settled(Instantiate(cx, st, klass, arguments, fuel))
    ensures Instantiate(cx, st, klass, arguments, more) == Instantiate(cx, st, klass, arguments, fuel)
    decreases fuel, 1, 0, 0, 0
  {
    PushInstanceOk(st.frames, st.instances);
    var created := st.(instances := st.instances + [map[]]);
    var instance := LoxInstance(|st.instances|, klass);
    match FindMethod(klass, "init")
    case None =>
    case Some(init) =>
      var b := Bound(cx, created, init, instance);
      ValuesOkGrows(arguments, |st.frames|, |st.instances|, |b.0.frames|, |b.0.instances|);
      InvokeMore(cx, b.0, b.1, arguments, fuel, more);
  }

  // ---------------------------------------------------------------------
  // Statements
  // ---------------------------------------------------------------------

  lemma {:induction false} ExecMore(cx: Context, st: State, s: Stmt, fuel: nat, more: nat)
    requires StateOk(cx, st) && fuel <= more && Finished(Exec(cx, st, s, fuel))
    ensures Exec(cx, st, s, more) == Exec(cx, st, s, fuel)
    decreases fuel, 3, s, 3, 0
  {
    match s
    case Block(_) => ExecNestedMore(cx, st, s, fuel, more);
    case Class(_, _, _) =>
    case Expression(_) => ExecExpressionMore(cx, st, s, fuel, more);
    case Function(_) =>
    case If(_, _, _) => ExecIfMore(cx, st, s, fuel, more);
    case Print(_) => ExecPrintMore(cx, st, s, fuel, more);
    case Return(_, _) => ExecReturnMore(cx, st, s, fuel, more);
    case Var(_, _) => ExecVarMore(cx, st, s, fuel, more);
    case While(_, _) => LoopMore(cx, st, s, fuel, more, fuel, more);
  }

  lemma {:induction false} ExecNestedMore(cx: Context, st: State, s: Stmt, fuel: nat, more: nat)
    requires s.Block? && StateOk(cx, st) && fuel <= more && Finished(ExecNested(cx, st, s, fuel))
    ensures ExecNested(cx, st, s, more) == ExecNested(cx, st, s, fuel)
    decreases fuel, 3, s, 2, 0
  {
    PushFrameOk(st.frames, st.instances, Frame(map[], Some(st.environment)));
    ExecBlockMore(cx, st.(frames := st.frames + [Frame(map[], Some(st.environment))]), s.statements, |st.frames|, fuel, more, s);
  }

  lemma {:induction false} ExecBlockMore(cx: Context, st: State, statements: seq<Option<Stmt>>, env: nat, fuel: nat, more: nat, owner: Stmt)
    requires StateOk(cx, st) && env < |st.frames| && owner == Stmt.Block(statements)
    requires fuel <= more && Finished(ExecBlock(cx, st, statements, env, fuel, owner))
    ensures ExecBlock(cx, st, statements, env, more, owner) == ExecBlock(cx, st, statements, env, fuel, owner)
    decreases fuel, 3, owner, 1, 0
  {
    ExecSequenceMore(cx, st.(environment := env), statements, 0, fuel, more, owner);
  }

  lemma {:induction false} ExecSequenceMore(cx: Context, st: State, statements: seq<Option<Stmt>>, i: nat, fuel: nat, more: nat, owner: Stmt)
    requires StateOk(cx, st) && i <= |statements| && owner == Stmt.Block(statements)
    requires fuel <= more && Finished(ExecSequence(cx, st, statements, i, fuel, owner))
    ensures ExecSequence(cx, st, statements, i, more, owner) == ExecSequence(cx, st, statements, i, fuel, owner)
    decreases fuel, 3, owner, 0, |statements| - i
  {
    if i < |statements| {
      if statements[i].None? {
        ExecSequenceMore(cx, st, statements, i + 1, fuel, more, owner);
      } else {
        assert statements[i] in owner.statements;
        var done := Exec(cx, st, statements[i].value, fuel);
        ExecMore(cx, st, statements[i].value, fuel, more);
        if done.c.Normal? {
          ExecSequenceMore(cx, done.st, statements, i + 1, fuel, more, owner);
        }
      }
    }
  }

  lemma {:induction false} ExecExpressionMore(cx: Context, st: State, s: Stmt, fuel: nat, more: nat)
    requires s.Expression? && StateOk(cx, st) && fuel <= more && Finished(ExecExpression(cx, st, s, fuel))
    ensures ExecExpression(cx, st, s, more) == ExecExpression(cx, st, s, fuel)
    decreases fuel, 3, s, 2, 0
  {
    EvalExprMore(cx, st, s.expression, fuel, more);
  }

  lemma {:induction false} ExecPrintMore(cx: Context, st: State, s: Stmt, fuel: nat, more: nat)
    requires s.Print? && StateOk(cx, st) && fuel <= more && Finished(ExecPrint(cx, st, s, fuel))
    ensures ExecPrint(cx, st, s, more) == ExecPrint(cx, st, s, fuel)
    decreases fuel, 3, s, 2, 0
  {
    EvalExprMore(cx, st, s.expression, fuel, more);
  }

  lemma {:induction false} ExecVarMore(cx: Context, st: State, s: Stmt, fuel: nat, more: nat)
    requires s.Var? && StateOk(cx, st) && fuel <= more && Finished(ExecVar(cx, st, s, fuel))
    ensures ExecVar(cx, st, s, more) == ExecVar(cx, st, s, fuel)
    decreases fuel, 3, s, 2, 0
  {
    if s.initializer.Some? {
      EvalExprMore(cx, st, s.initializer.value, fuel, more);
    }
  }

  lemma {:induction false} ExecIfMore(cx: Context, st: State, s: Stmt, fuel: nat, more: nat)
    requires s.If? && StateOk(cx, st) && fuel <= more && Finished(ExecIf(cx, st, s, fuel))
    ensures ExecIf(cx, st, s, more) == ExecIf(cx, st, s, fuel)
    decreases fuel, 3, s, 2, 0
  {
    var condition := EvalExpr(cx, st, s.condition, fuel);
    EvalExprMore(cx, st, s.condition, fuel, more);
    if condition.r.Ok? {
      if IsTruthy(condition.r.value) {
        ExecMore(cx, condition.st, s.thenBranch, fuel, more);
      } else if s.elseBranch.Some? {
        ExecMore(cx, condition.st, s.elseBranch.value, fuel, more);
      }
    }
  }

  lemma {:induction false} ExecReturnMore(cx: Context, st: State, s: Stmt, fuel: nat, more: nat)
    requires s.Return? && StateOk(cx, st) && fuel <= more && Finished(ExecReturn(cx, st, s, fuel))
    ensures ExecReturn(cx, st, s, more) == ExecReturn(cx, st, s, fuel)
    decreases fuel, 3, s, 2, 0
  {
    if s.value.Some? {
      EvalExprMore(cx, st, s.value.value, fuel, more);
    }
  }

  /** A loop that finished within its iteration budget finishes the same
      way with a larger budget and more fuel. */
  lemma {:induction false} LoopMore(cx: Context, st: State, s: Stmt, fuel: nat, more: nat, budget: nat, budgetMore: nat)
    requires s.While? && StateOk(cx, st) && fuel <= more && budget <= budgetMore
    requires Finished(Loop(cx, st, s, fuel, budget))
    ensures Loop(cx, st, s, more, budgetMore) == Loop(cx, st, s, fuel, budget)
    decreases fuel, 3, s, 1, budget
  {
    var condition := EvalExpr(cx, st, s.condition, fuel);
    EvalExprMore(cx, st, s.condition, fuel, more);
    if condition.r.Ok? && IsTruthy(condition.r.value) {
      var body := Exec(cx, condition.st, s.body, fuel);
      ExecMore(cx, condition.st, s.body, fuel, more);
      if body.c.Normal? {
        LoopMore(cx, body.st, s, fuel, more, budget - 1, budgetMore - 1);
      }
    }
  }

  // ---------------------------------------------------------------------
  // The top level
  // ---------------------------------------------------------------------

  /** A program that ran to its end, or stopped on a runtime error or any
      other abrupt completion than running out of fuel, prints the same
      lines and ends in the same state with more fuel. */
  lemma {:induction false} RunMore(cx: Context, st: State, statements: seq<Option<Stmt>>, i: nat, fuel: nat, more: nat)
    requires StateOk(cx, st) && i <= |statements| && fuel <= more && Finished(Run(cx, st, statements, i, fuel))
    ensures Run(cx, st, statements, i, more) == Run(cx, st, statements, i, fuel)
    decreases |statements| - i
  {
    if i < |statements| {
      if statements[i].None? {
        RunMore(cx, st, statements, i + 1, fuel, more);
      } else {
        var done := Exec(cx, st, statements[i].value, fuel);
        ExecMore(cx, st, statements[i].value, fuel, more);
        if done.c.Normal? {
          RunMore(cx, done.st, statements, i + 1, fuel, more);
        }
      }
    }
  }
}
