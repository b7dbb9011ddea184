/** A reference semantics of the Interpreter: the same visitors written as
    functions of an explicit state, which the Interpreter's methods are
    proved to follow step for step.

    The state is what the Interpreter changes while a program runs (every
    frame and instance, the counter that names new function and class
    objects, the current environment and what has been written out); the
    context is what stays fixed (the global frame, the Resolver's side
    table, and what the host supplies).  Exceptions of the source become
    results: an expression yields an `Eval` and a statement a
    `Completion`.

    Fuel: a call of a Lox function runs its body with one unit less than
    the call was given, and a `while` loop runs its body at most `fuel`
    times.  The same fuel is handed to every subexpression and every
    statement of a block, so it bounds the nesting depth of calls and
    the iterations of each single loop, not the length of the whole run. */
module Semantics {
  import opened Wrappers
  import opened Tokens
  import opened Ast
  import opened Values
  import opened Environment
  import opened Functions
  import opened Classes
  import opened Operators

  const NotCallable := "Can only call functions and classes."
  const NoProperties := "Only instances have properties."
  const NoFields := "Only instances have fields."
  const SuperclassNotClass := "Superclass must be a class."

  /** What a run changes: every frame and instance created so far, the
      identity the next function or class object gets, the current
      environment, and the lines `console.log` has written. */
  datatype State = State(frames: seq<Frame>, instances: seq<map<string, Value>>, serial: nat, environment: nat, output: seq<string>)

  /** What stays fixed during a run: the global frame, the Resolver's side
      table (node id to distance), the host's formatted wall time that
      `clock` returns, and JavaScript's rendering of a number as text. */
  datatype Context = Context(globals: nat, locals: map<nat, nat>, clockReading: string, numberText: real -> string)

  /** A well-formed heap, with the global frame and the current
      environment among its frames. */
  ghost predicate StateOk(cx: Context, st: State)
  {
    HeapOk(st.frames, st.instances) && cx.globals < |st.frames| && st.environment < |st.frames|
  }

  /** `after` is well formed, is in the environment `before` was in, and
      has only grown: no fewer frames and instances, no serial given out
      twice, and the output extended. */
  ghost predicate Advances(cx: Context, before: State, after: State)
  {
    && StateOk(cx, after)
    && after.environment == before.environment
    && |before.frames| <= |after.frames|
    && |before.instances| <= |after.instances|
    && before.serial <= after.serial
    && before.output <= after.output
  }

  /** The state after evaluating an expression, and its result. */
  datatype Evaluated = Evaluated(st: State, r: Eval)

  /** The state after executing a statement, and how it completed. */
  datatype Executed = Executed(st: State, c: Completion)

  ghost predicate EvaluatedOk(cx: Context, st: State, o: Evaluated)
  {
    Advances(cx, st, o.st) && EvalOk(o.r, |o.st.frames|, |o.st.instances|)
  }

  ghost predicate ExecutedOk(cx: Context, st: State, x: Executed)
  {
    Advances(cx, st, x.st) && CompletionOk(x.c, |x.st.frames|, |x.st.instances|)
  }

  // ---------------------------------------------------------------------
  // Callables and the messages of the Interpreter
  // ---------------------------------------------------------------------

  /** The values the source's `LoxCallable` covers. */
  predicate Callable(v: Value)
  {
    v.LoxFunction? || v.LoxClass? || v.NativeClock?
  }

  /** `arity()` of a callable value. */
  function CalleeArity(v: Value): nat
    requires Callable(v)
  {
    match v
    case LoxFunction(f) => Arity(f)
    case LoxClass(c) => ClassArity(c)
    case NativeClock => 0
  }

  /** The error of calling with the wrong number of arguments. */
  function ArityMismatch(paren: Token, arity: nat, count: nat): Failure
  {
    RuntimeError(paren, "Expect " + NatToString(arity) + " arguments, but got " + NatToString(count) + ".")
  }

  /** The error of `super.name` when the method cannot be found (the name is
      not quoted, unlike an instance's missing property). */
  function UndefinedSuperProperty(methodName: Token): Failure
  {
    RuntimeError(methodName, "Undefined property " + methodName.lexeme + ".")
  }

  /** The line a runtime error is reported as. */
  function RuntimeErrorReport(token: Token, message: string): string
  {
    "[line " + IntToString(token.line) + "]: " + message
  }

  // ---------------------------------------------------------------------
  // Reading and writing the heap
  // ---------------------------------------------------------------------

  /** `lookUpVariable`: with a recorded distance, the binding in the frame
      that many links up from the current environment (`undefined` when
      that frame lacks the name); without one, the innermost binding on
      the global chain. */
  function LookUp(cx: Context, st: State, id: nat, name: Token): (r: Eval)
    requires StateOk(cx, st)
    ensures id in cx.locals ==> (r.Fail? <==> Ancestor(st.frames, st.environment, cx.locals[id]).None?)
    ensures id in cx.locals && Ancestor(st.frames, st.environment, cx.locals[id]).Some? ==>
      var k := Ancestor(st.frames, st.environment, cx.locals[id]).value;
      r == Ok(if name.lexeme in st.frames[k].values then st.frames[k].values[name.lexeme] else LoxUndefined)
    ensures id !in cx.locals ==> (r.Fail? <==> Hops(st.frames, cx.globals, name.lexeme).None?)
    ensures id !in cx.locals && r.Fail? ==> r == Fail(UndefinedVariable(name))
    ensures EvalOk(r, |st.frames|, |st.instances|)
  {
    if id in cx.locals then
      LookupAtOk(st.frames, st.instances, st.environment, cx.locals[id], name.lexeme);
      LookupAt(st.frames, st.environment, cx.locals[id], name.lexeme)
    else
      LookupOk(st.frames, st.instances, cx.globals, name);
      Lookup(st.frames, cx.globals, name)
  }

  /** `define` in the current environment. */
  function Defined(cx: Context, st: State, name: string, v: Value): (st': State)
    requires StateOk(cx, st) && ValueOk(v, |st.frames|, |st.instances|)
    ensures Advances(cx, st, st') && |st'.frames| == |st.frames| && st'.instances == st.instances
  {
    RebindOk(st.frames, st.instances, st.environment, name, v);
    st.(frames := Rebind(st.frames, st.environment, name, v))
  }

  /** The store of `visitAssignExpr`: with a recorded distance, into the
      frame that many links up (`assignAt`, a host error when the chain is
      shorter); without one, into the innermost frame of the global chain
      that binds the name (`globals.assign`, an error when none does). */
  function Store(cx: Context, st: State, id: nat, name: Token, v: Value): (o: Evaluated)
    requires StateOk(cx, st) && ValueOk(v, |st.frames|, |st.instances|)
    ensures EvaluatedOk(cx, st, o) && |o.st.frames| == |st.frames|
    ensures o.r.Ok? ==> o.r == Ok(v)
    ensures o.r.Fail? ==> o.st == st
  {
    if id in cx.locals then
      match Ancestor(st.frames, st.environment, cx.locals[id])
      case None => Evaluated(st, Fail(MissingEnvironment))
      case Some(k) =>
        RebindOk(st.frames, st.instances, k, name.lexeme, v);
        Evaluated(st.(frames := Rebind(st.frames, k, name.lexeme, v)), Ok(v))
    else
      match Hops(st.frames, cx.globals, name.lexeme)
      case None => Evaluated(st, Fail(UndefinedVariable(name)))
      case Some(d) =>
        var k := Ancestor(st.frames, cx.globals, d).value;
        RebindOk(st.frames, st.instances, k, name.lexeme, v);
        Evaluated(st.(frames := Rebind(st.frames, k, name.lexeme, v)), Ok(v))
  }

  /** `bind`: a new frame binding only `this` to `instance`, nested in the
      closure of `f`, and a new function object closing over it. */
  function Bound(cx: Context, st: State, f: FunctionObject, instance: Value): (b: (State, FunctionObject))
    requires StateOk(cx, st) && f.closure < |st.frames| && ValueOk(instance, |st.frames|, |st.instances|)
    ensures Advances(cx, st, b.0) && b.0.instances == st.instances && b.1.closure < |b.0.frames|
  {
    PushFrameOk(st.frames, st.instances, Frame(map["this" := instance], Some(f.closure)));
    (st.(frames := st.frames + [Frame(map["this" := instance], Some(f.closure))], serial := st.serial + 1),
     FunctionObject(st.serial, f.declaration, |st.frames|, f.isInitializer))
  }

  /** `LoxInstance.get`: the field of that name, or else the class's method
      of that name bound to the instance, or else an error. */
  function ReadProperty(cx: Context, st: State, instance: Value, name: Token): (o: Evaluated)
    requires instance.LoxInstance? && StateOk(cx, st) && ValueOk(instance, |st.frames|, |st.instances|)
    ensures EvaluatedOk(cx, st, o)
  {
    match FindProperty(st.instances[instance.ref], instance.klass, name.lexeme)
    case Field(v) =>
      assert BindingsOk(st.instances[instance.ref], |st.frames|, |st.instances|);
      Evaluated(st, Ok(v))
    case Method(m) =>
      var b := Bound(cx, st, m, instance);
      Evaluated(b.0, Ok(LoxFunction(b.1)))
    case Missing => Evaluated(st, Fail(UndefinedProperty(name)))
  }

  /** What `super.name` resolves to before binding: the failure that stops
      it, or the superclass's method and the instance to bind it to. */
  datatype SuperTarget = SuperFails(failure: Failure) | SuperBinds(found: FunctionObject, receiver: Value)

  /** The lookups of `visitSuperExpr`: the superclass in the frame at the
      recorded distance, the instance one frame nearer, and the
      superclass's own method of that name.  Reading a method of
      something that is not a class is an error of the host. */
  function FindSuper(cx: Context, st: State, id: nat, methodName: Token): (t: SuperTarget)
    requires StateOk(cx, st)
    ensures id !in cx.locals ==> t == SuperFails(UndefinedSuperProperty(methodName))
    ensures t.SuperBinds? ==>
      && id in cx.locals
      && LookupAt(st.frames, st.environment, cx.locals[id], "super").Ok?
      && LookupAt(st.frames, st.environment, cx.locals[id], "super").value.LoxClass?
      && FindMethod(LookupAt(st.frames, st.environment, cx.locals[id], "super").value.c, methodName.lexeme) == Some(t.found)
      && LookupAt(st.frames, st.environment, cx.locals[id] as int - 1, "this") == Ok(t.receiver)
    ensures t.SuperBinds? ==> t.found.closure < |st.frames| && ValueOk(t.receiver, |st.frames|, |st.instances|)
  {
    if id !in cx.locals then SuperFails(UndefinedSuperProperty(methodName))
    else
      var distance := cx.locals[id];
      var superclass := LookupAt(st.frames, st.environment, distance, "super");
      var receiver := LookupAt(st.frames, st.environment, distance as int - 1, "this");
      LookupAtOk(st.frames, st.instances, st.environment, distance, "super");
      LookupAtOk(st.frames, st.instances, st.environment, distance as int - 1, "this");
      if superclass.Fail? then SuperFails(superclass.failure)
      else if receiver.Fail? then SuperFails(receiver.failure)
      else if !superclass.value.LoxClass? then SuperFails(HostError("findMethod of a value that is not a class"))
      else match FindMethod(superclass.value.c, methodName.lexeme)
        case None => SuperFails(UndefinedSuperProperty(methodName))
        case Some(m) => SuperBinds(m, receiver.value)
  }

  // ---------------------------------------------------------------------
  // Expressions
  // ---------------------------------------------------------------------

  /** `evaluate`: evaluation keeps the heap well formed, ends in the
      environment it started in, only grows the heap and the output, and
      yields a value that refers into the heap. */
  function EvalExpr(cx: Context, st: State, e: Expr, fuel: nat): (o: Evaluated)
    requires StateOk(cx, st)
    ensures EvaluatedOk(cx, st, o)
    decreases fuel, 3, e, 2, 0
  {
    match e
    case Assign(_, _, _) => EvalAssign(cx, st, e, fuel)
    case Binary(_, _, _) => EvalBinary(cx, st, e, fuel)
    case Call(_, _, _) => EvalCall(cx, st, e, fuel)
    case Get(_, _) => EvalGet(cx, st, e, fuel)
    case Grouping(inner) => EvalExpr(cx, st, inner, fuel)
    case Literal(literal) => Evaluated(st, Ok(LiteralToValue(literal)))
    case Logical(_, _, _) => EvalLogical(cx, st, e, fuel)
    case Set(_, _, _) => EvalSet(cx, st, e, fuel)
    case Super(_, _, _) => EvalSuper(cx, st, e)
    case This(id, keyword) => Evaluated(st, LookUp(cx, st, id, keyword))
    case Unary(_, _) => EvalUnary(cx, st, e, fuel)
    case Variable(id, name) => Evaluated(st, LookUp(cx, st, id, name))
  }

  /** `visitAssignExpr`: the value, then the store, yielding the value. */
  function EvalAssign(cx: Context, st: State, e: Expr, fuel: nat): (o: Evaluated)
    requires e.Assign? && StateOk(cx, st)
    ensures EvaluatedOk(cx, st, o)
    decreases fuel, 3, e, 1, 0
  {
    var value := EvalExpr(cx, st, e.value, fuel);
    if value.r.Fail? then value
    else Store(cx, value.st, e.id, e.name, value.r.value)
  }

  /** `visitBinaryExpr`: the left operand, then the right, then the
      operator. */
  function EvalBinary(cx: Context, st: State, e: Expr, fuel: nat): (o: Evaluated)
    requires e.Binary? && StateOk(cx, st)
    ensures EvaluatedOk(cx, st, o)
    decreases fuel, 3, e, 1, 0
  {
    var left := EvalExpr(cx, st, e.left, fuel);
    if left.r.Fail? then left
    else
      var right := EvalExpr(cx, left.st, e.right, fuel);
      if right.r.Fail? then right
      else Evaluated(right.st, BinaryOp(e.operator, left.r.value, right.r.value))
  }

  /** `visitUnaryExpr`: the operand, then the operator. */
  function EvalUnary(cx: Context, st: State, e: Expr, fuel: nat): (o: Evaluated)
    requires e.Unary? && StateOk(cx, st)
    ensures EvaluatedOk(cx, st, o)
    decreases fuel, 3, e, 1, 0
  {
    var operand := EvalExpr(cx, st, e.right, fuel);
    if operand.r.Fail? then operand
    else Evaluated(operand.st, UnaryOp(e.operator, operand.r.value))
  }

  /** `visitLogicalExpr`: the left operand, and the right one only when the
      left does not decide the result. */
  function EvalLogical(cx: Context, st: State, e: Expr, fuel: nat): (o: Evaluated)
    requires e.Logical? && StateOk(cx, st)
    ensures EvaluatedOk(cx, st, o)
    decreases fuel, 3, e, 1, 0
  {
    var left := EvalExpr(cx, st, e.left, fuel);
    if left.r.Fail? || LeftDecides(e.operator, left.r.value) then left
    else EvalExpr(cx, left.st, e.right, fuel)
  }

  /** `visitGetExpr`: the receiver, which must be an instance, then the
      property. */
  function EvalGet(cx: Context, st: State, e: Expr, fuel: nat): (o: Evaluated)
    requires e.Get? && StateOk(cx, st)
    ensures EvaluatedOk(cx, st, o)
    decreases fuel, 3, e, 1, 0
  {
    var receiver := EvalExpr(cx, st, e.obj, fuel);
    if receiver.r.Fail? then receiver
    else if !receiver.r.value.LoxInstance? then Evaluated(receiver.st, Fail(RuntimeError(e.name, NoProperties)))
    else ReadProperty(cx, receiver.st, receiver.r.value, e.name)
  }

  /** `visitSetExpr`: the receiver, which must be an instance, then the
      value, which is stored in the field and yielded. */
  function EvalSet(cx: Context, st: State, e: Expr, fuel: nat): (o: Evaluated)
    requires e.Set? && StateOk(cx, st)
    ensures EvaluatedOk(cx, st, o)
    decreases fuel, 3, e, 1, 0
  {
    var receiver := EvalExpr(cx, st, e.obj, fuel);
    if receiver.r.Fail? then receiver
    else if !receiver.r.value.LoxInstance? then Evaluated(receiver.st, Fail(RuntimeError(e.name, NoFields)))
    else
      var value := EvalExpr(cx, receiver.st, e.value, fuel);
      if value.r.Fail? then value
      else
        var ref := receiver.r.value.ref;
        var fields := value.st.instances[ref][e.name.lexeme := value.r.value];
        Evaluated(value.st.(instances := value.st.instances[ref := fields]), value.r)
  }

  /** `visitSuperExpr`: the superclass's method bound to the current
      instance. */
  function EvalSuper(cx: Context, st: State, e: Expr): (o: Evaluated)
    requires e.Super? && StateOk(cx, st)
    ensures EvaluatedOk(cx, st, o)
  {
    match FindSuper(cx, st, e.id, e.methodName)
    case SuperFails(failure) => Evaluated(st, Fail(failure))
    case SuperBinds(m, receiver) =>
      var b := Bound(cx, st, m, receiver);
      Evaluated(b.0, Ok(LoxFunction(b.1)))
  }

  /** `visitCallExpr`: the callee, then the arguments. */
  function EvalCall(cx: Context, st: State, e: Expr, fuel: nat): (o: Evaluated)
    requires e.Call? && StateOk(cx, st)
    ensures EvaluatedOk(cx, st, o)
    decreases fuel, 3, e, 1, 0
  {
    var callee := EvalExpr(cx, st, e.callee, fuel);
    if callee.r.Fail? then callee
    else EvalArguments(cx, callee.st, e, 0, callee.r.value, [], fuel)
  }

  /** The arguments of the call `e` from the `i`-th on, left to right,
      after the values `done` of the earlier ones; then the call. */
  function EvalArguments(cx: Context, st: State, e: Expr, i: nat, callee: Value, done: seq<Value>, fuel: nat): (o: Evaluated)
    requires e.Call? && i <= |e.arguments| && StateOk(cx, st)
    requires ValueOk(callee, |st.frames|, |st.instances|) && ValuesOk(done, |st.frames|, |st.instances|)
    ensures EvaluatedOk(cx, st, o)
    decreases fuel, 3, e, 0, |e.arguments| - i
  {
    if i == |e.arguments| then Apply(cx, st, callee, done, e.paren, fuel)
    else
      var a := EvalExpr(cx, st, e.arguments[i], fuel);
      if a.r.Fail? then a
      else
        ValueOkGrows(callee, |st.frames|, |st.instances|, |a.st.frames|, |a.st.instances|);
        ValuesOkGrows(done, |st.frames|, |st.instances|, |a.st.frames|, |a.st.instances|);
        EvalArguments(cx, a.st, e, i + 1, callee, done + [a.r.value], fuel)
  }

  // ---------------------------------------------------------------------
  // Calls
  // ---------------------------------------------------------------------

  /** The checks of `visitCallExpr` and `call` of the callee: a value that
      is not callable, or a wrong number of arguments, is an error;
      otherwise the function, class or native `clock` is called. */
  function Apply(cx: Context, st: State, callee: Value, arguments: seq<Value>, paren: Token, fuel: nat): (o: Evaluated)
    requires StateOk(cx, st) && ValueOk(callee, |st.frames|, |st.instances|) && ValuesOk(arguments, |st.frames|, |st.instances|)
    ensures EvaluatedOk(cx, st, o)
    decreases fuel, 2, 0, 0, 0
  {
    if !Callable(callee) then Evaluated(st, Fail(RuntimeError(paren, NotCallable)))
    else if |arguments| != CalleeArity(callee) then Evaluated(st, Fail(ArityMismatch(paren, CalleeArity(callee), |arguments|)))
    else match callee
      case LoxFunction(f) => Invoke(cx, st, f, arguments, fuel)
      case LoxClass(c) => Instantiate(cx, st, c, arguments, fuel)
      case NativeClock => Evaluated(st, Ok(LoxString(cx.clockReading)))
  }

  /** The checks come first: calling a value that is not a function, a
      class or `clock` fails with "Can only call functions and classes.",
      and a wrong number of arguments with "Expect N arguments, but got
      M.", the state unchanged either way; `clock` yields the host's
      reading, and a class a new instance of itself. */
  lemma ApplyChecks(cx: Context, st: State, callee: Value, arguments: seq<Value>, paren: Token, fuel: nat)
    requires StateOk(cx, st) && ValueOk(callee, |st.frames|, |st.instances|) && ValuesOk(arguments, |st.frames|, |st.instances|)
    ensures !Callable(callee) ==> Apply(cx, st, callee, arguments, paren, fuel) == Evaluated(st, Fail(RuntimeError(paren, NotCallable)))
    ensures Callable(callee) && |arguments| != CalleeArity(callee) ==>
      Apply(cx, st, callee, arguments, paren, fuel) ==
      Evaluated(st, Fail(RuntimeError(paren, "Expect " + NatToString(CalleeArity(callee)) + " arguments, but got " + NatToString(|arguments|) + ".")))
    ensures callee.NativeClock? && arguments == [] ==> Apply(cx, st, callee, arguments, paren, fuel) == Evaluated(st, Ok(LoxString(cx.clockReading)))
    ensures callee.LoxClass? && Apply(cx, st, callee, arguments, paren, fuel).r.Ok? ==>
      Apply(cx, st, callee, arguments, paren, fuel).r == Ok(LoxInstance(|st.instances|, callee.c))
  {
  }

  /** `LoxFunction.call`: the body runs as a block in a fresh frame nested
      in the closure that binds the parameters, with one unit of fuel
      less; how the body completes decides the result. */
  function Invoke(cx: Context, st: State, f: FunctionObject, arguments: seq<Value>, fuel: nat): (o: Evaluated)
    requires StateOk(cx, st) && f.closure < |st.frames| && ValuesOk(arguments, |st.frames|, |st.instances|)
    ensures EvaluatedOk(cx, st, o)
    decreases fuel, 0, 0, 0, 0
  {
    if fuel == 0 then Evaluated(st, Fail(OutOfFuel))
    else
      var frame := Frame(ParameterBindings(f.declaration.params, arguments), Some(f.closure));
      ParameterBindingsOk(f.declaration.params, arguments, |st.frames| + 1, |st.instances|);
      PushFrameOk(st.frames, st.instances, frame);
      var body := ExecBlock(cx, st.(frames := st.frames + [frame]), f.declaration.body, |st.frames|, fuel - 1, Stmt.Block(f.declaration.body));
      LookupAtOk(body.st.frames, body.st.instances, f.closure, 0, "this");
      Evaluated(body.st, CallOutcome(body.c, f.isInitializer, LookupAt(body.st.frames, f.closure, 0, "this")))
  }

  /** `LoxClass.call`: a new instance with no fields; when the class has an
      `init` method, it is bound to the instance and called with the
      arguments, its result ignored but its failure passed on; the result
      is the instance. */
  function Instantiate(cx: Context, st: State, klass: ClassObject, arguments: seq<Value>, fuel: nat): (o: Evaluated)
    requires StateOk(cx, st) && ClassOk(klass, |st.frames|) && ValuesOk(arguments, |st.frames|, |st.instances|)
    ensures EvaluatedOk(cx, st, o) && |st.instances| < |o.st.instances|
    ensures o.r.Ok? ==> o.r == Ok(LoxInstance(|st.instances|, klass))
    decreases fuel, 1, 0, 0, 0
  {
    PushInstanceOk(st.frames, st.instances);
    var created := st.(instances := st.instances + [map[]]);
    var instance := LoxInstance(|st.instances|, klass);
    match FindMethod(klass, "init")
    case None => Evaluated(created, Ok(instance))
    case Some(init) =>
      var b := Bound(cx, created, init, instance);
      ValuesOkGrows(arguments, |st.frames|, |st.instances|, |b.0.frames|, |b.0.instances|);
      var result := Invoke(cx, b.0, b.1, arguments, fuel);
      Evaluated(result.st, if result.r.Fail? then result.r else Ok(instance))
  }

  // ---------------------------------------------------------------------
  // Statements
  // ---------------------------------------------------------------------

  /** `execute`: execution keeps the heap well formed, ends in the
      environment it started in, only grows the heap and the output, and
      a `return` carries a value that refers into the heap. */
  function Exec(cx: Context, st: State, s: Stmt, fuel: nat): (x: Executed)
    requires StateOk(cx, st)
    ensures ExecutedOk(cx, st, x)
    decreases fuel, 3, s, 3, 0
  {
    match s
    case Block(_) => ExecNested(cx, st, s, fuel)
    case Class(_, _, _) => ExecClass(cx, st, s)
    case Expression(_) => ExecExpression(cx, st, s, fuel)
    case Function(_) => ExecFunction(cx, st, s)
    case If(_, _, _) => ExecIf(cx, st, s, fuel)
    case Print(_) => ExecPrint(cx, st, s, fuel)
    case Return(_, _) => ExecReturn(cx, st, s, fuel)
    case Var(_, _) => ExecVar(cx, st, s, fuel)
    case While(_, _) => Loop(cx, st, s, fuel, fuel)
  }

  /** `visitBlockStmt`: the statements in a fresh frame nested in the
      current one. */
  function ExecNested(cx: Context, st: State, s: Stmt, fuel: nat): (x: Executed)
    requires s.Block? && StateOk(cx, st)
    ensures ExecutedOk(cx, st, x)
    decreases fuel, 3, s, 2, 0
  {
    PushFrameOk(st.frames, st.instances, Frame(map[], Some(st.environment)));
    ExecBlock(cx, st.(frames := st.frames + [Frame(map[], Some(st.environment))]), s.statements, |st.frames|, fuel, s)
  }

  /** `executeBlock`: the statements in order in environment `env`; the
      environment in force before is restored however the block ends. */
  function ExecBlock(cx: Context, st: State, statements: seq<Option<Stmt>>, env: nat, fuel: nat, ghost owner: Stmt): (x: Executed)
    requires StateOk(cx, st) && env < |st.frames| && owner == Stmt.Block(statements)
    ensures ExecutedOk(cx, st, x)
    decreases fuel, 3, owner, 1, 0
  {
    var inner := ExecSequence(cx, st.(environment := env), statements, 0, fuel, owner);
    Executed(inner.st.(environment := st.environment), inner.c)
  }

  /** The block's statements from the `i`-th on, skipping entries that
      failed to parse, until one completes abruptly. */
  function ExecSequence(cx: Context, st: State, statements: seq<Option<Stmt>>, i: nat, fuel: nat, ghost owner: Stmt): (x: Executed)
    requires StateOk(cx, st) && i <= |statements| && owner == Stmt.Block(statements)
    ensures ExecutedOk(cx, st, x)
    decreases fuel, 3, owner, 0, |statements| - i
  {
    if i == |statements| then Executed(st, Normal)
    else if statements[i].None? then ExecSequence(cx, st, statements, i + 1, fuel, owner)
    else
      assert statements[i] in owner.statements;
      var done := Exec(cx, st, statements[i].value, fuel);
      if done.c.Normal? then ExecSequence(cx, done.st, statements, i + 1, fuel, owner) else done
  }

  /** `visitExpressionStmt`: the expression, its value discarded. */
  function ExecExpression(cx: Context, st: State, s: Stmt, fuel: nat): (x: Executed)
    requires s.Expression? && StateOk(cx, st)
    ensures ExecutedOk(cx, st, x)
    decreases fuel, 3, s, 2, 0
  {
    var value := EvalExpr(cx, st, s.expression, fuel);
    Executed(value.st, if value.r.Fail? then Raised(value.r.failure) else Normal)
  }

  /** `visitPrintStmt`: the expression, then its text written as one more
      line of output. */
  function ExecPrint(cx: Context, st: State, s: Stmt, fuel: nat): (x: Executed)
    requires s.Print? && StateOk(cx, st)
    ensures ExecutedOk(cx, st, x)
    decreases fuel, 3, s, 2, 0
  {
    var value := EvalExpr(cx, st, s.expression, fuel);
    if value.r.Fail? then Executed(value.st, Raised(value.r.failure))
    else Executed(value.st.(output := value.st.output + [Stringify(value.r.value, cx.numberText)]), Normal)
  }

  /** `visitVarStmt`: the name defined in the current frame, to the
      initializer's value or `undefined` when there is none. */
  function ExecVar(cx: Context, st: State, s: Stmt, fuel: nat): (x: Executed)
    requires s.Var? && StateOk(cx, st)
    ensures ExecutedOk(cx, st, x)
    decreases fuel, 3, s, 2, 0
  {
    if s.initializer.None? then Executed(Defined(cx, st, s.name.lexeme, LoxUndefined), Normal)
    else
      var value := EvalExpr(cx, st, s.initializer.value, fuel);
      if value.r.Fail? then Executed(value.st, Raised(value.r.failure))
      else Executed(Defined(cx, value.st, s.name.lexeme, value.r.value), Normal)
  }

  /** `visitFunctionStmt`: the name defined in the current frame to a new
      function closing over it, which is not an initializer. */
  function ExecFunction(cx: Context, st: State, s: Stmt): (x: Executed)
    requires s.Function? && StateOk(cx, st)
    ensures ExecutedOk(cx, st, x)
  {
    var f := FunctionObject(st.serial, s.decl, st.environment, false);
    Executed(Defined(cx, st.(serial := st.serial + 1), s.decl.name.lexeme, LoxFunction(f)), Normal)
  }

  /** `visitIfStmt`: the condition, then the branch its truthiness picks. */
  function ExecIf(cx: Context, st: State, s: Stmt, fuel: nat): (x: Executed)
    requires s.If? && StateOk(cx, st)
    ensures ExecutedOk(cx, st, x)
    decreases fuel, 3, s, 2, 0
  {
    var condition := EvalExpr(cx, st, s.condition, fuel);
    if condition.r.Fail? then Executed(condition.st, Raised(condition.r.failure))
    else if IsTruthy(condition.r.value) then Exec(cx, condition.st, s.thenBranch, fuel)
    else if s.elseBranch.Some? then Exec(cx, condition.st, s.elseBranch.value, fuel)
    else Executed(condition.st, Normal)
  }

  /** `visitReturnStmt`: the value (`undefined` when there is none),
      unwinding to the enclosing call. */
  function ExecReturn(cx: Context, st: State, s: Stmt, fuel: nat): (x: Executed)
    requires s.Return? && StateOk(cx, st)
    ensures ExecutedOk(cx, st, x)
    decreases fuel, 3, s, 2, 0
  {
    if s.value.None? then Executed(st, Returned(LoxUndefined))
    else
      var value := EvalExpr(cx, st, s.value.value, fuel);
      Executed(value.st, if value.r.Fail? then Raised(value.r.failure) else Returned(value.r.value))
  }

  /** `visitWhileStmt` with `budget` iterations left: the condition, and
      while it is truthy the body, until the body completes abruptly; past
      the budget the loop fails with `OutOfFuel`. */
  function Loop(cx: Context, st: State, s: Stmt, fuel: nat, budget: nat): (x: Executed)
    requires s.While? && StateOk(cx, st)
    ensures ExecutedOk(cx, st, x)
    decreases fuel, 3, s, 1, budget
  {
    var condition := EvalExpr(cx, st, s.condition, fuel);
    if condition.r.Fail? then Executed(condition.st, Raised(condition.r.failure))
    else if !IsTruthy(condition.r.value) then Executed(condition.st, Normal)
    else if budget == 0 then Executed(condition.st, Raised(OutOfFuel))
    else
      var body := Exec(cx, condition.st, s.body, fuel);
      if !body.c.Normal? then body else Loop(cx, body.st, s, fuel, budget - 1)
  }

  /** `visitClassStmt`: the superclass, when there is one, must be a
      class; then the class is defined (see `ClassDefined`). */
  function ExecClass(cx: Context, st: State, s: Stmt): (x: Executed)
    requires s.Class? && StateOk(cx, st)
    ensures ExecutedOk(cx, st, x)
  {
    if s.superclass.None? then Executed(ClassDefined(cx, st, s, None), Normal)
    else
      var found := LookUp(cx, st, s.superclass.value.id, s.superclass.value.name);
      if found.Fail? then Executed(st, Raised(found.failure))
      else if !found.value.LoxClass? then Executed(st, Raised(RuntimeError(s.superclass.value.name, SuperclassNotClass)))
      else Executed(ClassDefined(cx, st, s, Some(found.value.c)), Normal)
  }

  /** The definitions of `visitClassStmt`: the name is defined to
      `undefined`; the methods close over the current environment, or over
      a new frame binding `super` when there is a superclass; the name is
      then assigned the new class, which `assign` finds in the current
      frame where it was just defined. */
  function ClassDefined(cx: Context, st: State, s: Stmt, superclass: Option<ClassObject>): (st': State)
    requires s.Class? && StateOk(cx, st) && (superclass.Some? ==> ClassOk(superclass.value, |st.frames|))
    ensures Advances(cx, st, st') && st'.instances == st.instances
  {
    var scoped := ClassScope(cx, st, s, superclass);
    var closure := if superclass.Some? then |st.frames| else st.environment;
    MethodTableClosures(s.methods, closure, scoped.serial);
    var klass := ClassObject(scoped.serial + |s.methods|, s.name.lexeme, MethodTable(s.methods, closure, scoped.serial));
    Defined(cx, scoped.(serial := scoped.serial + |s.methods| + 1), s.name.lexeme, LoxClass(klass))
  }

  /** The frames the methods of `visitClassStmt` are made in: the name
      defined to `undefined` in the current frame and, when there is a
      superclass, a new frame binding `super` that encloses the current
      one. */
  function ClassScope(cx: Context, st: State, s: Stmt, superclass: Option<ClassObject>): (st': State)
    requires s.Class? && StateOk(cx, st) && (superclass.Some? ==> ClassOk(superclass.value, |st.frames|))
    ensures Advances(cx, st, st') && st'.instances == st.instances && st'.serial == st.serial
    ensures |st'.frames| == |st.frames| + (if superclass.Some? then 1 else 0)
    ensures st'.frames[st.environment].values == st.frames[st.environment].values[s.name.lexeme := LoxUndefined]
    ensures superclass.Some? ==>
      st'.frames[|st.frames|] == Frame(map["super" := LoxClass(superclass.value)], Some(st.environment))
  {
    var declared := Defined(cx, st, s.name.lexeme, LoxUndefined);
    if superclass.None? then declared
    else
      var superFrame := Frame(map["super" := LoxClass(superclass.value)], Some(st.environment));
      PushFrameOk(declared.frames, declared.instances, superFrame);
      declared.(frames := declared.frames + [superFrame])
  }

  // ---------------------------------------------------------------------
  // The top level
  // ---------------------------------------------------------------------

  /** `interpret` from the `i`-th statement on: the statements in order,
      skipping entries that failed to parse.  A runtime error stops the run
      and is written out as a report; any other abrupt completion (an
      error of the host, a `return` outside any function, running out of
      fuel) stops the run and is passed on. */
  function Run(cx: Context, st: State, statements: seq<Option<Stmt>>, i: nat, fuel: nat): (x: Executed)
    requires StateOk(cx, st) && i <= |statements|
    ensures ExecutedOk(cx, st, x)
    ensures !(x.c.Raised? && x.c.failure.RuntimeError?)
    decreases |statements| - i
  {
    if i == |statements| then Executed(st, Normal)
    else if statements[i].None? then Run(cx, st, statements, i + 1, fuel)
    else
      var done := Exec(cx, st, statements[i].value, fuel);
      if done.c.Normal? then Run(cx, done.st, statements, i + 1, fuel)
      else if done.c.Raised? && done.c.failure.RuntimeError? then
        Executed(done.st.(output := done.st.output + [RuntimeErrorReport(done.c.failure.token, done.c.failure.message)]), Normal)
      else done
  }
}
