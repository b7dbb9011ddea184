/** The tree-walking Interpreter: expression evaluation, statement
    execution, calls of functions and classes, and the top-level loop.

    The Interpreter keeps its state in place: a heap of frames and
    instances, the current environment and the output.  Every method is
    proved to do exactly what the function of the same visitor in
    `Semantics` computes from the state it started in: the same result and
    the same new state. */
module Interpreter {
  import opened Wrappers
  import opened Tokens
  import opened Ast
  import opened Values
  import opened Environment
  import opened Functions
  import opened Classes
  import opened Operators
  import opened Semantics

  class Interpreter {
    /** Every environment frame and instance ever created. */
    const heap: Heap
    const globals: nat
    var environment: nat
    /** The Resolver's side table: node id to number of scopes crossed. */
    var locals: map<nat, nat>
    /** What `console.log` has written: printed values and runtime-error
        reports. */
    var output: seq<string>
    /** What the native `clock` function returns: the host's formatted wall
        time, taken as given. */
    const clockReading: string
    /** JavaScript's rendering of a number as text. */
    const numberText: real -> string

    /** The state a run changes. */
    function St(): State
      reads this, heap
    {
      State(heap.frames, heap.instances, heap.serial, environment, output)
    }

    /** What stays fixed while a program runs. */
    function Cx(): Context
      reads this`locals
    {
      Context(globals, locals, clockReading, numberText)
    }

    ghost predicate Valid()
      reads this, heap
    {
      StateOk(Cx(), St())
    }

    /** A new interpreter: a global environment binding only `clock`, which
        is the current environment, no resolved distances and no output. */
    constructor (clockReading: string, numberText: real -> string)
      ensures Valid() && fresh(heap)
      ensures St() == State([Frame(map["clock" := NativeClock], None)], [], 0, 0, [])
      ensures Cx() == Context(0, map[], clockReading, numberText)
    {
      var h := new Heap();
      var g := h.NewEnvironment(None);
      h.Define(g, "clock", NativeClock);
      heap := h;
      globals := g;
      environment := g;
      locals := map[];
      output := [];
      this.clockReading := clockReading;
      this.numberText := numberText;
    }

    /** `resolve`: records the distance the Resolver found for a node. */
    method Resolve(id: nat, depth: nat)
      modifies this`locals
      ensures locals == old(locals)[id := depth]
    {
      locals := locals[id := depth];
    }

    // -------------------------------------------------------------------
    // Expressions
    // -------------------------------------------------------------------

    /** `evaluate`: dispatches on the kind of expression. */
    method Evaluate(e: Expr, fuel: nat) returns (r: Eval)
      requires Valid()
      modifies this`environment, this`output, heap
      ensures Valid() && Evaluated(St(), r) == EvalExpr(Cx(), old(St()), e, fuel)
      decreases fuel, 3, e, 1
    {
      match e
      case Assign(_, _, _) => r := EvaluateAssign(e, fuel);
      case Binary(_, _, _) => r := EvaluateBinary(e, fuel);
      case Call(_, _, _) => r := EvaluateCall(e, fuel);
      case Get(_, _) => r := EvaluateGet(e, fuel);
      case Grouping(inner) => r := Evaluate(inner, fuel);
      case Literal(literal) => r := Ok(LiteralToValue(literal));
      case Logical(_, _, _) => r := EvaluateLogical(e, fuel);
      case Set(_, _, _) => r := EvaluateSet(e, fuel);
      case Super(_, _, _) => r := EvaluateSuper(e);
      case This(id, keyword) => r := LookUp(Cx(), St(), id, keyword);
      case Unary(_, _) => r := EvaluateUnary(e, fuel);
      case Variable(id, name) => r := LookUp(Cx(), St(), id, name);
    }

    /** `visitAssignExpr`: evaluates the value, stores it, and yields it. */
    method EvaluateAssign(e: Expr, fuel: nat) returns (r: Eval)
      requires e.Assign? && Valid()
      modifies this`environment, this`output, heap
      ensures Valid() && Evaluated(St(), r) == EvalAssign(Cx(), old(St()), e, fuel)
      decreases fuel, 3, e, 0
    {
      var value := Evaluate(e.value, fuel);
      if value.Fail? {
        return value;
      }
      r := AssignVariable(e.id, e.name, value.value);
    }

    /** The store of `visitAssignExpr`: with a recorded distance, into the
        frame that many links up (`assignAt`); without one, into the
        innermost frame of the global chain that binds the name
        (`globals.assign`). */
    method AssignVariable(id: nat, name: Token, v: Value) returns (r: Eval)
      requires Valid() && ValueOk(v, |heap.frames|, |heap.instances|)
      modifies heap`frames
      ensures Valid() && Evaluated(St(), r) == Store(Cx(), old(St()), id, name, v)
    {
      if id in locals {
        r := heap.AssignAt(environment, locals[id], name, v);
      } else {
        r := heap.Assign(globals, name, v);
      }
    }

    /** `visitBinaryExpr`: both operands, left first, then the operator. */
    method EvaluateBinary(e: Expr, fuel: nat) returns (r: Eval)
      requires e.Binary? && Valid()
      modifies this`environment, this`output, heap
      ensures Valid() && Evaluated(St(), r) == EvalBinary(Cx(), old(St()), e, fuel)
      decreases fuel, 3, e, 0
    {
      var left := Evaluate(e.left, fuel);
      if left.Fail? {
        return left;
      }
      var right := Evaluate(e.right, fuel);
      if right.Fail? {
        return right;
      }
      r := BinaryOp(e.operator, left.value, right.value);
    }

    /** `visitUnaryExpr`: the operand, then the operator. */
    method EvaluateUnary(e: Expr, fuel: nat) returns (r: Eval)
      requires e.Unary? && Valid()
      modifies this`environment, this`output, heap
      ensures Valid() && Evaluated(St(), r) == EvalUnary(Cx(), old(St()), e, fuel)
      decreases fuel, 3, e, 0
    {
      var operand := Evaluate(e.right, fuel);
      if operand.Fail? {
        return operand;
      }
      r := UnaryOp(e.operator, operand.value);
    }

    /** `visitLogicalExpr`: the left operand, and the right one only when
        the left does not decide the result. */
    method EvaluateLogical(e: Expr, fuel: nat) returns (r: Eval)
      requires e.Logical? && Valid()
      modifies this`environment, this`output, heap
      ensures Valid() && Evaluated(St(), r) == EvalLogical(Cx(), old(St()), e, fuel)
      decreases fuel, 3, e, 0
    {
      var left := Evaluate(e.left, fuel);
      if left.Fail? || LeftDecides(e.operator, left.value) {
        return left;
      }
      r := Evaluate(e.right, fuel);
    }

    /** `visitGetExpr`: the receiver, which must be an instance, then the
        property. */
    method EvaluateGet(e: Expr, fuel: nat) returns (r: Eval)
      requires e.Get? && Valid()
      modifies this`environment, this`output, heap
      ensures Valid() && Evaluated(St(), r) == EvalGet(Cx(), old(St()), e, fuel)
      decreases fuel, 3, e, 0
    {
      var receiver := Evaluate(e.obj, fuel);
      if receiver.Fail? {
        return receiver;
      }
      if !receiver.value.LoxInstance? {
        return Fail(RuntimeError(e.name, NoProperties));
      }
      r := GetProperty(heap, receiver.value, e.name);
    }

    /** `visitSetExpr`: the receiver, which must be an instance, then the
        value, which is stored in the field and yielded. */
    method EvaluateSet(e: Expr, fuel: nat) returns (r: Eval)
      requires e.Set? && Valid()
      modifies this`environment, this`output, heap
      ensures Valid() && Evaluated(St(), r) == EvalSet(Cx(), old(St()), e, fuel)
      decreases fuel, 3, e, 0
    {
      var receiver := Evaluate(e.obj, fuel);
      if receiver.Fail? {
        return receiver;
      }
      if !receiver.value.LoxInstance? {
        return Fail(RuntimeError(e.name, NoFields));
      }
      ghost var before := (|heap.frames|, |heap.instances|);
      var value := Evaluate(e.value, fuel);
      if value.Fail? {
        return value;
      }
      ValueOkGrows(receiver.value, before.0, before.1, |heap.frames|, |heap.instances|);
      heap.SetField(receiver.value.ref, e.name.lexeme, value.value);
      r := value;
    }

    /** `visitSuperExpr`: the superclass's method bound to the current
        instance. */
    method EvaluateSuper(e: Expr) returns (r: Eval)
      requires e.Super? && Valid()
      modifies heap
      ensures Valid() && Evaluated(St(), r) == EvalSuper(Cx(), old(St()), e)
    {
      match FindSuper(Cx(), St(), e.id, e.methodName)
      case SuperFails(failure) =>
        r := Fail(failure);
      case SuperBinds(m, receiver) =>
        var bound := Bind(heap, m, receiver);
        r := Ok(LoxFunction(bound));
    }

    /** `visitCallExpr`: the callee, then every argument left to right,
        then the call. */
    method EvaluateCall(e: Expr, fuel: nat) returns (r: Eval)
      requires e.Call? && Valid()
      modifies this`environment, this`output, heap
      ensures Valid() && Evaluated(St(), r) == EvalCall(Cx(), old(St()), e, fuel)
      decreases fuel, 3, e, 0
    {
      var callee := Evaluate(e.callee, fuel);
      if callee.Fail? {
        return callee;
      }
      ghost var start := St();
      var values: seq<Value> := [];
      for i := 0 to |e.arguments|
        invariant Valid() && environment == old(environment) && |values| == i
        invariant ValueOk(callee.value, |heap.frames|, |heap.instances|) && ValuesOk(values, |heap.frames|, |heap.instances|)
        invariant EvalArguments(Cx(), St(), e, i, callee.value, values, fuel) == EvalArguments(Cx(), start, e, 0, callee.value, [], fuel)
      {
        ghost var before := (|heap.frames|, |heap.instances|);
        var a := Evaluate(e.arguments[i], fuel);
        if a.Fail? {
          return a;
        }
        ValueOkGrows(callee.value, before.0, before.1, |heap.frames|, |heap.instances|);
        ValuesOkGrows(values, before.0, before.1, |heap.frames|, |heap.instances|);
        values := values + [a.value];
      }
      r := CallValue(callee.value, values, e.paren, fuel);
    }

    // -------------------------------------------------------------------
    // Calls
    // -------------------------------------------------------------------

    /** The checks of `visitCallExpr` and `call` of the callee: a value
        that is not callable, or a wrong number of arguments, is an error;
        otherwise the function, class or native `clock` is called. */
    method CallValue(callee: Value, arguments: seq<Value>, paren: Token, fuel: nat) returns (r: Eval)
      requires Valid() && ValueOk(callee, |heap.frames|, |heap.instances|) && ValuesOk(arguments, |heap.frames|, |heap.instances|)
      modifies this`environment, this`output, heap
      ensures Valid() && Evaluated(St(), r) == Apply(Cx(), old(St()), callee, arguments, paren, fuel)
      decreases fuel, 2, 0, 0
    {
      if !Callable(callee) {
        return Fail(RuntimeError(paren, NotCallable));
      }
      if |arguments| != CalleeArity(callee) {
        return Fail(ArityMismatch(paren, CalleeArity(callee), |arguments|));
      }
      match callee
      case LoxFunction(f) =>
        r := CallFunction(f, arguments, fuel);
      case LoxClass(c) =>
        r := CallClass(c, arguments, fuel);
      case NativeClock =>
        r := Ok(LoxString(clockReading));
    }

    /** `LoxFunction.call`: the body runs as a block in a fresh frame that
        is nested in the closure and binds the parameters; how the body
        completes decides the result (see `CallOutcome`). */
    method CallFunction(f: FunctionObject, arguments: seq<Value>, fuel: nat) returns (r: Eval)
      requires Valid() && f.closure < |heap.frames| && ValuesOk(arguments, |heap.frames|, |heap.instances|)
      modifies this`environment, this`output, heap
      ensures Valid() && Evaluated(St(), r) == Invoke(Cx(), old(St()), f, arguments, fuel)
      decreases fuel, 0, 0, 0
    {
      if fuel == 0 {
        return Fail(OutOfFuel);
      }
      var env := BindArguments(heap, f, arguments);
      var body := ExecuteBlock(f.declaration.body, env, fuel - 1, Stmt.Block(f.declaration.body));
      r := CallOutcome(body, f.isInitializer, LookupAt(heap.frames, f.closure, 0, "this"));
    }

    /** `LoxClass.call`: a new instance with no fields; when the class has
        an `init` method, it is bound to the instance and called with the
        arguments, its result ignored but its failure propagated; the
        result is the instance. */
    method CallClass(klass: ClassObject, arguments: seq<Value>, fuel: nat) returns (r: Eval)
      requires Valid() && ClassOk(klass, |heap.frames|) && ValuesOk(arguments, |heap.frames|, |heap.instances|)
      modifies this`environment, this`output, heap
      ensures Valid() && Evaluated(St(), r) == Instantiate(Cx(), old(St()), klass, arguments, fuel)
      decreases fuel, 1, 0, 0
    {
      var ref := heap.NewInstance();
      var instance := LoxInstance(ref, klass);
      match FindMethod(klass, "init")
      case None =>
        r := Ok(instance);
      case Some(init) =>
        var bound := Bind(heap, init, instance);
        var result := CallFunction(bound, arguments, fuel);
        r := if result.Fail? then result else Ok(instance);
    }

    // -------------------------------------------------------------------
    // Statements
    // -------------------------------------------------------------------

    /** `execute`: dispatches on the kind of statement. */
    method Execute(s: Stmt, fuel: nat) returns (c: Completion)
      requires Valid()
      modifies this`environment, this`output, heap
      ensures Valid() && Executed(St(), c) == Exec(Cx(), old(St()), s, fuel)
      decreases fuel, 3, s, 2
    {
      match s
      case Block(_) => c := ExecuteBlockStmt(s, fuel);
      case Class(_, _, _) => c := ExecuteClass(s);
      case Expression(_) => c := ExecuteExpression(s, fuel);
      case Function(_) => c := ExecuteFunction(s);
      case If(_, _, _) => c := ExecuteIf(s, fuel);
      case Print(_) => c := ExecutePrint(s, fuel);
      case Return(_, _) => c := ExecuteReturn(s, fuel);
      case Var(_, _) => c := ExecuteVar(s, fuel);
      case While(_, _) => c := ExecuteWhile(s, fuel);
    }

    /** `visitBlockStmt`: the statements in a fresh frame nested in the
        current one. */
    method ExecuteBlockStmt(s: Stmt, fuel: nat) returns (c: Completion)
      requires s.Block? && Valid()
      modifies this`environment, this`output, heap
      ensures Valid() && Executed(St(), c) == ExecNested(Cx(), old(St()), s, fuel)
      decreases fuel, 3, s, 1
    {
      var env := heap.NewEnvironment(Some(environment));
      c := ExecuteBlock(s.statements, env, fuel, s);
    }

    /** `executeBlock`: the statements in order, in environment `env`,
        skipping entries that failed to parse, until one completes
        abruptly; the environment in force before is restored however the
        block ends. */
    method ExecuteBlock(statements: seq<Option<Stmt>>, env: nat, fuel: nat, ghost owner: Stmt) returns (c: Completion)
      requires Valid() && env < |heap.frames| && owner == Stmt.Block(statements)
      modifies this`environment, this`output, heap
      ensures Valid() && Executed(St(), c) == ExecBlock(Cx(), old(St()), statements, env, fuel, owner)
      decreases fuel, 3, owner, 0
    {
      var previous := environment;
      environment := env;
      for i := 0 to |statements|
        invariant Valid() && environment == env && previous == old(environment)
        invariant ExecSequence(Cx(), St(), statements, i, fuel, owner)
               == ExecSequence(Cx(), old(St()).(environment := env), statements, 0, fuel, owner)
      {
        if statements[i].Some? {
          assert statements[i] in owner.statements;
          c := Execute(statements[i].value, fuel);
          if !c.Normal? {
            environment := previous;
            return;
          }
        }
      }
      environment := previous;
      c := Normal;
    }

    /** `visitExpressionStmt`: the expression, its value discarded. */
    method ExecuteExpression(s: Stmt, fuel: nat) returns (c: Completion)
      requires s.Expression? && Valid()
      modifies this`environment, this`output, heap
      ensures Valid() && Executed(St(), c) == ExecExpression(Cx(), old(St()), s, fuel)
      decreases fuel, 3, s, 1
    {
      var value := Evaluate(s.expression, fuel);
      c := if value.Fail? then Raised(value.failure) else Normal;
    }

    /** `visitPrintStmt`: the expression, then its text written out. */
    method ExecutePrint(s: Stmt, fuel: nat) returns (c: Completion)
      requires s.Print? && Valid()
      modifies this`environment, this`output, heap
      ensures Valid() && Executed(St(), c) == ExecPrint(Cx(), old(St()), s, fuel)
      decreases fuel, 3, s, 1
    {
      var value := Evaluate(s.expression, fuel);
      if value.Fail? {
        return Raised(value.failure);
      }
      output := output + [Stringify(value.value, numberText)];
      c := Normal;
    }

    /** `visitVarStmt`: defines the name in the current frame, to the
        initializer's value or `undefined` when there is none. */
    method ExecuteVar(s: Stmt, fuel: nat) returns (c: Completion)
      requires s.Var? && Valid()
      modifies this`environment, this`output, heap
      ensures Valid() && Executed(St(), c) == ExecVar(Cx(), old(St()), s, fuel)
      decreases fuel, 3, s, 1
    {
      var value := LoxUndefined;
      if s.initializer.Some? {
        var initial := Evaluate(s.initializer.value, fuel);
        if initial.Fail? {
          return Raised(initial.failure);
        }
        value := initial.value;
      }
      heap.Define(environment, s.name.lexeme, value);
      c := Normal;
    }

    /** `visitFunctionStmt`: defines the name in the current frame to a new
        function closing over it, which is not an initializer. */
    method ExecuteFunction(s: Stmt) returns (c: Completion)
      requires s.Function? && Valid()
      modifies heap
      ensures Valid() && Executed(St(), c) == ExecFunction(Cx(), old(St()), s)
    {
      var serial := heap.NextSerial();
      heap.Define(environment, s.decl.name.lexeme, LoxFunction(FunctionObject(serial, s.decl, environment, false)));
      c := Normal;
    }

    /** `visitIfStmt`: the condition, then the branch its truthiness picks. */
    method ExecuteIf(s: Stmt, fuel: nat) returns (c: Completion)
      requires s.If? && Valid()
      modifies this`environment, this`output, heap
      ensures Valid() && Executed(St(), c) == ExecIf(Cx(), old(St()), s, fuel)
      decreases fuel, 3, s, 1
    {
      var condition := Evaluate(s.condition, fuel);
      if condition.Fail? {
        return Raised(condition.failure);
      }
      if IsTruthy(condition.value) {
        c := Execute(s.thenBranch, fuel);
      } else if s.elseBranch.Some? {
        c := Execute(s.elseBranch.value, fuel);
      } else {
        c := Normal;
      }
    }

    /** `visitReturnStmt`: the value (`undefined` when there is none),
        unwinding to the enclosing call. */
    method ExecuteReturn(s: Stmt, fuel: nat) returns (c: Completion)
      requires s.Return? && Valid()
      modifies this`environment, this`output, heap
      ensures Valid() && Executed(St(), c) == ExecReturn(Cx(), old(St()), s, fuel)
      decreases fuel, 3, s, 1
    {
      var value := Ok(LoxUndefined);
      if s.value.Some? {
        value := Evaluate(s.value.value, fuel);
      }
      c := if value.Fail? then Raised(value.failure) else Returned(value.value);
    }

    /** `visitWhileStmt`: the body, for as long as the condition is truthy;
        an abrupt completion of the body ends the loop.  At most `fuel`
        iterations run. */
    method ExecuteWhile(s: Stmt, fuel: nat) returns (c: Completion)
      requires s.While? && Valid()
      modifies this`environment, this`output, heap
      ensures Valid() && Executed(St(), c) == Loop(Cx(), old(St()), s, fuel, fuel)
      decreases fuel, 3, s, 1
    {
      var budget := fuel;
      while true
        invariant Valid()
        invariant Loop(Cx(), St(), s, fuel, budget) == Loop(Cx(), old(St()), s, fuel, fuel)
        decreases budget
      {
        var condition := Evaluate(s.condition, fuel);
        if condition.Fail? {
          return Raised(condition.failure);
        }
        if !IsTruthy(condition.value) {
          return Normal;
        }
        if budget == 0 {
          return Raised(OutOfFuel);
        }
        c := Execute(s.body, fuel);
        if !c.Normal? {
          return;
        }
        budget := budget - 1;
      }
    }

    /** `visitClassStmt`: checks the superclass, then defines the class. */
    method ExecuteClass(s: Stmt) returns (c: Completion)
      requires s.Class? && Valid()
      modifies this`environment, heap
      ensures Valid() && Executed(St(), c) == ExecClass(Cx(), old(St()), s)
    {
      var superclass: Option<ClassObject> := None;
      if s.superclass.Some? {
        var found := LookUp(Cx(), St(), s.superclass.value.id, s.superclass.value.name);
        if found.Fail? {
          return Raised(found.failure);
        }
        if !found.value.LoxClass? {
          return Raised(RuntimeError(s.superclass.value.name, SuperclassNotClass));
        }
        superclass := Some(found.value.c);
      }
      DefineClass(s, superclass);
      c := Normal;
    }

    /** The definitions of `visitClassStmt`: the name, the frame binding
        `super` when there is a superclass, the method table, and the
        assignment of the class to the name. */
    method DefineClass(s: Stmt, superclass: Option<ClassObject>)
      requires s.Class? && Valid() && (superclass.Some? ==> ClassOk(superclass.value, |heap.frames|))
      modifies this`environment, heap
      ensures Valid() && St() == ClassDefined(Cx(), old(St()), s, superclass)
    {
      var previous := environment;
      EnterClassScope(s, superclass);
      ghost var scoped := ClassScope(Cx(), old(St()), s, superclass);
      var klass := BuildClass(s.name, s.methods);
      environment := previous;
      assert St() == scoped.(serial := scoped.serial + |s.methods| + 1);
      StoreClass(s.name, klass);
    }

    /** The frames the methods are made in: the class's name declared, then
        for a subclass a new frame binding `super`, which becomes the
        current environment. */
    method EnterClassScope(s: Stmt, superclass: Option<ClassObject>)
      requires s.Class? && Valid() && (superclass.Some? ==> ClassOk(superclass.value, |heap.frames|))
      modifies this`environment, heap`frames
      ensures Valid()
      ensures St() == ClassScope(Cx(), old(St()), s, superclass).(environment := if superclass.Some? then old(|heap.frames|) else old(environment))
    {
      DeclareClass(s.name);
      if superclass.Some? {
        environment := heap.NewEnvironment(Some(environment));
        heap.Define(environment, "super", LoxClass(superclass.value));
      }
    }

    /** The last step of `visitClassStmt`: the class assigned to its name,
        which the current frame already binds. */
    method StoreClass(name: Token, klass: ClassObject)
      requires Valid() && ClassOk(klass, |heap.frames|) && name.lexeme in heap.frames[environment].values
      modifies heap`frames
      ensures Valid() && St() == Defined(Cx(), old(St()), name.lexeme, LoxClass(klass))
    {
      var stored := heap.Assign(environment, name, LoxClass(klass));
    }

    /** The first definition of `visitClassStmt`: the class's name bound to
        `undefined` in the current frame. */
    method DeclareClass(name: Token)
      requires Valid()
      modifies heap`frames
      ensures Valid() && St() == Defined(Cx(), old(St()), name.lexeme, LoxUndefined)
    {
      heap.Define(environment, name.lexeme, LoxUndefined);
    }

    /** The method loop and the class receiver of `visitClassStmt`: one new
        function per method, closing over the current environment, then the
        class. */
    method BuildClass(name: Token, methods: seq<FunctionDecl>) returns (klass: ClassObject)
      requires Valid()
      modifies heap`serial
      ensures Valid() && heap.serial == old(heap.serial) + |methods| + 1
      ensures klass == ClassObject(old(heap.serial) + |methods|, name.lexeme, MethodTable(methods, environment, old(heap.serial)))
      ensures ClassOk(klass, |heap.frames|)
    {
      var table: map<string, FunctionObject> := map[];
      for i := 0 to |methods|
        invariant heap.serial == old(heap.serial) + i
        invariant table == MethodTable(methods[..i], environment, old(heap.serial))
      {
        var serial := heap.NextSerial();
        var m := methods[i];
        table := table[m.name.lexeme := FunctionObject(serial, m, environment, m.name.lexeme == "init")];
        assert methods[..i + 1][..i] == methods[..i];
      }
      assert methods[..|methods|] == methods;
      MethodTableClosures(methods, environment, old(heap.serial));
      var serial := heap.NextSerial();
      klass := ClassObject(serial, name.lexeme, table);
    }

    // -------------------------------------------------------------------
    // The top level
    // -------------------------------------------------------------------

    /** `interpret`: the statements in order, skipping entries that failed
        to parse.  A runtime error stops the run and is reported as a line
        of output; any other abrupt completion (an error of the host, a
        `return` outside any function, running out of fuel) stops the run
        and is passed on to the caller. */
    method Interpret(statements: seq<Option<Stmt>>, fuel: nat) returns (c: Completion)
      requires Valid()
      modifies this`environment, this`output, heap
      ensures Valid() && Executed(St(), c) == Run(Cx(), old(St()), statements, 0, fuel)
    {
      for i := 0 to |statements|
        invariant Valid() && environment == old(environment)
        invariant Run(Cx(), St(), statements, i, fuel) == Run(Cx(), old(St()), statements, 0, fuel)
      {
        if statements[i].Some? {
          var done := Execute(statements[i].value, fuel);
          if !done.Normal? {
            if done.Raised? && done.failure.RuntimeError? {
              output := output + [RuntimeErrorReport(done.failure.token, done.failure.message)];
              return Normal;
            }
            return done;
          }
        }
      }
      c := Normal;
    }
  }
}
