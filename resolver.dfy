/** The Resolver: a static pass over the syntax tree that keeps a stack of
    scopes, records for every variable reference how many scopes lie
    between the reference and the declaration it refers to, and reports
    misplaced declarations, `return`s, `this` and `super`.

    The distances are written to `locals`, keyed by node id; this is the
    side table the Interpreter reads.  An empty scope stack stands for the
    global scope, whose names are never tracked. */
module Resolver {
  import opened Wrappers
  import opened Tokens
  import opened Ast

  /** The kind of function whose body is being resolved. */
  datatype FunctionType = NoFunction | PlainFunction | Initializer | Method

  /** The kind of class whose methods are being resolved. */
  datatype ClassType = NoClass | PlainClass | Subclass

  /** One block scope: every name declared in it, mapped to `false` while
      its declaration is in progress and to `true` once it is complete. */
  type Scope = map<string, bool>

  // ---------------------------------------------------------------------
  // Distances
  // ---------------------------------------------------------------------

  /** The number of scopes crossed, from the innermost outwards, before
      reaching one that declares `name`; `None` when no scope does (the
      name is global). */
  function Distance(scopes: seq<Scope>, name: string): (d: Option<nat>)
    ensures d.Some? ==> d.value < |scopes| && name in scopes[|scopes| - 1 - d.value]
    ensures d.Some? ==> forall k :: |scopes| - 1 - d.value < k < |scopes| ==> name !in scopes[k]
    ensures d.None? <==> forall k :: 0 <= k < |scopes| ==> name !in scopes[k]
  {
    if |scopes| == 0 then None
    else if name in scopes[|scopes| - 1] then Some(0)
    else
      match Distance(scopes[..|scopes| - 1], name)
      case None => None
      case Some(d) => Some(d + 1)
  }

  /** The side table after a reference to `name` by node `id`: the distance
      is recorded when the name is local, and nothing when it is global. */
  function Record(locals: map<nat, nat>, id: nat, scopes: seq<Scope>, name: string): map<nat, nat>
  {
    match Distance(scopes, name)
    case Some(d) => locals[id := d]
    case None => locals
  }

  /** The stack with `name` marked `flag` in its innermost scope; with no
      scope (the global scope) it is left alone. */
  function Mark(scopes: seq<Scope>, name: string, flag: bool): (r: seq<Scope>)
    ensures |r| == |scopes|
    ensures forall k :: 0 <= k < |scopes| - 1 ==> r[k] == scopes[k]
    ensures |scopes| > 0 ==> r[|r| - 1] == scopes[|scopes| - 1][name := flag]
  {
    if |scopes| == 0 then scopes
    else scopes[|scopes| - 1 := scopes[|scopes| - 1][name := flag]]
  }

  /** A declaration shadows every outer one: right after it, the declared
      name is at distance 0, and every other name at the distance it had. */
  lemma {:induction false} MarkDistance(scopes: seq<Scope>, name: string, flag: bool, other: string)
    requires |scopes| > 0
    ensures Distance(Mark(scopes, name, flag), name) == Some(0)
    ensures other != name ==> Distance(Mark(scopes, name, flag), other) == Distance(scopes, other)
  {
    var r := Mark(scopes, name, flag);
    assert r[..|r| - 1] == scopes[..|scopes| - 1];
  }

  // ---------------------------------------------------------------------
  // What resolving an expression records and reports
  // ---------------------------------------------------------------------

  /** The side table after resolving `e` with the given scopes and class
      context, starting from `locals`; the subexpressions are visited in
      the source's order (an assignment's value before its target, a
      property assignment's value before its object). */
  function Recorded(locals: map<nat, nat>, e: Expr, scopes: seq<Scope>, cls: ClassType): map<nat, nat>
    decreases e, 1
  {
    match e
    case Assign(id, name, value) => Record(Recorded(locals, value, scopes, cls), id, scopes, name.lexeme)
    case Binary(left, _, right) => Recorded(Recorded(locals, left, scopes, cls), right, scopes, cls)
    case Call(callee, _, arguments) => RecordedArgs(Recorded(locals, callee, scopes, cls), e, |arguments|, scopes, cls)
    case Get(obj, _) => Recorded(locals, obj, scopes, cls)
    case Grouping(inner) => Recorded(locals, inner, scopes, cls)
    case Literal(_) => locals
    case Logical(left, _, right) => Recorded(Recorded(locals, left, scopes, cls), right, scopes, cls)
    case Set(obj, _, value) => Recorded(Recorded(locals, value, scopes, cls), obj, scopes, cls)
    case Super(id, keyword, _) => Record(locals, id, scopes, keyword.lexeme)
    case This(id, keyword) => if cls == NoClass then locals else Record(locals, id, scopes, keyword.lexeme)
    case Unary(_, right) => Recorded(locals, right, scopes, cls)
    case Variable(id, name) => Record(locals, id, scopes, name.lexeme)
  }

  /** The side table after resolving the first `n` arguments of the call `e`. */
  function RecordedArgs(locals: map<nat, nat>, e: Expr, n: nat, scopes: seq<Scope>, cls: ClassType): map<nat, nat>
    requires e.Call? && n <= |e.arguments|
    decreases e, 0, n
  {
    if n == 0 then locals
    else Recorded(RecordedArgs(locals, e, n - 1, scopes, cls), e.arguments[n - 1], scopes, cls)
  }

  /** The diagnostics resolving `e` reports, in order. */
  function ExprErrors(e: Expr, scopes: seq<Scope>, cls: ClassType): seq<Diagnostic>
    decreases e, 1
  {
    match e
    case Assign(_, _, value) => ExprErrors(value, scopes, cls)
    case Binary(left, _, right) => ExprErrors(left, scopes, cls) + ExprErrors(right, scopes, cls)
    case Call(callee, _, arguments) => ExprErrors(callee, scopes, cls) + ArgsErrors(e, |arguments|, scopes, cls)
    case Get(obj, _) => ExprErrors(obj, scopes, cls)
    case Grouping(inner) => ExprErrors(inner, scopes, cls)
    case Literal(_) => []
    case Logical(left, _, right) => ExprErrors(left, scopes, cls) + ExprErrors(right, scopes, cls)
    case Set(obj, _, value) => ExprErrors(value, scopes, cls) + ExprErrors(obj, scopes, cls)
    case Super(_, keyword, _) => SuperErrors(keyword, cls)
    case This(_, keyword) => ThisErrors(keyword, cls)
    case Unary(_, right) => ExprErrors(right, scopes, cls)
    case Variable(_, name) => VariableErrors(name, scopes)
  }

  function ArgsErrors(e: Expr, n: nat, scopes: seq<Scope>, cls: ClassType): seq<Diagnostic>
    requires e.Call? && n <= |e.arguments|
    decreases e, 0, n
  {
    if n == 0 then []
    else ArgsErrors(e, n - 1, scopes, cls) + ExprErrors(e.arguments[n - 1], scopes, cls)
  }

  /** `super` is reported outside any class and in a class with no
      superclass. */
  function SuperErrors(keyword: Token, cls: ClassType): (r: seq<Diagnostic>)
    ensures r == [] <==> cls == Subclass
  {
    if cls == NoClass then [ErrorAt(keyword, "Can't use 'super' outside of a class.")]
    else if cls != Subclass then [ErrorAt(keyword, "Can't use 'super' in a class with no superclass.")]
    else []
  }

  /** `this` is reported outside any class. */
  function ThisErrors(keyword: Token, cls: ClassType): (r: seq<Diagnostic>)
    ensures r == [] <==> cls != NoClass
  {
    if cls == NoClass then [ErrorAt(keyword, "Can't use 'this' outside of a class.")] else []
  }

  /** Reading a name is reported when the innermost scope holds it as
      declared but not yet defined: a local read in its own initializer. */
  function VariableErrors(name: Token, scopes: seq<Scope>): (r: seq<Diagnostic>)
    ensures r != [] <==> |scopes| > 0 && name.lexeme in scopes[|scopes| - 1] && !scopes[|scopes| - 1][name.lexeme]
  {
    if |scopes| > 0 && name.lexeme in scopes[|scopes| - 1] && scopes[|scopes| - 1][name.lexeme] == false
    then [ErrorAt(name, "Can't read local variable in its own initializer.")]
    else []
  }

  /** Declaring a name the innermost scope already holds is reported. */
  function DeclareErrors(scopes: seq<Scope>, name: Token): (r: seq<Diagnostic>)
    ensures r != [] <==> |scopes| > 0 && name.lexeme in scopes[|scopes| - 1]
  {
    if |scopes| > 0 && name.lexeme in scopes[|scopes| - 1]
    then [ErrorAt(name, "Already declare variable with this name in this scope.")]
    else []
  }

  /** `return` is reported outside any function, and `return` with a value
      inside an initializer. */
  function ReturnErrors(keyword: Token, value: Option<Expr>, fun: FunctionType): seq<Diagnostic>
  {
    (if fun == NoFunction then [ErrorAt(keyword, "Can't return form top-level code.")] else [])
    + (if value.Some? && fun == Initializer then [ErrorAt(keyword, "Can't return a value from an initializer.")] else [])
  }

  /** A class naming itself as its superclass is reported. */
  function InheritErrors(name: Token, superclass: Option<Superclass>): seq<Diagnostic>
  {
    if superclass.Some? && name.lexeme == superclass.value.name.lexeme
    then [ErrorAt(superclass.value.name, "A class can't inherit from itself.")]
    else []
  }

  /** Resolving an expression writes the side table only at the ids of the
      expression's own nodes. */
  lemma {:induction false} RecordedOnlyInside(locals: map<nat, nat>, e: Expr, scopes: seq<Scope>, cls: ClassType, id: nat)
    requires id !in ExprIds(e)
    ensures id in Recorded(locals, e, scopes, cls) <==> id in locals
    ensures id in locals ==> Recorded(locals, e, scopes, cls)[id] == locals[id]
    decreases e, 1
  {
    match e
    case Assign(_, _, value) => RecordedOnlyInside(locals, value, scopes, cls, id);
    case Binary(left, _, right) =>
      RecordedOnlyInside(locals, left, scopes, cls, id);
      RecordedOnlyInside(Recorded(locals, left, scopes, cls), right, scopes, cls, id);
    case Call(callee, _, arguments) =>
      ExprListIdsCover(arguments, |arguments|);
      RecordedOnlyInside(locals, callee, scopes, cls, id);
      ArgsRecordedOnlyInside(Recorded(locals, callee, scopes, cls), e, |arguments|, scopes, cls, id);
    case Get(obj, _) => RecordedOnlyInside(locals, obj, scopes, cls, id);
    case Grouping(inner) => RecordedOnlyInside(locals, inner, scopes, cls, id);
    case Literal(_) =>
    case Logical(left, _, right) =>
      RecordedOnlyInside(locals, left, scopes, cls, id);
      RecordedOnlyInside(Recorded(locals, left, scopes, cls), right, scopes, cls, id);
    case Set(obj, _, value) =>
      RecordedOnlyInside(locals, value, scopes, cls, id);
      RecordedOnlyInside(Recorded(locals, value, scopes, cls), obj, scopes, cls, id);
    case Super(_, _, _) =>
    case This(_, _) =>
    case Unary(_, right) => RecordedOnlyInside(locals, right, scopes, cls, id);
    case Variable(_, _) =>
  }

  lemma {:induction false} ArgsRecordedOnlyInside(locals: map<nat, nat>, e: Expr, n: nat, scopes: seq<Scope>, cls: ClassType, id: nat)
    requires e.Call? && n <= |e.arguments|
    requires forall i :: 0 <= i < n ==> id !in ExprIds(e.arguments[i])
    ensures id in RecordedArgs(locals, e, n, scopes, cls) <==> id in locals
    ensures id in locals ==> RecordedArgs(locals, e, n, scopes, cls)[id] == locals[id]
    decreases e, 0, n
  {
    if n > 0 {
      ArgsRecordedOnlyInside(locals, e, n - 1, scopes, cls, id);
      RecordedOnlyInside(RecordedArgs(locals, e, n - 1, scopes, cls), e.arguments[n - 1], scopes, cls, id);
    }
  }

  /** An id of any argument is an id of the argument list. */
  lemma {:induction false} ExprListIdsCover(es: seq<Expr>, n: nat)
    requires n <= |es|
    ensures forall i, id :: 0 <= i < n && id in ExprIds(es[i]) ==> id in ExprListIds(es)
  {
    if n > 0 {
      ExprListIdsCover(es[1..], n - 1);
      forall i, id | 0 <= i < n && id in ExprIds(es[i])
        ensures id in ExprListIds(es)
      {
        if i > 0 {
          assert es[i] == es[1..][i - 1];
        }
      }
    }
  }

  /** Every distance recorded for an expression names a scope that exists
      and declares the referenced name. */
  lemma {:induction false} RecordedDistancesInRange(locals: map<nat, nat>, e: Expr, scopes: seq<Scope>, cls: ClassType)
    requires forall id :: id in locals ==> locals[id] < |scopes|
    ensures forall id :: id in Recorded(locals, e, scopes, cls) ==> Recorded(locals, e, scopes, cls)[id] < |scopes|
    decreases e, 1
  {
    match e
    case Assign(_, _, value) => RecordedDistancesInRange(locals, value, scopes, cls);
    case Binary(left, _, right) =>
      RecordedDistancesInRange(locals, left, scopes, cls);
      RecordedDistancesInRange(Recorded(locals, left, scopes, cls), right, scopes, cls);
    case Call(callee, _, arguments) =>
      RecordedDistancesInRange(locals, callee, scopes, cls);
      ArgsDistancesInRange(Recorded(locals, callee, scopes, cls), e, |arguments|, scopes, cls);
    case Get(obj, _) => RecordedDistancesInRange(locals, obj, scopes, cls);
    case Grouping(inner) => RecordedDistancesInRange(locals, inner, scopes, cls);
    case Literal(_) =>
    case Logical(left, _, right) =>
      RecordedDistancesInRange(locals, left, scopes, cls);
      RecordedDistancesInRange(Recorded(locals, left, scopes, cls), right, scopes, cls);
    case Set(obj, _, value) =>
      RecordedDistancesInRange(locals, value, scopes, cls);
      RecordedDistancesInRange(Recorded(locals, value, scopes, cls), obj, scopes, cls);
    case Super(_, _, _) =>
    case This(_, _) =>
    case Unary(_, right) => RecordedDistancesInRange(locals, right, scopes, cls);
    case Variable(_, _) =>
  }

  lemma {:induction false} ArgsDistancesInRange(locals: map<nat, nat>, e: Expr, n: nat, scopes: seq<Scope>, cls: ClassType)
    requires e.Call? && n <= |e.arguments|
    requires forall id :: id in locals ==> locals[id] < |scopes|
    ensures forall id :: id in RecordedArgs(locals, e, n, scopes, cls) ==> RecordedArgs(locals, e, n, scopes, cls)[id] < |scopes|
    decreases e, 0, n
  {
    if n > 0 {
      ArgsDistancesInRange(locals, e, n - 1, scopes, cls);
      RecordedDistancesInRange(RecordedArgs(locals, e, n - 1, scopes, cls), e.arguments[n - 1], scopes, cls);
    }
  }

  // ---------------------------------------------------------------------
  // Statements
  // ---------------------------------------------------------------------

  /** The innermost scope `after` a statement only gains names over the
      one `before` it, and every name whose flag the statement set is left
      defined. */
  ghost predicate Settled(before: Scope, after: Scope)
  {
    && before.Keys <= after.Keys
    && forall n :: n in after && (n !in before || before[n] != after[n]) ==> after[n]
  }

  /** The scope stack after resolving `s`: a declaration leaves its name
      defined in the innermost scope (a declaration standing as the branch
      of an `if` or the body of a `while` included), and nothing else
      outlives the statement.  In particular no outer scope changes, the
      innermost scope only gains names, and every name the statement
      declared is left defined. */
  function AfterStmt(scopes: seq<Scope>, s: Stmt): (r: seq<Scope>)
    ensures |r| == |scopes|
    ensures forall k :: 0 <= k < |scopes| - 1 ==> r[k] == scopes[k]
    ensures |scopes| > 0 ==> Settled(scopes[|scopes| - 1], r[|r| - 1])
    decreases s
  {
    match s
    case Var(name, _) => Mark(scopes, name.lexeme, true)
    case Function(decl) => Mark(scopes, decl.name.lexeme, true)
    case Class(name, _, _) => Mark(scopes, name.lexeme, true)
    case If(_, thenBranch, elseBranch) =>
      var afterThen := AfterStmt(scopes, thenBranch);
      if elseBranch.Some? then AfterStmt(afterThen, elseBranch.value) else afterThen
    case While(_, body) => AfterStmt(scopes, body)
    case _ => scopes
  }

  /** The diagnostics for a parameter list: one for every parameter whose
      name an earlier parameter of the list already has. */
  function ParamErrors(params: seq<Token>): seq<Diagnostic>
  {
    if |params| == 0 then []
    else
      var last := params[|params| - 1];
      ParamErrors(params[..|params| - 1])
      + (if exists k :: 0 <= k < |params| - 1 && params[k].lexeme == last.lexeme
         then [ErrorAt(last, "Already declare variable with this name in this scope.")]
         else [])
  }

  /** The scope a function body runs in: every parameter name, defined. */
  function ParamScope(params: seq<Token>): (r: Scope)
    ensures forall n :: n in r <==> exists k :: 0 <= k < |params| && params[k].lexeme == n
    ensures forall n :: n in r ==> r[n]
  {
    if |params| == 0 then map[]
    else ParamScope(params[..|params| - 1])[params[|params| - 1].lexeme := true]
  }

  // ---------------------------------------------------------------------
  // What resolving a statement records and reports
  // ---------------------------------------------------------------------

  /** What the Resolver changes as it visits: the scope stack, the side
      table and the diagnostics. */
  datatype Resolution = Resolution(scopes: seq<Scope>, locals: map<nat, nat>, errors: seq<Diagnostic>)

  /** `endScope`: the stack without its innermost scope (an empty stack
      stays empty). */
  function Pop(scopes: seq<Scope>): (r: seq<Scope>)
    ensures |scopes| > 0 ==> r == scopes[..|scopes| - 1]
    ensures |scopes| == 0 ==> r == []
  {
    if |scopes| == 0 then [] else scopes[..|scopes| - 1]
  }

  /** Resolving an expression: the side table gains its distances and the
      diagnostics its reports; the scopes do not change. */
  function ExprPass(p: Resolution, e: Expr, cls: ClassType): Resolution
  {
    p.(locals := Recorded(p.locals, e, p.scopes, cls), errors := p.errors + ExprErrors(e, p.scopes, cls))
  }

  /** `declare` then `define` of a name. */
  function DeclaredAndDefined(p: Resolution, name: Token): (r: Resolution)
    ensures r.scopes == Mark(p.scopes, name.lexeme, true) && r.locals == p.locals
    ensures r.errors == p.errors + DeclareErrors(p.scopes, name)
  {
    MarkTwice(p.scopes, name.lexeme);
    p.(scopes := Mark(Mark(p.scopes, name.lexeme, false), name.lexeme, true), errors := p.errors + DeclareErrors(p.scopes, name))
  }

  /** Resolving statement `s` inside a function of kind `fun` and a class
      of kind `cls`: the scopes end as `AfterStmt` says, and diagnostics
      are only ever added. */
  function StmtPass(p: Resolution, s: Stmt, fun: FunctionType, cls: ClassType): (r: Resolution)
    ensures r.scopes == AfterStmt(p.scopes, s)
    ensures p.errors <= r.errors
    decreases s, 3
  {
    match s
    case Block(_) => BlockPass(p, s, fun, cls)
    case Class(_, _, _) => ClassPass(p, s)
    case Expression(e) => ExprPass(p, e, cls)
    case Function(decl) => FunctionPass(DeclaredAndDefined(p, decl.name), decl, PlainFunction, cls)
    case If(_, _, _) => IfPass(p, s, fun, cls)
    case Print(e) => ExprPass(p, e, cls)
    case Return(_, _) => ReturnPass(p, s, fun, cls)
    case Var(_, _) => VarPass(p, s, cls)
    case While(condition, body) => StmtPass(ExprPass(p, condition, cls), body, fun, cls)
  }

  /** `visitBlockStmt`: the statements in a scope of their own, which is
      gone afterwards. */
  function BlockPass(p: Resolution, s: Stmt, fun: FunctionType, cls: ClassType): (r: Resolution)
    requires s.Block?
    ensures r.scopes == p.scopes && p.errors <= r.errors
    decreases s, 2
  {
    var inner := BlockPrefix(p.(scopes := p.scopes + [map[]]), s, |s.statements|, fun, cls);
    assert inner.scopes[..|p.scopes|] == p.scopes;
    inner.(scopes := Pop(inner.scopes))
  }

  /** `visitClassStmt`: the name declared and defined, a class naming
      itself as its superclass reported, the superclass resolved as a
      variable, then the methods. */
  function ClassPass(p: Resolution, s: Stmt): (r: Resolution)
    requires s.Class?
    ensures r.scopes == Mark(p.scopes, s.name.lexeme, true) && p.errors <= r.errors
    decreases s, 2
  {
    MethodsPass(ClassHeader(p, s), s, if s.superclass.None? then PlainClass else Subclass)
  }

  /** The start of `visitClassStmt`: the class name declared and defined, a
      class naming itself as its superclass reported, and the superclass
      reference resolved in the scopes that now hold the class name. */
  function ClassHeader(p: Resolution, s: Stmt): (r: Resolution)
    requires s.Class?
    ensures r.scopes == Mark(p.scopes, s.name.lexeme, true) && p.errors <= r.errors
    ensures s.superclass.None? ==> r.locals == p.locals
    ensures s.superclass.Some? ==>
      r.locals == Record(p.locals, s.superclass.value.id, r.scopes, s.superclass.value.name.lexeme)
  {
    var declared := DeclaredAndDefined(p, s.name);
    var checked := declared.(errors := declared.errors + InheritErrors(s.name, s.superclass));
    if s.superclass.None? then checked
    else
      var ref := s.superclass.value;
      checked.(locals := Record(checked.locals, ref.id, checked.scopes, ref.name.lexeme),
               errors := checked.errors + VariableErrors(ref.name, checked.scopes))
  }

  /** `visitIfStmt`: the condition, then both branches, whichever runs. */
  function IfPass(p: Resolution, s: Stmt, fun: FunctionType, cls: ClassType): (r: Resolution)
    requires s.If?
    ensures r.scopes == AfterStmt(p.scopes, s) && p.errors <= r.errors
    decreases s, 2
  {
    var afterThen := StmtPass(ExprPass(p, s.condition, cls), s.thenBranch, fun, cls);
    if s.elseBranch.Some? then StmtPass(afterThen, s.elseBranch.value, fun, cls) else afterThen
  }

  /** `visitReturnStmt`: a `return` outside any function, and one with a
      value inside an initializer, are reported; then the value. */
  function ReturnPass(p: Resolution, s: Stmt, fun: FunctionType, cls: ClassType): (r: Resolution)
    requires s.Return?
    ensures r.scopes == p.scopes && p.errors <= r.errors
    decreases s, 2
  {
    var reported := p.(errors := p.errors + ReturnErrors(s.keyword, s.value, fun));
    if s.value.Some? then ExprPass(reported, s.value.value, cls) else reported
  }

  /** `visitVarStmt`: the name declared, the initializer resolved while the
      name is declared but not defined, then the name defined. */
  function VarPass(p: Resolution, s: Stmt, cls: ClassType): (r: Resolution)
    requires s.Var?
    ensures r.scopes == Mark(p.scopes, s.name.lexeme, true) && p.errors <= r.errors
    decreases s, 2
  {
    var declared := p.(scopes := Mark(p.scopes, s.name.lexeme, false), errors := p.errors + DeclareErrors(p.scopes, s.name));
    var initialized := if s.initializer.Some? then ExprPass(declared, s.initializer.value, cls) else declared;
    MarkTwice(p.scopes, s.name.lexeme);
    initialized.(scopes := Mark(declared.scopes, s.name.lexeme, true))
  }

  /** The first `n` statements of the block `s`, in order, skipping the
      entries that failed to parse: every scope but the innermost is left
      as it was. */
  function BlockPrefix(p: Resolution, s: Stmt, n: nat, fun: FunctionType, cls: ClassType): (r: Resolution)
    requires s.Block? && n <= |s.statements| && |p.scopes| > 0
    ensures |r.scopes| == |p.scopes| && r.scopes[..|p.scopes| - 1] == p.scopes[..|p.scopes| - 1] && p.errors <= r.errors
    decreases s, 1, n
  {
    if n == 0 then p
    else
      var before := BlockPrefix(p, s, n - 1, fun, cls);
      if s.statements[n - 1].None? then before
      else StmtPass(before, s.statements[n - 1].value, fun, cls)
  }

  /** `resolveFunction`: the parameters declared and defined in a scope of
      their own, then the body in it; the scope is gone afterwards. */
  function FunctionPass(p: Resolution, decl: FunctionDecl, kind: FunctionType, cls: ClassType): (r: Resolution)
    ensures r.scopes == p.scopes && p.errors + ParamErrors(decl.params) <= r.errors
    decreases decl, 1
  {
    var scoped := p.(scopes := p.scopes + [ParamScope(decl.params)], errors := p.errors + ParamErrors(decl.params));
    var body := BodyPrefix(scoped, decl, |decl.body|, kind, cls);
    assert body.scopes[..|p.scopes|] == p.scopes;
    body.(scopes := Pop(body.scopes))
  }

  /** The first `n` statements of a function body, in order. */
  function BodyPrefix(p: Resolution, decl: FunctionDecl, n: nat, kind: FunctionType, cls: ClassType): (r: Resolution)
    requires n <= |decl.body| && |p.scopes| > 0
    ensures |r.scopes| == |p.scopes| && r.scopes[..|p.scopes| - 1] == p.scopes[..|p.scopes| - 1] && p.errors <= r.errors
    decreases decl, 0, n
  {
    if n == 0 then p
    else
      var before := BodyPrefix(p, decl, n - 1, kind, cls);
      if decl.body[n - 1].None? then before
      else StmtPass(before, decl.body[n - 1].value, kind, cls)
  }

  /** The methods of the class `s`, resolved in class context `cls`, in a
      scope defining `this`, inside one defining `super` when the class has
      a superclass; an `init` method as an initializer.  Both scopes are
      gone afterwards. */
  function MethodsPass(p: Resolution, s: Stmt, cls: ClassType): (r: Resolution)
    requires s.Class?
    ensures r.scopes == p.scopes && p.errors <= r.errors
    decreases s, 1
  {
    var outer := if s.superclass.Some? then Mark(p.scopes + [map[]], "super", true) else p.scopes;
    var done := MethodsPrefix(p.(scopes := Mark(outer + [map[]], "this", true)), s, |s.methods|, cls);
    assert Pop(done.scopes) == outer;
    assert s.superclass.Some? ==> Pop(outer) == p.scopes;
    done.(scopes := if s.superclass.Some? then Pop(Pop(done.scopes)) else Pop(done.scopes))
  }

  /** The kind a method is resolved as. */
  function MethodKind(m: FunctionDecl): FunctionType
  {
    if m.name.lexeme == "init" then Initializer else Method
  }

  /** The first `n` methods of the class `s`. */
  function MethodsPrefix(p: Resolution, s: Stmt, n: nat, cls: ClassType): (r: Resolution)
    requires s.Class? && n <= |s.methods|
    ensures r.scopes == p.scopes && p.errors <= r.errors
    decreases s, 0, n
  {
    if n == 0 then p
    else FunctionPass(MethodsPrefix(p, s, n - 1, cls), s.methods[n - 1], MethodKind(s.methods[n - 1]), cls)
  }

  /** The first `n` statements of a statement list (a program), in order,
      skipping the entries that failed to parse. */
  function StatementsPrefix(p: Resolution, statements: seq<Option<Stmt>>, n: nat, fun: FunctionType, cls: ClassType): (r: Resolution)
    requires n <= |statements|
    ensures |r.scopes| == |p.scopes| && p.errors <= r.errors
    ensures |p.scopes| > 0 ==> r.scopes[..|p.scopes| - 1] == p.scopes[..|p.scopes| - 1]
  {
    if n == 0 then p
    else
      var before := StatementsPrefix(p, statements, n - 1, fun, cls);
      if statements[n - 1].None? then before
      else StmtPass(before, statements[n - 1].value, fun, cls)
  }

  /** `a` and `b` hold the same side-table entry for `id`, or neither
      holds one. */
  ghost predicate SameAt(a: map<nat, nat>, b: map<nat, nat>, id: nat)
  {
    (id in a <==> id in b) && (id in a ==> a[id] == b[id])
  }

  /** Resolving a statement writes the side table only at the ids of the
      statement's own nodes: the entry for any other id is left as it was. */
  lemma {:induction false} StmtPassOnlyInside(p: Resolution, s: Stmt, fun: FunctionType, cls: ClassType, id: nat)
    requires id !in StmtNodeIds(s)
    ensures SameAt(StmtPass(p, s, fun, cls).locals, p.locals, id)
    decreases s, 3
  {
    match s
    case Block(_) => BlockPassOnlyInside(p, s, fun, cls, id);
    case Class(_, _, _) => ClassPassOnlyInside(p, s, id);
    case Expression(e) => RecordedOnlyInside(p.locals, e, p.scopes, cls, id);
    case Function(decl) => FunctionPassOnlyInside(DeclaredAndDefined(p, decl.name), decl, PlainFunction, cls, id);
    case If(condition, thenBranch, elseBranch) =>
      var q := ExprPass(p, condition, cls);
      RecordedOnlyInside(p.locals, condition, p.scopes, cls, id);
      StmtPassOnlyInside(q, thenBranch, fun, cls, id);
      if elseBranch.Some? {
        StmtPassOnlyInside(StmtPass(q, thenBranch, fun, cls), elseBranch.value, fun, cls, id);
      }
    case Print(e) => RecordedOnlyInside(p.locals, e, p.scopes, cls, id);
    case Return(_, value) =>
      if value.Some? {
        RecordedOnlyInside(p.locals, value.value, p.scopes, cls, id);
      }
    case Var(name, initializer) =>
      if initializer.Some? {
        RecordedOnlyInside(p.locals, initializer.value, Mark(p.scopes, name.lexeme, false), cls, id);
      }
    case While(condition, body) =>
      RecordedOnlyInside(p.locals, condition, p.scopes, cls, id);
      StmtPassOnlyInside(ExprPass(p, condition, cls), body, fun, cls, id);
  }

  lemma {:induction false} BlockPassOnlyInside(p: Resolution, s: Stmt, fun: FunctionType, cls: ClassType, id: nat)
    requires s.Block? && id !in StmtNodeIds(s)
    ensures SameAt(BlockPass(p, s, fun, cls).locals, p.locals, id)
    decreases s, 2
  {
    BlockPrefixOnlyInside(p.(scopes := p.scopes + [map[]]), s, |s.statements|, fun, cls, id);
  }

  lemma {:induction false} BlockPrefixOnlyInside(p: Resolution, s: Stmt, n: nat, fun: FunctionType, cls: ClassType, id: nat)
    requires s.Block? && n <= |s.statements| && |p.scopes| > 0 && id !in BlockNodeIds(s, n)
    ensures SameAt(BlockPrefix(p, s, n, fun, cls).locals, p.locals, id)
    decreases s, 1, n
  {
    if n > 0 {
      BlockPrefixOnlyInside(p, s, n - 1, fun, cls, id);
      if s.statements[n - 1].Some? {
        StmtPassOnlyInside(BlockPrefix(p, s, n - 1, fun, cls), s.statements[n - 1].value, fun, cls, id);
      }
    }
  }

  lemma {:induction false} ClassPassOnlyInside(p: Resolution, s: Stmt, id: nat)
    requires s.Class? && id !in StmtNodeIds(s)
    ensures SameAt(ClassPass(p, s).locals, p.locals, id)
    decreases s, 2
  {
    MethodsPassOnlyInside(ClassHeader(p, s), s, if s.superclass.None? then PlainClass else Subclass, id);
  }

  lemma {:induction false} MethodsPassOnlyInside(p: Resolution, s: Stmt, cls: ClassType, id: nat)
    requires s.Class? && id !in MethodNodeIds(s, |s.methods|)
    ensures SameAt(MethodsPass(p, s, cls).locals, p.locals, id)
    decreases s, 1
  {
    var outer := if s.superclass.Some? then Mark(p.scopes + [map[]], "super", true) else p.scopes;
    MethodsPrefixOnlyInside(p.(scopes := Mark(outer + [map[]], "this", true)), s, |s.methods|, cls, id);
  }

  lemma {:induction false} MethodsPrefixOnlyInside(p: Resolution, s: Stmt, n: nat, cls: ClassType, id: nat)
    requires s.Class? && n <= |s.methods| && id !in MethodNodeIds(s, n)
    ensures SameAt(MethodsPrefix(p, s, n, cls).locals, p.locals, id)
    decreases s, 0, n
  {
    if n > 0 {
      MethodsPrefixOnlyInside(p, s, n - 1, cls, id);
      FunctionPassOnlyInside(MethodsPrefix(p, s, n - 1, cls), s.methods[n - 1], MethodKind(s.methods[n - 1]), cls, id);
    }
  }

  lemma {:induction false} FunctionPassOnlyInside(p: Resolution, decl: FunctionDecl, kind: FunctionType, cls: ClassType, id: nat)
    requires id !in BodyNodeIds(decl, |decl.body|)
    ensures SameAt(FunctionPass(p, decl, kind, cls).locals, p.locals, id)
    decreases decl, 1
  {
    var scoped := p.(scopes := p.scopes + [ParamScope(decl.params)], errors := p.errors + ParamErrors(decl.params));
    BodyPrefixOnlyInside(scoped, decl, |decl.body|, kind, cls, id);
  }

  lemma {:induction false} BodyPrefixOnlyInside(p: Resolution, decl: FunctionDecl, n: nat, kind: FunctionType, cls: ClassType, id: nat)
    requires n <= |decl.body| && |p.scopes| > 0 && id !in BodyNodeIds(decl, n)
    ensures SameAt(BodyPrefix(p, decl, n, kind, cls).locals, p.locals, id)
    decreases decl, 0, n
  {
    if n > 0 {
      BodyPrefixOnlyInside(p, decl, n - 1, kind, cls, id);
      if decl.body[n - 1].Some? {
        StmtPassOnlyInside(BodyPrefix(p, decl, n - 1, kind, cls), decl.body[n - 1].value, kind, cls, id);
      }
    }
  }

  /** Resolving a program writes the side table only at the ids of its
      statements' nodes. */
  lemma {:induction false} StatementsPrefixOnlyInside(p: Resolution, statements: seq<Option<Stmt>>, n: nat, fun: FunctionType, cls: ClassType, id: nat)
    requires n <= |statements|
    requires forall k :: 0 <= k < n && statements[k].Some? ==> id !in StmtNodeIds(statements[k].value)
    ensures SameAt(StatementsPrefix(p, statements, n, fun, cls).locals, p.locals, id)
  {
    if n > 0 {
      StatementsPrefixOnlyInside(p, statements, n - 1, fun, cls, id);
      if statements[n - 1].Some? {
        StmtPassOnlyInside(StatementsPrefix(p, statements, n - 1, fun, cls), statements[n - 1].value, fun, cls, id);
      }
    }
  }

  class Resolver {
    var scopes: seq<Scope>
    var currentFunction: FunctionType
    var currentClass: ClassType
    /** The distances recorded for the Interpreter, keyed by node id. */
    var locals: map<nat, nat>
    /** The diagnostics reported so far, in order. */
    var errors: seq<Diagnostic>

    constructor ()
      ensures scopes == [] && currentFunction == NoFunction && currentClass == NoClass
      ensures locals == map[] && errors == []
    {
      scopes := [];
      currentFunction := NoFunction;
      currentClass := NoClass;
      locals := map[];
      errors := [];
    }

    method Error(token: Token, message: string)
      modifies this`errors
      ensures errors == old(errors) + [ErrorAt(token, message)]
    {
      errors := errors + [ErrorAt(token, message)];
    }

    method BeginScope()
      modifies this`scopes
      ensures scopes == old(scopes) + [map[]]
    {
      scopes := scopes + [map[]];
    }

    /** Pops the innermost scope; popping an empty stack does nothing. */
    method EndScope()
      modifies this`scopes
      ensures scopes == if |old(scopes)| == 0 then [] else old(scopes)[..|old(scopes)| - 1]
    {
      if |scopes| > 0 {
        scopes := scopes[..|scopes| - 1];
      }
    }

    /** Marks `name` declared but not yet defined in the innermost scope,
        reporting a name that scope already holds. */
    method Declare(name: Token)
      modifies this`scopes, this`errors
      ensures scopes == Mark(old(scopes), name.lexeme, false)
      ensures errors == old(errors) + DeclareErrors(old(scopes), name)
    {
      if |scopes| == 0 {
        return;
      }
      if name.lexeme in scopes[|scopes| - 1] {
        Error(name, "Already declare variable with this name in this scope.");
      }
      scopes := Mark(scopes, name.lexeme, false);
    }

    /** Marks `name` defined in the innermost scope. */
    method Define(name: Token)
      modifies this`scopes
      ensures scopes == Mark(old(scopes), name.lexeme, true)
    {
      if |scopes| == 0 {
        return;
      }
      scopes := Mark(scopes, name.lexeme, true);
    }

    /** Searches the scopes from the innermost outwards and records, for
        node `id`, how many scopes were crossed before reaching the one
        that declares `name`; records nothing for a global. */
    method ResolveLocal(id: nat, name: Token)
      modifies this`locals
      ensures locals == Record(old(locals), id, scopes, name.lexeme)
    {
      var i := |scopes| - 1;
      while i >= 0
        invariant -1 <= i < |scopes|
        invariant forall k :: i < k < |scopes| ==> name.lexeme !in scopes[k]
        invariant locals == old(locals)
      {
        if name.lexeme in scopes[i] {
          locals := locals[id := |scopes| - 1 - i];
          return;
        }
        i := i - 1;
      }
    }

    // -------------------------------------------------------------------
    // Expressions
    // -------------------------------------------------------------------

    method ResolveExpr(e: Expr)
      modifies this`locals, this`errors
      ensures locals == Recorded(old(locals), e, scopes, currentClass)
      ensures errors == old(errors) + ExprErrors(e, scopes, currentClass)
      decreases e, 1
    {
      match e
      case Assign(_, _, _) => ResolveAssign(e);
      case Binary(_, _, _) => ResolveOperands(e);
      case Call(_, _, _) => ResolveCall(e);
      case Get(_, _) => ResolveOperand(e);
      case Grouping(_) => ResolveOperand(e);
      case Literal(_) =>
      case Logical(_, _, _) => ResolveOperands(e);
      case Set(_, _, _) => ResolveSet(e);
      case Super(id, keyword, _) => ResolveSuper(id, keyword);
      case This(id, keyword) => ResolveThis(id, keyword);
      case Unary(_, _) => ResolveOperand(e);
      case Variable(id, name) => ResolveVariable(id, name);
    }

    /** A property access, a parenthesised expression and a unary
        expression resolve their one operand. */
    method ResolveOperand(e: Expr)
      requires e.Get? || e.Grouping? || e.Unary?
      modifies this`locals, this`errors
      ensures locals == Recorded(old(locals), e, scopes, currentClass)
      ensures errors == old(errors) + ExprErrors(e, scopes, currentClass)
      decreases e, 0
    {
      ResolveExpr(if e.Get? then e.obj else if e.Grouping? then e.expression else e.right);
    }

    /** An assignment resolves its value, then its target name. */
    method ResolveAssign(e: Expr)
      requires e.Assign?
      modifies this`locals, this`errors
      ensures locals == Recorded(old(locals), e, scopes, currentClass)
      ensures errors == old(errors) + ExprErrors(e, scopes, currentClass)
      decreases e, 0
    {
      ResolveExpr(e.value);
      ResolveLocal(e.id, e.name);
    }

    /** A binary or logical expression resolves its left operand, then its
        right one. */
    method ResolveOperands(e: Expr)
      requires e.Binary? || e.Logical?
      modifies this`locals, this`errors
      ensures locals == Recorded(old(locals), e, scopes, currentClass)
      ensures errors == old(errors) + ExprErrors(e, scopes, currentClass)
      decreases e, 0
    {
      ResolveExpr(e.left);
      ResolveExpr(e.right);
    }

    /** A property assignment resolves its value, then its object. */
    method ResolveSet(e: Expr)
      requires e.Set?
      modifies this`locals, this`errors
      ensures locals == Recorded(old(locals), e, scopes, currentClass)
      ensures errors == old(errors) + ExprErrors(e, scopes, currentClass)
      decreases e, 0
    {
      ResolveExpr(e.value);
      ResolveExpr(e.obj);
    }

    /** Resolves the callee, then every argument in order. */
    method ResolveCall(e: Expr)
      requires e.Call?
      modifies this`locals, this`errors
      ensures locals == Recorded(old(locals), e, scopes, currentClass)
      ensures errors == old(errors) + ExprErrors(e, scopes, currentClass)
      decreases e, 0
    {
      ResolveExpr(e.callee);
      ghost var afterCallee := locals;
      for i := 0 to |e.arguments|
        invariant locals == RecordedArgs(afterCallee, e, i, scopes, currentClass)
        invariant errors == old(errors) + ExprErrors(e.callee, scopes, currentClass) + ArgsErrors(e, i, scopes, currentClass)
      {
        ResolveExpr(e.arguments[i]);
      }
    }

    method ResolveSuper(id: nat, keyword: Token)
      modifies this`locals, this`errors
      ensures locals == Record(old(locals), id, scopes, keyword.lexeme)
      ensures errors == old(errors) + SuperErrors(keyword, currentClass)
    {
      if currentClass == NoClass {
        Error(keyword, "Can't use 'super' outside of a class.");
      } else if currentClass != Subclass {
        Error(keyword, "Can't use 'super' in a class with no superclass.");
      }
      ResolveLocal(id, keyword);
    }

    method ResolveThis(id: nat, keyword: Token)
      modifies this`locals, this`errors
      ensures locals == if currentClass == NoClass then old(locals) else Record(old(locals), id, scopes, keyword.lexeme)
      ensures errors == old(errors) + ThisErrors(keyword, currentClass)
    {
      if currentClass == NoClass {
        Error(keyword, "Can't use 'this' outside of a class.");
      } else {
        ResolveLocal(id, keyword);
      }
    }

    method ResolveVariable(id: nat, name: Token)
      modifies this`locals, this`errors
      ensures locals == Record(old(locals), id, scopes, name.lexeme)
      ensures errors == old(errors) + VariableErrors(name, scopes)
    {
      if |scopes| > 0 && name.lexeme in scopes[|scopes| - 1] && scopes[|scopes| - 1][name.lexeme] == false {
        Error(name, "Can't read local variable in its own initializer.");
      }
      ResolveLocal(id, name);
    }

    // -------------------------------------------------------------------
    // Statements
    // -------------------------------------------------------------------

    /** The state the statement functions describe. */
    function Current(): Resolution
      reads this
    {
      Resolution(scopes, locals, errors)
    }

    /** Resolves the statements of a program in order, skipping the entries
        of declarations that failed to parse. */
    method ResolveStatements(statements: seq<Option<Stmt>>)
      modifies this
      ensures Current() == StatementsPrefix(old(Current()), statements, |statements|, old(currentFunction), old(currentClass))
      ensures currentFunction == old(currentFunction) && currentClass == old(currentClass)
    {
      for i := 0 to |statements|
        invariant Current() == StatementsPrefix(old(Current()), statements, i, old(currentFunction), old(currentClass))
        invariant currentFunction == old(currentFunction) && currentClass == old(currentClass)
      {
        if statements[i].Some? {
          ResolveStmt(statements[i].value);
        }
      }
    }

    method ResolveStmt(s: Stmt)
      modifies this
      ensures Current() == StmtPass(old(Current()), s, old(currentFunction), old(currentClass))
      ensures currentFunction == old(currentFunction) && currentClass == old(currentClass)
      decreases s, 3
    {
      match s
      case Block(_) => ResolveBlock(s);
      case Class(_, _, _) => ResolveClass(s);
      case Expression(e) => ResolveExpr(e);
      case Function(_) => ResolveFunctionStmt(s);
      case If(_, _, _) => ResolveIf(s);
      case Print(e) => ResolveExpr(e);
      case Return(_, _) => ResolveReturn(s);
      case Var(_, _) => ResolveVar(s);
      case While(_, _) => ResolveWhile(s);
    }

    /** An `if` resolves its condition and both branches, whichever runs. */
    method ResolveIf(s: Stmt)
      requires s.If?
      modifies this
      ensures Current() == IfPass(old(Current()), s, old(currentFunction), old(currentClass))
      ensures currentFunction == old(currentFunction) && currentClass == old(currentClass)
      decreases s, 1
    {
      ResolveExpr(s.condition);
      ResolveStmt(s.thenBranch);
      if s.elseBranch.Some? {
        ResolveStmt(s.elseBranch.value);
      }
    }

    /** A `while` resolves its condition and its body once. */
    method ResolveWhile(s: Stmt)
      requires s.While?
      modifies this
      ensures Current() == StmtPass(old(Current()), s, old(currentFunction), old(currentClass))
      ensures currentFunction == old(currentFunction) && currentClass == old(currentClass)
      decreases s, 1
    {
      ResolveExpr(s.condition);
      ResolveStmt(s.body);
    }

    /** A block resolves its statements in a scope of its own, which is
        gone afterwards. */
    method ResolveBlock(s: Stmt)
      requires s.Block?
      modifies this
      ensures Current() == BlockPass(old(Current()), s, old(currentFunction), old(currentClass))
      ensures currentFunction == old(currentFunction) && currentClass == old(currentClass)
      decreases s, 1
    {
      BeginScope();
      ghost var start := Current();
      for i := 0 to |s.statements|
        invariant Current() == BlockPrefix(start, s, i, old(currentFunction), old(currentClass))
        invariant currentFunction == old(currentFunction) && currentClass == old(currentClass)
      {
        if s.statements[i].Some? {
          ResolveStmt(s.statements[i].value);
        }
      }
      EndScope();
    }

    /** `var name = initializer;`: the name is declared, then the
        initializer resolved, then the name defined. */
    method ResolveVar(s: Stmt)
      requires s.Var?
      modifies this
      ensures Current() == VarPass(old(Current()), s, old(currentClass))
      ensures currentFunction == old(currentFunction) && currentClass == old(currentClass)
    {
      Declare(s.name);
      if s.initializer.Some? {
        ResolveExpr(s.initializer.value);
      }
      Define(s.name);
    }

    method ResolveReturn(s: Stmt)
      requires s.Return?
      modifies this
      ensures Current() == ReturnPass(old(Current()), s, old(currentFunction), old(currentClass))
      ensures currentFunction == old(currentFunction) && currentClass == old(currentClass)
    {
      if currentFunction == NoFunction {
        Error(s.keyword, "Can't return form top-level code.");
      }
      if s.value.Some? {
        if currentFunction == Initializer {
          Error(s.keyword, "Can't return a value from an initializer.");
        }
        ResolveExpr(s.value.value);
      }
    }

    /** `fun name(...) {...}`: the name is declared and defined first, so
        the body can refer to it. */
    method ResolveFunctionStmt(s: Stmt)
      requires s.Function?
      modifies this
      ensures Current() == FunctionPass(DeclaredAndDefined(old(Current()), s.decl.name), s.decl, PlainFunction, old(currentClass))
      ensures currentFunction == old(currentFunction) && currentClass == old(currentClass)
      decreases s, 1
    {
      Declare(s.decl.name);
      Define(s.decl.name);
      ResolveFunction(s.decl, PlainFunction);
    }

    /** Resolves a function's parameters and body in a scope of their own,
        in the context of a function of kind `kind`. */
    method ResolveFunction(decl: FunctionDecl, kind: FunctionType)
      modifies this
      ensures Current() == FunctionPass(old(Current()), decl, kind, old(currentClass))
      ensures currentFunction == old(currentFunction) && currentClass == old(currentClass)
      decreases decl
    {
      var enclosingFunction := currentFunction;
      currentFunction := kind;
      ghost var p := Current();
      BeginScope();
      DeclareParams(decl.params);
      assert scopes == p.scopes + [ParamScope(decl.params)];
      ghost var start := Current();
      assert start == p.(scopes := p.scopes + [ParamScope(decl.params)], errors := p.errors + ParamErrors(decl.params));
      for j := 0 to |decl.body|
        invariant Current() == BodyPrefix(start, decl, j, kind, old(currentClass))
        invariant currentFunction == kind && currentClass == old(currentClass)
      {
        if decl.body[j].Some? {
          ResolveStmt(decl.body[j].value);
        }
      }
      EndScope();
      currentFunction := enclosingFunction;
    }

    /** Declares and defines each parameter in the fresh innermost scope,
        reporting every repeated name. */
    method DeclareParams(params: seq<Token>)
      requires |scopes| > 0 && scopes[|scopes| - 1] == map[]
      modifies this`scopes, this`errors
      ensures scopes == old(scopes)[|old(scopes)| - 1 := ParamScope(params)]
      ensures errors == old(errors) + ParamErrors(params)
    {
      for i := 0 to |params|
        invariant scopes == old(scopes)[|old(scopes)| - 1 := ParamScope(params[..i])]
        invariant errors == old(errors) + ParamErrors(params[..i])
      {
        ParamStep(params, i);
        ghost var before := scopes;
        Declare(params[i]);
        Define(params[i]);
        MarkTwice(before, params[i].lexeme);
      }
      assert params[..|params|] == params;
    }

    /** `class name < superclass { methods }`: the name is declared and
        defined, and the superclass resolved as a variable, before the
        methods. */
    method ResolveClass(s: Stmt)
      requires s.Class?
      modifies this
      ensures Current() == ClassPass(old(Current()), s)
      ensures currentFunction == old(currentFunction) && currentClass == old(currentClass)
      decreases s, 2
    {
      var enclosingClass := currentClass;
      ResolveClassHeader(s);
      ResolveMethods(s);
      currentClass := enclosingClass;
    }

    /** Declares the class name and resolves the superclass reference, in
        the class context the methods are then resolved in. */
    method ResolveClassHeader(s: Stmt)
      requires s.Class?
      modifies this`currentClass, this`scopes, this`locals, this`errors
      ensures Current() == ClassHeader(old(Current()), s)
      ensures currentClass == if s.superclass.None? then PlainClass else Subclass
    {
      currentClass := PlainClass;
      ghost var declared := DeclaredAndDefined(Current(), s.name);
      DeclareClass(s);
      ghost var checked := declared.(errors := declared.errors + InheritErrors(s.name, s.superclass));
      assert Current() == checked;
      if s.superclass.Some? {
        currentClass := Subclass;
        ResolveVariable(s.superclass.value.id, s.superclass.value.name);
      }
    }

    /** Declares and defines the class name, reporting a class that names
        itself as its superclass. */
    method DeclareClass(s: Stmt)
      requires s.Class?
      modifies this`scopes, this`errors
      ensures scopes == Mark(old(scopes), s.name.lexeme, true)
      ensures errors == old(errors) + DeclareErrors(old(scopes), s.name) + InheritErrors(s.name, s.superclass)
    {
      Declare(s.name);
      Define(s.name);
      MarkTwice(old(scopes), s.name.lexeme);
      if s.superclass.Some? && s.name.lexeme == s.superclass.value.name.lexeme {
        Error(s.superclass.value.name, "A class can't inherit from itself.");
      }
    }

    /** Resolves the methods of a class in a scope defining `this`, itself
        inside one defining `super` when the class has a superclass; an
        `init` method is resolved as an initializer. */
    method ResolveMethods(s: Stmt)
      requires s.Class?
      modifies this
      ensures Current() == MethodsPass(old(Current()), s, old(currentClass))
      ensures currentFunction == old(currentFunction) && currentClass == old(currentClass)
      decreases s, 1
    {
      ghost var p := Current();
      ghost var outer := if s.superclass.Some? then Mark(p.scopes + [map[]], "super", true) else p.scopes;
      if s.superclass.Some? {
        BeginScope();
        scopes := Mark(scopes, "super", true);
      }
      assert scopes == outer;
      BeginScope();
      scopes := Mark(scopes, "this", true);
      assert Current() == p.(scopes := Mark(outer + [map[]], "this", true));
      ResolveMethodList(s);
      ghost var done := Current();
      assert MethodsPass(p, s, old(currentClass)) == done.(scopes := if s.superclass.Some? then Pop(Pop(done.scopes)) else Pop(done.scopes));
      EndScope();
      if s.superclass.Some? {
        EndScope();
      }
    }

    /** Resolves each method of the class `s` in turn. */
    method ResolveMethodList(s: Stmt)
      requires s.Class?
      modifies this
      ensures Current() == MethodsPrefix(old(Current()), s, |s.methods|, old(currentClass))
      ensures currentFunction == old(currentFunction) && currentClass == old(currentClass)
      decreases s, 0
    {
      for i := 0 to |s.methods|
        invariant Current() == MethodsPrefix(old(Current()), s, i, old(currentClass))
        invariant currentFunction == old(currentFunction) && currentClass == old(currentClass)
      {
        ResolveFunction(s.methods[i], MethodKind(s.methods[i]));
      }
    }
  }

  // ---------------------------------------------------------------------
  // Helper lemmas for the statement visitors
  // ---------------------------------------------------------------------

  /** Declaring then defining a name leaves it defined. */
  lemma MarkTwice(scopes: seq<Scope>, name: string)
    ensures Mark(Mark(scopes, name, false), name, true) == Mark(scopes, name, true)
  {
    if |scopes| > 0 {
      var top := scopes[|scopes| - 1];
      assert top[name := false][name := true] == top[name := true];
    }
  }

  /** Declaring and defining parameter `i` extends the parameter scope and
      the parameter diagnostics by that parameter. */
  lemma ParamStep(params: seq<Token>, i: nat)
    requires i < |params|
    ensures ParamScope(params[..i + 1]) == ParamScope(params[..i])[params[i].lexeme := true]
    ensures ParamErrors(params[..i + 1]) == ParamErrors(params[..i])
      + (if params[i].lexeme in ParamScope(params[..i])
         then [ErrorAt(params[i], "Already declare variable with this name in this scope.")]
         else [])
  {
    var p := params[..i + 1];
    var front := params[..i];
    var name := params[i].lexeme;
    assert p[..|p| - 1] == front;
    assert p[|p| - 1] == params[i];
    assert (exists k :: 0 <= k < |p| - 1 && p[k].lexeme == name) <==> name in ParamScope(front) by {
      if exists k :: 0 <= k < |p| - 1 && p[k].lexeme == name {
        var k :| 0 <= k < |p| - 1 && p[k].lexeme == name;
        assert front[k].lexeme == name;
      }
      if name in ParamScope(front) {
        var k :| 0 <= k < |front| && front[k].lexeme == name;
        assert p[k].lexeme == name;
      }
    }
  }
}
