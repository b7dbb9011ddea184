/** Function objects (`LoxFunction`): arity, binding to an instance, the
    frame a call runs in, and how the outcome of running the body becomes
    the call's result.  Running the body itself belongs to the
    Interpreter. */
module Functions {
  import opened Wrappers
  import opened Tokens
  import opened Ast
  import opened Values
  import opened Environment

  /** The number of declared parameters. */
  function Arity(f: FunctionObject): (n: nat)
    ensures n == |f.declaration.params|
  {
    |f.declaration.params|
  }

  /** `bind`: a new function object with the same declaration and flag,
      closing over a fresh frame, nested in the old closure, that binds
      only `this`. */
  method Bind(heap: Heap, f: FunctionObject, instance: Value) returns (bound: FunctionObject)
    requires heap.Valid() && f.closure < |heap.frames| && ValueOk(instance, |heap.frames|, |heap.instances|)
    modifies heap
    ensures heap.Valid()
    ensures bound == FunctionObject(old(heap.serial), f.declaration, |old(heap.frames)|, f.isInitializer)
    ensures heap.frames == old(heap.frames) + [Frame(map["this" := instance], Some(f.closure))]
    ensures heap.instances == old(heap.instances) && heap.serial == old(heap.serial) + 1
  {
    var env := heap.NewEnvironment(Some(f.closure));
    heap.Define(env, "this", instance);
    var serial := heap.NextSerial();
    bound := FunctionObject(serial, f.declaration, env, f.isInitializer);
  }

  /** The argument for parameter `i`: `undefined` past the end of the
      arguments. */
  function ArgumentAt(arguments: seq<Value>, i: nat): Value
  {
    if i < |arguments| then arguments[i] else LoxUndefined
  }

  /** The bindings of a call frame after its parameters are defined one
      after another, left to right. */
  function ParameterBindings(params: seq<Token>, arguments: seq<Value>): map<string, Value>
  {
    if params == [] then map[]
    else ParameterBindings(params[..|params| - 1], arguments)[params[|params| - 1].lexeme := ArgumentAt(arguments, |params| - 1)]
  }

  /** The call frame binds exactly the parameter names. */
  lemma {:induction false} ParameterNames(params: seq<Token>, arguments: seq<Value>)
    ensures ParameterBindings(params, arguments).Keys == set i | 0 <= i < |params| :: params[i].lexeme
  {
    if params != [] {
      var front := params[..|params| - 1];
      ParameterNames(front, arguments);
      var all := set i | 0 <= i < |params| :: params[i].lexeme;
      var before := set i | 0 <= i < |front| :: front[i].lexeme;
      assert all == before + {params[|params| - 1].lexeme} by {
        forall n | n in all ensures n in before + {params[|params| - 1].lexeme} {
          var i :| 0 <= i < |params| && params[i].lexeme == n;
          if i < |front| {
            assert front[i].lexeme == n;
          }
        }
        forall n | n in before ensures n in all {
          var i :| 0 <= i < |front| && front[i].lexeme == n;
          assert params[i].lexeme == n;
        }
      }
    }
  }

  /** Each parameter is bound to the argument of its last occurrence in the
      parameter list. */
  lemma {:induction false} ParameterValues(params: seq<Token>, arguments: seq<Value>, i: nat)
    requires i < |params| && forall j :: i < j < |params| ==> params[j].lexeme != params[i].lexeme
    ensures params[i].lexeme in ParameterBindings(params, arguments)
    ensures ParameterBindings(params, arguments)[params[i].lexeme] == ArgumentAt(arguments, i)
  {
    if i < |params| - 1 {
      var front := params[..|params| - 1];
      assert front[i] == params[i];
      assert forall j :: i < j < |front| ==> front[j] == params[j];
      ParameterValues(front, arguments, i);
    }
  }

  /** The bindings of a call frame refer only to existing objects when the
      arguments do. */
  lemma {:induction false} ParameterBindingsOk(params: seq<Token>, arguments: seq<Value>, frames: nat, instances: nat)
    requires ValuesOk(arguments, frames, instances)
    ensures BindingsOk(ParameterBindings(params, arguments), frames, instances)
  {
    if params != [] {
      ParameterBindingsOk(params[..|params| - 1], arguments, frames, instances);
    }
  }

  /** The frame a call of `f` runs its body in: nested in the closure,
      with every parameter defined in turn to its argument. */
  method BindArguments(heap: Heap, f: FunctionObject, arguments: seq<Value>) returns (env: nat)
    requires heap.Valid() && f.closure < |heap.frames|
    requires forall i :: 0 <= i < |arguments| ==> ValueOk(arguments[i], |heap.frames|, |heap.instances|)
    modifies heap`frames
    ensures heap.Valid()
    ensures env == |old(heap.frames)|
    ensures heap.frames == old(heap.frames) + [Frame(ParameterBindings(f.declaration.params, arguments), Some(f.closure))]
  {
    var params := f.declaration.params;
    env := heap.NewEnvironment(Some(f.closure));
    for i := 0 to |params|
      invariant heap.Valid() && env == |old(heap.frames)| && |heap.frames| == env + 1
      invariant heap.frames == old(heap.frames) + [Frame(ParameterBindings(params[..i], arguments), Some(f.closure))]
    {
      heap.Define(env, params[i].lexeme, ArgumentAt(arguments, i));
      assert params[..i + 1][..i] == params[..i];
    }
    assert params[..|params|] == params;
  }

  /** The result of a call, given how its body completed and the value of
      `this` in the closure: an initializer always yields `this`, whether
      it returned early or ran to the end; any other function yields the
      returned value, or `undefined` when the body ends without `return`;
      a failure propagates unchanged. */
  function CallOutcome(body: Completion, isInitializer: bool, thisValue: Eval): (r: Eval)
    ensures body.Raised? ==> r == Fail(body.failure)
    ensures !body.Raised? && isInitializer ==> r == thisValue
    ensures body.Returned? && !isInitializer ==> r == Ok(body.value)
    ensures body.Normal? && !isInitializer ==> r == Ok(LoxUndefined)
  {
    match body
    case Raised(failure) => Fail(failure)
    case Returned(v) => if isInitializer then thisValue else Ok(v)
    case Normal => if isInitializer then thisValue else Ok(LoxUndefined)
  }

  /** Only a failure of the body or of reading `this` makes a call fail. */
  lemma CallOutcomeFails(body: Completion, isInitializer: bool, thisValue: Eval)
    ensures CallOutcome(body, isInitializer, thisValue).Fail? <==> body.Raised? || (isInitializer && thisValue.Fail?)
  {
  }
}
