/** The values a running program computes with, and the ways evaluation
    can end.

    Objects of the source that have an identity are modelled so that the
    identity is explicit: an instance is an index into the heap's table of
    field maps, and every function and class object carries the serial
    number it was created with.  An environment is an index into the heap's
    table of frames. */
module Values {
  import opened Wrappers
  import opened Tokens
  import opened Ast

  /** A function object: its declaration, the environment it closes over,
      and whether it is a class's initializer (a method named `init`). */
  datatype FunctionObject = FunctionObject(serial: nat, declaration: FunctionDecl, closure: nat, isInitializer: bool)

  /** A class object: its name and its own method table. */
  datatype ClassObject = ClassObject(serial: nat, name: string, methods: map<string, FunctionObject>)

  datatype Value =
    | LoxNil          // JavaScript `null`
    | LoxUndefined    // JavaScript `undefined`: an uninitialised variable, a missing return value
    | LoxBool(b: bool)
    | LoxNumber(n: real)
    | LoxString(s: string)
    | LoxFunction(f: FunctionObject)
    | LoxClass(c: ClassObject)
    | LoxInstance(ref: nat, klass: ClassObject)
    | NativeClock     // the global `clock` function

  /** One environment: its bindings and the environment it is nested in
      (`None` for the global environment). */
  datatype Frame = Frame(values: map<string, Value>, enclosing: Option<nat>)

  /** Why evaluation stopped early: a runtime error of the language, an
      exception of the host (a property read on `undefined`, say), or
      running out of fuel. */
  datatype Failure =
    | RuntimeError(token: Token, message: string)
    | HostError(message: string)
    | OutOfFuel

  /** The result of evaluating an expression. */
  datatype Eval = Ok(value: Value) | Fail(failure: Failure)

  /** How a statement completes: normally, through a `return` (the
      source's thrown `Return`), or abruptly with a failure. */
  datatype Completion = Normal | Returned(value: Value) | Raised(failure: Failure)

  // ---------------------------------------------------------------------
  // References that point into the heap
  // ---------------------------------------------------------------------

  /** Every method of `c` closes over one of the first `frames` environments. */
  ghost predicate ClassOk(c: ClassObject, frames: nat)
  {
    forall m :: m in c.methods ==> c.methods[m].closure < frames
  }

  /** Every reference inside `v` points into a heap with `frames`
      environments and `instances` instances. */
  ghost predicate ValueOk(v: Value, frames: nat, instances: nat)
  {
    match v
    case LoxFunction(f) => f.closure < frames
    case LoxClass(c) => ClassOk(c, frames)
    case LoxInstance(ref, klass) => ref < instances && ClassOk(klass, frames)
    case _ => true
  }

  ghost predicate EvalOk(r: Eval, frames: nat, instances: nat)
  {
    r.Ok? ==> ValueOk(r.value, frames, instances)
  }

  ghost predicate CompletionOk(c: Completion, frames: nat, instances: nat)
  {
    c.Returned? ==> ValueOk(c.value, frames, instances)
  }

  /** Every value bound in `m` is one of `ValueOk`. */
  ghost predicate BindingsOk(m: map<string, Value>, frames: nat, instances: nat)
  {
    forall n :: n in m ==> ValueOk(m[n], frames, instances)
  }

  /** Every value of `vs` is one of `ValueOk`. */
  ghost predicate ValuesOk(vs: seq<Value>, frames: nat, instances: nat)
  {
    forall i :: 0 <= i < |vs| ==> ValueOk(vs[i], frames, instances)
  }

  /** A value that refers into a heap keeps doing so as the heap grows. */
  lemma ValueOkGrows(v: Value, frames: nat, instances: nat, frames': nat, instances': nat)
    requires ValueOk(v, frames, instances) && frames <= frames' && instances <= instances'
    ensures ValueOk(v, frames', instances')
  {
  }

  lemma ValuesOkGrows(vs: seq<Value>, frames: nat, instances: nat, frames': nat, instances': nat)
    requires ValuesOk(vs, frames, instances) && frames <= frames' && instances <= instances'
    ensures ValuesOk(vs, frames', instances')
  {
    forall i | 0 <= i < |vs|
      ensures ValueOk(vs[i], frames', instances')
    {
      ValueOkGrows(vs[i], frames, instances, frames', instances');
    }
  }
}
