/** Environments: name-to-value frames, each nested in an enclosing one,
    and the heap that holds every frame and every instance's fields.

    A frame is named by its index in `frames`; a frame's `enclosing` frame
    is always an earlier one, so every chain of `enclosing` links is finite
    and ends at a frame with none (the global environment). */
module Environment {
  import opened Wrappers
  import opened Tokens
  import opened Values

  /** Every frame is nested only in an earlier frame. */
  ghost predicate Linked(frames: seq<Frame>)
  {
    forall k :: 0 <= k < |frames| && frames[k].enclosing.Some? ==> frames[k].enclosing.value < k
  }

  /** The frame reached from `env` by following exactly `distance`
      `enclosing` links (none for a distance of zero or less); `None` when
      the chain ends first. */
  function Ancestor(frames: seq<Frame>, env: nat, distance: int): (r: Option<nat>)
    requires Linked(frames) && env < |frames|
    ensures r.Some? ==> r.value <= env
    decreases env
  {
    if distance <= 0 then Some(env)
    else
      match frames[env].enclosing
      case None => None
      case Some(parent) => Ancestor(frames, parent, distance - 1)
  }

  /** How many `enclosing` links lie between `env` and the innermost frame
      on its chain that binds `name`; `None` when no frame on the chain
      does. */
  function Hops(frames: seq<Frame>, env: nat, name: string): (r: Option<nat>)
    requires Linked(frames) && env < |frames|
    ensures r.Some? ==> Ancestor(frames, env, r.value).Some?
    ensures r.Some? ==> name in frames[Ancestor(frames, env, r.value).value].values
    ensures r.Some? ==> forall d :: 0 <= d < r.value ==>
      Ancestor(frames, env, d).Some? && name !in frames[Ancestor(frames, env, d).value].values
    ensures r.None? ==> forall d :: 0 <= d && Ancestor(frames, env, d).Some? ==> name !in frames[Ancestor(frames, env, d).value].values
    decreases env
  {
    if name in frames[env].values then Some(0)
    else
      match frames[env].enclosing
      case None => None
      case Some(parent) =>
        match Hops(frames, parent, name)
        case None => None
        case Some(d) => Some(d + 1)
  }

  /** The message for a name bound nowhere on the chain. */
  function UndefinedVariable(name: Token): Failure
  {
    RuntimeError(name, "Undefined variable " + name.lexeme + ".")
  }

  /** `get`: the value of `name` in the innermost frame of the chain from
      `env` that binds it; an error when none does. */
  function Lookup(frames: seq<Frame>, env: nat, name: Token): (r: Eval)
    requires Linked(frames) && env < |frames|
    ensures Hops(frames, env, name.lexeme).None? ==> r == Fail(UndefinedVariable(name))
    ensures Hops(frames, env, name.lexeme).Some? ==>
      r == Ok(frames[Ancestor(frames, env, Hops(frames, env, name.lexeme).value).value].values[name.lexeme])
    decreases env
  {
    if name.lexeme in frames[env].values then Ok(frames[env].values[name.lexeme])
    else if frames[env].enclosing.Some? then Lookup(frames, frames[env].enclosing.value, name)
    else Fail(UndefinedVariable(name))
  }

  /** `getAt`: the binding of `name` in the frame exactly `distance` links
      up from `env`, `undefined` when that frame does not bind it; a host
      error when the chain is shorter than `distance`. */
  function LookupAt(frames: seq<Frame>, env: nat, distance: int, name: string): (r: Eval)
    requires Linked(frames) && env < |frames|
    ensures Ancestor(frames, env, distance).None? <==> r.Fail?
    ensures Ancestor(frames, env, distance).Some? && name in frames[Ancestor(frames, env, distance).value].values ==>
      r == Ok(frames[Ancestor(frames, env, distance).value].values[name])
  {
    match Ancestor(frames, env, distance)
    case None => Fail(MissingEnvironment)
    case Some(k) => Ok(if name in frames[k].values then frames[k].values[name] else LoxUndefined)
  }

  /** The host error of walking past the global environment. */
  const MissingEnvironment := HostError("no environment at that distance")

  /** Whatever a lookup finds in a well-formed heap refers only to existing
      objects. */
  lemma LookupOk(frames: seq<Frame>, instances: seq<map<string, Value>>, env: nat, name: Token)
    requires HeapOk(frames, instances) && env < |frames|
    ensures EvalOk(Lookup(frames, env, name), |frames|, |instances|)
  {
    var h := Hops(frames, env, name.lexeme);
    if h.Some? {
      var k := Ancestor(frames, env, h.value).value;
      assert BindingsOk(frames[k].values, |frames|, |instances|);
    }
  }

  lemma LookupAtOk(frames: seq<Frame>, instances: seq<map<string, Value>>, env: nat, distance: int, name: string)
    requires HeapOk(frames, instances) && env < |frames|
    ensures EvalOk(LookupAt(frames, env, distance, name), |frames|, |instances|)
  {
    var a := Ancestor(frames, env, distance);
    if a.Some? {
      assert BindingsOk(frames[a.value].values, |frames|, |instances|);
    }
  }

  /** A binding just made is what a lookup from the same frame finds. */
  lemma DefineThenLookup(frames: seq<Frame>, env: nat, name: Token, v: Value)
    requires Linked(frames) && env < |frames|
    ensures Linked(Rebind(frames, env, name.lexeme, v))
    ensures Lookup(Rebind(frames, env, name.lexeme, v), env, name) == Ok(v)
  {
  }

  /** `frames` with `name` bound to `v` in frame `k`, creating or
      overwriting the binding. */
  function Rebind(frames: seq<Frame>, k: nat, name: string, v: Value): (r: seq<Frame>)
    requires k < |frames|
    ensures |r| == |frames|
    ensures forall j :: 0 <= j < |frames| && j != k ==> r[j] == frames[j]
    ensures r[k].enclosing == frames[k].enclosing && r[k].values == frames[k].values[name := v]
  {
    frames[k := frames[k].(values := frames[k].values[name := v])]
  }

  /** After `assign` succeeds, a lookup of the same name from the same
      frame finds the assigned value. */
  lemma {:induction false} AssignThenLookup(frames: seq<Frame>, env: nat, name: Token, v: Value)
    requires Linked(frames) && env < |frames| && Hops(frames, env, name.lexeme).Some?
    ensures var k := Ancestor(frames, env, Hops(frames, env, name.lexeme).value).value;
            Linked(Rebind(frames, k, name.lexeme, v)) && Lookup(Rebind(frames, k, name.lexeme, v), env, name) == Ok(v)
    decreases env
  {
    var k := Ancestor(frames, env, Hops(frames, env, name.lexeme).value).value;
    var after := Rebind(frames, k, name.lexeme, v);
    assert Linked(after) by {
      forall j | 0 <= j < |after| && after[j].enclosing.Some?
        ensures after[j].enclosing.value < j
      {
        assert after[j].enclosing == frames[j].enclosing;
      }
    }
    if name.lexeme !in frames[env].values {
      var parent := frames[env].enclosing.value;
      AssignThenLookup(frames, parent, name, v);
      assert after[env] == frames[env];
    }
  }

  /** `assign` never creates a binding: every frame keeps the names it had. */
  lemma AssignKeepsNames(frames: seq<Frame>, env: nat, name: string, v: Value)
    requires Linked(frames) && env < |frames| && Hops(frames, env, name).Some?
    ensures var k := Ancestor(frames, env, Hops(frames, env, name).value).value;
            forall j :: 0 <= j < |frames| ==> Rebind(frames, k, name, v)[j].values.Keys == frames[j].values.Keys
  {
  }

  /** The global environment is reached from every frame. */
  lemma {:induction false} ChainEnds(frames: seq<Frame>, env: nat)
    requires Linked(frames) && env < |frames|
    ensures exists d :: 0 <= d <= env && Ancestor(frames, env, d).Some?
                     && frames[Ancestor(frames, env, d).value].enclosing.None?
    decreases env
  {
    match frames[env].enclosing
    case None =>
      assert Ancestor(frames, env, 0) == Some(env);
    case Some(parent) =>
      ChainEnds(frames, parent);
      var d :| 0 <= d <= parent && Ancestor(frames, parent, d).Some?
                && frames[Ancestor(frames, parent, d).value].enclosing.None?;
      assert Ancestor(frames, env, d + 1) == Ancestor(frames, parent, d);
  }

  /** Frames are linked to earlier ones, and every value stored in a frame
      or an instance refers only to existing frames and instances. */
  ghost predicate HeapOk(frames: seq<Frame>, instances: seq<map<string, Value>>)
  {
    && Linked(frames)
    && (forall k :: 0 <= k < |frames| ==> BindingsOk(frames[k].values, |frames|, |instances|))
    && (forall r :: 0 <= r < |instances| ==> BindingsOk(instances[r], |frames|, |instances|))
  }

  /** Binding a value that refers only to existing objects keeps the heap
      well formed. */
  lemma RebindOk(frames: seq<Frame>, instances: seq<map<string, Value>>, k: nat, name: string, v: Value)
    requires HeapOk(frames, instances) && k < |frames| && ValueOk(v, |frames|, |instances|)
    ensures HeapOk(Rebind(frames, k, name, v), instances)
  {
    var r := Rebind(frames, k, name, v);
    forall j | 0 <= j < |r|
      ensures BindingsOk(r[j].values, |r|, |instances|)
    {
      if j != k {
        assert r[j] == frames[j];
      }
    }
  }

  /** Adding a frame nested in an existing one, whose bindings refer only
      to existing objects, keeps the heap well formed. */
  lemma PushFrameOk(frames: seq<Frame>, instances: seq<map<string, Value>>, f: Frame)
    requires HeapOk(frames, instances)
    requires f.enclosing.Some? ==> f.enclosing.value < |frames|
    requires BindingsOk(f.values, |frames| + 1, |instances|)
    ensures HeapOk(frames + [f], instances)
  {
    assert forall k :: 0 <= k < |frames| ==> (frames + [f])[k] == frames[k];
  }

  /** Adding an instance with no fields keeps the heap well formed. */
  lemma PushInstanceOk(frames: seq<Frame>, instances: seq<map<string, Value>>)
    requires HeapOk(frames, instances)
    ensures HeapOk(frames, instances + [map[]])
  {
    assert forall r :: 0 <= r < |instances| ==> (instances + [map[]])[r] == instances[r];
  }

  /** The heap: every environment frame and every instance's field table
      that has been created, and the counter that gives each new function
      and class object its identity. */
  class Heap {
    var frames: seq<Frame>
    var instances: seq<map<string, Value>>
    var serial: nat

    /** Frames are linked to earlier ones, and every value stored anywhere
        refers only to existing frames and instances. */
    ghost predicate Valid()
      reads this
    {
      HeapOk(frames, instances)
    }

    constructor ()
      ensures Valid() && frames == [] && instances == [] && serial == 0
    {
      frames := [];
      instances := [];
      serial := 0;
    }

    /** A fresh, empty frame nested in `enclosing`. */
    method NewEnvironment(enclosing: Option<nat>) returns (env: nat)
      requires Valid() && (enclosing.Some? ==> enclosing.value < |frames|)
      modifies this`frames
      ensures Valid()
      ensures env == |old(frames)| && frames == old(frames) + [Frame(map[], enclosing)]
    {
      env := |frames|;
      frames := frames + [Frame(map[], enclosing)];
      assert forall k :: 0 <= k < |old(frames)| ==> frames[k] == old(frames)[k];
    }

    /** Binds `name` to `v` in frame `env` only, overwriting any binding
        the frame has. */
    method Define(env: nat, name: string, v: Value)
      requires Valid() && env < |frames| && ValueOk(v, |frames|, |instances|)
      modifies this`frames
      ensures Valid()
      ensures frames == Rebind(old(frames), env, name, v)
    {
      RebindOk(frames, instances, env, name, v);
      frames := Rebind(frames, env, name, v);
    }

    /** Rebinds `name` to `v` in the innermost frame of the chain from
        `env` that binds it, and in no other frame; an error, changing
        nothing, when no frame binds it. */
    method Assign(env: nat, name: Token, v: Value) returns (r: Eval)
      requires Valid() && env < |frames| && ValueOk(v, |frames|, |instances|)
      modifies this`frames
      ensures Valid()
      ensures Hops(old(frames), env, name.lexeme).None? ==>
        r == Fail(UndefinedVariable(name)) && frames == old(frames)
      ensures Hops(old(frames), env, name.lexeme).Some? ==>
        var k := Ancestor(old(frames), env, Hops(old(frames), env, name.lexeme).value).value;
        r == Ok(v) && frames == Rebind(old(frames), k, name.lexeme, v)
      decreases env
    {
      if name.lexeme in frames[env].values {
        RebindOk(frames, instances, env, name.lexeme, v);
        frames := Rebind(frames, env, name.lexeme, v);
        return Ok(v);
      }
      if frames[env].enclosing.Some? {
        r := Assign(frames[env].enclosing.value, name, v);
        return;
      }
      return Fail(UndefinedVariable(name));
    }

    /** Binds `name` to `v` in the frame exactly `distance` links up from
        `env`; a host error, changing nothing, when the chain is shorter. */
    method AssignAt(env: nat, distance: int, name: Token, v: Value) returns (r: Eval)
      requires Valid() && env < |frames| && ValueOk(v, |frames|, |instances|)
      modifies this`frames
      ensures Valid()
      ensures Ancestor(old(frames), env, distance).None? ==> r == Fail(MissingEnvironment) && frames == old(frames)
      ensures Ancestor(old(frames), env, distance).Some? ==>
        r == Ok(v) && frames == Rebind(old(frames), Ancestor(old(frames), env, distance).value, name.lexeme, v)
    {
      match Ancestor(frames, env, distance)
      case None =>
        r := Fail(MissingEnvironment);
      case Some(k) =>
        RebindOk(frames, instances, k, name.lexeme, v);
        frames := Rebind(frames, k, name.lexeme, v);
        r := Ok(v);
    }

    /** A fresh instance with no fields. */
    method NewInstance() returns (ref: nat)
      requires Valid()
      modifies this`instances
      ensures Valid()
      ensures ref == |old(instances)| && instances == old(instances) + [map[]]
    {
      ref := |instances|;
      instances := instances + [map[]];
      assert forall r :: 0 <= r < |old(instances)| ==> instances[r] == old(instances)[r];
    }

    /** Creates or overwrites field `name` of instance `ref`; no other
        field of any instance changes. */
    method SetField(ref: nat, name: string, v: Value)
      requires Valid() && ref < |instances| && ValueOk(v, |frames|, |instances|)
      modifies this`instances
      ensures Valid()
      ensures instances == old(instances)[ref := old(instances)[ref][name := v]]
    {
      instances := instances[ref := instances[ref][name := v]];
    }

    /** The identity of a newly created function or class object. */
    method NextSerial() returns (s: nat)
      modifies this`serial
      ensures s == old(serial) && serial == old(serial) + 1
    {
      s := serial;
      serial := serial + 1;
    }
  }
}
