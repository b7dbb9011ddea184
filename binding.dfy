/** How the Resolver's distances relate to the Interpreter's environments.

    While the Resolver visits a node it has a stack of scopes; while the
    Interpreter runs the same node it has a chain of frames.  When the
    innermost frames of the chain hold the same names as the scopes, one
    frame per scope and innermost first, the distance the Resolver records
    for a name is exactly the number of `enclosing` links the Interpreter's
    dynamic lookup walks, so reading at that distance finds the binding
    `get` finds. */
module Binding {
  import opened Wrappers
  import opened Tokens
  import opened Values
  import opened Environment
  import opened Resolver
  import opened Semantics

  /** The `k`-th frame up the chain from `env` binds the same names as the
      `k`-th scope from the top of the stack, for every scope. */
  ghost predicate Mirrors(scopes: seq<Scope>, frames: seq<Frame>, env: nat)
    requires Linked(frames) && env < |frames|
  {
    forall k :: 0 <= k < |scopes| ==>
      && Ancestor(frames, env, k).Some?
      && frames[Ancestor(frames, env, k).value].values.Keys == scopes[|scopes| - 1 - k].Keys
  }

  /** The recorded distance is the number of hops to the innermost frame
      binding the name, and reading the frame at that distance gives what
      the dynamic lookup gives.  A name in no scope is bound in none of the
      mirrored frames, so it is looked up further out (in the globals). */
  lemma {:induction false} DistanceIsHops(scopes: seq<Scope>, frames: seq<Frame>, env: nat, name: Token)
    requires Linked(frames) && env < |frames| && Mirrors(scopes, frames, env)
    ensures Distance(scopes, name.lexeme).Some? ==>
      && Hops(frames, env, name.lexeme) == Distance(scopes, name.lexeme)
      && LookupAt(frames, env, Distance(scopes, name.lexeme).value, name.lexeme) == Lookup(frames, env, name)
    ensures Distance(scopes, name.lexeme).None? ==>
      Hops(frames, env, name.lexeme).None? || Hops(frames, env, name.lexeme).value >= |scopes|
    decreases |scopes|
  {
    if |scopes| > 0 {
      var n := |scopes|;
      assert Ancestor(frames, env, 0) == Some(env);
      if name.lexeme !in scopes[n - 1] {
        assert name.lexeme !in frames[env].values;
        if n > 1 {
          assert Ancestor(frames, env, 1).Some?;
          var parent := frames[env].enclosing.value;
          var front := scopes[..n - 1];
          assert Mirrors(front, frames, parent) by {
            forall k | 0 <= k < |front|
              ensures Ancestor(frames, parent, k).Some?
              ensures frames[Ancestor(frames, parent, k).value].values.Keys == front[|front| - 1 - k].Keys
            {
              assert Ancestor(frames, env, k + 1) == Ancestor(frames, parent, k);
              assert front[|front| - 1 - k] == scopes[n - 1 - (k + 1)];
            }
          }
          DistanceIsHops(front, frames, parent, name);
        }
      }
    }
  }

  /** For the Interpreter: a variable whose node carries the distance the
      Resolver computed reads the binding that the dynamic walk from the
      current environment finds. */
  lemma ResolvedRead(cx: Context, st: State, scopes: seq<Scope>, id: nat, name: Token)
    requires StateOk(cx, st) && Mirrors(scopes, st.frames, st.environment)
    requires Distance(scopes, name.lexeme).Some? && id in cx.locals
    requires cx.locals[id] == Distance(scopes, name.lexeme).value
    ensures LookUp(cx, st, id, name) == Lookup(st.frames, st.environment, name)
  {
    DistanceIsHops(scopes, st.frames, st.environment, name);
  }
}
