/** Class objects (`LoxClass`) and instances (`LoxInstance`): method lookup,
    a class's arity, the method table a class declaration builds, and
    property access on an instance.  Instantiation runs the initializer and
    so belongs to the Interpreter. */
module Classes {
  import opened Wrappers
  import opened Tokens
  import opened Ast
  import opened Values
  import opened Environment
  import opened Functions

  /** `findMethod`: the method stored under `name` in the class's own
      table; nothing when it has none (no superclass is consulted). */
  function FindMethod(c: ClassObject, name: string): (r: Option<FunctionObject>)
    ensures r.Some? <==> name in c.methods
    ensures r.Some? ==> r.value == c.methods[name]
  {
    if name in c.methods then Some(c.methods[name]) else None
  }

  /** A class takes as many arguments as its `init` method, or none. */
  function ClassArity(c: ClassObject): (n: nat)
    ensures "init" in c.methods ==> n == Arity(c.methods["init"])
    ensures "init" !in c.methods ==> n == 0
  {
    match FindMethod(c, "init")
    case Some(initializer) => Arity(initializer)
    case None => 0
  }

  /** The method table of a class declaration whose methods close over
      `closure`, the `i`-th method getting serial `firstSerial + i`: each
      method is stored under its name, a later method replacing an earlier
      one of the same name, and is an initializer exactly when named
      `init`. */
  function MethodTable(methods: seq<FunctionDecl>, closure: nat, firstSerial: nat): map<string, FunctionObject>
  {
    if methods == [] then map[]
    else
      var last := methods[|methods| - 1];
      MethodTable(methods[..|methods| - 1], closure, firstSerial)[
        last.name.lexeme := FunctionObject(firstSerial + |methods| - 1, last, closure, last.name.lexeme == "init")]
  }

  /** Every entry of a method table is one of the declaration's methods,
      stored under its own name, closing over `closure`, with the
      initializer flag set exactly for `init`. */
  lemma {:induction false} MethodTableEntries(methods: seq<FunctionDecl>, closure: nat, firstSerial: nat, n: string)
    requires n in MethodTable(methods, closure, firstSerial)
    ensures var f := MethodTable(methods, closure, firstSerial)[n];
      && f.closure == closure && f.declaration.name.lexeme == n && (f.isInitializer <==> n == "init")
      && firstSerial <= f.serial < firstSerial + |methods| && methods[f.serial - firstSerial] == f.declaration
  {
    var front := methods[..|methods| - 1];
    if n != methods[|methods| - 1].name.lexeme {
      MethodTableEntries(front, closure, firstSerial, n);
      var f := MethodTable(methods, closure, firstSerial)[n];
      assert methods[f.serial - firstSerial] == front[f.serial - firstSerial];
    }
  }

  /** Every method of a method table closes over `closure`. */
  lemma MethodTableClosures(methods: seq<FunctionDecl>, closure: nat, firstSerial: nat)
    ensures forall n :: n in MethodTable(methods, closure, firstSerial) ==> MethodTable(methods, closure, firstSerial)[n].closure == closure
  {
    forall n | n in MethodTable(methods, closure, firstSerial)
      ensures MethodTable(methods, closure, firstSerial)[n].closure == closure
    {
      MethodTableEntries(methods, closure, firstSerial, n);
    }
  }

  /** Every declared method name has an entry. */
  lemma {:induction false} MethodTableNames(methods: seq<FunctionDecl>, closure: nat, firstSerial: nat, i: nat)
    requires i < |methods|
    ensures methods[i].name.lexeme in MethodTable(methods, closure, firstSerial)
  {
    if i < |methods| - 1 {
      var front := methods[..|methods| - 1];
      assert front[i] == methods[i];
      MethodTableNames(front, closure, firstSerial, i);
    }
  }

  /** The method a name is stored under is the last method declared with
      that name. */
  lemma {:induction false} MethodTableLast(methods: seq<FunctionDecl>, closure: nat, firstSerial: nat, i: nat)
    requires i < |methods| && forall j :: i < j < |methods| ==> methods[j].name.lexeme != methods[i].name.lexeme
    ensures methods[i].name.lexeme in MethodTable(methods, closure, firstSerial) &&
            MethodTable(methods, closure, firstSerial)[methods[i].name.lexeme].declaration == methods[i]
  {
    if i < |methods| - 1 {
      var front := methods[..|methods| - 1];
      assert front[i] == methods[i];
      assert forall j :: i < j < |front| ==> front[j] == methods[j];
      MethodTableLast(front, closure, firstSerial, i);
    }
  }

  /** `findMethod` on a class built from a declaration finds, for a
      declared name, the last method declared with it, closing over the
      class environment, an initializer exactly when named `init`. */
  lemma FindDeclaredMethod(serial: nat, className: string, methods: seq<FunctionDecl>, closure: nat, firstSerial: nat, i: nat)
    requires i < |methods| && forall j :: i < j < |methods| ==> methods[j].name.lexeme != methods[i].name.lexeme
    ensures var r := FindMethod(ClassObject(serial, className, MethodTable(methods, closure, firstSerial)), methods[i].name.lexeme);
      && r.Some? && r.value.declaration == methods[i] && r.value.closure == closure
      && (r.value.isInitializer <==> methods[i].name.lexeme == "init")
  {
    MethodTableLast(methods, closure, firstSerial, i);
    MethodTableEntries(methods, closure, firstSerial, methods[i].name.lexeme);
  }

  /** ... and finds nothing for a name no method is declared with. */
  lemma FindUndeclaredMethod(serial: nat, className: string, methods: seq<FunctionDecl>, closure: nat, firstSerial: nat, name: string)
    requires forall j :: 0 <= j < |methods| ==> methods[j].name.lexeme != name
    ensures FindMethod(ClassObject(serial, className, MethodTable(methods, closure, firstSerial)), name) == None
  {
    if name in MethodTable(methods, closure, firstSerial) {
      MethodTableEntries(methods, closure, firstSerial, name);
      assert false;
    }
  }

  /** A class built from a declaration takes as many arguments as its last
      `init` method has parameters, and none without an `init`. */
  lemma BuiltClassArity(serial: nat, className: string, methods: seq<FunctionDecl>, closure: nat, firstSerial: nat, i: nat)
    requires i < |methods| ==> methods[i].name.lexeme == "init" && forall j :: i < j < |methods| ==> methods[j].name.lexeme != "init"
    requires i >= |methods| ==> forall j :: 0 <= j < |methods| ==> methods[j].name.lexeme != "init"
    ensures ClassArity(ClassObject(serial, className, MethodTable(methods, closure, firstSerial))) ==
      if i < |methods| then |methods[i].params| else 0
  {
    if i < |methods| {
      FindDeclaredMethod(serial, className, methods, closure, firstSerial, i);
    } else {
      FindUndeclaredMethod(serial, className, methods, closure, firstSerial, "init");
    }
  }

  /** What a property read on an instance finds. */
  datatype Property = Field(value: Value) | Method(found: FunctionObject) | Missing

  /** `get` on an instance, before any binding: a field of that name wins
      over a method of the class; otherwise the class's method; otherwise
      nothing. */
  function FindProperty(fields: map<string, Value>, klass: ClassObject, name: string): (p: Property)
    ensures p.Field? <==> name in fields
    ensures p.Field? ==> p.value == fields[name]
    ensures p.Method? <==> name !in fields && name in klass.methods
    ensures p.Method? ==> p.found == klass.methods[name]
  {
    if name in fields then Field(fields[name])
    else match FindMethod(klass, name)
      case Some(m) => Method(m)
      case None => Missing
  }

  /** After `set`, a read of the same name finds the value just stored, and
      reads of every other name find what they found before. */
  lemma SetThenGet(fields: map<string, Value>, klass: ClassObject, name: string, v: Value, other: string)
    requires other != name
    ensures FindProperty(fields[name := v], klass, name) == Field(v)
    ensures FindProperty(fields[name := v], klass, other) == FindProperty(fields, klass, other)
  {
  }

  /** The error of reading a property that is neither a field nor a
      method. */
  function UndefinedProperty(name: Token): Failure
  {
    RuntimeError(name, "Undefined property '" + name.lexeme + "'.")
  }

  /** `LoxInstance.get`: the field's value, or the class's method bound
      freshly to this instance (nothing is stored in the fields), or an
      error. */
  method GetProperty(heap: Heap, instance: Value, name: Token) returns (r: Eval)
    requires instance.LoxInstance? && heap.Valid() && ValueOk(instance, |heap.frames|, |heap.instances|)
    modifies heap
    ensures heap.Valid() && heap.instances == old(heap.instances)
    ensures var p := FindProperty(old(heap.instances)[instance.ref], instance.klass, name.lexeme);
      && (p.Field? ==> r == Ok(p.value) && unchanged(heap))
      && (p.Missing? ==> r == Fail(UndefinedProperty(name)) && unchanged(heap))
      && (p.Method? ==>
            && r == Ok(LoxFunction(FunctionObject(old(heap.serial), p.found.declaration, |old(heap.frames)|, p.found.isInitializer)))
            && heap.frames == old(heap.frames) + [Frame(map["this" := instance], Some(p.found.closure))]
            && heap.serial == old(heap.serial) + 1)
  {
    match FindProperty(heap.instances[instance.ref], instance.klass, name.lexeme)
    case Field(v) =>
      assert BindingsOk(heap.instances[instance.ref], |heap.frames|, |heap.instances|);
      r := Ok(v);
    case Method(m) =>
      var bound := Bind(heap, m, instance);
      r := Ok(LoxFunction(bound));
    case Missing =>
      r := Fail(UndefinedProperty(name));
  }
}
