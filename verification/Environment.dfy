/**
 * Environments: a frame of bindings with an optional parent frame. `define`
 * binds in the frame itself; `get`, `has` and `set` search the frame and
 * then its parents, and `get` and `set` fail with an UndefinedVariableError
 * when no frame binds the name.
 *
 * The parent link never changes, so a frame's ancestors and its depth in the
 * chain are ghost constants; `Bindings()` is the single map the chain
 * denotes, where an inner binding shadows an outer one.
 */
module Environment {
  import opened Types

  /** Looking a name up in the bindings a chain denotes. */
  function Lookup(b: map<string, Value>, name: string): (r: Result<Value>)
    ensures r.Ok? <==> name in b
    ensures r.Ok? ==> r.value == b[name]
    ensures r.Err? ==> r.error == UndefinedVariableError(name)
  {
    if name in b then Ok(b[name]) else Err(UndefinedVariableError(name))
  }

  class Environment {
    var values: map<string, Value>
    const parent: Environment?
    /** Number of frames above this one. */
    ghost const depth: nat
    /** Every frame above this one. */
    ghost const Ancestors: set<Environment>

    ghost predicate Valid()
      decreases depth
    {
      && (forall a :: a in Ancestors ==> a.depth < depth)
      && (parent == null ==> depth == 0 && Ancestors == {})
      && (parent != null ==>
            && Ancestors == {parent} + parent.Ancestors
            && parent.depth < depth
            && parent.Valid())
    }

    /** This frame and every frame above it. */
    ghost function Frames(): set<Environment>
    {
      {this} + Ancestors
    }

    /** A frame is never its own ancestor. */
    lemma Acyclic()
      requires Valid()
      ensures this !in Ancestors
    {
    }

    /** The bindings the chain denotes: this frame's own over its parent's. */
    ghost function Bindings(): map<string, Value>
      requires Valid()
      reads this, Ancestors
      decreases depth
    {
      if parent == null then values else parent.Bindings() + values
    }

    constructor(parent: Environment?)
      requires parent != null ==> parent.Valid()
      ensures Valid() && this.parent == parent && values == map[]
      ensures parent == null ==> Bindings() == map[]
      ensures parent != null ==> Bindings() == parent.Bindings()
    {
      values := map[];
      this.parent := parent;
      depth := if parent == null then 0 else parent.depth + 1;
      Ancestors := if parent == null then {} else {parent} + parent.Ancestors;
      new;
      if parent != null {
        assert parent.Bindings() + map[] == parent.Bindings();
      }
    }

    /** The innermost frame of the chain that binds the name, or `null` when none does. */
    ghost function Owner(name: string): (o: Environment?)
      requires Valid()
      reads this, Ancestors
      ensures o == null <==> name !in Bindings()
      ensures o != null ==> o in Frames() && name in o.values
      decreases depth
    {
      if name in values then this
      else if parent == null then null
      else parent.Owner(name)
    }

    /** Whether some frame of the chain binds the name. */
    function Has(name: string): (b: bool)
      requires Valid()
      reads this, Ancestors
      ensures b <==> name in Bindings()
      decreases depth
    {
      name in values || (parent != null && parent.Has(name))
    }

    /** The value of the innermost binding of the name, or an UndefinedVariableError. */
    function Get(name: string): (r: Result<Value>)
      requires Valid()
      reads this, Ancestors
      ensures r == Lookup(Bindings(), name)
      decreases depth
    {
      if name in values then Ok(values[name])
      else if parent == null then Err(UndefinedVariableError(name))
      else parent.Get(name)
    }

    /** Binds the name in this frame, replacing any binding this frame had for it. */
    method Define(name: string, v: Value)
      requires Valid()
      modifies this`values
      ensures values == old(values)[name := v]
      ensures Bindings() == old(Bindings())[name := v]
    {
      Acyclic();
      values := values[name := v];
      if parent != null {
        assert parent.Bindings() + values == (parent.Bindings() + old(values))[name := v];
      }
    }

    /**
     * Rebinds the name in the innermost frame that binds it, and fails with
     * an UndefinedVariableError, changing nothing, when no frame does.
     */
    method Set(name: string, v: Value) returns (r: Result<()>)
      requires Valid()
      modifies Frames()
      ensures r.Ok? <==> name in old(Bindings())
      ensures r.Ok? ==> Bindings() == old(Bindings())[name := v]
      ensures r.Err? ==> r.error == UndefinedVariableError(name) && Bindings() == old(Bindings())
      ensures name in old(values) ==> values == old(values)[name := v] && unchanged(Ancestors)
      ensures name !in old(values) ==> values == old(values)
      ensures old(Owner(name)) != null ==> old(Owner(name)).values == old(Owner(name).values)[name := v]
      ensures forall f :: f in Frames() && f != old(Owner(name)) ==> f.values == old(f.values)
      decreases depth
    {
      Acyclic();
      if name in values {
        values := values[name := v];
        r := Ok(());
        if parent != null {
          assert parent.Bindings() + values == (parent.Bindings() + old(values))[name := v];
        }
      } else if parent != null {
        r := parent.Set(name, v);
        if r.Ok? {
          assert parent.Bindings() + values == (old(parent.Bindings()) + values)[name := v];
        }
      } else {
        r := Err(UndefinedVariableError(name));
      }
    }
  }
}
