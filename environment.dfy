/** The interpreter's variable store: one flat map from names to values. */
module Environments {

  import opened Tokens

  /** The store after `insert(name, value)`: the name is bound to the value, whatever it was
      bound to before, and every other binding is as it was. */
  function Defined(values: map<string, Value>, name: string, value: Value): (m: map<string, Value>)
    ensures name in m && m[name] == value
    ensures forall n | n in values && n != name :: n in m && m[n] == values[n]
    ensures m.Keys == values.Keys + {name}
  {
    values[name := value]
  }

  /** Redefining a name forgets its earlier value: define may be repeated on one name. */
  lemma RedefineOverwrites(values: map<string, Value>, name: string, first: Value, second: Value)
    ensures Defined(Defined(values, name, first), name, second) == Defined(values, name, second)
  {
    var a, b := Defined(Defined(values, name, first), name, second), Defined(values, name, second);
    assert a.Keys == b.Keys;
    forall n | n in a ensures a[n] == b[n] { }
  }

  /** Definitions of different names do not interfere and may be made in either order. */
  lemma DefinitionsCommute(values: map<string, Value>, n1: string, v1: Value, n2: string, v2: Value)
    requires n1 != n2
    ensures Defined(Defined(values, n1, v1), n2, v2) == Defined(Defined(values, n2, v2), n1, v1)
  {
    var a, b := Defined(Defined(values, n1, v1), n2, v2), Defined(Defined(values, n2, v2), n1, v1);
    assert a.Keys == b.Keys;
    forall n | n in a ensures a[n] == b[n] { }
  }

  class Environment {
    var values: map<string, Value>

    /** Environment::new: no name is bound. */
    constructor ()
      ensures values == map[]
    {
      values := map[];
    }

    /** Environment::define: inserts the binding in place, replacing any earlier one. */
    method Define(name: string, value: Value)
      modifies this
      ensures values == Defined(old(values), name, value)
    {
      values := values[name := value];
    }
  }
}
