/// `src/Environment.js`: one flat, mutable map from names to values. The
/// constructor takes no enclosing environment, so an environment sees only
/// its own bindings.
module Environments {
  import opened Common
  import opened Syntax
  import opened Values
  import opened Operators

  type Bindings = map<string, Value>

  /// The error `get` and `assign` throw for a name with no binding.
  function UndefinedVariable(name: Token): (e: RuntimeError)
    ensures e.token == name
    ensures e.message == "Undefined variable '" + name.lexeme + "'."
  {
    RuntimeError(name, "Undefined variable '" + name.lexeme + "'.")
  }

  /// `define`: bind `name` to `value`, replacing an earlier binding.
  function Bind(b: Bindings, name: string, value: Value): (r: Bindings)
    ensures r.Keys == b.Keys + {name}
    ensures r[name] == value
    ensures forall n :: n in b && n != name ==> r[n] == b[n]
  {
    b[name := value]
  }

  /// `get`: the value bound to the token's lexeme, or the undefined-variable
  /// error.
  function Lookup(b: Bindings, name: Token): (r: Result<Value, RuntimeError>)
    ensures r.Ok? <==> name.lexeme in b
    ensures r.Ok? ==> r.value == b[name.lexeme]
    ensures r.Err? ==> r.error == UndefinedVariable(name)
  {
    if name.lexeme in b then Ok(b[name.lexeme]) else Err(UndefinedVariable(name))
  }

  /// `assign` as evidently intended: overwrite an existing binding, and
  /// throw the undefined-variable error without creating one otherwise.
  function Rebind(b: Bindings, name: Token, value: Value): (r: Result<Bindings, RuntimeError>)
    ensures r.Ok? <==> name.lexeme in b
    ensures r.Ok? ==> r.value.Keys == b.Keys && r.value[name.lexeme] == value
    ensures r.Ok? ==> forall n :: n in b && n != name.lexeme ==> r.value[n] == b[n]
    ensures r.Err? ==> r.error == UndefinedVariable(name)
  {
    if name.lexeme in b then Ok(b[name.lexeme := value]) else Err(UndefinedVariable(name))
  }

  /// What `assign` as written throws: the undefined-variable error, or the
  /// host's `TypeError` from calling `values.put`, which plain objects lack.
  datatype AssignFault = Unbound(error: RuntimeError) | PutIsNotAFunction

  /// `assign` as written (src/Environment.js:20-28): a bound name reaches
  /// `this.values.put(...)` and crashes; an unbound one throws the
  /// undefined-variable error. No call ever changes a binding.
  function RebindAsWritten(b: Bindings, name: Token, value: Value): (r: Result<Bindings, AssignFault>)
    ensures r.Err?
    ensures name.lexeme in b ==> r.error == PutIsNotAFunction
    ensures name.lexeme !in b ==> r.error == Unbound(UndefinedVariable(name))
  {
    if name.lexeme in b then Err(PutIsNotAFunction) else Err(Unbound(UndefinedVariable(name)))
  }

  // -------------------------------------------------------------------
  // Properties of the bindings.

  /// After `define(n, v)`, `get(n)` returns `v`, and lookups of other names
  /// are unaffected.
  lemma LookupAfterBind(b: Bindings, name: Token, other: Token, value: Value)
    requires other.lexeme != name.lexeme
    ensures Lookup(Bind(b, name.lexeme, value), name) == Ok(value)
    ensures Lookup(Bind(b, name.lexeme, value), other) == Lookup(b, other)
  {
  }

  /// After an assignment that succeeds, `get` returns the new value; one
  /// that fails leaves no trace.
  lemma LookupAfterRebind(b: Bindings, name: Token, value: Value)
    ensures Rebind(b, name, value).Ok? ==> Lookup(Rebind(b, name, value).value, name) == Ok(value)
    ensures Rebind(b, name, value).Err? ==> Lookup(b, name) == Err(UndefinedVariable(name))
  {
  }

  /// Assigning a bound name is the same as defining it again.
  lemma RebindIsBindWhenBound(b: Bindings, name: Token, value: Value)
    requires name.lexeme in b
    ensures Rebind(b, name, value) == Ok(Bind(b, name.lexeme, value))
  {
  }

  /// As written, assignment to a defined variable can never succeed: the
  /// program `var a = 1; a = 2;` crashes in the host instead of rebinding.
  lemma AssignmentAsWrittenCrashes(b: Bindings, name: Token, value: Value)
    requires name.lexeme in b
    ensures RebindAsWritten(b, name, value) == Err(PutIsNotAFunction)
    ensures Rebind(b, name, value).Ok?
  {
  }

  /// `Environment`: the `values` object of one scope.
  class Environment {
    var values: Bindings

    /// `new Environment()`: empty, with no enclosing scope.
    constructor ()
      ensures values == map[]
    {
      values := map[];
    }

    method Define(name: string, value: Value)
      modifies this
      ensures values == Bind(old(values), name, value)
    {
      values := values[name := value];
    }

    method Get(name: Token) returns (r: Result<Value, RuntimeError>)
      ensures r == Lookup(values, name)
    {
      if name.lexeme in values {
        return Ok(values[name.lexeme]);
      }
      return Err(UndefinedVariable(name));
    }

    /// `assign`, with the overwrite the code evidently intends.
    method Assign(name: Token, value: Value) returns (r: Result<(), RuntimeError>)
      modifies this
      ensures r.Ok? <==> Rebind(old(values), name, value).Ok?
      ensures r.Ok? ==> values == Rebind(old(values), name, value).value
      ensures r.Err? ==> values == old(values) && r.error == UndefinedVariable(name)
    {
      if name.lexeme in values {
        values := values[name.lexeme := value];
        return Ok(());
      }
      return Err(UndefinedVariable(name));
    }
  }
}
