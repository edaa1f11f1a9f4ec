/**
 * The variable store of the newer front end (rlox/src/environment.rs): a
 * chain of scopes, each a map from names to values that is updated in
 * place, with a link to the scope that encloses it.
 *
 * The chain is read through `Scopes()`, the maps from the innermost scope
 * outwards; `Lookup` and `Update` say on that list what `get` and `assign`
 * do, and the lemmas about them are what the source promises.
 */
module Environments {
  import opened Wrappers
  import Tokens
  import Errors
  import opened Objects

  type Scope = map<string, Object>

  /** The position of the innermost scope that binds `name`, if any does. */
  function Nearest(scopes: seq<Scope>, name: string): (r: Option<nat>)
    ensures r.Some? ==> r.value < |scopes| && name in scopes[r.value]
    ensures r.Some? ==> forall j :: 0 <= j < r.value ==> name !in scopes[j]
    ensures r.None? ==> forall j :: 0 <= j < |scopes| ==> name !in scopes[j]
  {
    if |scopes| == 0 then None
    else if name in scopes[0] then Some(0)
    else match Nearest(scopes[1..], name)
      case Some(i) => Some(i + 1)
      case None => None
  }

  /** The error of a name bound nowhere in the chain. */
  function Undefined(id: Tokens.Token): Errors.Error {
    Errors.Runtime(id.line, "Undefined variable '" + id.lexeme + "'.")
  }

  /** What `get` finds: the innermost binding, or the runtime error. */
  function Lookup(scopes: seq<Scope>, id: Tokens.Token): Errors.Result<Object> {
    match Nearest(scopes, id.lexeme)
    case Some(i) => Errors.Ok(scopes[i][id.lexeme])
    case None => Errors.Err(Undefined(id))
  }

  /** What `assign` leaves: the innermost binding overwritten, or nothing changed. */
  function Update(scopes: seq<Scope>, name: string, value: Object): seq<Scope> {
    match Nearest(scopes, name)
    case Some(i) => scopes[i := scopes[i][name := value]]
    case None => scopes
  }

  /** Skipping a scope that does not bind the name. */
  lemma UpdateSkips(s: Scope, rest: seq<Scope>, name: string, value: Object)
    requires name !in s
    ensures Nearest([s] + rest, name).Some? <==> Nearest(rest, name).Some?
    ensures Update([s] + rest, name, value) == [s] + Update(rest, name, value)
  {
    assert ([s] + rest)[1..] == rest;
  }

  /**
   * An assignment to a bound name is what a lookup sees next; a lookup of
   * any other name sees no difference.
   */
  lemma AssignThenLookup(scopes: seq<Scope>, id: Tokens.Token, other: Tokens.Token, value: Object)
    requires Nearest(scopes, id.lexeme).Some?
    requires other.lexeme != id.lexeme
    ensures Lookup(Update(scopes, id.lexeme, value), id) == Errors.Ok(value)
    ensures Lookup(Update(scopes, id.lexeme, value), other) == Lookup(scopes, other)
  {
    var i := Nearest(scopes, id.lexeme).value;
    var after := Update(scopes, id.lexeme, value);
    assert forall j :: 0 <= j < |scopes| ==> (id.lexeme in after[j] <==> id.lexeme in scopes[j]);
    NearestFollowsKeys(scopes, after, id.lexeme);
    assert forall j :: 0 <= j < |scopes| ==> (other.lexeme in after[j] <==> other.lexeme in scopes[j]);
    NearestFollowsKeys(scopes, after, other.lexeme);
    assert forall j :: 0 <= j < |scopes| && other.lexeme in scopes[j] ==> after[j][other.lexeme] == scopes[j][other.lexeme];
  }

  /** `Nearest` depends only on which scopes hold the name. */
  lemma {:induction false} NearestFollowsKeys(a: seq<Scope>, b: seq<Scope>, name: string)
    requires |a| == |b|
    requires forall j :: 0 <= j < |a| ==> (name in a[j] <==> name in b[j])
    ensures Nearest(a, name) == Nearest(b, name)
    decreases |a|
  {
    if |a| > 0 && name !in a[0] {
      NearestFollowsKeys(a[1..], b[1..], name);
    }
  }

  /**
   * `assign` never creates a binding: every scope holds the same names
   * after it as before, and an unbound name leaves the chain as it was.
   */
  lemma AssignKeepsNames(scopes: seq<Scope>, name: string, other: string, value: Object)
    ensures |Update(scopes, name, value)| == |scopes|
    ensures forall j :: 0 <= j < |scopes| ==> (other in Update(scopes, name, value)[j] <==> other in scopes[j])
    ensures Nearest(scopes, name).None? ==> Update(scopes, name, value) == scopes
  {
  }

  /**
   * A definition in the innermost scope is what a lookup sees next, whatever
   * the enclosing scopes bind: it shadows them.
   */
  lemma DefineShadows(scopes: seq<Scope>, id: Tokens.Token, value: Object)
    requires |scopes| > 0
    ensures Lookup(scopes[0 := scopes[0][id.lexeme := value]], id) == Errors.Ok(value)
  {
  }

  class Environment {
    const enclosing: Environment?
    var values: Scope
    /** This scope and the scopes that enclose it. */
    ghost const Repr: set<Environment>
    /** How many scopes enclose this one. */
    ghost const depth: nat

    /** The chain is finite and has no cycle. */
    ghost predicate Valid()
      decreases depth
    {
      this in Repr &&
      (enclosing == null ==> Repr == {this} && depth == 0) &&
      (enclosing != null ==>
        Repr == {this} + enclosing.Repr && this !in enclosing.Repr &&
        depth == enclosing.depth + 1 && enclosing.Valid())
    }

    /** The maps of the chain, innermost first. */
    ghost function Scopes(): (s: seq<Scope>)
      requires Valid()
      reads Repr
      ensures |s| == depth + 1 && s[0] == values
      decreases depth
    {
      [values] + (if enclosing == null then [] else enclosing.Scopes())
    }

    /** `init`: an empty scope inside `parent`, or a root without one. */
    constructor Init(parent: Environment?)
      requires parent != null ==> parent.Valid()
      ensures Valid() && enclosing == parent && values == map[]
      ensures Scopes() == [map[]] + (if parent == null then [] else parent.Scopes())
    {
      enclosing := parent;
      values := map[];
      Repr := if parent == null then {this} else {this} + parent.Repr;
      depth := if parent == null then 0 else parent.depth + 1;
    }

    /** `new`: a root scope with no bindings. */
    static method New() returns (env: Environment)
      ensures fresh(env) && env.Valid() && env.enclosing == null
      ensures env.Scopes() == [map[]]
    {
      env := new Environment.Init(null);
    }

    /** `from`: an empty scope whose enclosing scope is `parent`. */
    static method From(parent: Environment) returns (env: Environment)
      requires parent.Valid()
      ensures fresh(env) && env.Valid() && env.enclosing == parent
      ensures env.Scopes() == [map[]] + parent.Scopes()
    {
      env := new Environment.Init(parent);
    }

    /** `define`: binds or rebinds the name in this scope only. */
    method Define(id: Tokens.Token, value: Object)
      requires Valid()
      modifies this`values
      ensures values == old(values)[id.lexeme := value]
      ensures Scopes() == old(Scopes())[0 := values]
      ensures Get(id) == Errors.Ok(value)
    {
      values := values[id.lexeme := value];
      DefineShadows(old(Scopes()), id, value);
    }

    /** `get`: the value in the innermost scope that binds the name. */
    function Get(id: Tokens.Token): (r: Errors.Result<Object>)
      requires Valid()
      reads Repr
      ensures r == Lookup(Scopes(), id)
      decreases depth
    {
      if id.lexeme in values then Errors.Ok(values[id.lexeme])
      else if enclosing == null then Errors.Err(Undefined(id))
      else enclosing.Get(id)
    }

    /**
     * `assign`: overwrites the binding in the innermost scope that has the
     * name and returns the value, or fails and changes nothing.
     */
    method Assign(id: Tokens.Token, value: Object) returns (r: Errors.Result<Object>)
      requires Valid()
      modifies Repr`values
      ensures r == if Nearest(old(Scopes()), id.lexeme).Some? then Errors.Ok(value) else Errors.Err(Undefined(id))
      ensures Scopes() == Update(old(Scopes()), id.lexeme, value)
      decreases depth
    {
      ghost var before := Scopes();
      if id.lexeme in values {
        values := values[id.lexeme := value];
        return Errors.Ok(value);
      }
      if enclosing == null {
        return Errors.Err(Undefined(id));
      }
      ghost var rest := enclosing.Scopes();
      assert before == [values] + rest;
      UpdateSkips(values, rest, id.lexeme, value);
      r := enclosing.Assign(id, value);
      assert Scopes() == [values] + enclosing.Scopes();
    }
  }
}
