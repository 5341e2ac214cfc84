/**
 * The lexical environment of kimi/environments.py: a scope is a mutable
 * name-to-value map with an optional outer scope, so scopes form a singly
 * linked chain ending at the root. `Get` looks a name up along the chain,
 * `Set` binds a name in one scope and refuses to rebind it there, and
 * `StandardEnv` builds the root scope holding the builtins.
 */
module Environments {

  import opened Wrappers
  import opened Errors
  import opened Values
  import opened Builtins

  // ---------------------------------------------------------------------
  // Chains of scopes, as values
  // ---------------------------------------------------------------------

  /** The binding of key in the first (innermost) scope of the chain that has one. */
  function Resolve(chain: seq<map<string, Value>>, key: string): Option<Value>
  {
    if chain == [] then None
    else if key in chain[0] then Some(chain[0][key])
    else Resolve(chain[1..], key)
  }

  /** A binding that is found is held by some scope of the chain. */
  lemma {:induction false} ResolveWitness(chain: seq<map<string, Value>>, key: string)
    ensures Resolve(chain, key).Some? ==>
      exists i :: 0 <= i < |chain| && key in chain[i] && chain[i][key] == Resolve(chain, key).value
  {
    if chain != [] && key !in chain[0] {
      ResolveWitness(chain[1..], key);
      if Resolve(chain[1..], key).Some? {
        var i :| 0 <= i < |chain[1..]| && key in chain[1..][i] && chain[1..][i][key] == Resolve(chain[1..], key).value;
        assert chain[i + 1] == chain[1..][i];
      }
    }
  }

  /**
   * The result `get` gives for a chain: a value some scope binds key to, or
   * the Name error "NameError : Undefined variable: <key>".
   */
  function Lookup(chain: seq<map<string, Value>>, key: string): (r: Result<Value>)
    ensures r.Ok? ==> exists i :: 0 <= i < |chain| && key in chain[i] && chain[i][key] == r.value
    ensures r.Err? ==> FailsWith(r, Name) && r.error.message == "NameError : " + ("Undefined variable: " + key)
  {
    ResolveWitness(chain, key);
    ThrowNameError("Undefined variable: " + key);
    match Resolve(chain, key)
    case Some(v) => Ok(v)
    case None => Err(ThrowError("name", "Undefined variable: " + key))
  }

  /**
   * The value found is the one in the nearest scope binding key, and
   * nothing is found exactly when no scope binds key.
   */
  lemma {:induction false} ResolveNearest(chain: seq<map<string, Value>>, key: string)
    ensures Resolve(chain, key) == None <==> forall i :: 0 <= i < |chain| ==> key !in chain[i]
    ensures forall i :: 0 <= i < |chain| && key in chain[i] && (forall j :: 0 <= j < i ==> key !in chain[j])
              ==> Resolve(chain, key) == Some(chain[i][key])
  {
    if chain != [] {
      ResolveNearest(chain[1..], key);
      assert forall i :: 1 <= i < |chain| ==> chain[i] == chain[1..][i - 1];
    }
  }

  /** A lookup fails, with the Name kind, exactly when no scope up to the root binds key. */
  lemma LookupFailsOnlyWhenUnbound(chain: seq<map<string, Value>>, key: string)
    ensures Lookup(chain, key).Err? <==> forall i :: 0 <= i < |chain| ==> key !in chain[i]
    ensures Lookup(chain, key).Err? ==> FailsWith(Lookup(chain, key), Name)
  {
    ResolveNearest(chain, key);
    assert LowerAll("name") == "name";
  }

  /**
   * Binding key in the innermost scope makes it visible there, shadowing any
   * outer binding, and changes no other name's lookup.
   */
  lemma {:induction false} ResolveAfterBind(m: map<string, Value>, outer: seq<map<string, Value>>, key: string, value: Value, other: string)
    ensures Resolve([m[key := value]] + outer, key) == Some(value)
    ensures other != key ==> Resolve([m[key := value]] + outer, other) == Resolve([m] + outer, other)
  {
    assert ([m[key := value]] + outer)[1..] == outer;
    assert ([m] + outer)[1..] == outer;
  }

  // ---------------------------------------------------------------------
  // Construction from parallel sequences (`update(zip(variables, values))`)
  // ---------------------------------------------------------------------

  function Min(a: nat, b: nat): nat { if a < b then a else b }

  /** The map after binding the first n name/value pairs in order, later ones overwriting. */
  function ZipPrefix(variables: seq<string>, values: seq<Value>, n: nat): map<string, Value>
    requires n <= |variables| && n <= |values|
  {
    if n == 0 then map[]
    else ZipPrefix(variables, values, n - 1)[variables[n - 1] := values[n - 1]]
  }

  /** `dict(zip(variables, values))`: zip stops at the shorter sequence. */
  function ZipMap(variables: seq<string>, values: seq<Value>): map<string, Value>
  {
    ZipPrefix(variables, values, Min(|variables|, |values|))
  }

  /**
   * A name is bound exactly when it occurs among the first n names, and its
   * value is the one paired with its last occurrence there.
   */
  lemma {:induction false} ZipPrefixSpec(variables: seq<string>, values: seq<Value>, n: nat, key: string)
    requires n <= |variables| && n <= |values|
    ensures key in ZipPrefix(variables, values, n) <==> exists i :: 0 <= i < n && variables[i] == key
    ensures forall i :: 0 <= i < n && variables[i] == key && (forall j :: i < j < n ==> variables[j] != key)
              ==> key in ZipPrefix(variables, values, n) && ZipPrefix(variables, values, n)[key] == values[i]
  {
    if n > 0 {
      ZipPrefixSpec(variables, values, n - 1, key);
    }
  }

  // ---------------------------------------------------------------------
  // Environment
  // ---------------------------------------------------------------------

  class Environment {
    var name: string
    var vars: map<string, Value>
    var outer: Environment?
    /** This scope and every scope outward of it; it makes the chain finite and acyclic. */
    ghost var Repr: set<object>

    ghost predicate Valid()
      reads this, Repr
      decreases Repr
    {
      this in Repr &&
      (outer != null ==>
        outer in Repr && outer.Repr <= Repr && this !in outer.Repr && outer.Valid())
    }

    /** The maps of the scope chain, innermost first. */
    ghost function Chain(): (c: seq<map<string, Value>>)
      reads this, Repr
      requires Valid()
      ensures c != [] && c[0] == vars
      decreases Repr
    {
      if outer == null then [vars] else [vars] + outer.Chain()
    }

    /** `Environment(name, outer, variables, values)`. */
    constructor (name: string, outer: Environment?, variables: seq<string>, values: seq<Value>)
      requires outer != null ==> outer.Valid()
      ensures Valid()
      ensures this.name == name && this.outer == outer
      ensures vars == ZipMap(variables, values)
      ensures Repr == {this} + (if outer == null then {} else outer.Repr)
      ensures Chain() == [ZipMap(variables, values)] + (if outer == null then [] else outer.Chain())
    {
      this.name := name;
      this.outer := outer;
      this.vars := map[];
      Repr := {this} + (if outer == null then {} else outer.Repr);
      new;
      var n := Min(|variables|, |values|);
      for i := 0 to n
        invariant vars == ZipPrefix(variables, values, i)
        invariant this.name == name && this.outer == outer
        invariant Repr == {this} + (if outer == null then {} else outer.Repr)
      {
        vars := vars[variables[i] := values[i]];
      }
    }

    /**
     * `get(key)`: the binding in this scope if there is one, else the outer
     * scope's answer, else a Name error at the root.
     */
    function Get(key: string): (r: Result<Value>)
      reads this, Repr
      requires Valid()
      ensures r == Lookup(Chain(), key)
      decreases Repr
    {
      if key in vars then Ok(vars[key])
      else if outer == null then
        assert Chain()[1..] == [] && Resolve(Chain()[1..], key) == None;
        Err(ThrowError("name", "Undefined variable: " + key))
      else outer.Get(key)
    }

    /**
     * `set(key, value)`: a Name error if key is already bound in this scope,
     * leaving it as it was; otherwise binds key to value here and changes
     * nothing else, outer scopes included.
     */
    method Set(key: string, value: Value) returns (r: Result<()>)
      requires Valid()
      modifies this`vars
      ensures Valid()
      ensures key in old(vars) ==>
        r == Err(ThrowError("name", "Variable " + key + " already exists in " + name + " environment!"))
        && vars == old(vars)
      ensures key !in old(vars) ==> r == Ok(()) && vars == old(vars)[key := value]
      ensures outer != null ==> outer.Chain() == old(outer.Chain())
      ensures Chain() == [vars] + old(Chain())[1..]
    {
      if key in vars {
        r := Err(ThrowError("name", "Variable " + key + " already exists in " + name + " environment!"));
      } else {
        vars := vars[key := value];
        r := Ok(());
      }
    }
  }

  // ---------------------------------------------------------------------
  // The root environment (`standard_env` and the `add_*` helpers)
  // ---------------------------------------------------------------------

  /** The bindings of `pairs`, each wrapped in the guard for argType if there is one; later pairs win. */
  function BuiltinMap(pairs: seq<(string, Prim)>, argType: Option<PyType>): (r: map<string, Value>)
    ensures forall i :: 0 <= i < |pairs| ==> pairs[i].0 in r
    ensures forall k :: k in r ==> r[k].Builtin? && r[k].guard == argType
  {
    if pairs == [] then map[]
    else map[pairs[0].0 := Builtin(pairs[0].1, argType)] + BuiltinMap(pairs[1..], argType)
  }

  /** Adding one more pair at the end overwrites its name. */
  lemma {:induction false} BuiltinMapSnoc(pairs: seq<(string, Prim)>, symbol: string, fn: Prim, argType: Option<PyType>)
    ensures BuiltinMap(pairs + [(symbol, fn)], argType) == BuiltinMap(pairs, argType)[symbol := Builtin(fn, argType)]
  {
    if pairs != [] {
      var head := map[pairs[0].0 := Builtin(pairs[0].1, argType)];
      assert (pairs + [(symbol, fn)])[0] == pairs[0];
      assert (pairs + [(symbol, fn)])[1..] == pairs[1..] + [(symbol, fn)];
      BuiltinMapSnoc(pairs[1..], symbol, fn, argType);
      UnionThenUpdate(head, BuiltinMap(pairs[1..], argType), symbol, Builtin(fn, argType));
    }
  }

  lemma UnionThenUpdate(m: map<string, Value>, n: map<string, Value>, k: string, v: Value)
    ensures (m + n)[k := v] == m + n[k := v]
  {
  }

  /** `add_builtins(pairs, env, arg_type)`: writes each pair into the scope directly, bypassing `set`. */
  method AddBuiltins(pairs: seq<(string, Prim)>, env: Environment, argType: Option<PyType>)
    modifies env`vars
    ensures env.vars == old(env.vars) + BuiltinMap(pairs, argType)
  {
    for i := 0 to |pairs|
      invariant env.vars == old(env.vars) + BuiltinMap(pairs[..i], argType)
    {
      var symbol, fn := pairs[i].0, pairs[i].1;
      assert pairs[..i + 1] == pairs[..i] + [(symbol, fn)];
      BuiltinMapSnoc(pairs[..i], symbol, fn, argType);
      UnionThenUpdate(old(env.vars), BuiltinMap(pairs[..i], argType), symbol, Builtin(fn, argType));
      env.vars := env.vars[symbol := Builtin(fn, argType)];
    }
    assert pairs[..|pairs|] == pairs;
  }

  method AddBooleans(env: Environment)
    modifies env`vars
    ensures env.vars == old(env.vars)["true" := Bool(true)]["false" := Bool(false)]
  {
    env.vars := env.vars["true" := Bool(true)];
    env.vars := env.vars["false" := Bool(false)];
  }

  method AddNil(env: Environment)
    modifies env`vars
    ensures env.vars == old(env.vars)["nil" := Nil]
  {
    env.vars := env.vars["nil" := Nil];
  }

  const ArithmeticPairs: seq<(string, Prim)> :=
    [("+", AddOp), ("-", SubOp), ("*", MulOp), ("/", FloorDivOp), ("%", ModOp)]
  const LogicPairs: seq<(string, Prim)> := [("&", AndOp), ("|", OrOp), ("!", NotOp)]
  const ComparisonPairs: seq<(string, Prim)> := [(">", GtOp), ("<", LtOp), (">=", GeOp), ("<=", LeOp)]
  const ListPairs: seq<(string, Prim)> :=
    [("list", ListOp), ("prepend", PrependOp), ("first", FirstOp), ("rest", RestOp)]

  /** `add_arithmetic`: `+ - * / %`, each guarded to integers. */
  method AddArithmetic(env: Environment)
    modifies env`vars
    ensures env.vars == old(env.vars)
      ["+" := Builtin(AddOp, Some(IntType))]["-" := Builtin(SubOp, Some(IntType))]
      ["*" := Builtin(MulOp, Some(IntType))]["/" := Builtin(FloorDivOp, Some(IntType))]
      ["%" := Builtin(ModOp, Some(IntType))]
  {
    AddBuiltins(ArithmeticPairs, env, Some(IntType));
    ArithmeticMap(old(env.vars));
  }

  lemma ArithmeticMap(m: map<string, Value>)
    ensures m + BuiltinMap(ArithmeticPairs, Some(IntType)) == m
      ["+" := Builtin(AddOp, Some(IntType))]["-" := Builtin(SubOp, Some(IntType))]
      ["*" := Builtin(MulOp, Some(IntType))]["/" := Builtin(FloorDivOp, Some(IntType))]
      ["%" := Builtin(ModOp, Some(IntType))]
  {
    var g := Some(IntType);
    var p := ArithmeticPairs;
    assert p[1..][1..][1..][1..][1..] == [];
    assert BuiltinMap(p[1..][1..][1..][1..], g) == map["%" := Builtin(ModOp, g)];
    assert BuiltinMap(p[1..][1..][1..], g) == map["/" := Builtin(FloorDivOp, g), "%" := Builtin(ModOp, g)];
    assert BuiltinMap(p[1..][1..], g) == map["*" := Builtin(MulOp, g), "/" := Builtin(FloorDivOp, g), "%" := Builtin(ModOp, g)];
  }

  /** `add_logic`: `& | !`, each guarded to booleans. */
  method AddLogic(env: Environment)
    modifies env`vars
    ensures env.vars == old(env.vars)
      ["&" := Builtin(AndOp, Some(BoolType))]["|" := Builtin(OrOp, Some(BoolType))]
      ["!" := Builtin(NotOp, Some(BoolType))]
  {
    AddBuiltins(LogicPairs, env, Some(BoolType));
    LogicMap(old(env.vars));
  }

  lemma LogicMap(m: map<string, Value>)
    ensures m + BuiltinMap(LogicPairs, Some(BoolType)) == m
      ["&" := Builtin(AndOp, Some(BoolType))]["|" := Builtin(OrOp, Some(BoolType))]
      ["!" := Builtin(NotOp, Some(BoolType))]
  {
    var g := Some(BoolType);
    var p := LogicPairs;
    assert p[1..][1..][1..] == [];
    assert BuiltinMap(p[1..][1..], g) == map["!" := Builtin(NotOp, g)];
  }

  /** `add_equality`: the unguarded `=`. */
  method AddEquality(env: Environment)
    modifies env`vars
    ensures env.vars == old(env.vars)["=" := Builtin(EqualOp, None)]
  {
    env.vars := env.vars["=" := Builtin(EqualOp, None)];
  }

  /** `add_comparison`: `> < >= <=`, each guarded to integers. */
  method AddComparison(env: Environment)
    modifies env`vars
    ensures env.vars == old(env.vars)
      [">" := Builtin(GtOp, Some(IntType))]["<" := Builtin(LtOp, Some(IntType))]
      [">=" := Builtin(GeOp, Some(IntType))]["<=" := Builtin(LeOp, Some(IntType))]
  {
    AddBuiltins(ComparisonPairs, env, Some(IntType));
    ComparisonMap(old(env.vars));
  }

  lemma ComparisonMap(m: map<string, Value>)
    ensures m + BuiltinMap(ComparisonPairs, Some(IntType)) == m
      [">" := Builtin(GtOp, Some(IntType))]["<" := Builtin(LtOp, Some(IntType))]
      [">=" := Builtin(GeOp, Some(IntType))]["<=" := Builtin(LeOp, Some(IntType))]
  {
    var g := Some(IntType);
    var p := ComparisonPairs;
    assert p[1..][1..][1..][1..] == [];
    assert BuiltinMap(p[1..][1..][1..], g) == map["<=" := Builtin(LeOp, g)];
    assert BuiltinMap(p[1..][1..], g) == map[">=" := Builtin(GeOp, g), "<=" := Builtin(LeOp, g)];
  }

  /** `add_strings` adds nothing. */
  method AddStrings(env: Environment)
    ensures env.vars == old(env.vars)
  {
  }

  /** `add_lists`: the unguarded `list prepend first rest`. */
  method AddLists(env: Environment)
    modifies env`vars
    ensures env.vars == old(env.vars)
      ["list" := Builtin(ListOp, None)]["prepend" := Builtin(PrependOp, None)]
      ["first" := Builtin(FirstOp, None)]["rest" := Builtin(RestOp, None)]
  {
    AddBuiltins(ListPairs, env, None);
    ListMap(old(env.vars));
  }

  lemma ListMap(m: map<string, Value>)
    ensures m + BuiltinMap(ListPairs, None) == m
      ["list" := Builtin(ListOp, None)]["prepend" := Builtin(PrependOp, None)]
      ["first" := Builtin(FirstOp, None)]["rest" := Builtin(RestOp, None)]
  {
    var p := ListPairs;
    assert p[1..][1..][1..][1..] == [];
    assert BuiltinMap(p[1..][1..][1..], None) == map["rest" := Builtin(RestOp, None)];
    assert BuiltinMap(p[1..][1..], None) == map["first" := Builtin(FirstOp, None), "rest" := Builtin(RestOp, None)];
  }

  /**
   * Every binding of the root scope: what the `add_*` steps of
   * `standard_env` write, in their order, into an empty scope.
   */
  function RootBindings(): map<string, Value>
  {
    map[]
      ["true" := Bool(true)]["false" := Bool(false)]
      ["nil" := Nil]
      ["+" := Builtin(AddOp, Some(IntType))]["-" := Builtin(SubOp, Some(IntType))]
      ["*" := Builtin(MulOp, Some(IntType))]["/" := Builtin(FloorDivOp, Some(IntType))]
      ["%" := Builtin(ModOp, Some(IntType))]
      ["&" := Builtin(AndOp, Some(BoolType))]["|" := Builtin(OrOp, Some(BoolType))]
      ["!" := Builtin(NotOp, Some(BoolType))]
      ["=" := Builtin(EqualOp, None)]
      [">" := Builtin(GtOp, Some(IntType))]["<" := Builtin(LtOp, Some(IntType))]
      [">=" := Builtin(GeOp, Some(IntType))]["<=" := Builtin(LeOp, Some(IntType))]
      ["list" := Builtin(ListOp, None)]["prepend" := Builtin(PrependOp, None)]
      ["first" := Builtin(FirstOp, None)]["rest" := Builtin(RestOp, None)]
  }

  /** `standard_env()`: a fresh root scope named "global" holding exactly the root bindings. */
  method StandardEnv() returns (env: Environment)
    ensures fresh(env) && env.Valid()
    ensures env.name == "global" && env.outer == null
    ensures env.vars == RootBindings()
    ensures env.Chain() == [RootBindings()]
  {
    env := new Environment("global", null, [], []);
    AddBooleans(env);
    AddNil(env);
    AddArithmetic(env);
    AddLogic(env);
    AddEquality(env);
    AddComparison(env);
    AddStrings(env);
    AddLists(env);
  }

  /** Every builtin in m carries the guard its primitive needs. */
  predicate WellGuarded(m: map<string, Value>)
  {
    forall k :: k in m && m[k].Builtin? ==> m[k].guard == ExpectedGuard(m[k].prim)
  }

  /**
   * Arithmetic, comparison and logic builtins of the root scope carry the
   * exact-type guard their operands need; `=` and the list builtins carry none.
   */
  lemma RootBuiltinsGuarded()
    ensures WellGuarded(RootBindings())
  {
  }

  /** `true`, `false` and `nil` in the root scope. */
  lemma RootConstants()
    ensures Lookup([RootBindings()], "true") == Ok(Bool(true))
    ensures Lookup([RootBindings()], "false") == Ok(Bool(false))
    ensures Lookup([RootBindings()], "nil") == Ok(Nil)
  {
  }

  /**
   * Scope discipline in the root scope: a name cannot be bound twice in one
   * scope, and a child scope may shadow it without disturbing the outer
   * binding.
   */
  method ScopeDiscipline() returns (rebind: Result<()>, inChild: Result<Value>, inGlobal: Result<Value>)
    ensures FailsWith(rebind, Name)
    ensures inChild == Ok(Int(3))
    ensures inGlobal == Ok(Int(1))
  {
    var global := StandardEnv();
    var first := global.Set("x", Int(1));
    rebind := global.Set("x", Int(2));
    ThrowNameError("Variable x already exists in global environment!");
    var child := new Environment("lambda", global, ["x"], [Int(3)]);
    inChild := child.Get("x");
    inGlobal := global.Get("x");
  }
}
