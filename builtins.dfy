/**
 * The builtin procedures of the root environment (kimi/environments.py):
 * floor division and modulo, the type-strict equality, the cons-pair list
 * procedures, and the exact-type argument guard that `verify_arg_type`
 * wraps around the arithmetic, comparison and logic procedures.
 */
module Builtins {

  import opened Wrappers
  import opened Errors
  import opened Values

  // ---------------------------------------------------------------------
  // Floor division and modulo (Python's `//` and `%` on int)
  // ---------------------------------------------------------------------

  /** `a // b`: the largest integer q with q <= a/b. */
  function FloorDiv(a: int, b: int): (q: int)
    requires b != 0
    ensures b > 0 ==> b * q <= a < b * q + b
    ensures b < 0 ==> b * q + b < a <= b * q
  {
    // Dafny's division is Euclidean, which is the floor for a positive divisor;
    // a/b and (-a)/(-b) have the same floor.
    if b > 0 then a / b else (-a) / (-b)
  }

  /** `a % b`: the remainder of floor division, zero or of the sign of b. */
  function FloorMod(a: int, b: int): (r: int)
    requires b != 0
    ensures b > 0 ==> 0 <= r < b
    ensures b < 0 ==> b < r <= 0
    ensures a == b * FloorDiv(a, b) + r
  {
    if b > 0 then a % b else -((-a) % (-b))
  }

  /** A non-zero multiple of b is at least |b| away from zero. */
  lemma {:induction false} MultipleAwayFromZero(b: int, d: int)
    requires b != 0
    ensures d > 0 ==> (b > 0 ==> b * d >= b) && (b < 0 ==> b * d <= b)
    ensures d < 0 ==> (b > 0 ==> b * d <= -b) && (b < 0 ==> b * d >= -b)
    decreases if d < 0 then -d else d
  {
    if d > 1 {
      MultipleAwayFromZero(b, d - 1);
      assert b * d == b * (d - 1) + b;
    } else if d < -1 {
      MultipleAwayFromZero(b, d + 1);
      assert b * d == b * (d + 1) - b;
    }
  }

  /**
   * Floor division and modulo are the only quotient and remainder with
   * a == b*q + r and r zero or of the sign of b, strictly smaller than |b|.
   */
  lemma FloorDivModUnique(a: int, b: int, q: int, r: int)
    requires b != 0
    requires a == b * q + r
    requires b > 0 ==> 0 <= r < b
    requires b < 0 ==> b < r <= 0
    ensures q == FloorDiv(a, b) && r == FloorMod(a, b)
  {
    var q0, r0 := FloorDiv(a, b), FloorMod(a, b);
    assert b * (q - q0) == r0 - r by {
      assert b * (q - q0) == b * q - b * q0;
    }
    MultipleAwayFromZero(b, q - q0);
  }

  // ---------------------------------------------------------------------
  // Equality (`=`)
  // ---------------------------------------------------------------------

  function BoolToInt(b: bool): int { if b then 1 else 0 }

  /**
   * Python's `==` on the values: bool is a subtype of int, so True == 1 and
   * False == 0; tuples compare element by element with the same `==`;
   * functions compare by identity.
   */
  function PyEq(a: Value, b: Value): bool
  {
    match a
    case Int(x) => (b.Int? && b.i == x) || (b.Bool? && x == BoolToInt(b.b))
    case Bool(x) => (b.Bool? && b.b == x) || (b.Int? && b.i == BoolToInt(x))
    case Str(s) => b.Str? && b.s == s
    case Pair(h, t) => b.Pair? && PyEq(h, b.head) && PyEq(t, b.tail)
    case Nil => b.Nil?
    case Builtin(_, _) => a == b
  }

  lemma {:induction false} PyEqReflexive(a: Value)
    ensures PyEq(a, a)
  {
    if a.Pair? {
      PyEqReflexive(a.head);
      PyEqReflexive(a.tail);
    }
  }

  lemma {:induction false} PyEqSymmetric(a: Value, b: Value)
    ensures PyEq(a, b) == PyEq(b, a)
  {
    if a.Pair? && b.Pair? {
      PyEqSymmetric(a.head, b.head);
      PyEqSymmetric(a.tail, b.tail);
    }
  }

  /**
   * `equals(a, b)`: false when the runtime types differ, otherwise Python's
   * `==`. The type check is made on the operands only, so inside tuples 1
   * still equals True.
   */
  function Equals(a: Value, b: Value): (r: bool)
    ensures r ==> TypeOf(a) == TypeOf(b)
    ensures a == b ==> r
  {
    PyEqReflexive(a);
    if TypeOf(a) != TypeOf(b) then false else PyEq(a, b)
  }

  /**
   * `=` is reflexive and symmetric, holds of equal values, never holds
   * between values of different types, and on operands that are not pairs
   * it is exactly value equality (so 1 is not `true`).
   */
  lemma EqualsLaws(a: Value, b: Value)
    ensures Equals(a, a)
    ensures Equals(a, b) == Equals(b, a)
    ensures a == b ==> Equals(a, b)
    ensures TypeOf(a) != TypeOf(b) ==> !Equals(a, b)
    ensures !a.Pair? ==> (Equals(a, b) <==> a == b)
  {
    PyEqReflexive(a);
    PyEqSymmetric(a, b);
  }

  /** Inside pairs the comparison is Python's: `(= (list 1) (list true))` is true. */
  lemma EqualsInsidePairs()
    ensures Equals(Pair(Int(1), Nil), Pair(Bool(true), Nil))
    ensures !Equals(Int(1), Bool(true))
  {
  }

  // ---------------------------------------------------------------------
  // Lists (`list`, `prepend`, `first`, `rest`)
  // ---------------------------------------------------------------------

  /** `prepend(first, rest)`: the pair whose first and rest are the arguments. */
  function Prepend(first: Value, rest: Value): (r: Value)
    ensures FirstOf(r) == Ok(first) && RestOf(r) == Ok(rest)
  {
    Pair(first, rest)
  }

  /**
   * `first(listy)`: None for None, otherwise `listy[0]`, which for a
   * string is its first character and fails on anything unsubscriptable.
   */
  function FirstOf(listy: Value): (r: Result<Value>)
    ensures r.Ok? <==> listy.Nil? || listy.Pair? || (listy.Str? && |listy.s| >= 1)
    ensures r.Err? ==> r.error.Host?
    ensures listy.Pair? ==> r == Ok(listy.head)
  {
    match listy
    case Nil => Ok(Nil)
    case Pair(h, _) => Ok(h)
    case Str(s) => if |s| == 0 then Err(Host(HostIndexError)) else Ok(Str([s[0]]))
    case _ => Err(Host(HostTypeError))
  }

  /** `rest(listy)`: None for None, otherwise `listy[1]`. */
  function RestOf(listy: Value): (r: Result<Value>)
    ensures r.Ok? <==> listy.Nil? || listy.Pair? || (listy.Str? && |listy.s| >= 2)
    ensures r.Err? ==> r.error.Host?
    ensures listy.Pair? ==> r == Ok(listy.tail)
  {
    match listy
    case Nil => Ok(Nil)
    case Pair(_, t) => Ok(t)
    case Str(s) => if |s| < 2 then Err(Host(HostIndexError)) else Ok(Str([s[1]]))
    case _ => Err(Host(HostTypeError))
  }

  /** `first` and `rest` of the empty list are the empty list. */
  lemma FirstRestOfNil()
    ensures FirstOf(Nil) == Ok(Nil) && RestOf(Nil) == Ok(Nil)
  {
  }

  /** The list `(x1, (x2, ... (xn, None)))` of the arguments. */
  function ListOf(xs: seq<Value>): (r: Value)
    ensures r.Nil? <==> xs == []
    ensures xs != [] ==> r.Pair? && FirstOf(r) == Ok(xs[0])
  {
    if xs == [] then Nil else Prepend(xs[0], ListOf(xs[1..]))
  }

  /** The elements of a proper list, or None if the chain of pairs does not end in None. */
  function Elements(v: Value): Option<seq<Value>>
  {
    match v
    case Nil => Some([])
    case Pair(h, t) =>
      (match Elements(t)
       case Some(rest) => Some([h] + rest)
       case None => None)
    case _ => None
  }

  /** `list` builds a proper list holding exactly its arguments, in order. */
  lemma {:induction false} ElementsOfListOf(xs: seq<Value>)
    ensures Elements(ListOf(xs)) == Some(xs)
  {
    if xs != [] {
      ElementsOfListOf(xs[1..]);
      assert [xs[0]] + xs[1..] == xs;
    }
  }

  /** Every proper list is what `list` builds from its elements. */
  lemma {:induction false} ListOfElements(v: Value, xs: seq<Value>)
    requires Elements(v) == Some(xs)
    ensures ListOf(xs) == v
  {
    match v
    case Nil =>
    case Pair(h, t) =>
      var rest := Elements(t).value;
      assert xs[1..] == rest;
      ListOfElements(t, rest);
  }

  /** `first` of `rest` applied k times. */
  function Nth(l: Value, k: nat): Result<Value>
    decreases k
  {
    if k == 0 then FirstOf(l)
    else match RestOf(l)
      case Ok(t) => Nth(t, k - 1)
      case Err(e) => Err(e)
  }

  /**
   * The k-th element of `list(x0, ..., xn-1)` is reached by `rest` k times
   * then `first`; past the end it is nil.
   */
  lemma {:induction false} NthOfListOf(xs: seq<Value>, k: nat)
    ensures k < |xs| ==> Nth(ListOf(xs), k) == Ok(xs[k])
    ensures k >= |xs| ==> Nth(ListOf(xs), k) == Ok(Nil)
  {
    if xs == [] {
      if k > 0 {
        NthOfListOf(xs, k - 1);
      }
    } else if k > 0 {
      NthOfListOf(xs[1..], k - 1);
    }
  }

  /** `make_list(*args)`: folds `(x, result)` over the arguments from last to first. */
  method MakeList(args: seq<Value>) returns (result: Value)
    ensures Elements(result) == Some(args)
    ensures result == ListOf(args)
  {
    result := Nil;
    var i := |args|;
    while i > 0
      invariant 0 <= i <= |args|
      invariant result == ListOf(args[i..])
    {
      i := i - 1;
      assert args[i..][1..] == args[i + 1..];
      result := Pair(args[i], result);
    }
    assert args[0..] == args;
    ElementsOfListOf(args);
  }

  // ---------------------------------------------------------------------
  // The argument type guard (`verify_arg_type`)
  // ---------------------------------------------------------------------

  /** The complaint `verify_arg_type` raises for an argument of the wrong type. */
  function GuardMessage(arg: Value, t: PyType): string
  {
    "TYPE ERROR! Invalid argument type: " + StrOf(arg) + " is type " + TypeName(TypeOf(arg))
      + ", expected type " + TypeName(t) + "."
  }

  /** `assert_or_complain` on each argument in turn, stopping at the first complaint. */
  function Guard(t: PyType, args: seq<Value>): (r: Result<()>)
    ensures r.Err? ==> FailsWith(r, Parsing)
    ensures r.Ok? ==> forall i :: 0 <= i < |args| ==> TypeOf(args[i]) == t
  {
    if args == [] then Ok(())
    else match AssertOrComplain(TypeOf(args[0]) == t, GuardMessage(args[0], t))
      case Err(e) => Err(e)
      case Ok(_) => Guard(t, args[1..])
  }

  /**
   * The guard passes exactly when every argument has type t; otherwise it
   * fails with the Parsing kind, complaining about the first offender.
   */
  lemma {:induction false} GuardSpec(t: PyType, args: seq<Value>)
    ensures Guard(t, args).Ok? <==> forall i :: 0 <= i < |args| ==> TypeOf(args[i]) == t
    ensures Guard(t, args).Err? ==>
      exists j :: 0 <= j < |args| && TypeOf(args[j]) != t
        && (forall i :: 0 <= i < j ==> TypeOf(args[i]) == t)
        && Guard(t, args).error == ComplainAndDie(GuardMessage(args[j], t))
  {
    if args != [] {
      GuardSpec(t, args[1..]);
      if TypeOf(args[0]) == t && Guard(t, args).Err? {
        var j :| 0 <= j < |args[1..]| && TypeOf(args[1..][j]) != t
          && (forall i :: 0 <= i < j ==> TypeOf(args[1..][i]) == t)
          && Guard(t, args[1..]).error == ComplainAndDie(GuardMessage(args[1..][j], t));
        assert TypeOf(args[j + 1]) != t;
        assert forall i :: 0 <= i < j + 1 ==> TypeOf(args[i]) == t by {
          forall i | 0 <= i < j + 1 ensures TypeOf(args[i]) == t {
            if i > 0 { assert args[i] == args[1..][i - 1]; }
          }
        }
      }
      if TypeOf(args[0]) == t {
        assert forall i :: 0 <= i < |args[1..]| ==> args[1..][i] == args[i + 1];
      }
    }
  }

  /** `verifier(*args)`'s loop: checks each argument in order and stops at the first mismatch. */
  method VerifyArgTypes(t: PyType, args: seq<Value>) returns (r: Result<()>)
    ensures r == Guard(t, args)
    ensures r.Ok? <==> forall i :: 0 <= i < |args| ==> TypeOf(args[i]) == t
    ensures r.Err? ==> FailsWith(r, Parsing)
  {
    GuardSpec(t, args);
    for i := 0 to |args|
      invariant Guard(t, args) == Guard(t, args[i..])
    {
      assert args[i..][1..] == args[i + 1..];
      var checked := AssertOrComplain(TypeOf(args[i]) == t, GuardMessage(args[i], t));
      if checked.Err? {
        return Err(checked.error);
      }
    }
    return Ok(());
  }

  // ---------------------------------------------------------------------
  // Calling a builtin
  // ---------------------------------------------------------------------

  predicate IntPair(args: seq<Value>) { |args| == 2 && args[0].Int? && args[1].Int? }
  predicate BoolPair(args: seq<Value>) { |args| == 2 && args[0].Bool? && args[1].Bool? }

  /**
   * The procedure behind each builtin, once any guard has passed. A wrong
   * number of arguments is the host's TypeError, as is an operand the
   * unwrapped procedure cannot use; division by zero is the host's
   * ZeroDivisionError.
   */
  function Call(p: Prim, args: seq<Value>): (r: Result<Value>)
    ensures r.Err? ==> r.error.Host?
  {
    match p
    case AddOp => if IntPair(args) then Ok(Int(args[0].i + args[1].i)) else Err(Host(HostTypeError))
    case SubOp => if IntPair(args) then Ok(Int(args[0].i - args[1].i)) else Err(Host(HostTypeError))
    case MulOp => if IntPair(args) then Ok(Int(args[0].i * args[1].i)) else Err(Host(HostTypeError))
    case FloorDivOp =>
      if !IntPair(args) then Err(Host(HostTypeError))
      else if args[1].i == 0 then Err(Host(HostZeroDivisionError))
      else Ok(Int(FloorDiv(args[0].i, args[1].i)))
    case ModOp =>
      if !IntPair(args) then Err(Host(HostTypeError))
      else if args[1].i == 0 then Err(Host(HostZeroDivisionError))
      else Ok(Int(FloorMod(args[0].i, args[1].i)))
    case AndOp => if BoolPair(args) then Ok(Bool(args[0].b && args[1].b)) else Err(Host(HostTypeError))
    case OrOp => if BoolPair(args) then Ok(Bool(args[0].b || args[1].b)) else Err(Host(HostTypeError))
    case NotOp => if |args| == 1 && args[0].Bool? then Ok(Bool(!args[0].b)) else Err(Host(HostTypeError))
    case EqualOp => if |args| == 2 then Ok(Bool(Equals(args[0], args[1]))) else Err(Host(HostTypeError))
    case GtOp => if IntPair(args) then Ok(Bool(args[0].i > args[1].i)) else Err(Host(HostTypeError))
    case LtOp => if IntPair(args) then Ok(Bool(args[0].i < args[1].i)) else Err(Host(HostTypeError))
    case GeOp => if IntPair(args) then Ok(Bool(args[0].i >= args[1].i)) else Err(Host(HostTypeError))
    case LeOp => if IntPair(args) then Ok(Bool(args[0].i <= args[1].i)) else Err(Host(HostTypeError))
    case ListOp => Ok(ListOf(args))
    case PrependOp => if |args| == 2 then Ok(Prepend(args[0], args[1])) else Err(Host(HostTypeError))
    case FirstOp => if |args| == 1 then FirstOf(args[0]) else Err(Host(HostTypeError))
    case RestOp => if |args| == 1 then RestOf(args[0]) else Err(Host(HostTypeError))
  }

  /** Calling a builtin value: its guard, if it has one, runs over all arguments first. */
  function Invoke(p: Prim, guard: Option<PyType>, args: seq<Value>): (r: Result<Value>)
    ensures r.Err? && r.error.Raised? ==> guard.Some? && r.error.kind == Parsing
    ensures guard.None? || Guard(guard.value, args).Ok? ==> r == Call(p, args)
  {
    match guard
    case None => Call(p, args)
    case Some(t) =>
      match Guard(t, args)
      case Err(e) => Err(e)
      case Ok(_) => Call(p, args)
  }

  /**
   * A guarded builtin fails with the Parsing kind when any argument has the
   * wrong exact type, before the procedure is called; when every argument
   * passes, the result is the procedure's.
   */
  lemma GuardedInvoke(p: Prim, t: PyType, args: seq<Value>)
    ensures (forall i :: 0 <= i < |args| ==> TypeOf(args[i]) == t) ==> Invoke(p, Some(t), args) == Call(p, args)
    ensures (exists i :: 0 <= i < |args| && TypeOf(args[i]) != t) ==> FailsWith(Invoke(p, Some(t), args), Parsing)
  {
    GuardSpec(t, args);
  }

  /** The guard's type for each primitive, as the root environment installs it. */
  function ExpectedGuard(p: Prim): Option<PyType>
  {
    match p
    case AddOp | SubOp | MulOp | FloorDivOp | ModOp | GtOp | LtOp | GeOp | LeOp => Some(IntType)
    case AndOp | OrOp | NotOp => Some(BoolType)
    case EqualOp | ListOp | PrependOp | FirstOp | RestOp => None
  }

  /**
   * A boolean is not an integer for `+` or `>`, and an integer is not a
   * boolean for `&` or `!`: each such call fails with the Parsing kind.
   */
  lemma GuardRejectsOtherTypes(p: Prim, args: seq<Value>)
    ensures ExpectedGuard(p) == Some(IntType) && (exists i :: 0 <= i < |args| && args[i].Bool?) ==>
              FailsWith(Invoke(p, ExpectedGuard(p), args), Parsing)
    ensures ExpectedGuard(p) == Some(BoolType) && (exists i :: 0 <= i < |args| && args[i].Int?) ==>
              FailsWith(Invoke(p, ExpectedGuard(p), args), Parsing)
  {
    if ExpectedGuard(p).Some? {
      GuardedInvoke(p, ExpectedGuard(p).value, args);
    }
  }

  /**
   * `/` and `%` on integers: floor quotient and remainder with
   * a == b*(a/b) + a%b, and a ZeroDivisionError for a zero divisor.
   */
  lemma DivModBuiltins(a: int, b: int)
    ensures b == 0 ==> Invoke(FloorDivOp, Some(IntType), [Int(a), Int(b)]) == Err(Host(HostZeroDivisionError))
    ensures b == 0 ==> Invoke(ModOp, Some(IntType), [Int(a), Int(b)]) == Err(Host(HostZeroDivisionError))
    ensures b != 0 ==>
      var q := Invoke(FloorDivOp, Some(IntType), [Int(a), Int(b)]);
      var r := Invoke(ModOp, Some(IntType), [Int(a), Int(b)]);
      q.Ok? && q.value.Int? && r.Ok? && r.value.Int? && a == b * q.value.i + r.value.i
        && (b > 0 ==> 0 <= r.value.i < b) && (b < 0 ==> b < r.value.i <= 0)
  {
    GuardedInvoke(FloorDivOp, IntType, [Int(a), Int(b)]);
    GuardedInvoke(ModOp, IntType, [Int(a), Int(b)]);
  }

  /** Concrete cases: (/ -3 -2) is 1, (% 6 -4) is -2, (/ 7 2) is 3, (% 7 2) is 1. */
  lemma FloorExamples()
    ensures Invoke(FloorDivOp, Some(IntType), [Int(-3), Int(-2)]) == Ok(Int(1))
    ensures Invoke(ModOp, Some(IntType), [Int(6), Int(-4)]) == Ok(Int(-2))
    ensures Invoke(FloorDivOp, Some(IntType), [Int(6), Int(-2)]) == Ok(Int(-3))
    ensures Invoke(FloorDivOp, Some(IntType), [Int(7), Int(2)]) == Ok(Int(3))
    ensures Invoke(ModOp, Some(IntType), [Int(7), Int(2)]) == Ok(Int(1))
    ensures Invoke(FloorDivOp, Some(IntType), [Int(6), Int(2)]) == Ok(Int(3))
    ensures Invoke(FloorDivOp, Some(IntType), [Int(1), Int(2)]) == Ok(Int(0))
    ensures Invoke(ModOp, Some(IntType), [Int(2), Int(3)]) == Ok(Int(2))
  {
    FloorDivModUnique(6, 2, 3, 0);
    FloorDivModUnique(1, 2, 0, 1);
    FloorDivModUnique(2, 3, 0, 2);
    FloorDivModUnique(-3, -2, 1, -1);
    FloorDivModUnique(6, -4, -2, -2);
    FloorDivModUnique(6, -2, -3, 0);
    FloorDivModUnique(7, 2, 3, 1);
  }

  /** On two integers, `+ - *` give the integer sum, difference and product. */
  lemma ArithmeticBuiltins(a: int, b: int)
    ensures Invoke(AddOp, Some(IntType), [Int(a), Int(b)]) == Ok(Int(a + b))
    ensures Invoke(SubOp, Some(IntType), [Int(a), Int(b)]) == Ok(Int(a - b))
    ensures Invoke(MulOp, Some(IntType), [Int(a), Int(b)]) == Ok(Int(a * b))
  {
    GuardSpec(IntType, [Int(a), Int(b)]);
  }

  /** On two integers, `> < >= <=` give the integer comparisons. */
  lemma ComparisonBuiltins(a: int, b: int)
    ensures Invoke(GtOp, Some(IntType), [Int(a), Int(b)]) == Ok(Bool(a > b))
    ensures Invoke(LtOp, Some(IntType), [Int(a), Int(b)]) == Ok(Bool(a < b))
    ensures Invoke(GeOp, Some(IntType), [Int(a), Int(b)]) == Ok(Bool(a >= b))
    ensures Invoke(LeOp, Some(IntType), [Int(a), Int(b)]) == Ok(Bool(a <= b))
  {
    GuardSpec(IntType, [Int(a), Int(b)]);
  }

  /** On booleans, `& | !` are conjunction, disjunction and negation. */
  lemma LogicBuiltins(x: bool, y: bool)
    ensures Invoke(AndOp, Some(BoolType), [Bool(x), Bool(y)]) == Ok(Bool(x && y))
    ensures Invoke(OrOp, Some(BoolType), [Bool(x), Bool(y)]) == Ok(Bool(x || y))
    ensures Invoke(NotOp, Some(BoolType), [Bool(x)]) == Ok(Bool(!x))
  {
    GuardSpec(BoolType, [Bool(x), Bool(y)]);
    GuardSpec(BoolType, [Bool(x)]);
  }

  /** `=` is unguarded: it accepts any two values and never equates values of different types. */
  lemma EqualBuiltin(a: Value, b: Value)
    ensures Invoke(EqualOp, ExpectedGuard(EqualOp), [a, b]) == Ok(Bool(Equals(a, b)))
    ensures TypeOf(a) != TypeOf(b) ==> Invoke(EqualOp, ExpectedGuard(EqualOp), [a, b]) == Ok(Bool(false))
    ensures a == b ==> Invoke(EqualOp, ExpectedGuard(EqualOp), [a, b]) == Ok(Bool(true))
  {
    EqualsLaws(a, b);
  }

  /**
   * `list` is nested `prepend`s ending in nil; `first` and `rest` take a
   * pair apart again.
   */
  lemma ListBuiltins(x: Value, l: Value, xs: seq<Value>)
    ensures Invoke(ListOp, None, []) == Ok(Nil)
    ensures Invoke(ListOp, None, [x] + xs) == Invoke(PrependOp, None, [x, Invoke(ListOp, None, xs).value])
    ensures Invoke(FirstOp, None, [Invoke(PrependOp, None, [x, l]).value]) == Ok(x)
    ensures Invoke(RestOp, None, [Invoke(PrependOp, None, [x, l]).value]) == Ok(l)
    ensures Invoke(FirstOp, None, [Nil]) == Ok(Nil) && Invoke(RestOp, None, [Nil]) == Ok(Nil)
  {
    assert ([x] + xs)[1..] == xs;
  }
}
