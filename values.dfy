/**
 * The runtime values that the root environment binds and its builtins
 * consume and produce, with the Python type each one has at run time and
 * the text `str()` gives for it.
 */
module Values {

  import opened Wrappers

  /** The exact runtime types the builtins tell apart (`type(x)`). */
  datatype PyType = IntType | BoolType | StrType | TupleType | NoneType | FunctionType

  /** The primitive operations of the root environment, one per builtin name. */
  datatype Prim =
    | AddOp | SubOp | MulOp | FloorDivOp | ModOp     // + - * / %
    | AndOp | OrOp | NotOp                           // & | !
    | EqualOp                                        // =
    | GtOp | LtOp | GeOp | LeOp                      // > < >= <=
    | ListOp | PrependOp | FirstOp | RestOp          // list prepend first rest

  /**
   * A Kimi runtime value. A pair is the two-element tuple a cons cell is
   * built from, and `Nil` is Python's None. A builtin records the primitive
   * and the type its argument guard demands, if it was wrapped by one.
   */
  datatype Value =
    | Int(i: int)
    | Bool(b: bool)
    | Str(s: string)
    | Pair(head: Value, tail: Value)
    | Nil
    | Builtin(prim: Prim, guard: Option<PyType>)

  function TypeOf(v: Value): PyType
  {
    match v
    case Int(_) => IntType
    case Bool(_) => BoolType
    case Str(_) => StrType
    case Pair(_, _) => TupleType
    case Nil => NoneType
    case Builtin(_, _) => FunctionType
  }

  /** `type(x).__name__`. */
  function TypeName(t: PyType): string
  {
    match t
    case IntType => "int"
    case BoolType => "bool"
    case StrType => "str"
    case TupleType => "tuple"
    case NoneType => "NoneType"
    case FunctionType => "function"
  }

  function DigitChar(d: nat): (c: char)
    requires d < 10
    ensures '0' <= c <= '9'
  {
    ('0' as int + d) as char
  }

  /** The decimal digits of a natural number, most significant first. */
  function NatToString(n: nat): (s: string)
    ensures s != [] && forall i :: 0 <= i < |s| ==> '0' <= s[i] <= '9'
  {
    if n < 10 then [DigitChar(n)] else NatToString(n / 10) + [DigitChar(n % 10)]
  }

  function IntToString(n: int): (s: string)
    ensures s != []
    ensures (s[0] == '-') <==> n < 0
  {
    if n < 0 then "-" + NatToString(-n) else NatToString(n)
  }

  /** The qualified name Python reports for each builtin's function object. */
  function FunctionName(p: Prim, guard: Option<PyType>): string
  {
    if guard.Some? then "verify_arg_type.<locals>.verifier"
    else match p
      case EqualOp => "add_equality.<locals>.equals"
      case ListOp => "add_lists.<locals>.make_list"
      case PrependOp => "add_lists.<locals>.prepend"
      case FirstOp => "add_lists.<locals>.first"
      case RestOp => "add_lists.<locals>.rest"
      case _ => "<unwrapped primitive>"
  }

  /** `repr(x)`, which `str` uses for the elements of a tuple. */
  function ReprOf(v: Value): string
    decreases v, 1
  {
    match v
    case Str(s) => "'" + s + "'"
    case Pair(h, t) => "(" + ReprOf(h) + ", " + ReprOf(t) + ")"
    case _ => StrOf(v)
  }

  /** `str(x)`. */
  function StrOf(v: Value): string
    decreases v, 0
  {
    match v
    case Int(i) => IntToString(i)
    case Bool(b) => if b then "True" else "False"
    case Str(s) => s
    case Pair(h, t) => "(" + ReprOf(h) + ", " + ReprOf(t) + ")"
    case Nil => "None"
    case Builtin(p, g) => "<function " + FunctionName(p, g) + ">"
  }
}
