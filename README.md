# Kimi: scopes, the root environment and the error helpers

Kimi is a small Lisp-like language interpreted in Python 3. This project
models two parts of its runtime in Dafny and proves what they promise:

- **Scopes** (`kimi/environments.py`). An `Environment` is a dictionary of
  bindings with a name and a link to an outer scope.
  - `get` looks a name up through the chain of scopes and fails with a
    name error at the root.
  - `set` refuses to rebind a name that the same scope already holds.
  - `standard_env` builds the root scope "global". Its `add_*` helpers install:
    - the constants `true`, `false` and `nil`;
    - the integer builtins `+ - * / %` and `> < >= <=`;
    - the boolean builtins `& | !`;
    - the equality builtin `=`;
    - the list builtins `list prepend first rest`.
  - `verify_arg_type` wraps the arithmetic, comparison and logic builtins.
    The wrapper rejects any argument whose exact type is not the expected
    one. Its message begins "TYPE ERROR!", but what it raises is the parsing
    kind (`KimiParsingError`, through `assert_or_complain`), not the type
    kind. The model follows the code.
- **Error helpers** (`errors.py`).
  - `complain_and_die` raises a parsing error.
  - `assert_or_complain` raises that error when an assertion is false.
  - `throw_error` is meant to turn an error-type word into a Kimi exception
    with a "<Kind>Error : message" message. As written, it does so only for
    the words name, syntax and type (in any letter case). For every other
    word it raises Python's own `NameError`, because it looks up a class that
    is not declared (see "## Findings").
  - `assert_or_throw` raises what `throw_error` raises when an assertion is
    false, so it has the same gap.

Files:

- `wrappers.dfy`: `Option`.
- `errors.dfy` (module `Errors`)
  - Failures: a raised Kimi exception of a `Kind`, or a host exception of
    the Python runtime such as `TypeError`.
  - ASCII title-casing, as `str.title`.
  - The error helpers.
- `values.dfy` (module `Values`)
  - Kimi's runtime values: `int`, `bool`, `str`, 2-tuples used as list
    cells, `None` and builtin functions.
  - Their Python type names and their `str()` rendering.
- `builtins.dfy` (module `Builtins`)
  - Python's floor division and modulo.
  - Python `==`.
  - The inner functions of `add_equality` and `add_lists`.
  - The argument-type guard, and calling a builtin.
- `environments.dfy` (module `Environments`)
  - The `Environment` class: a `vars` map field, an `outer` reference and a
    ghost footprint.
  - Lookup through the chain of scopes.
  - `add_builtins`, the `add_*` helpers and `standard_env`.

Modelling choices:

- A raised exception is the `Err` case of a `Result`.
- The builtins are a closed set of primitives: `Builtin(prim, guard)` is a
  primitive, optionally wrapped by `verify_arg_type` for a type.
- Each `add_*` helper is a module-level method that takes the scope as a
  parameter, as the source's free functions `add_*(env)` do. Those that write into the
  scope's map field do so in place, as the source does, under a `modifies`
  clause. `AddStrings` changes nothing, so it has no `modifies` clause.
- `get` only reads, and it recurses, so it is a function over the object
  graph. It is tied to `Lookup` over the chain of maps from the scope to
  the root.

## Model

| member | source | states |
|---|---|---|
| Errors.ComplainAndDie | errors.py:13-14 | Always raises the parsing kind, carrying the given message unchanged |
| Errors.AssertOrComplain | errors.py:16-20 | Succeeds exactly when the assertion holds; otherwise raises the parsing kind with the given message |
| Errors.Classify | errors.py:23-26 | The kind chosen for an error-type word is never parsing; unless it is Unknown, the title-cased word is that kind's label |
| Errors.ClassifyIff | errors.py:23-26 | The kind is Name, Syntax or Type exactly when the word lower-cases to "name", "syntax" or "type"; it is Unknown exactly when it lower-cases to none of them |
| Errors.Title | errors.py:24 | Title-casing keeps the length and changes letter case only; a leading letter is upper-cased |
| Errors.TitleFromLower | errors.py:24 | Title-casing from any position agrees with the input once both are lower-cased |
| Errors.TitleIsCapitalized | errors.py:24 | Title-casing a string gives a capitalised lower-case word exactly when the string lower-cases to that word |
| Errors.ThrowError | errors.py:23-29 | Always raises a Kimi exception, never the parsing kind. Its message is the kind's label, then "Error : ", then the message. Its kind is the classified kind, so it is a name error exactly when the word lower-cases to "name" |
| Errors.ThrowNameError | errors.py:23-29 | The word "name" raises the Name kind, with "NameError : " before the message |
| Errors.ClassNameOfKind | errors.py:27-28 | The class name built for Name, Syntax or Type names that class; the one built for Unknown names no declared class |
| Errors.ThrowErrorAsWritten | errors.py:23-29 | As written, a Kimi exception that is raised is never of the parsing or Unknown kind; every other outcome is the host's NameError |
| Errors.ThrowErrorAsWrittenDiffers | errors.py:23-29 | As written, every word that names Name, Syntax or Type behaves as intended. Every other word looks up a class that does not exist and raises the host's NameError |
| Errors.ThrowErrorParsingAsWritten | errors.py:23-29 | As written, `throw_error("parsing", m)` raises the host's NameError; the intended result is the Unknown kind |
| Errors.AssertOrThrow | errors.py:37-41 | Succeeds exactly when the assertion holds; otherwise raises exactly what `throw_error` raises for the same word and message |
| Errors.AssertOrThrowAsWritten | errors.py:37-41 | As written, succeeds exactly when the assertion holds. A false assertion raises what the intended helper raises for name, syntax and type, and the host's NameError for every other word |
| Errors.ParsingOnlyByComplaint | errors.py:13-41 | `assert_or_throw` never raises the parsing kind; `assert_or_complain` raises nothing else |
| Builtins.FloorDiv | kimi/environments.py:73 | The quotient is rounded towards negative infinity: the dividend lies in the half-open interval the quotient selects, on the divisor's side |
| Builtins.FloorMod | kimi/environments.py:74 | The remainder has the divisor's sign and is smaller in magnitude; the quotient times the divisor plus the remainder is the dividend |
| Builtins.FloorDivModUnique | kimi/environments.py:73-74 | Any quotient and remainder meeting those conditions are the floor quotient and modulo |
| Builtins.PyEqReflexive | kimi/environments.py:87 | Python `==` on values is reflexive |
| Builtins.PyEqSymmetric | kimi/environments.py:87 | Python `==` on values is symmetric |
| Builtins.Equals | kimi/environments.py:83-87 | `equals` holds only between values of the same type, and always holds between identical values |
| Builtins.EqualsLaws | kimi/environments.py:83-87 | `equals` is reflexive and symmetric. Values of different types are never equal. For non-tuples it is exactly value identity |
| Builtins.EqualsInsidePairs | kimi/environments.py:83-87 | The type check is shallow: `(1, None)` equals `(True, None)`, though `1` does not equal `True` |
| Builtins.Prepend | kimi/environments.py:101-102 | `first` of the cell built is the given head, and `rest` of it is the given tail |
| Builtins.FirstOf | kimi/environments.py:104-107 | `first` succeeds exactly on `nil`, a pair or a non-empty string. Its failures are host exceptions only. On a pair it returns the head |
| Builtins.RestOf | kimi/environments.py:109-112 | `rest` succeeds exactly on `nil`, a pair or a string of length at least two. Its failures are host exceptions only. On a pair it returns the tail |
| Builtins.ListOf | kimi/environments.py:114-118 | The cells for no arguments are `nil`; otherwise they are a pair whose `first` is the first argument |
| Builtins.FirstRestOfNil | kimi/environments.py:104-112 | `first` and `rest` of `nil` are `nil` |
| Builtins.ElementsOfListOf | kimi/environments.py:114-118 | The cells built from a sequence read back as that sequence |
| Builtins.ListOfElements | kimi/environments.py:114-118 | Any value that reads as a list is the cells built from its elements |
| Builtins.NthOfListOf | kimi/environments.py:114-118 | Following `rest` k times and taking `first` yields the k-th argument, or `nil` past the end |
| Builtins.MakeList | kimi/environments.py:114-118 | The loop over the reversed arguments builds the cells that read back as exactly the arguments, in order |
| Builtins.Guard | kimi/environments.py:61-64 | The guard's only failure is the parsing kind, and when it passes every argument has exactly the expected type |
| Builtins.GuardSpec | kimi/environments.py:57-66 | The guard passes exactly when every argument has exactly the expected type. Otherwise it raises the parsing kind, naming the first offending argument |
| Builtins.VerifyArgTypes | kimi/environments.py:61-64 | The checking loop passes exactly when every argument has the expected type; otherwise it raises the parsing kind at the first argument that does not |
| Builtins.Call | kimi/environments.py:68-124 | A bare primitive never raises a Kimi exception; its failures are host exceptions only |
| Builtins.Invoke | kimi/environments.py:57-66 | Calling a builtin raises a Kimi exception only through its guard, and only of the parsing kind. Unguarded, or once the guard passes, the result is the primitive's |
| Builtins.GuardedInvoke | kimi/environments.py:57-66 | A wrapped builtin behaves as the bare primitive when all arguments type-check; it raises the parsing kind as soon as one does not |
| Builtins.GuardRejectsOtherTypes | kimi/environments.py:68-95 | For every primitive the root scope guards: a boolean argument is refused by each integer builtin (`+ - * / % > < >= <=`), and an integer argument by each boolean builtin (`&`, `!` and the bar operator for "or"), with the parsing kind |
| Builtins.DivModBuiltins | kimi/environments.py:73-74 | `/` and `%` by zero raise the host's ZeroDivisionError; otherwise they return the floor quotient and modulo |
| Builtins.FloorExamples | tests.py:112-120 | All eight floor-division and modulo results the test suite expects, including negative operands |
| Builtins.ArithmeticBuiltins | kimi/environments.py:68-74 | `+ - *` on integers return the sum, difference and product |
| Builtins.ComparisonBuiltins | kimi/environments.py:90-95 | `> < >= <=` on integers return the comparison's truth value |
| Builtins.LogicBuiltins | kimi/environments.py:76-80 | `&`, the bar operator and `!` on booleans return conjunction, disjunction and negation |
| Builtins.EqualBuiltin | kimi/environments.py:82-88 | `=` is unguarded and returns `equals`: false across types, true on identical values |
| Builtins.ListBuiltins | kimi/environments.py:100-124 | `list` of nothing is `nil`, and `list` of x and more is `prepend` of x onto `list` of the rest. `first` and `rest` undo `prepend`, and both map `nil` to `nil` |
| Environments.Lookup | kimi/environments.py:17-23 | A successful lookup returns a value that some scope in the chain binds the name to. A failed one is the Name kind with the message "NameError : Undefined variable: <key>" |
| Environments.ResolveWitness | kimi/environments.py:17-23 | A binding that is found is held by some scope of the chain |
| Environments.ResolveNearest | kimi/environments.py:17-23 | A lookup finds the binding in the nearest scope that holds the name; it finds nothing exactly when no scope holds it |
| Environments.LookupFailsOnlyWhenUnbound | kimi/environments.py:17-23 | A lookup fails exactly when no scope up to the root binds the name, and the failure is a name error |
| Environments.ResolveAfterBind | kimi/environments.py:25-30 | Binding a name in the innermost scope makes it visible there, shadowing outer bindings, and changes no other name's lookup |
| Environments.ZipPrefixSpec | kimi/environments.py:12-15 | After pairing names with values, a name is bound exactly when it is among the paired names; it holds the value of its last occurrence |
| Environments.Environment.constructor | kimi/environments.py:12-15 | A new scope has the given name and outer scope. Its bindings are the zipped names and values, and its chain is itself followed by the outer chain |
| Environments.Environment.Get | kimi/environments.py:17-23 | `get` is the lookup through the scope chain from this scope to the root |
| Environments.Environment.Set | kimi/environments.py:25-30 | Binding an existing name raises a name error and leaves the scope unchanged. Otherwise the name is bound to the value and nothing else changes, outer scopes included |
| Environments.BuiltinMap | kimi/environments.py:126-131 | Every symbol in the pairs is bound, and every binding is a builtin carrying the given guard |
| Environments.BuiltinMapSnoc | kimi/environments.py:127-131 | Appending a pair to the list rebinds its symbol to that pair's builtin, over any earlier binding: later pairs win |
| Environments.AddBuiltins | kimi/environments.py:126-131 | Each pair is written into the scope, in order, wrapped in the guard when a type is given; later pairs win, and earlier bindings are overwritten |
| Environments.AddBooleans | kimi/environments.py:49-52 | Binds `true` and `false` |
| Environments.AddNil | kimi/environments.py:54-55 | Binds `nil` |
| Environments.AddArithmetic | kimi/environments.py:68-74 | Binds `+ - * / %`, each guarded to integers |
| Environments.AddLogic | kimi/environments.py:76-80 | Binds `&`, the bar operator (or) and `!`, each guarded to booleans |
| Environments.AddEquality | kimi/environments.py:82-88 | Binds an unguarded `=` |
| Environments.AddComparison | kimi/environments.py:90-95 | Binds `> < >= <=`, each guarded to integers |
| Environments.AddStrings | kimi/environments.py:97-98 | Changes nothing |
| Environments.AddLists | kimi/environments.py:100-124 | Binds `list prepend first rest`, unguarded |
| Environments.StandardEnv | kimi/environments.py:32-46 | Returns a fresh root scope named "global" with no outer scope, holding exactly the root bindings |
| Environments.RootBuiltinsGuarded | kimi/environments.py:68-95 | Each root builtin carries the guard its operation needs: integer for arithmetic and comparison, boolean for logic, none for `=` and the list builtins |
| Environments.RootConstants | kimi/environments.py:49-55 | `true`, `false` and `nil` resolve in the root scope |
| Environments.ScopeDiscipline | kimi/environments.py:12-30 | In the root scope, binding `x` a second time raises a name error. A child scope that binds `x` sees its own value, while the root still sees the first |

## Left out

- The tokenizer, the parser and the evaluator are not part of this model. This covers special forms, lambdas and closures, and `execute`. The test-suite lines cited above go through them.
- The REPL flag, `enable_repl` and `print_or_raise_exception` are left out because they only decide between printing and raising.
- Title-casing covers ASCII letters only; Python's Unicode case mapping is not modelled.
- The exact text of `str()` for a function is left out because it includes a memory address. The model renders `<function NAME>`. String escaping inside tuple reprs is simplified to plain single quotes.
- Host exceptions are modelled by their class only (`TypeError`, `IndexError`, `ZeroDivisionError`, `NameError`), without their messages.
- Builtins.Call: an unguarded primitive applied to operands of the wrong type, or to the wrong number of arguments, raises the host's `TypeError` in the model. Python would sometimes compute a value instead (string concatenation, truthiness for `and`/`or`). The root scope always installs these primitives guarded, so the difference is not reachable from `standard_env`.
- Builtins.FirstOf: on a string, `first` returns its first character and `rest` its second; every other non-list argument raises `TypeError`. Indexing beyond a tuple of length two does not arise, since Kimi builds only pairs.
- The inherited dictionary operations of `Environment` (`items`, `pop`, and the rest) are left out because the interpreter uses only `get`, `set` and direct item assignment.
- The default arguments of `Environment(...)` are not modelled. `standard_env` calls `Environment()` with none, and `StandardEnv` passes the defaults explicitly: `"global"`, `null`, `[]`, `[]`.
- Python asserts are assumed enabled. Under `python -O` the `assert` statements are stripped: those at errors.py:18 and errors.py:39, and with the first one the type check at kimi/environments.py:63. Then `assert_or_complain` and `assert_or_throw` never raise, and the guard lets every argument through. The model does not cover that mode.
- Errors.AssertOrThrow is built on the corrected `throw_error` (`Errors.ThrowError`), so for error-type words outside name, syntax and type it raises the Unknown kind. The code as written raises the host's NameError there; `Errors.AssertOrThrowAsWritten` models that.
- Environments.Environment.Get: the recursion through `outer` assumes the scope chain is finite and acyclic (`Valid`). In Python, a cycle of scopes would recurse until the host stack overflows.

## Findings

| source | as written | input that shows it | evidently intended | confidence | as-written member | corrected member |
|---|---|---|---|---|---|---|
| errors.py:26-28 | For any word other than name, syntax or type, `throw_error` evaluates the class name `KimiUnknownError`. exceptions.py:43 declares that class as `KimiUnknownException`, so the lookup itself raises Python's `NameError` | `throw_error("parsing", "m")` | Raise a `KimiUnknownException` with message "UnknownError : m" | high; not executed | Errors.ThrowErrorParsingAsWritten | Errors.ThrowError |
