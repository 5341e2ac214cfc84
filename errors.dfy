/**
 * The error classification of errors.py: the closed set of error kinds that
 * exceptions.py declares, the title-casing and allow-list that `throw_error`
 * applies to its kind string, and the raise-iff-false helpers
 * `assert_or_throw`, `assert_or_complain` and `complain_and_die`.
 *
 * A raised exception is modelled as a `Failure` value; an operation that may
 * raise returns a `Result`.
 */
module Errors {

  import opened Wrappers

  /** The Kimi exception classes declared in exceptions.py. */
  datatype Kind = Name | Syntax | Type | Parsing | Unknown

  /** Exceptions raised by the Python host itself rather than by Kimi code. */
  datatype HostException = HostNameError | HostTypeError | HostIndexError | HostZeroDivisionError

  datatype Failure =
    | Raised(kind: Kind, message: string)
    | Host(exception: HostException)

  datatype Result<+T> = Ok(value: T) | Err(error: Failure)

  /** The outcome is a raised Kimi error of kind k. */
  predicate FailsWith<T>(r: Result<T>, k: Kind)
  {
    r.Err? && r.error.Raised? && r.error.kind == k
  }

  /** The text `throw_error` puts before "Error" for each kind. */
  function KindLabel(k: Kind): string
  {
    match k
    case Name => "Name"
    case Syntax => "Syntax"
    case Type => "Type"
    case Parsing => "Parsing"
    case Unknown => "Unknown"
  }

  // ASCII letter case, as Python's str methods treat ASCII text.

  predicate IsUpper(c: char) { 'A' <= c <= 'Z' }
  predicate IsLower(c: char) { 'a' <= c <= 'z' }
  predicate IsLetter(c: char) { IsUpper(c) || IsLower(c) }

  function ToUpper(c: char): (u: char)
    ensures IsLetter(c) ==> IsUpper(u)
    ensures !IsLetter(c) ==> u == c
  {
    if IsLower(c) then (c as int - 32) as char else c
  }

  function ToLower(c: char): (l: char)
    ensures IsLetter(c) ==> IsLower(l)
    ensures !IsLetter(c) ==> l == c
  {
    if IsUpper(c) then (c as int + 32) as char else c
  }

  /** `str.lower()` on ASCII text. */
  function LowerAll(s: string): (r: string)
    ensures |r| == |s|
    ensures forall i :: 0 <= i < |s| ==> r[i] == ToLower(s[i])
  {
    seq(|s|, i requires 0 <= i < |s| => ToLower(s[i]))
  }

  /**
   * `str.title()` on ASCII text, from a position whose preceding character
   * was cased (`prevCased`) or not: a letter after a letter is lower-cased,
   * any other letter is upper-cased, and other characters are kept.
   */
  function TitleFrom(s: string, prevCased: bool): string
    decreases |s|
  {
    if s == [] then []
    else
      var c := if prevCased then ToLower(s[0]) else ToUpper(s[0]);
      [c] + TitleFrom(s[1..], IsLetter(s[0]))
  }

  /** Title-casing changes letter case only. */
  lemma {:induction false} TitleFromLower(s: string, prevCased: bool)
    ensures |TitleFrom(s, prevCased)| == |s|
    ensures LowerAll(TitleFrom(s, prevCased)) == LowerAll(s)
    decreases |s|
  {
    if s != [] {
      var c := if prevCased then ToLower(s[0]) else ToUpper(s[0]);
      var tail := TitleFrom(s[1..], IsLetter(s[0]));
      TitleFromLower(s[1..], IsLetter(s[0]));
      assert TitleFrom(s, prevCased) == [c] + tail;
      assert LowerAll([c] + tail) == [ToLower(c)] + LowerAll(tail);
      assert LowerAll(s) == [ToLower(s[0])] + LowerAll(s[1..]);
    }
  }

  /**
   * `str.title()` on ASCII text: the same characters up to letter case,
   * with a leading letter upper-cased.
   */
  function Title(s: string): (r: string)
    ensures |r| == |s| && LowerAll(r) == LowerAll(s)
    ensures s != [] ==> r[0] == ToUpper(s[0])
  {
    TitleFromLower(s, false);
    TitleFrom(s, false)
  }

  /** Character `i` of a title-cased string, in terms of the input alone. */
  lemma {:induction false} TitleFromAt(s: string, prevCased: bool, i: nat)
    requires i < |s|
    ensures |TitleFrom(s, prevCased)| == |s|
    ensures TitleFrom(s, prevCased)[i] ==
      (if (if i == 0 then prevCased else IsLetter(s[i - 1])) then ToLower(s[i]) else ToUpper(s[i]))
    decreases |s|
  {
    if i == 0 {
      if |s| > 1 {
        TitleFromAt(s[1..], IsLetter(s[0]), 0);
      }
    } else {
      TitleFromAt(s[1..], IsLetter(s[0]), i - 1);
    }
  }

  predicate IsLowerWord(w: string)
  {
    w != [] && forall i :: 0 <= i < |w| ==> IsLower(w[i])
  }

  /** The capitalised form of a lower-case word: "name" becomes "Name". */
  function Capitalized(w: string): (r: string)
    requires IsLowerWord(w)
    ensures |r| == |w| && IsUpper(r[0]) && r[1..] == w[1..]
  {
    [ToUpper(w[0])] + w[1..]
  }

  lemma LetterCaseAgree(c: char, d: char)
    requires IsLetter(c) && IsLetter(d)
    ensures ToUpper(c) == ToUpper(d) <==> ToLower(c) == ToLower(d)
  {
  }

  /**
   * A string title-cases to a capitalised lower-case word exactly when it
   * spells that word in any mixture of cases.
   */
  lemma {:induction false} TitleIsCapitalized(s: string, w: string)
    requires IsLowerWord(w)
    ensures Title(s) == Capitalized(w) <==> LowerAll(s) == w
  {
    var t := Title(s);
    if s == [] {
      return;
    }
    TitleFromAt(s, false, 0);
    if LowerAll(s) == w {
      forall i | 0 <= i < |s| ensures t[i] == Capitalized(w)[i] {
        TitleFromAt(s, false, i);
        assert ToLower(s[i]) == w[i];
        assert IsLetter(s[i]);
        if i == 0 {
          LetterCaseAgree(s[0], w[0]);
        } else {
          assert IsLetter(s[i - 1]) by { assert ToLower(s[i - 1]) == w[i - 1]; }
        }
      }
    }
    if t == Capitalized(w) {
      forall i | 0 <= i < |s| ensures IsLetter(s[i]) {
        TitleFromAt(s, false, i);
        assert IsLetter(t[i]);
      }
      forall i | 0 <= i < |s| ensures LowerAll(s)[i] == w[i] {
        TitleFromAt(s, false, i);
        if i == 0 {
          LetterCaseAgree(s[0], w[0]);
        } else {
          assert t[i] == w[i];
        }
      }
    }
  }

  /** The kind `throw_error` picks: the title-cased string if it is allow-listed, else Unknown. */
  function Classify(errType: string): (k: Kind)
    ensures k != Parsing
    ensures k != Unknown ==> Title(errType) == KindLabel(k)
  {
    var t := Title(errType);
    if t == "Name" then Name
    else if t == "Syntax" then Syntax
    else if t == "Type" then Type
    else Unknown
  }

  /**
   * The kind string is case-insensitive: it classifies as Name, Syntax or Type
   * exactly when it spells "name", "syntax" or "type", and as Unknown otherwise
   * ("parsing" included).
   */
  lemma ClassifyIff(errType: string)
    ensures Classify(errType) == Name <==> LowerAll(errType) == "name"
    ensures Classify(errType) == Syntax <==> LowerAll(errType) == "syntax"
    ensures Classify(errType) == Type <==> LowerAll(errType) == "type"
    ensures Classify(errType) == Unknown <==> LowerAll(errType) !in {"name", "syntax", "type"}
  {
    assert Capitalized("name") == "Name";
    assert Capitalized("syntax") == "Syntax";
    assert Capitalized("type") == "Type";
    TitleIsCapitalized(errType, "name");
    TitleIsCapitalized(errType, "syntax");
    TitleIsCapitalized(errType, "type");
  }

  /**
   * `throw_error(err_type, message)`: always raises, with the classified kind
   * and the message prefixed by "<Kind>Error : ". This is the corrected
   * definition; `ThrowErrorAsWritten` is what the Python code does.
   */
  function ThrowError(errType: string, message: string): (f: Failure)
    ensures f.Raised? && f.kind != Parsing
    ensures f.message == KindLabel(f.kind) + "Error : " + message
    ensures f.kind == Classify(errType)
    ensures f.kind == Name <==> LowerAll(errType) == "name"
  {
    ClassifyIff(errType);
    var kind := Classify(errType);
    Raised(kind, KindLabel(kind) + "Error : " + message)
  }

  /** The error type word "name" raises the Name kind with the "NameError : " prefix. */
  lemma ThrowNameError(message: string)
    ensures ThrowError("name", message) == Raised(Name, "NameError : " + message)
  {
    assert LowerAll("name") == "name";
  }

  /** The class that a name evaluates to in errors.py's scope (the classes of exceptions.py). */
  function ExceptionClass(className: string): Option<Kind>
  {
    if className == "KimiNameError" then Some(Name)
    else if className == "KimiSyntaxError" then Some(Syntax)
    else if className == "KimiTypeError" then Some(Type)
    else if className == "KimiParsingError" then Some(Parsing)
    else if className == "KimiUnknownException" then Some(Unknown)
    else None
  }

  /**
   * The class name `throw_error` builds for a kind names that kind's class,
   * except for Unknown, whose class is declared under another name.
   */
  lemma ClassNameOfKind(k: Kind)
    requires k != Parsing
    ensures ExceptionClass("Kimi" + KindLabel(k) + "Error") == if k == Unknown then None else Some(k)
  {
    match k
    case Name => assert "Kimi" + KindLabel(k) + "Error" == "KimiNameError";
    case Syntax => assert "Kimi" + KindLabel(k) + "Error" == "KimiSyntaxError";
    case Type => assert "Kimi" + KindLabel(k) + "Error" == "KimiTypeError";
    case Unknown =>
      assert "Kimi" + KindLabel(k) + "Error" == "KimiUnknownError";
      assert "KimiUnknownError"[12] != "KimiUnknownException"[12];
  }

  /**
   * `throw_error` as written: it builds the class name "Kimi<Kind>Error" and
   * evaluates it. The Unknown class is declared as KimiUnknownException, so
   * for every kind string outside the allow-list the lookup itself fails with
   * the host's NameError.
   */
  function ThrowErrorAsWritten(errType: string, message: string): (f: Failure)
    ensures f.Raised? ==> f.kind != Parsing && f.kind != Unknown
    ensures f.Host? ==> f == Host(HostNameError)
  {
    var kind := Classify(errType);
    var error := KindLabel(kind) + "Error";
    ClassNameOfKind(kind);
    match ExceptionClass("Kimi" + KindLabel(kind) + "Error")
    case Some(cls) => Raised(cls, error + " : " + message)
    case None => Host(HostNameError)
  }

  /**
   * The as-written `throw_error` agrees with the corrected one on the
   * allow-listed kinds and dies with a host NameError on every other kind.
   */
  lemma ThrowErrorAsWrittenDiffers(errType: string, message: string)
    ensures Classify(errType) != Unknown ==> ThrowErrorAsWritten(errType, message) == ThrowError(errType, message)
    ensures Classify(errType) == Unknown ==> ThrowErrorAsWritten(errType, message) == Host(HostNameError)
  {
    var kind := Classify(errType);
    if kind == Unknown {
      var cls := "Kimi" + KindLabel(kind) + "Error";
      assert cls == "KimiUnknownError";
      assert cls[12] != "KimiUnknownException"[12];
      assert ExceptionClass(cls) == None;
    } else {
      match kind
      case Name => assert "Kimi" + KindLabel(kind) + "Error" == "KimiNameError";
      case Syntax => assert "Kimi" + KindLabel(kind) + "Error" == "KimiSyntaxError";
      case Type => assert "Kimi" + KindLabel(kind) + "Error" == "KimiTypeError";
    }
  }

  /** The input that shows it: `throw_error("parsing", ...)` does not raise a Kimi error at all. */
  lemma ThrowErrorParsingAsWritten(message: string)
    ensures ThrowErrorAsWritten("parsing", message) == Host(HostNameError)
    ensures ThrowError("parsing", message).kind == Unknown
  {
    ClassifyIff("parsing");
    assert LowerAll("parsing") == "parsing";
    ThrowErrorAsWrittenDiffers("parsing", message);
  }

  /** `complain_and_die(message)`: raises the Parsing kind with the message as is. */
  function ComplainAndDie(message: string): (f: Failure)
    ensures f.Raised? && f.kind == Parsing && f.message == message
  {
    Raised(Parsing, message)
  }

  /** `assert_or_complain`: no effect when the assertion holds, a Parsing failure when it does not. */
  function AssertOrComplain(assertion: bool, message: string): (r: Result<()>)
    ensures r.Ok? <==> assertion
    ensures r.Err? ==> r.error.Raised? && r.error.kind == Parsing && r.error.message == message
  {
    if assertion then Ok(()) else Err(ComplainAndDie(message))
  }

  /** `assert_or_throw`: no effect when the assertion holds, otherwise what `throw_error` raises. */
  function AssertOrThrow(assertion: bool, errType: string, message: string): (r: Result<()>)
    ensures r.Ok? <==> assertion
    ensures r.Err? ==> r.error == ThrowError(errType, message)
  {
    if assertion then Ok(()) else Err(ThrowError(errType, message))
  }

  /**
   * `assert_or_throw` as written, on top of the as-written `throw_error`: a
   * false assertion with an error-type word outside the allow-list dies with
   * the host's NameError instead of a Kimi exception.
   */
  function AssertOrThrowAsWritten(assertion: bool, errType: string, message: string): (r: Result<()>)
    ensures r.Ok? <==> assertion
    ensures !assertion && Classify(errType) != Unknown ==> r == AssertOrThrow(assertion, errType, message)
    ensures !assertion && Classify(errType) == Unknown ==> r == Err(Host(HostNameError))
  {
    ThrowErrorAsWrittenDiffers(errType, message);
    if assertion then Ok(()) else Err(ThrowErrorAsWritten(errType, message))
  }

  /** Only `complain_and_die` (and so `assert_or_complain`) can raise the Parsing kind. */
  lemma ParsingOnlyByComplaint(assertion: bool, errType: string, message: string)
    ensures AssertOrThrow(assertion, errType, message).Err? ==>
              AssertOrThrow(assertion, errType, message).error.kind != Parsing
    ensures AssertOrComplain(assertion, message).Err? ==>
              AssertOrComplain(assertion, message).error.kind == Parsing
  {
  }
}
