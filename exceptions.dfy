/** The library's exception taxonomy (quorum_fullnode_py/exceptions.py) and the
    `Result` every fallible operation of the model returns in place of raising. */
module Exceptions {
  import opened Optional
  import opened Text

  datatype ExceptionClass =
    | RumException
    | RumClientException
    | ParamTypeError
    | ParamValueError
    | ParamOverflowError
    | ParamRequiredError
    | RumChainException
    | APILimitedException

  /** The class each class derives from directly; RumException derives from
      Python's own Exception, outside this hierarchy. */
  function Base(c: ExceptionClass): Option<ExceptionClass>
  {
    match c
    case RumException => None
    case RumClientException => Some(RumException)
    case RumChainException => Some(RumException)
    case _ => Some(RumClientException)
  }

  function Depth(c: ExceptionClass): nat
  {
    match c
    case RumException => 0
    case RumClientException => 1
    case RumChainException => 1
    case _ => 2
  }

  /** `issubclass(c, d)`: `d` is `c` or one of its bases, transitively. */
  predicate IsSubclass(c: ExceptionClass, d: ExceptionClass)
    decreases Depth(c)
  {
    c == d || (Base(c).Some? && IsSubclass(Base(c).value, d))
  }

  /** The three classes whose `__init__` sets the default error code. */
  predicate DefinesInit(c: ExceptionClass)
  {
    c == RumException || c == RumClientException || c == RumChainException
  }

  /** The class whose `__init__` an instance of `c` runs: the nearest one that
      defines it (Python's method resolution). */
  function InitClass(c: ExceptionClass): (r: ExceptionClass)
    ensures DefinesInit(r) && IsSubclass(c, r)
    decreases Depth(c)
  {
    if DefinesInit(c) then c else InitClass(Base(c).value)
  }

  /** The `errcode` an instance gets when none is passed. */
  function DefaultCode(c: ExceptionClass): (code: int)
    ensures code == 400 <==> IsSubclass(c, RumClientException)
    ensures code == 500 <==> IsSubclass(c, RumChainException)
    ensures code == 404 <==> c == RumException
  {
    var init := InitClass(c);
    if init == RumClientException then 400
    else if init == RumChainException then 500
    else 404
  }

  /** Every client-side error (the four Param*Error classes and
      APILimitedException included) defaults to code 400. */
  lemma ClientErrorsDefaultTo400(c: ExceptionClass)
    requires IsSubclass(c, RumClientException)
    ensures DefaultCode(c) == 400
  {
  }

  /** Chain errors are not client errors and default to 500; the base class
      defaults to 404; every class is a RumException. */
  lemma HierarchyShape(c: ExceptionClass)
    ensures IsSubclass(c, RumException)
    ensures !IsSubclass(RumChainException, RumClientException)
    ensures DefaultCode(RumChainException) == 500 && DefaultCode(RumException) == 404
    ensures IsSubclass(c, RumClientException) <==> c != RumException && c != RumChainException
  {
  }

  /** `self.__class__.__name__`. */
  function ClassName(c: ExceptionClass): (r: string)
    ensures r != [] && '(' !in r
  {
    match c
    case RumException => "RumException"
    case RumClientException => "RumClientException"
    case ParamTypeError => "ParamTypeError"
    case ParamValueError => "ParamValueError"
    case ParamOverflowError => "ParamOverflowError"
    case ParamRequiredError => "ParamRequiredError"
    case RumChainException => "RumChainException"
    case APILimitedException => "APILimitedException"
  }

  /** The class a name belongs to, if any. */
  function ClassNamed(name: string): (r: Option<ExceptionClass>)
    ensures r.Some? ==> ClassName(r.value) == name
  {
    if name == "RumException" then Some(RumException)
    else if name == "RumClientException" then Some(RumClientException)
    else if name == "ParamTypeError" then Some(ParamTypeError)
    else if name == "ParamValueError" then Some(ParamValueError)
    else if name == "ParamOverflowError" then Some(ParamOverflowError)
    else if name == "ParamRequiredError" then Some(ParamRequiredError)
    else if name == "RumChainException" then Some(RumChainException)
    else if name == "APILimitedException" then Some(APILimitedException)
    else None
  }

  /** Class names are distinct, so a name identifies its class. */
  lemma ClassNamedInverse(c: ExceptionClass)
    ensures ClassNamed(ClassName(c)) == Some(c)
  {
    match c
    case RumException =>
    case RumClientException =>
    case ParamTypeError =>
    case ParamValueError =>
    case ParamOverflowError =>
    case ParamRequiredError =>
    case RumChainException =>
    case APILimitedException =>
  }

  /** An exception instance: its class and the two fields its constructor records. */
  datatype RumError = RumError(cls: ExceptionClass, errmsg: string, errcode: int)

  /** `cls(errmsg)`: raised with the class's default code. */
  function Raise(cls: ExceptionClass, errmsg: string): (e: RumError)
    ensures e.cls == cls && e.errmsg == errmsg
    ensures IsSubclass(cls, RumClientException) ==> e.errcode == 400
    ensures cls == RumChainException ==> e.errcode == 500
  {
    RumError(cls, errmsg, DefaultCode(cls))
  }

  /** `str(e)`. */
  function Str(e: RumError): (r: string)
    ensures |r| > 12 && r[..12] == "Error code: "
    ensures |r| > 12 + |e.errmsg| && r[|r| - |e.errmsg|..] == e.errmsg
  {
    "Error code: " + IntToString(e.errcode) + ", message: " + e.errmsg
  }

  /** `repr(e)`. */
  function Repr(e: RumError): (r: string)
    ensures |r| > |ClassName(e.cls)| && r[..|ClassName(e.cls)|] == ClassName(e.cls)
    ensures r[|r| - 1] == ')'
  {
    ClassName(e.cls) + "(" + IntToString(e.errcode) + ", " + e.errmsg + ")"
  }

  /** Reads the error code back out of a `str(e)` text. */
  function CodeOfStr(s: string): Option<int>
  {
    var prefix := "Error code: ";
    if |s| >= |prefix| && s[..|prefix|] == prefix then ParseInt(TakeUntil(s[|prefix|..], ','))
    else None
  }

  /** Reads the class and the error code back out of a `repr(e)` text. */
  function ClassAndCodeOfRepr(s: string): Option<(ExceptionClass, int)>
  {
    var name := TakeUntil(s, '(');
    if |name| < |s| then
      var cls := ClassNamed(name);
      var code := ParseInt(TakeUntil(s[|name| + 1..], ','));
      if cls.Some? && code.Some? then Some((cls.value, code.value)) else None
    else None
  }

  /** `str(e)` always starts with the error code, whatever the message holds. */
  lemma StrCarriesCode(e: RumError)
    ensures CodeOfStr(Str(e)) == Some(e.errcode)
  {
    var digits := IntToString(e.errcode);
    var tail := ", message: " + e.errmsg;
    assert Str(e) == "Error code: " + (digits + tail);
    assert Str(e)[|"Error code: "|..] == digits + tail;
    TakeUntilConcat(digits, tail, ',');
    IntToStringRoundTrip(e.errcode);
  }

  /** The text of `repr(e)` splits at its first '(' and the ',' after it. */
  lemma ReprParts(name: string, code: int, msg: string)
    requires '(' !in name
    ensures var s := name + "(" + IntToString(code) + ", " + msg + ")";
      && |name| < |s| && TakeUntil(s, '(') == name
      && ParseInt(TakeUntil(s[|name| + 1..], ',')) == Some(code)
  {
    var digits := IntToString(code);
    var tail := ", " + msg + ")";
    var s := name + "(" + digits + ", " + msg + ")";
    assert s == name + ("(" + digits + tail);
    TakeUntilConcat(name, "(" + digits + tail, '(');
    assert s[|name| + 1..] == digits + tail;
    TakeUntilConcat(digits, tail, ',');
    IntToStringRoundTrip(code);
  }

  /** `repr(e)` names the exception's class and its code, whatever the message holds. */
  lemma ReprCarriesClassAndCode(e: RumError)
    ensures ClassAndCodeOfRepr(Repr(e)) == Some((e.cls, e.errcode))
  {
    var name := ClassName(e.cls);
    var s := Repr(e);
    ReprParts(name, e.errcode, e.errmsg);
    assert TakeUntil(s, '(') == name && |name| < |s|;
    ClassNamedInverse(e.cls);
    assert ClassNamed(name) == Some(e.cls);
  }

  /** What an operation of the model fails with. */
  datatype Failure =
    | Raised(error: RumError)
      // one of the library's own exceptions
    | ValueError(message: string)
      // Python's built-in ValueError (the consensus tuning bounds)
    | Unexpected(message: string)
      // a KeyError, TypeError, AttributeError or ZeroDivisionError raised by
      // Python itself on an input or a node response of the wrong shape

  function ParamValue(msg: string): Failure { Raised(Raise(ParamValueError, msg)) }
  function ParamType(msg: string): Failure { Raised(Raise(ParamTypeError, msg)) }
  function ChainError(msg: string): Failure { Raised(Raise(RumChainException, msg)) }

  predicate IsParamValue(f: Failure) { f.Raised? && f.error.cls == ParamValueError }
  predicate IsChainError(f: Failure) { f.Raised? && f.error.cls == RumChainException }

  datatype Result<+T> = Ok(value: T) | Err(failure: Failure)
  {
    predicate IsFailure() { Err? }

    function PropagateFailure<U>(): Result<U>
      requires Err?
    {
      Err(failure)
    }

    function Extract(): T
      requires Ok?
    {
      value
    }
  }
}
