/**
 * Python values and the few built-in operations the Metaculus pipeline applies to them.
 *
 * One `Value` stands for anything the pipeline's dictionaries can hold: what `json.load`
 * produces, plus `datetime` objects (callers may put those in question dictionaries).
 * Numbers are integers: floats are not modelled. A Python exception becomes `Err`.
 */
module Py {

  datatype Value =
    | Null
    | Bool(b: bool)
    | Int(i: int)
    | Str(s: string)
    | List(items: seq<Value>)
    | Dict(fields: map<string, Value>)
    | DateTime(epoch: int)

  /** A Python `dict` with string keys, as every JSON object is. */
  type Obj = map<string, Value>

  /** The exception classes the modelled code can raise. */
  datatype Error = KeyError | TypeError | AttributeError | ValueError | FileNotFound

  /** The outcome of a Python call: a value, or the exception it raised. */
  datatype Result<+T> = Ok(value: T) | Err(error: Error) {
    predicate IsFailure() { Err? }

    function PropagateFailure<U>(): Result<U>
      requires Err?
    {
      Err(error)
    }

    function Extract(): T
      requires Ok?
    {
      value
    }
  }

  datatype Option<+T> = None | Some(value: T)

  /** `bool(v)`. */
  predicate Truthy(v: Value)
  {
    match v
    case Null => false
    case Bool(b) => b
    case Int(i) => i != 0
    case Str(s) => s != ""
    case List(xs) => xs != []
    case Dict(m) => m != map[]
    case DateTime(_) => true
  }

  /** `d.get(key, default)` on a dict. */
  function Get(d: Obj, key: string, default: Value := Null): Value
  {
    if key in d then d[key] else default
  }

  /** `v.get(key, default)` where `v` need not be a dict: anything else has no `get`. */
  function GetFrom(v: Value, key: string, default: Value := Null): Result<Value>
  {
    match v
    case Dict(m) => Ok(Get(m, key, default))
    case _ => Err(AttributeError)
  }

  /** `a or b`: the first operand when it is truthy, otherwise the second. */
  function Or(a: Value, b: Value): Value
  {
    if Truthy(a) then a else b
  }

  /** `v[key]` with a string key. */
  function Index(v: Value, key: string): Result<Value>
  {
    match v
    case Dict(m) => if key in m then Ok(m[key]) else Err(KeyError)
    case _ => Err(TypeError)
  }

  predicate IsSubstring(p: string, s: string)
  {
    (|p| <= |s| && s[..|p|] == p) || (s != [] && IsSubstring(p, s[1..]))
  }

  /** `key in container` for a string `key`: substring, list element or dict key. */
  function Contains(container: Value, key: string): Result<bool>
  {
    match container
    case Str(s) => Ok(IsSubstring(key, s))
    case List(xs) => Ok(Str(key) in xs)
    case Dict(m) => Ok(key in m)
    case _ => Err(TypeError)
  }

  /** `len(v)`. */
  function Len(v: Value): Result<nat>
  {
    match v
    case Str(s) => Ok(|s|)
    case List(xs) => Ok(|xs|)
    case Dict(m) => Ok(|m|)
    case _ => Err(TypeError)
  }

  /** Python treats `True` and `False` as the integers 1 and 0. */
  predicate IsNumber(v: Value)
  {
    v.Int? || v.Bool?
  }

  function NumberOf(v: Value): int
    requires IsNumber(v)
  {
    if v.Int? then v.i else if v.b then 1 else 0
  }

  /** Lexicographic order of strings by code point, as Python compares `str`. */
  predicate StrLess(a: string, b: string)
  {
    if b == [] then false
    else if a == [] then true
    else if a[0] != b[0] then a[0] < b[0]
    else StrLess(a[1..], b[1..])
  }

  /** `a == b`: numbers by value, lists element by element, anything else by structure. */
  predicate Equal(a: Value, b: Value)
    decreases a
  {
    if IsNumber(a) && IsNumber(b) then NumberOf(a) == NumberOf(b)
    else if a.List? && b.List? then
      |a.items| == |b.items| && forall i | 0 <= i < |a.items| :: Equal(a.items[i], b.items[i])
    else a == b
  }

  /**
   * `a < b`: numbers with numbers, strings with strings, datetimes with datetimes, and lists
   * with lists lexicographically; any other pair raises TypeError.
   */
  function Less(a: Value, b: Value): (r: Result<bool>)
    decreases a, if a.List? then |a.items| + 1 else 0
    ensures r.Err? ==> r.error == TypeError
  {
    if IsNumber(a) && IsNumber(b) then Ok(NumberOf(a) < NumberOf(b))
    else if a.Str? && b.Str? then Ok(StrLess(a.s, b.s))
    else if a.DateTime? && b.DateTime? then Ok(a.epoch < b.epoch)
    else if a.List? && b.List? then ListLess(a, b, 0)
    else Err(TypeError)
  }

  /**
   * `<` on two lists from position `i` on: the first pair of unequal elements decides, and
   * when one list runs out first it is the smaller.
   */
  function ListLess(a: Value, b: Value, i: nat): (r: Result<bool>)
    requires a.List? && b.List?
    decreases a, |a.items| - i
    ensures r.Err? ==> r.error == TypeError
  {
    if i >= |a.items| || i >= |b.items| then Ok(|a.items| < |b.items|)
    else if Equal(a.items[i], b.items[i]) then ListLess(a, b, i + 1)
    else Less(a.items[i], b.items[i])
  }

  function DigitChar(d: nat): char
    requires d < 10
  {
    "0123456789"[d]
  }

  function DigitValue(c: char): int
  {
    c as int - '0' as int
  }

  predicate IsDigit(c: char)
  {
    '0' <= c <= '9'
  }

  /** The decimal digits of `n`, most significant first. */
  function Digits(n: nat): (r: string)
    ensures r != [] && forall k | 0 <= k < |r| :: IsDigit(r[k])
  {
    if n < 10 then [DigitChar(n)] else Digits(n / 10) + [DigitChar(n % 10)]
  }

  /** `str(n)` for an integer. */
  function IntToString(n: int): string
  {
    if n < 0 then "-" + Digits(-n) else Digits(n)
  }

  function DigitsValue(ds: string): int
    requires forall k | 0 <= k < |ds| :: IsDigit(ds[k])
  {
    if ds == [] then 0 else 10 * DigitsValue(ds[..|ds| - 1]) + DigitValue(ds[|ds| - 1])
  }

  predicate AllDigits(ds: string)
  {
    ds != [] && forall k | 0 <= k < |ds| :: IsDigit(ds[k])
  }

  /** `int(s)` for a string: an optional sign followed by decimal digits. */
  function ParseInt(s: string): Option<int>
  {
    if |s| > 0 && s[0] == '-' && AllDigits(s[1..]) then Some(-DigitsValue(s[1..]))
    else if |s| > 0 && s[0] == '+' && AllDigits(s[1..]) then Some(DigitsValue(s[1..]))
    else if AllDigits(s) then Some(DigitsValue(s))
    else None
  }

  /** `int(v)`. */
  function ToInt(v: Value): Result<int>
  {
    match v
    case Int(i) => Ok(i)
    case Bool(b) => Ok(if b then 1 else 0)
    case Str(s) => if ParseInt(s).Some? then Ok(ParseInt(s).value) else Err(ValueError)
    case _ => Err(TypeError)
  }

  /**
   * `str(v)`. Lists, dicts and datetimes are rendered as a fixed tag per kind, so the
   * model does not tell two of them apart.
   */
  function ToStr(v: Value): string
  {
    match v
    case Null => "None"
    case Bool(b) => if b then "True" else "False"
    case Int(i) => IntToString(i)
    case Str(s) => s
    case List(_) => "<list>"
    case Dict(_) => "<dict>"
    case DateTime(_) => "<datetime>"
  }

  /**
   * `dataclass(**v)`: `v` must be a dict whose keys include every required field and
   * name no field the class lacks.
   */
  function Kwargs(v: Value, required: set<string>, optional: set<string>): Result<Obj>
  {
    if v.Dict? && required <= v.fields.Keys && v.fields.Keys <= required + optional
    then Ok(v.fields)
    else Err(TypeError)
  }

  lemma {:induction false} DigitsRoundTrip(n: nat)
    ensures DigitsValue(Digits(n)) == n
  {
    if n >= 10 {
      var ds := Digits(n);
      assert ds[..|ds| - 1] == Digits(n / 10);
      DigitsRoundTrip(n / 10);
    }
  }

  /** `int(str(n)) == n`: the string form of an integer reads back as that integer. */
  lemma IntStringRoundTrip(n: int)
    ensures ToInt(Str(IntToString(n))) == Ok(n)
  {
    if n < 0 {
      ParseNegative(-n);
    } else {
      ParseDigits(n);
    }
  }

  lemma ParseDigits(n: nat)
    ensures ParseInt(Digits(n)) == Some(n)
  {
    var s := Digits(n);
    assert IsDigit(s[0]) && AllDigits(s);
    DigitsRoundTrip(n);
  }

  lemma ParseNegative(n: nat)
    ensures ParseInt("-" + Digits(n)) == Some(-(n as int))
  {
    var s := "-" + Digits(n);
    assert s[0] == '-' && s[1..] == Digits(n);
    assert AllDigits(s[1..]);
    DigitsRoundTrip(n);
  }

  /** `str` is injective on integers, so ids compared through `str` match exactly when equal. */
  lemma IntStringInjective(m: int, n: int)
    ensures IntToString(m) == IntToString(n) <==> m == n
  {
    if IntToString(m) == IntToString(n) {
      IntStringRoundTrip(m);
      IntStringRoundTrip(n);
    }
  }

  /** An integer id and its decimal string compare equal after `str`, which the loaders rely on. */
  lemma StrOfIntMatchesDecimal(n: int)
    ensures ToStr(Int(n)) == ToStr(Str(IntToString(n)))
    ensures ToInt(Int(n)) == ToInt(Str(IntToString(n)))
  {
    IntStringRoundTrip(n);
  }
}
