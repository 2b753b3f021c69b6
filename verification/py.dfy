/** Python values and the few pieces of Python semantics the tariff services
    rely on: JSON-decoded values, truthiness and `or`, `dict.get`, numeric
    operands (int, float, bool), `float()`, and the exceptions that escape. */
module Py {

  /** A value produced by `json.loads` (or built as a literal dict/list).
      Python's int and float are both `JNum`; a dict is a finite map. */
  datatype Json =
    | JNull
    | JBool(b: bool)
    | JNum(n: real)
    | JStr(s: string)
    | JArr(items: seq<Json>)
    | JObj(fields: map<string, Json>)

  /** The exceptions the modelled code can raise, with the text that matters. */
  datatype Failure =
    | ValueError(msg: string)
    | TypeError
    | AttributeError
    | KeyError(key: string)
    | JsonDecodeError
    | RuntimeError(msg: string)
    | ValidationError
    | RetryError

  /** `str(e)` for an exception (the exact wording of Python's own
      messages is not modelled). */
  function ExceptionText(f: Failure): string
  {
    match f
    case AttributeError => "object has no attribute 'get'"
    case TypeError => "unsupported operand type(s)"
    case JsonDecodeError => "Expecting value"
    case ValueError(msg) => msg
    case KeyError(k) => k
    case RuntimeError(msg) => msg
    case ValidationError => "validation error"
    case RetryError => "RetryError"
  }

  datatype Result<T> = Ok(value: T) | Err(error: Failure)

  datatype Option<T> = None | Some(value: T)

  /** The index of the first element satisfying `p`, as a `for ... return`
      loop finds it. */
  function FindFirst<T>(xs: seq<T>, p: T -> bool): (r: Option<nat>)
    ensures r.Some? ==> r.value < |xs| && p(xs[r.value])
    ensures r.Some? ==> forall j :: 0 <= j < r.value ==> !p(xs[j])
    ensures r.None? <==> forall j :: 0 <= j < |xs| ==> !p(xs[j])
  {
    if |xs| == 0 then None
    else if p(xs[0]) then Some(0)
    else match FindFirst(xs[1..], p)
      case None => None
      case Some(i) => Some(i + 1)
  }

  /** Python truthiness: None, False, 0, "", [] and {} are false. */
  predicate Truthy(v: Json)
  {
    match v
    case JNull => false
    case JBool(b) => b
    case JNum(n) => n != 0.0
    case JStr(s) => |s| > 0
    case JArr(xs) => |xs| > 0
    case JObj(m) => |m| > 0
  }

  /** Python's `a or b`: the first operand when it is truthy, else the second. */
  function Or(a: Json, b: Json): (r: Json)
    ensures Truthy(a) ==> r == a
    ensures !Truthy(a) ==> r == b
  {
    if Truthy(a) then a else b
  }

  /** `d.get(key, default)` on a dict. */
  function GetOr(d: map<string, Json>, key: string, default: Json): Json
  {
    if key in d then d[key] else default
  }

  /** `d.get(key)`: a missing key reads as None. */
  function Get(d: map<string, Json>, key: string): Json
  {
    GetOr(d, key, JNull)
  }

  /** The numeric value of an arithmetic operand: int, float, or bool
      (True is 1, False is 0). Anything else makes `+`, `*` or `round` raise. */
  function AsNumber(v: Json): Option<real>
  {
    match v
    case JNum(n) => Some(n)
    case JBool(b) => Some(if b then 1.0 else 0.0)
    case _ => None
  }

  predicate IsNumber(v: Json)
  {
    AsNumber(v).Some?
  }

  /** The number, or 0 for a value that is not one. */
  function NumberOr0(v: Json): real
  {
    match AsNumber(v)
    case Some(x) => x
    case None => 0.0
  }

  /** The ASCII digit `c` as a number. */
  function DigitValue(c: char): nat
    requires '0' <= c <= '9'
  {
    (c as int) - ('0' as int)
  }

  predicate AllDigits(s: string)
  {
    forall i :: 0 <= i < |s| ==> '0' <= s[i] <= '9'
  }

  /** The value of a string of decimal digits, most significant first. */
  function DigitsValue(s: string): nat
    requires AllDigits(s)
  {
    if |s| == 0 then 0 else 10 * DigitsValue(s[..|s| - 1]) + DigitValue(s[|s| - 1])
  }

  function Pow10(d: nat): (r: nat)
    ensures r >= 1
  {
    if d == 0 then 1 else 10 * Pow10(d - 1)
  }

  /** Index of the first '.' in `s`, or |s| when there is none. */
  function DotIndex(s: string): (i: nat)
    ensures i <= |s|
    ensures i < |s| ==> s[i] == '.'
    ensures forall j :: 0 <= j < i ==> s[j] != '.'
  {
    if |s| == 0 then 0
    else if s[0] == '.' then 0
    else 1 + DotIndex(s[1..])
  }

  /** The magnitude of an unsigned decimal literal: digits, an optional
      '.' and more digits, with at least one digit in all. */
  function ParseUnsigned(body: string): Option<real>
  {
    var dot := DotIndex(body);
    var whole := body[..dot];
    var frac := if dot < |body| then body[dot + 1..] else "";
    if |whole| + |frac| == 0 || !AllDigits(whole) || !AllDigits(frac) then None
    else Some(Magnitude(whole, frac))
  }

  /** The value of `whole.frac` for two runs of digits. */
  function Magnitude(whole: string, frac: string): real
    requires AllDigits(whole) && AllDigits(frac)
  {
    DigitsValue(whole) as real + (DigitsValue(frac) as real) / (Pow10(|frac|) as real)
  }

  /** `float(s)` for a plain decimal literal: an optional sign before an
      unsigned literal. */
  function ParseDecimal(s: string): Option<real>
  {
    var neg := |s| > 0 && s[0] == '-';
    var body := if |s| > 0 && (s[0] == '-' || s[0] == '+') then s[1..] else s;
    match ParseUnsigned(body)
    case None => None
    case Some(mag) => Some(if neg then -mag else mag)
  }

  /** Python's `float(v)`: numbers and bools convert, strings are parsed,
      None, lists and dicts raise. */
  function ToFloat(v: Json): (r: Option<real>)
    ensures IsNumber(v) ==> r == AsNumber(v)
    ensures v.JNull? || v.JArr? || v.JObj? ==> r.None?
  {
    match v
    case JStr(s) => ParseDecimal(s)
    case _ => AsNumber(v)
  }
}
