/** Python and Django value semantics that the request handlers rely on:
    JSON-like values and their truthiness, exceptions and `str(e)`, HTTP
    responses, the built-in `int()` and `float()` conversions of strings,
    and the few `str` methods the handlers call. */
module Py {

  datatype Option<T> = None | Some(value: T)

  /** A JSON-compatible Python value: a request body field, a JSONField
      column, a GeoJSON geometry, a response body entry. */
  datatype Json =
    | JNull
    | JBool(b: bool)
    | JInt(i: int)
    | JFloat(r: real)
    | JStr(s: string)
    | JList(items: seq<Json>)
    | JDict(entries: map<string, Json>)

  /** `bool(v)` */
  predicate Truthy(v: Json)
  {
    match v
    case JNull => false
    case JBool(b) => b
    case JInt(i) => i != 0
    case JFloat(r) => r != 0.0
    case JStr(s) => s != ""
    case JList(items) => items != []
    case JDict(entries) => entries != map[]
  }

  /** `d.get(k)`: None when the key is absent. */
  function Get(d: map<string, Json>, k: string): Json
  {
    if k in d then d[k] else JNull
  }

  /** `type(v).__name__` */
  function TypeName(v: Json): string
  {
    match v
    case JNull => "NoneType"
    case JBool(_) => "bool"
    case JInt(_) => "int"
    case JFloat(_) => "float"
    case JStr(_) => "str"
    case JList(_) => "list"
    case JDict(_) => "dict"
  }

  /** The exceptions the handlers raise or catch. `Foreign` stands for any
      exception raised by code outside the model (SQL, GeoServer, readers). */
  datatype Exception =
    | KeyError(key: string)
    | ValueError(message: string)
    | TypeError(message: string)
    | IndexError(message: string)
    | AttributeError(message: string)
    | FileNotFoundError(message: string)
    | DoesNotExist(model: string)
    | Foreign(message: string)

  /** The outcome of a Python expression that may raise. */
  datatype Result<T> = Ok(value: T) | Raise(error: Exception)

  /** `repr(s)` for a string without quotes or backslashes in it. */
  function Repr(s: string): string
  {
    "'" + s + "'"
  }

  /** `str(e)` */
  function Str(e: Exception): string
  {
    match e
    case KeyError(key) => Repr(key)
    case ValueError(m) => m
    case TypeError(m) => m
    case IndexError(m) => m
    case AttributeError(m) => m
    case FileNotFoundError(m) => m
    case DoesNotExist(model) => model + " matching query does not exist."
    case Foreign(m) => m
  }

  /** A view's response: HTTP status and JSON body. */
  datatype Response = Response(status: int, body: map<string, Json>)

  const StatusOk := 200
  const StatusCreated := 201
  const StatusBadRequest := 400
  const StatusNotFound := 404
  const StatusServerError := 500

  /** `Response({"error": text}, status=status)` */
  function ErrorResponse(status: int, text: string): Response
  {
    Response(status, map["error" := JStr(text)])
  }

  /** What a view ends with when it does not catch an exception. */
  datatype Outcome = Responded(response: Response) | Raised(error: Exception)

  // ---------------------------------------------------------------------
  // Strings

  function LowerChar(c: char): char
  {
    if 'A' <= c <= 'Z' then (c as int + 32) as char else c
  }

  /** `s.lower()` on ASCII letters. */
  function Lower(s: string): string
  {
    seq(|s|, i requires 0 <= i < |s| => LowerChar(s[i]))
  }

  /** `s.endswith(suffix)` */
  predicate EndsWith(s: string, suffix: string)
  {
    |suffix| <= |s| && s[|s| - |suffix|..] == suffix
  }

  predicate OccursAt(hay: string, needle: string, i: int)
  {
    0 <= i <= |hay| - |needle| && hay[i..i + |needle|] == needle
  }

  /** `needle in hay` for strings. */
  predicate Contains(hay: string, needle: string)
  {
    exists i | 0 <= i <= |hay| - |needle| :: OccursAt(hay, needle, i)
  }

  /** `sep.join(items)` */
  function Join(sep: string, items: seq<string>): string
  {
    if items == [] then ""
    else if |items| == 1 then items[0]
    else items[0] + sep + Join(sep, items[1..])
  }

  /** The characters `str.isspace()` accepts below U+0080. */
  predicate IsSpace(c: char)
  {
    c == ' ' || '\t' <= c <= '\r' || '\U{1c}' <= c <= '\U{1f}'
  }

  function StripLeft(s: string): string
  {
    if s != [] && IsSpace(s[0]) then StripLeft(s[1..]) else s
  }

  function StripRight(s: string): string
  {
    if s != [] && IsSpace(s[|s| - 1]) then StripRight(s[..|s| - 1]) else s
  }

  /** `s.strip()` */
  function Strip(s: string): string
  {
    StripRight(StripLeft(s))
  }

  // ---------------------------------------------------------------------
  // Decimal digits

  predicate IsDigit(c: char)
  {
    '0' <= c <= '9'
  }

  predicate AllDigits(s: string)
  {
    forall i | 0 <= i < |s| :: IsDigit(s[i])
  }

  /** The value of a string of decimal digits, most significant first. */
  function DigitsValue(ds: string): nat
    requires AllDigits(ds)
  {
    if ds == [] then 0
    else DigitsValue(ds[..|ds| - 1]) * 10 + (ds[|ds| - 1] as int - '0' as int)
  }

  function DigitChar(d: nat): char
    requires d < 10
  {
    ('0' as int + d) as char
  }

  /** `str(n)` for a natural number. */
  function NatToString(n: nat): (s: string)
    ensures s != [] && AllDigits(s)
    ensures |s| > 1 ==> s[0] != '0'
  {
    if n < 10 then [DigitChar(n)]
    else NatToString(n / 10) + [DigitChar(n % 10)]
  }

  /** `str(i)` */
  function IntToString(i: int): string
  {
    if i < 0 then "-" + NatToString(-i) else NatToString(i)
  }

  function Pow10(n: nat): (p: real)
    ensures p >= 1.0
  {
    if n == 0 then 1.0 else 10.0 * Pow10(n - 1)
  }

  /** The leading sign of a stripped number literal, and the rest. */
  function SplitSign(t: string): (bool, string)
  {
    if t != [] && (t[0] == '-' || t[0] == '+') then (t[0] == '-', t[1..]) else (false, t)
  }

  /** `int(s)` for a string: optional surrounding whitespace, an optional
      sign, and one or more decimal digits. */
  function ParseInt(s: string): Option<int>
  {
    var (negative, ds) := SplitSign(Strip(s));
    if ds != [] && AllDigits(ds) then
      var magnitude: int := DigitsValue(ds);
      Some(if negative then -magnitude else magnitude)
    else None
  }

  /** The index of the first c in s, or -1. */
  function IndexOf(s: string, c: char): (r: int)
    ensures -1 <= r < |s|
    ensures r >= 0 ==> s[r] == c
    ensures forall k | 0 <= k < |s| && (r < 0 || k < r) :: s[k] != c
  {
    if s == [] then -1
    else if s[0] == c then 0
    else var r := IndexOf(s[1..], c); if r < 0 then -1 else r + 1
  }

  /** An unsigned decimal literal: digits with at most one point and at
      least one digit (`12`, `12.`, `.5`, `12.5`). */
  function ParseUnsignedDecimal(t: string): Option<real>
  {
    var dot := IndexOf(t, '.');
    if dot < 0 then
      if t != [] && AllDigits(t) then Some(DigitsValue(t) as real) else None
    else
      var whole, fraction := t[..dot], t[dot + 1..];
      if (whole != [] || fraction != []) && AllDigits(whole) && AllDigits(fraction) then
        Some(DigitsValue(whole) as real + DigitsValue(fraction) as real / Pow10(|fraction|))
      else None
  }

  /** `float(s)` for a string, in the decimal notation above. */
  function ParseFloat(s: string): Option<real>
  {
    var (negative, t) := SplitSign(Strip(s));
    match ParseUnsignedDecimal(t)
    case None => None
    case Some(v) => Some(if negative then -v else v)
  }

  /** `int(r)` truncates toward zero. */
  function Trunc(r: real): (i: int)
    ensures r >= 0.0 ==> 0 <= i && i as real <= r < i as real + 1.0
    ensures r < 0.0 ==> i <= 0 && i as real - 1.0 < r <= i as real
  {
    if r >= 0.0 then r.Floor else -((-r).Floor)
  }

  /** The whole number of units of size 1/scale nearest to `x`, ties to
      the even one. */
  function RoundUnits(x: real, scale: real): (n: int)
    ensures -0.5 <= n as real - x * scale <= 0.5
  {
    var y := x * scale;
    var f := y.Floor;
    var d := y - f as real;
    if d < 0.5 then f else if d > 0.5 then f + 1 else if f % 2 == 0 then f else f + 1
  }

  /** `round(x, digits)` on exact decimals: a whole number of 10^-digits
      units, within half a unit of `x`. */
  function Round(x: real, digits: nat): (r: real)
    ensures r * Pow10(digits) == RoundUnits(x, Pow10(digits)) as real
    ensures -0.5 / Pow10(digits) <= r - x <= 0.5 / Pow10(digits)
  {
    var scale := Pow10(digits);
    var n := RoundUnits(x, scale);
    var r := n as real / scale;
    ScaledDistance(n as real, x, scale, r);
    r
  }

  /** Dividing by a positive scale keeps a distance bound, scaled. */
  lemma ScaledDistance(n: real, x: real, scale: real, r: real)
    requires scale > 0.0 && -0.5 <= n - x * scale <= 0.5 && r == n / scale
    ensures r * scale == n
    ensures -0.5 / scale <= r - x <= 0.5 / scale
  {
    var d := n - x * scale;
    assert r - x == d / scale;
    DivideKeepsOrder(-0.5, d, scale);
    DivideKeepsOrder(d, 0.5, scale);
  }

  lemma DivideKeepsOrder(a: real, b: real, scale: real)
    requires scale > 0.0 && a <= b
    ensures a / scale <= b / scale
  {
    assert b / scale - a / scale == (b - a) / scale;
  }

  /** Rounding an already rounded value changes nothing. */
  lemma RoundIsIdempotent(x: real, digits: nat)
    ensures Round(Round(x, digits), digits) == Round(x, digits)
  {
    var scale := Pow10(digits);
    var n := RoundUnits(x, scale);
    var r := Round(x, digits);
    assert r * scale == n as real;
    assert RoundUnits(r, scale) == n;
  }

  /** `int(v)` */
  function ToInt(v: Json): Result<int>
  {
    match v
    case JStr(s) =>
      (match ParseInt(s)
       case Some(i) => Ok(i)
       case None => Raise(ValueError("invalid literal for int() with base 10: " + Repr(s))))
    case JInt(i) => Ok(i)
    case JBool(b) => Ok(if b then 1 else 0)
    case JFloat(r) => Ok(Trunc(r))
    case _ => Raise(TypeError("int() argument must be a string, a bytes-like object or a real number, not " + Repr(TypeName(v))))
  }

  /** `float(v)` */
  function ToFloat(v: Json): Result<real>
  {
    match v
    case JStr(s) =>
      (match ParseFloat(s)
       case Some(r) => Ok(r)
       case None => Raise(ValueError("could not convert string to float: " + Repr(s))))
    case JInt(i) => Ok(i as real)
    case JBool(b) => Ok(if b then 1.0 else 0.0)
    case JFloat(r) => Ok(r)
    case _ => Raise(TypeError("float() argument must be a string or a real number, not " + Repr(TypeName(v))))
  }

  // ---------------------------------------------------------------------
  // Properties of the conversions

  lemma {:induction false} DigitsOfNatToString(n: nat)
    ensures DigitsValue(NatToString(n)) == n
  {
    if n >= 10 {
      var prefix := NatToString(n / 10);
      var s := prefix + [DigitChar(n % 10)];
      assert s[..|s| - 1] == prefix;
      DigitsOfNatToString(n / 10);
    }
  }

  lemma StripOfNumeral(s: string)
    requires s != [] && !IsSpace(s[0]) && !IsSpace(s[|s| - 1])
    ensures Strip(s) == s
  {
  }

  /** `int(str(i)) == i` */
  lemma ParseIntOfIntToString(i: int)
    ensures ParseInt(IntToString(i)) == Some(i)
  {
    var s := IntToString(i);
    var digits := NatToString(if i < 0 then -i else i);
    StripOfNumeral(s);
    DigitsOfNatToString(if i < 0 then -i else i);
    if i < 0 {
      assert s[1..] == digits;
    }
    assert SplitSign(s) == (i < 0, digits);
  }

  /** Every string `int()` accepts, `float()` accepts with the same value. */
  lemma ParseFloatExtendsParseInt(s: string)
    requires ParseInt(s).Some?
    ensures ParseFloat(s) == Some(ParseInt(s).value as real)
  {
    var (negative, ds) := SplitSign(Strip(s));
    assert IndexOf(ds, '.') < 0;
  }

  /** `repr` of an integer, e.g. in an error text, reads back as that integer. */
  lemma ToIntOfIntString(i: int)
    ensures ToInt(JStr(IntToString(i))) == Ok(i)
  {
    ParseIntOfIntToString(i);
  }
}
