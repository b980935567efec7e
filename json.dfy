/** JSON values as Python's `json` module hands them to the program, and the
    few Python built-ins the program applies to them: truthiness, `d.get`,
    subscripting, item assignment and `float()`. */
module Json {
  import opened Results

  datatype Value =
    | Null
    | Bool(b: bool)
    | Int(i: int)
    | Float(r: real)
    | Str(s: string)
    | Arr(items: seq<Value>)
    | Obj(fields: map<string, Value>)

  /** Python's name for the type of a value, as TypeError messages print it. */
  function TypeName(v: Value): string {
    match v
    case Null => "NoneType"
    case Bool(_) => "bool"
    case Int(_) => "int"
    case Float(_) => "float"
    case Str(_) => "str"
    case Arr(_) => "list"
    case Obj(_) => "dict"
  }

  /** Python truthiness, as `if v:` and `not v` decide it. */
  predicate Truthy(v: Value) {
    match v
    case Null => false
    case Bool(b) => b
    case Int(i) => i != 0
    case Float(r) => r != 0.0
    case Str(s) => s != []
    case Arr(a) => a != []
    case Obj(m) => m != map[]
  }

  /** `d.get(key, default)` */
  function Get(d: map<string, Value>, key: string, default: Value): Value {
    if key in d then d[key] else default
  }

  /** `str(e)` of the KeyError that `d[key]` raises for a missing key. */
  function KeyErrorMessage(key: string): string {
    "'" + key + "'"
  }

  /** `d[key]` on a dict that the program indexes directly. */
  function Index(d: map<string, Value>, key: string): (r: Result<Value>)
    ensures r.Ok? <==> key in d
    ensures r.Ok? ==> r.value == d[key]
    ensures r.Err? ==> r.message == KeyErrorMessage(key)
  {
    if key in d then Ok(d[key]) else Err(KeyErrorMessage(key))
  }

  /** `v[key]` with a string key on any JSON value: a dict gives its entry or
      raises KeyError; every other type raises TypeError. */
  function Subscript(v: Value, key: string): (r: Result<Value>)
    ensures r.Ok? <==> v.Obj? && key in v.fields
    ensures r.Ok? ==> r.value == v.fields[key]
  {
    match v
    case Obj(m) => Index(m, key)
    case Str(_) => Err("string indices must be integers, not 'str'")
    case Arr(_) => Err("list indices must be integers or slices, not str")
    case _ => Err("'" + TypeName(v) + "' object is not subscriptable")
  }

  /** `v[key] = x` with a string key: a dict gets the entry set (added or
      replaced); every other type raises TypeError. */
  function SetItem(v: Value, key: string, x: Value): (r: Result<Value>)
    ensures r.Ok? <==> v.Obj?
    ensures r.Ok? ==> r.value.Obj? && r.value.fields.Keys == v.fields.Keys + {key}
    ensures r.Ok? ==> r.value.fields[key] == x
    ensures r.Ok? ==> forall k :: k in v.fields && k != key ==> r.value.fields[k] == v.fields[k]
  {
    match v
    case Obj(m) => Ok(Obj(m[key := x]))
    case Arr(_) => Err("list indices must be integers or slices, not str")
    case _ => Err("'" + TypeName(v) + "' object does not support item assignment")
  }

  // ------------------------------------------------------------------ float()

  predicate IsDigit(c: char) {
    '0' <= c <= '9'
  }

  predicate AllDigits(s: string) {
    forall i :: 0 <= i < |s| ==> IsDigit(s[i])
  }

  function Pow10(k: nat): (p: nat)
    ensures p > 0
  {
    if k == 0 then 1 else 10 * Pow10(k - 1)
  }

  /** The number a string of decimal digits denotes; it has at most |s| digits. */
  function DigitsValue(s: string): (n: nat)
    requires AllDigits(s)
    ensures n < Pow10(|s|)
  {
    if s == [] then 0
    else 10 * DigitsValue(s[..|s| - 1]) + (s[|s| - 1] as int - '0' as int)
  }

  /** The position of the first '.' in s, or |s| when there is none. */
  function DotIndex(s: string): (k: nat)
    ensures k <= |s|
    ensures k < |s| ==> s[k] == '.'
    ensures forall i :: 0 <= i < k ==> s[i] != '.'
  {
    if s == [] then 0
    else if s[0] == '.' then 0
    else 1 + DotIndex(s[1..])
  }

  /** An unsigned decimal literal: digits, optionally a point and more digits,
      with at least one digit in all ("5", "5.", ".5", "12.25"). */
  function ParseUnsigned(s: string): Option<real> {
    var k := DotIndex(s);
    var whole := s[..k];
    var frac := if k < |s| then s[k + 1..] else [];
    if AllDigits(whole) && AllDigits(frac) && |whole| + |frac| > 0 then
      Some(DigitsValue(whole) as real + DigitsValue(frac) as real / Pow10(|frac|) as real)
    else
      None
  }

  /** A decimal literal with an optional sign, as `float(s)` reads it. */
  function ParseDecimal(s: string): Option<real> {
    if |s| > 0 && s[0] == '-' then
      match ParseUnsigned(s[1..])
      case Some(x) => Some(-x)
      case None => None
    else if |s| > 0 && s[0] == '+' then
      ParseUnsigned(s[1..])
    else
      ParseUnsigned(s)
  }

  /** `float(v)`: numbers and booleans convert, strings are parsed, and every
      other type raises TypeError. */
  function ToFloat(v: Value): (r: Result<real>)
    ensures v.Int? ==> r == Ok(v.i as real)
    ensures v.Float? ==> r == Ok(v.r)
    ensures v.Bool? ==> r == Ok(if v.b then 1.0 else 0.0)
    ensures v.Str? ==> (r.Ok? <==> ParseDecimal(v.s).Some?)
    ensures v.Str? && r.Ok? ==> r.value == ParseDecimal(v.s).value
    ensures v.Null? || v.Arr? || v.Obj? ==> r.Err?
  {
    match v
    case Bool(b) => Ok(if b then 1.0 else 0.0)
    case Int(i) => Ok(i as real)
    case Float(x) => Ok(x)
    case Str(s) =>
      (match ParseDecimal(s)
       case Some(x) => Ok(x)
       case None => Err("could not convert string to float: '" + s + "'"))
    case _ => Err("float() argument must be a string or a real number, not '" + TypeName(v) + "'")
  }

  /** A string of digits with a point in it parses to its whole part plus its
      fraction. */
  lemma {:induction false} ParseDecimalWithPoint(whole: string, frac: string)
    requires AllDigits(whole) && AllDigits(frac) && |whole| + |frac| > 0
    ensures ParseDecimal(whole + "." + frac)
         == Some(DigitsValue(whole) as real + DigitsValue(frac) as real / Pow10(|frac|) as real)
  {
    var s := whole + "." + frac;
    assert s[|whole|] == '.';
    assert forall i :: 0 <= i < |whole| ==> s[i] == whole[i] && s[i] != '.';
    var k := DotIndex(s);
    assert k == |whole|;
    assert s[..k] == whole;
    assert s[k + 1..] == frac;
    if |s| > 0 {
      assert s[0] != '-' && s[0] != '+' by {
        if |whole| > 0 { assert s[0] == whole[0] && IsDigit(whole[0]); } else { assert s[0] == '.'; }
      }
    }
  }

  /** A string of digits parses to the number it denotes. */
  lemma {:induction false} ParseDecimalInteger(whole: string)
    requires AllDigits(whole) && whole != []
    ensures ParseDecimal(whole) == Some(DigitsValue(whole) as real)
  {
    assert forall i :: 0 <= i < |whole| ==> whole[i] != '.';
    var k := DotIndex(whole);
    assert k == |whole|;
    assert whole[..k] == whole;
    assert IsDigit(whole[0]);
  }

  /** The parsed value of an unsigned literal lies between its whole part and
      the next integer. */
  lemma ParseUnsignedBounds(s: string)
    requires ParseUnsigned(s).Some?
    ensures var whole := s[..DotIndex(s)];
            AllDigits(whole) &&
            DigitsValue(whole) as real <= ParseUnsigned(s).value < DigitsValue(whole) as real + 1.0
  {
    var k := DotIndex(s);
    var whole := s[..k];
    var frac := if k < |s| then s[k + 1..] else [];
    assert AllDigits(whole) && AllDigits(frac);
    FractionBounds(DigitsValue(whole) as real, DigitsValue(frac) as real, Pow10(|frac|) as real);
  }

  /** A whole part plus a proper fraction lies below the next whole number. */
  lemma FractionBounds(w: real, f: real, p: real)
    requires 0.0 <= f < p
    ensures w <= w + f / p < w + 1.0
  {
    QuotientBelowOne(f, p);
  }

  lemma QuotientBelowOne(f: real, p: real)
    requires 0.0 <= f < p
    ensures f / p < 1.0
  {
    var q := f / p;
    assert q * p == f;
    assert (1.0 - q) * p == p - f;
    PositiveFactor(1.0 - q, p);
  }

  lemma PositiveFactor(a: real, p: real)
    requires p > 0.0 && a * p > 0.0
    ensures a > 0.0
  {
  }
}
