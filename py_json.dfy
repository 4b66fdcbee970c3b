/**
 * Values of decoded JSON as the Python services see them (`None`, `bool`,
 * numbers, `str`, `list`, `dict`), with Python's truthiness, `dict.get`,
 * the `or` operator, `float(...)` and `str(...)`.
 */
module PyJson {
  import opened Maybe
  import PyText

  /**
   * A decoded JSON value. Python keeps `int` and `float` apart; both are
   * `Num` here, which is exact for every comparison and sum the services make.
   */
  datatype Json =
    | Null
    | Bool(b: bool)
    | Num(n: real)
    | Str(s: string)
    | Arr(items: seq<Json>)
    | Obj(fields: map<string, Json>)

  /** `bool(v)`: None, False, 0, "", [] and {} are falsy. */
  predicate Truthy(v: Json) {
    match v
    case Null => false
    case Bool(b) => b
    case Num(n) => n != 0.0
    case Str(s) => s != []
    case Arr(items) => items != []
    case Obj(fields) => fields != map[]
  }

  /** `isinstance(v, dict)`. */
  predicate IsDict(v: Json) {
    v.Obj?
  }

  /** `v.get(key, default)` on a dict. */
  function GetOr(v: Json, key: string, default: Json): (r: Json)
    requires IsDict(v)
    ensures key in v.fields ==> r == v.fields[key]
    ensures key !in v.fields ==> r == default
  {
    if key in v.fields then v.fields[key] else default
  }

  /** `v.get(key)` on a dict: `None` when the key is absent. */
  function Get(v: Json, key: string): Json
    requires IsDict(v)
  {
    GetOr(v, key, Null)
  }

  /** Python's `a or b`: the first operand when it is truthy, else the second. */
  function Or(a: Json, b: Json): (r: Json)
    ensures Truthy(a) ==> r == a
    ensures !Truthy(a) ==> r == b
  {
    if Truthy(a) then a else b
  }

  /** The numeric value of an `int`, `float` or `bool` (bool is a subclass of int); None for other types. */
  function NumValue(v: Json): Option<real> {
    match v
    case Num(n) => Some(n)
    case Bool(b) => Some(if b then 1.0 else 0.0)
    case _ => None
  }

  predicate IsDigit(c: char) {
    '0' <= c <= '9'
  }

  /**
   * A `digitpart` of Python's float grammar, `digit (["_"] digit)*`: ASCII
   * digits, where a single underscore may stand between two digits (`1_000`).
   */
  predicate IsDigitPart(s: string) {
    && s != [] && IsDigit(s[|s| - 1])
    && (|s| == 1
        || IsDigitPart(s[..|s| - 1])
        || (|s| >= 3 && s[|s| - 2] == '_' && IsDigitPart(s[..|s| - 2])))
  }

  /** A digit part holds only digits and underscores. */
  lemma {:induction false} DigitPartChars(s: string)
    requires IsDigitPart(s)
    ensures forall j :: 0 <= j < |s| ==> IsDigit(s[j]) || s[j] == '_'
    decreases |s|
  {
    if |s| > 1 {
      var p := if IsDigitPart(s[..|s| - 1]) then s[..|s| - 1] else s[..|s| - 2];
      DigitPartChars(p);
      assert forall j :: 0 <= j < |p| ==> s[j] == p[j];
    }
  }

  /** The digits of `s` with the underscores left out. */
  function DigitsOf(s: string): (d: string)
    ensures |d| <= |s|
  {
    if s == [] then []
    else if s[|s| - 1] == '_' then DigitsOf(s[..|s| - 1])
    else DigitsOf(s[..|s| - 1]) + [s[|s| - 1]]
  }

  /** The value of the digits of `s`, underscores skipped. */
  function DigitsValue(s: string): nat {
    if s == [] then 0
    else if IsDigit(s[|s| - 1]) then 10 * DigitsValue(s[..|s| - 1]) + (s[|s| - 1] as int - '0' as int)
    else DigitsValue(s[..|s| - 1])
  }

  function Pow10(n: nat): (p: nat)
    ensures p >= 1
  {
    if n == 0 then 1 else 10 * Pow10(n - 1)
  }

  /** A `number` of the float grammar: `ddd`, `ddd.`, `.ddd` or `ddd.ddd`, each a digit part. */
  function ParseNumber(s: string): Option<real> {
    var i := PyText.Find(s, '.');
    if i < 0 then
      if IsDigitPart(s) then Some(DigitsValue(s) as real) else None
    else
      var whole, frac := s[..i], s[i + 1..];
      if (whole != [] || frac != []) && (whole == [] || IsDigitPart(whole)) && (frac == [] || IsDigitPart(frac))
      then Some(DigitsValue(whole) as real + DigitsValue(frac) as real / Pow10(|DigitsOf(frac)|) as real)
      else None
  }

  /** The index of the first `e` or `E`, or `|s|` when there is none. */
  function ExponentMark(s: string): (i: nat)
    ensures i <= |s|
    ensures forall j :: 0 <= j < i ==> s[j] != 'e' && s[j] != 'E'
    ensures i < |s| ==> s[i] == 'e' || s[i] == 'E'
  {
    if s == [] then 0
    else if s[0] == 'e' || s[0] == 'E' then 0
    else 1 + ExponentMark(s[1..])
  }

  /** The exponent after `e`: an optional sign and a digit part. */
  function ParseExponent(s: string): Option<int> {
    if s != [] && (s[0] == '-' || s[0] == '+') then
      var d: int := DigitsValue(s[1..]);
      if IsDigitPart(s[1..]) then Some(if s[0] == '-' then -d else d) else None
    else if IsDigitPart(s) then Some(DigitsValue(s))
    else None
  }

  /** `m * 10**e`. */
  function Scale(m: real, e: int): real {
    if e >= 0 then m * Pow10(e) as real else m / Pow10(-e) as real
  }

  /** A `floatnumber`: a number, optionally followed by `e` or `E` and an exponent. */
  function ParseUnsigned(s: string): Option<real> {
    var i := ExponentMark(s);
    if i == |s| then ParseNumber(s)
    else
      match (ParseNumber(s[..i]), ParseExponent(s[i + 1..]))
      case (Some(m), Some(e)) => Some(Scale(m, e))
      case _ => None
  }

  /**
   * `float(s)` for a string: surrounding whitespace, an optional sign and a
   * finite decimal float literal. The infinities and NaN, which a `real`
   * cannot hold, and non-ASCII digits are None here.
   */
  function ParseFloat(s: string): Option<real> {
    var t := PyText.Strip(s);
    if t != [] && t[0] == '-' then
      match ParseUnsigned(t[1..])
      case Some(x) => Some(-x)
      case None => None
    else if t != [] && t[0] == '+' then ParseUnsigned(t[1..])
    else ParseUnsigned(t)
  }

  /**
   * `float(v)`: None for a list, a dict, None and a string that is no float
   * literal, where Python raises (and for the infinities and NaN, see `ParseFloat`).
   */
  function ToFloat(v: Json): (r: Option<real>)
    ensures v.Num? ==> r == Some(v.n)
    ensures v.Bool? ==> r == Some(if v.b then 1.0 else 0.0)
    ensures v.Null? || v.Arr? || v.Obj? ==> r == None
  {
    match v
    case Str(s) => ParseFloat(s)
    case _ => NumValue(v)
  }

  /** A parsed number holds only digits, underscores and a point, so no exponent mark. */
  lemma NumberHasNoMark(m: string)
    requires ParseNumber(m).Some?
    ensures forall j :: 0 <= j < |m| ==> m[j] != 'e' && m[j] != 'E'
  {
    var i := PyText.Find(m, '.');
    if i < 0 {
      DigitPartChars(m);
    } else {
      var whole, frac := m[..i], m[i + 1..];
      if whole != [] {
        DigitPartChars(whole);
      }
      if frac != [] {
        DigitPartChars(frac);
      }
      forall j | 0 <= j < |m|
        ensures m[j] != 'e' && m[j] != 'E'
      {
        if j < i {
          assert m[j] == whole[j];
        } else if j > i {
          assert m[j] == frac[j - i - 1];
        }
      }
    }
  }

  /** A number followed by `e` or `E` and an exponent is that number scaled by a power of ten. */
  lemma ExponentForm(m: string, mark: char, e: string, x: real, k: int)
    requires mark == 'e' || mark == 'E'
    requires ParseNumber(m) == Some(x) && ParseExponent(e) == Some(k)
    ensures ParseUnsigned(m + [mark] + e) == Some(Scale(x, k))
  {
    var s := m + [mark] + e;
    NumberHasNoMark(m);
    var i := ExponentMark(s);
    assert forall j :: 0 <= j < |m| ==> s[j] == m[j];
    assert s[|m|] == mark;
    assert i == |m|;
    assert s[..i] == m && s[i + 1..] == e;
  }

  /** A number without an exponent is parsed as a number. */
  lemma NoExponentForm(m: string)
    requires ParseNumber(m).Some?
    ensures ParseUnsigned(m) == ParseNumber(m)
  {
    NumberHasNoMark(m);
  }

  /** A string that starts with a digit and ends without whitespace is parsed whole, unsigned. */
  lemma ParseFloatUnpadded(s: string)
    requires s != [] && IsDigit(s[0]) && !PyText.IsSpace(s[|s| - 1])
    ensures ParseFloat(s) == ParseUnsigned(s)
  {
    PyText.StripUnpadded(s);
  }

  lemma OneDigit()
    ensures ParseNumber("1") == Some(1.0)
  {
    assert IsDigitPart("1");
    assert "1"[..0] == [];
    assert PyText.Find("1", '.') == -1;
  }

  /** `float("1e3") == 1000.0`. */
  lemma ExponentLiteral()
    ensures ToFloat(Str("1e3")) == Some(1000.0)
  {
    ParseFloatUnpadded("1e3");
    UnsignedExponent();
  }

  lemma UnsignedExponent()
    ensures ParseUnsigned("1e3") == Some(1000.0)
  {
    OneDigit();
    ExponentThree();
    ExponentForm("1", 'e', "3", 1.0, 3);
    assert Scale(1.0, 3) == 1000.0;
    assert "1e3" == "1" + ['e'] + "3";
  }

  lemma ExponentThree()
    ensures ParseExponent("3") == Some(3)
  {
    assert "3"[..0] == [];
    assert IsDigitPart("3") && DigitsValue("3") == 3;
  }

  /** `float("1__0")` raises: an underscore must stand between two digits. */
  lemma DoubleUnderscoreRefused()
    ensures ToFloat(Str("1__0")) == None
  {
    ParseFloatUnpadded("1__0");
    UnsignedDoubleUnderscore();
  }

  lemma UnsignedDoubleUnderscore()
    ensures ParseUnsigned("1__0") == None
  {
    var s := "1__0";
    assert forall j :: 0 <= j < |s| ==> s[j] != 'e' && s[j] != 'E' && s[j] != '.';
    assert ExponentMark(s) == |s|;
    assert PyText.Find(s, '.') == -1;
    assert s[..3] == "1__" && s[..2] == "1_" && s[..1] == "1";
    assert !IsDigitPart(s[..2]);
    assert !IsDigitPart(s[..3]);
    assert !IsDigitPart(s);
  }

  /** `float(v) if v is not None else 0`, falling back to 0 where `float` raises. */
  function FloatOrZero(v: Json): real {
    match ToFloat(v)
    case Some(x) => x
    case None => 0.0
  }

  /** `str(v)`: exact for strings, None and booleans; numbers and containers get a placeholder rendering. */
  function PyStr(v: Json): string {
    match v
    case Str(s) => s
    case Null => "None"
    case Bool(b) => if b then "True" else "False"
    case Num(_) => "<number>"
    case Arr(_) => "<list>"
    case Obj(_) => "<dict>"
  }
}
