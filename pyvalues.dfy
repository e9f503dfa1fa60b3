/** The dynamically typed values the three scripts handle (decoded JSON,
    BSON documents read from MongoDB, threshold arguments) and the Python
    built-ins they apply to them: `isinstance(x, (int, float))`, `int(str)`
    and `str(x)`. */
module PyValues {
  import opened Outcomes

  /** Floats are modelled as reals (no NaN, no infinities, no rounding). */
  datatype Value =
    | VNone
    | VBool(b: bool)
    | VInt(i: int)
    | VFloat(f: real)
    | VStr(s: string)
    | VList(items: seq<Value>)
    | VDict(entries: map<string, Value>)
    | VObjectId(hex: string)

  /** Foreign conversions the model keeps abstract: `float(s)` on a string,
      whether `datetime.fromisoformat(s)` accepts `s`, and the `repr` Python
      prints for floats and containers. */
  datatype Builtins = Builtins(
    floatOfStr: string -> Option<real>,
    isIsoFormat: string -> bool,
    reprOf: Value -> string)

  /** `isinstance(v, (int, float))`; `bool` is a subclass of `int`. */
  predicate IsNumber(v: Value)
  {
    v.VBool? || v.VInt? || v.VFloat?
  }

  /** The numeric value of an int, float or bool (`True == 1`). */
  function NumberValue(v: Value): (x: real)
    requires IsNumber(v)
    ensures v.VInt? ==> x == v.i as real
    ensures v.VBool? ==> x == (if v.b then 1.0 else 0.0)
    ensures v.VFloat? ==> x == v.f
  {
    match v
    case VBool(b) => if b then 1.0 else 0.0
    case VInt(i) => i as real
    case VFloat(f) => f
  }

  /** `dict.get(key)`: the value stored under `key`, or None. */
  function Get(d: map<string, Value>, key: string): (v: Value)
    ensures key !in d ==> v == VNone
    ensures key in d ==> v == d[key]
  {
    if key in d then d[key] else VNone
  }

  // ---------- int(s) on a string (ASCII subset of Python's grammar) ----------

  /** The characters `str.strip()` and `int()` skip (ASCII part). */
  predicate IsSpace(c: char)
  {
    c == ' ' || (9 <= c as int <= 13) || (28 <= c as int <= 31)
  }

  predicate IsDigit(c: char)
  {
    '0' <= c <= '9'
  }

  function TrimLeft(s: string): (r: string)
    ensures |r| <= |s| && r == s[|s| - |r|..]
    ensures r != [] ==> !IsSpace(r[0])
    ensures forall i :: 0 <= i < |s| - |r| ==> IsSpace(s[i])
  {
    if s != [] && IsSpace(s[0]) then TrimLeft(s[1..]) else s
  }

  function TrimRight(s: string): (r: string)
    ensures |r| <= |s| && r == s[..|r|]
    ensures r != [] ==> !IsSpace(r[|r| - 1])
    ensures forall i :: |r| <= i < |s| ==> IsSpace(s[i])
  {
    if s != [] && IsSpace(s[|s| - 1]) then TrimRight(s[..|s| - 1]) else s
  }

  function Strip(s: string): string
  {
    TrimRight(TrimLeft(s))
  }

  /** A decimal literal as `int()` accepts it: digits, with single
      underscores allowed between two digits. */
  predicate IsDigitGroups(d: string)
  {
    && |d| > 0
    && IsDigit(d[0])
    && IsDigit(d[|d| - 1])
    && forall i :: 0 <= i < |d| ==>
         IsDigit(d[i]) || (d[i] == '_' && 0 < i < |d| - 1 && IsDigit(d[i - 1]) && IsDigit(d[i + 1]))
  }

  /** The number a string of digits and underscores denotes. */
  function DigitsValue(d: string): nat
  {
    if d == [] then 0
    else if IsDigit(d[|d| - 1]) then DigitsValue(d[..|d| - 1]) * 10 + (d[|d| - 1] as int - '0' as int)
    else DigitsValue(d[..|d| - 1])
  }

  /** `int(s)` for a string: None where Python raises ValueError. */
  function ParseInt(s: string): Option<int>
  {
    var t := Strip(s);
    if |t| > 0 && (t[0] == '-' || t[0] == '+') then
      if IsDigitGroups(t[1..]) then
        Some(if t[0] == '-' then -(DigitsValue(t[1..]) as int) else DigitsValue(t[1..]))
      else None
    else if IsDigitGroups(t) then Some(DigitsValue(t))
    else None
  }

  // ---------- str(x) ----------

  function DigitChar(d: nat): (c: char)
    requires d < 10
    ensures IsDigit(c) && c as int - '0' as int == d
  {
    (('0' as int) + d) as char
  }

  /** The decimal digits of a natural number, most significant first. */
  function NatToDecimal(m: nat): (s: string)
    ensures |s| > 0
    ensures forall i :: 0 <= i < |s| ==> IsDigit(s[i])
  {
    if m < 10 then [DigitChar(m)] else NatToDecimal(m / 10) + [DigitChar(m % 10)]
  }

  /** `str(n)` for an int. */
  function IntToDecimal(n: int): (s: string)
    ensures |s| > 0
  {
    if n < 0 then "-" + NatToDecimal(-n) else NatToDecimal(n)
  }

  /** `str(v)`: exact for None, bools, ints, strings and ObjectIds; floats and
      containers use the abstract `repr`. */
  function Str(v: Value, py: Builtins): (s: string)
    ensures v.VStr? ==> s == v.s
    ensures v.VObjectId? ==> s == v.hex
    ensures v.VNone? ==> s == "None"
    ensures v.VInt? ==> ParseInt(s) == Some(v.i)
  {
    match v
    case VNone => "None"
    case VBool(b) => if b then "True" else "False"
    case VInt(i) => ParseIntOfDecimal(i); IntToDecimal(i)
    case VStr(s) => s
    case VObjectId(hex) => hex
    case _ => py.reprOf(v)
  }

  lemma {:induction false} DigitsValueOfDecimal(m: nat)
    ensures DigitsValue(NatToDecimal(m)) == m
  {
    if m >= 10 {
      DigitsValueOfDecimal(m / 10);
      var s := NatToDecimal(m);
      assert s[..|s| - 1] == NatToDecimal(m / 10);
    }
  }

  lemma StripUnchanged(t: string)
    requires |t| > 0 && !IsSpace(t[0]) && !IsSpace(t[|t| - 1])
    ensures Strip(t) == t
  {
  }

  /** `int(str(n)) == n`: the decimal form of an int reads back as that int. */
  lemma {:induction false} ParseIntOfDecimal(n: int)
    ensures ParseInt(IntToDecimal(n)) == Some(n)
  {
    var m: nat := if n < 0 then -n else n;
    var d := NatToDecimal(m);
    DigitsValueOfDecimal(m);
    AllDigitsAreGroups(d);
    var s := IntToDecimal(n);
    if n < 0 {
      assert s == "-" + d;
      assert s[1..] == d;
      StripUnchanged(s);
      assert Strip(s) == s;
      assert s[0] == '-';
    } else {
      assert s == d;
      StripUnchanged(s);
      assert !(s[0] == '-' || s[0] == '+');
    }
  }

  lemma AllDigitsAreGroups(d: string)
    requires |d| > 0 && forall i :: 0 <= i < |d| ==> IsDigit(d[i])
    ensures IsDigitGroups(d)
  {
  }
}
