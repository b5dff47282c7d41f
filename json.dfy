/** Decoded JSON values as the operator's Python code sees them, together with
    the pieces of Python semantics the operator relies on: truthiness (`not x`),
    `dict.get`, `or`, `==` and `str()`. */
module Json {

  datatype Option<+T> = None | Some(value: T)

  datatype Result<+T, +E> = Ok(value: T) | Err(error: E)

  /** A JSON value after decoding. Floats are not modelled. */
  datatype Value =
    | Null
    | Bool(b: bool)
    | Num(n: int)
    | Str(s: string)
    | List(items: seq<Value>)
    | Obj(fields: map<string, Value>)

  /** Python truthiness: None, False, 0, "", [] and {} are falsy, everything else is truthy. */
  predicate Truthy(v: Value) {
    match v
    case Null => false
    case Bool(b) => b
    case Num(n) => n != 0
    case Str(s) => s != ""
    case List(items) => items != []
    case Obj(fields) => fields != map[]
  }

  /** `d.get(key, default)`. */
  function GetOr(d: map<string, Value>, key: string, default: Value): Value {
    if key in d then d[key] else default
  }

  /** `d.get(key)`: a missing key reads as None. */
  function Get(d: map<string, Value>, key: string): Value {
    GetOr(d, key, Null)
  }

  /** Python's `a or b`: the first operand when it is truthy, else the second. */
  function Or(a: Value, b: Value): (r: Value)
    ensures Truthy(r) <==> Truthy(a) || Truthy(b)
    ensures Truthy(a) ==> r == a
  {
    if Truthy(a) then a else b
  }

  /** The integer Python associates with an int or a bool (`True == 1`). */
  function AsInt(v: Value): int
    requires v.Num? || v.Bool?
  {
    if v.Num? then v.n else if v.b then 1 else 0
  }

  /** Python's `==` on decoded JSON: structural, except that a bool equals the
      integer 0 or 1 it stands for, also inside lists and dicts. */
  predicate PyEq(a: Value, b: Value)
    ensures PyEq(a, b) ==> (Truthy(a) <==> Truthy(b))
    ensures a.Null? || a.Str? ==> (PyEq(a, b) <==> a == b)
    ensures a.Bool? && b.Bool? ==> (PyEq(a, b) <==> a == b)
    ensures b == Bool(true) ==> (PyEq(a, b) <==> a == Bool(true) || a == Num(1))
    decreases a
  {
    match a
    case Null => b.Null?
    case Bool(_) => (b.Num? || b.Bool?) && AsInt(a) == AsInt(b)
    case Num(_) => (b.Num? || b.Bool?) && AsInt(a) == AsInt(b)
    case Str(s) => b.Str? && b.s == s
    case List(xs) => b.List? && |xs| == |b.items| && forall i | 0 <= i < |xs| :: PyEq(xs[i], b.items[i])
    case Obj(m) => b.Obj? && m.Keys == b.fields.Keys && forall k | k in m :: PyEq(m[k], b.fields[k])
  }

  /** Python's `==` is reflexive on these values, so equal values always compare equal. */
  lemma {:induction false} PyEqReflexive(a: Value)
    ensures PyEq(a, a)
    decreases a
  {
    match a
    case List(xs) =>
      forall i | 0 <= i < |xs| ensures PyEq(xs[i], xs[i]) { PyEqReflexive(xs[i]); }
    case Obj(m) =>
      forall k | k in m ensures PyEq(m[k], m[k]) { PyEqReflexive(m[k]); }
    case _ =>
  }

  /** Python's `==` is symmetric on these values, so which spec is old and which
      is new does not matter to the no-op test. */
  lemma {:induction false} PyEqSymmetric(a: Value, b: Value)
    requires PyEq(a, b)
    ensures PyEq(b, a)
    decreases a
  {
    match a
    case List(xs) =>
      forall i | 0 <= i < |b.items| ensures PyEq(b.items[i], xs[i]) { PyEqSymmetric(xs[i], b.items[i]); }
    case Obj(m) =>
      forall k | k in b.fields ensures PyEq(b.fields[k], m[k]) { PyEqSymmetric(m[k], b.fields[k]); }
    case _ =>
  }

  function DigitChar(d: int): (c: char)
    requires 0 <= d < 10
    ensures '0' <= c <= '9' && DigitValue(c) == d
  {
    (('0' as int) + d) as char
  }

  /** The value of one decimal digit. */
  function DigitValue(c: char): int
    requires '0' <= c <= '9'
  {
    (c as int) - ('0' as int)
  }

  predicate IsDecimal(s: string) {
    forall i | 0 <= i < |s| :: '0' <= s[i] <= '9'
  }

  /** The number a string of decimal digits denotes, read most significant digit first. */
  function DecimalValue(s: string): nat
    requires IsDecimal(s)
  {
    if s == [] then 0 else DecimalValue(s[..|s| - 1]) * 10 + DigitValue(s[|s| - 1])
  }

  /** Decimal text of a natural number, as `str(n)` prints it: non-empty digits
      without a leading zero, denoting `n`. */
  function NatToString(n: nat): (r: string)
    ensures |r| >= 1 && IsDecimal(r)
    ensures |r| > 1 ==> r[0] != '0'
    ensures DecimalValue(r) == n
  {
    if n < 10 then [DigitChar(n)]
    else
      var prefix := NatToString(n / 10);
      var r := prefix + [DigitChar(n % 10)];
      assert r[..|r| - 1] == prefix;
      r
  }

  function IntToString(n: int): string {
    if n < 0 then "-" + NatToString(-n) else NatToString(n)
  }

  function JoinComma(parts: seq<string>): string {
    if parts == [] then "" else if |parts| == 1 then parts[0] else parts[0] + ", " + JoinComma(parts[1..])
  }

  /** Python's `repr()` for scalars and lists (string escapes are not modelled);
      a dict is rendered without its entries, since the key order Python would
      print is not part of the value. */
  function Repr(v: Value): (r: string)
    ensures |r| >= 1
    ensures r[0] == '[' <==> v.List?
    ensures r[0] == '\'' <==> v.Str?
    ensures r[0] == '{' <==> v.Obj?
    ensures v.Num? ==> (r[0] == '-' <==> v.n < 0)
    ensures v.Num? ==> r[0] == '-' || '0' <= r[0] <= '9'
    decreases v
  {
    match v
    case Null => "None"
    case Bool(b) => if b then "True" else "False"
    case Num(n) => IntToString(n)
    case Str(s) => "'" + s + "'"
    case List(items) => "[" + JoinComma(seq(|items|, i requires 0 <= i < |items| => Repr(items[i]))) + "]"
    case Obj(_) => "{...}"
  }

  /** Python's `str()` as used in f-strings: a string prints as itself, anything
      else as its repr; an integer as its decimal digits, after a minus sign when
      it is negative. */
  function Show(v: Value): (r: string)
    ensures v.Str? ==> r == v.s
    ensures v.Num? && v.n >= 0 ==> IsDecimal(r) && DecimalValue(r) == v.n
    ensures v.Num? && v.n < 0 ==> |r| >= 2 && r[0] == '-' && IsDecimal(r[1..]) && DecimalValue(r[1..]) == -v.n
  {
    if v.Str? then v.s
    else if v.Num? && v.n < 0 then
      var r := Repr(v);
      assert r[1..] == NatToString(-v.n);
      r
    else Repr(v)
  }
}
