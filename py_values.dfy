/**
  What the Python clients do with the JSON values they receive: look keys
  up in a dict, test truthiness, compare values and subtract numbers. A value of
  the wrong kind raises the exception Python raises for it.

  Numbers are exact decimals; Python's binary floating point rounding is
  not part of this model.
*/
module PyValues {
  import opened Wrappers
  import opened Errors
  import opened JsonText

  // ---------------------------------------------------------------------
  // Decimal arithmetic

  /** Ten to the `e`, for any integer `e`. */
  function Scale(e: int): real
    decreases if e < 0 then -e else e
  {
    if e == 0 then 1.0 else if e > 0 then 10.0 * Scale(e - 1) else Scale(e + 1) / 10.0
  }

  /** The number a decimal stands for. */
  function Value(d: Decimal): real
  {
    d.mantissa as real * Scale(d.exponent)
  }

  /** The mantissa of `d` written with the smaller exponent `e`: ten times more per step down. */
  function Align(d: Decimal, e: int): int
    requires e <= d.exponent
    decreases d.exponent - e
  {
    if e == d.exponent then d.mantissa else 10 * Align(d, e + 1)
  }

  /** `a + b`. */
  function Add(a: Decimal, b: Decimal): (r: Decimal)
    ensures Value(r) == Value(a) + Value(b)
  {
    var e := if a.exponent < b.exponent then a.exponent else b.exponent;
    AlignValue(a, e);
    AlignValue(b, e);
    Decimal(Align(a, e) + Align(b, e), e)
  }

  /** `-a`. */
  function Neg(a: Decimal): (r: Decimal)
    ensures Value(r) == -Value(a)
  {
    Decimal(-a.mantissa, a.exponent)
  }

  /** `a - b`. */
  function Sub(a: Decimal, b: Decimal): (r: Decimal)
    ensures Value(r) == Value(a) - Value(b)
  {
    Add(a, Neg(b))
  }

  /** `a < b`: the mantissas compared at the smaller of the two exponents. */
  predicate Less(a: Decimal, b: Decimal)
  {
    var e := if a.exponent < b.exponent then a.exponent else b.exponent;
    Align(a, e) < Align(b, e)
  }

  /** `a == b` on numbers: the mantissas compared at the smaller of the two exponents. */
  predicate SameNumber(a: Decimal, b: Decimal)
  {
    var e := if a.exponent < b.exponent then a.exponent else b.exponent;
    Align(a, e) == Align(b, e)
  }

  const Zero := Decimal(0, 0)

  /** `a < 0`. */
  predicate Negative(a: Decimal)
  {
    a.mantissa < 0
  }

  /** An integer literal of the program. */
  function Int(n: int): Decimal { Decimal(n, 0) }

  lemma {:induction false} ScaleStep(e: int, f: int)
    requires f == e + 1
    ensures Scale(f) == 10.0 * Scale(e)
  {
  }

  lemma {:induction false} ScalePositive(e: int)
    ensures Scale(e) > 0.0
    decreases if e < 0 then -e else e
  {
    if e > 0 { ScalePositive(e - 1); }
    else if e < 0 { ScalePositive(e + 1); }
  }

  /** Aligning to a smaller exponent keeps the number. */
  lemma {:induction false} AlignValue(d: Decimal, e: int)
    requires e <= d.exponent
    ensures Align(d, e) as real * Scale(e) == Value(d)
    decreases d.exponent - e
  {
    if e < d.exponent {
      var a := Align(d, e + 1);
      AlignValue(d, e + 1);
      ScaleStep(e, e + 1);
      TenShift(a as real, Scale(e));
    }
  }

  lemma {:induction false} TenShift(a: real, s: real)
    ensures (10.0 * a) * s == a * (10.0 * s)
  {
  }

  /** The sign of a decimal is the sign of its mantissa. */
  lemma {:induction false} SignOfValue(d: Decimal)
    ensures Value(d) < 0.0 <==> d.mantissa < 0
    ensures Value(d) > 0.0 <==> d.mantissa > 0
  {
    var s := Scale(d.exponent);
    ScalePositive(d.exponent);
    if d.mantissa < 0 {
      assert d.mantissa as real * s < 0.0 * s;
    } else if d.mantissa > 0 {
      assert d.mantissa as real * s > 0.0 * s;
    }
  }

  /** `Negative` is the comparison with zero. */
  lemma {:induction false} NegativeValue(a: Decimal)
    ensures Negative(a) <==> Value(a) < 0.0
  {
    SignOfValue(a);
  }

  /** `Less` is the order of the numbers. */
  lemma {:induction false} LessValue(a: Decimal, b: Decimal)
    ensures Less(a, b) <==> Value(a) < Value(b)
  {
    var e := if a.exponent < b.exponent then a.exponent else b.exponent;
    AlignValue(a, e);
    AlignValue(b, e);
    ScalePositive(e);
    ScaledOrder(Align(a, e) as real, Align(b, e) as real, Scale(e));
  }

  /** `SameNumber` is the equality of the numbers. */
  lemma {:induction false} SameNumberValue(a: Decimal, b: Decimal)
    ensures SameNumber(a, b) <==> Value(a) == Value(b)
  {
    LessValue(a, b);
    LessValue(b, a);
  }

  /** Multiplying by a positive factor keeps the order. */
  lemma {:induction false} ScaledOrder(x: real, y: real, s: real)
    requires s > 0.0
    ensures x < y <==> x * s < y * s
  {
    if x < y {
      assert (y - x) * s > 0.0;
    } else {
      assert (x - y) * s >= 0.0;
    }
  }

  // ---------------------------------------------------------------------
  // Values

  /** A value that takes part in arithmetic: a number, or a bool as 0 or 1. */
  function AsNumber(v: Json): (r: Option<Decimal>)
    ensures r.Some? <==> v.JNumber? || v.JBool?
  {
    match v
    case JNumber(d) => Some(d)
    case JBool(b) => Some(if b then Int(1) else Int(0))
    case _ => None
  }

  /**
    Python's `v == w` on values read from JSON: numbers and bools by the
    number they stand for (`1 == 1.0 == True`), strings by their text,
    lists element by element, and dicts by their keys and the value each
    key maps to, whatever the order the keys were written in.
  */
  predicate PyEq(v: Json, w: Json)
    decreases v
  {
    match v
    case JNull => w.JNull?
    case JString(s) => w == JString(s)
    case JArray(xs) => w.JArray? && |xs| == |w.items| && forall i | 0 <= i < |xs| :: PyEq(xs[i], w.items[i])
    case JObject(ms) =>
      && w.JObject?
      && (forall j | 0 <= j < |w.members| :: Lookup(ms, w.members[j].0).Some?)
      && forall i | 0 <= i < |ms| && Lookup(ms, ms[i].0) == Some(ms[i].1) ::
           Lookup(w.members, ms[i].0).Some? && PyEq(ms[i].1, Lookup(w.members, ms[i].0).value)
    case _ => AsNumber(v).Some? && AsNumber(w).Some? && SameNumber(AsNumber(v).value, AsNumber(w).value)
  }

  /** Python truthiness: None, false, zero and empty containers are false. */
  predicate Truthy(v: Json)
  {
    match v
    case JNull => false
    case JBool(b) => b
    case JNumber(d) => d.mantissa != 0
    case JString(s) => |s| > 0
    case JArray(items) => |items| > 0
    case JObject(members) => |members| > 0
  }

  /** `v[key]`: a dict lookup, KeyError when absent, TypeError on anything else. */
  function Index(v: Json, key: string): (r: Result<Json, PyError>)
    ensures r.Success? <==> v.JObject? && Lookup(v.members, key).Some?
    ensures r.Success? ==> Some(r.value) == Lookup(v.members, key)
  {
    if !v.JObject? then Failure(TypeError)
    else match Lookup(v.members, key)
      case Some(x) => Success(x)
      case None => Failure(KeyError(key))
  }

  /** `v.get(key, default)`: only a dict has `get`. */
  function Get(v: Json, key: string, default: Json): (r: Result<Json, PyError>)
    ensures r.Success? <==> v.JObject?
    ensures r.Success? && Lookup(v.members, key).Some? ==> Some(r.value) == Lookup(v.members, key)
    ensures r.Success? && Lookup(v.members, key).None? ==> r.value == default
  {
    if !v.JObject? then Failure(AttributeError("get"))
    else match Lookup(v.members, key)
      case Some(x) => Success(x)
      case None => Success(default)
  }

  /** `key in v`: a dict's keys, a list's elements, a string's substrings. */
  function Contains(v: Json, key: string): (r: Result<bool, PyError>)
    ensures v.JObject? ==> r == Success(Lookup(v.members, key).Some?)
  {
    match v
    case JObject(members) => Success(Lookup(members, key).Some?)
    case JArray(items) => Success(JString(key) in items)
    case JString(s) => Success(exists i, j | 0 <= i <= j <= |s| :: s[i..j] == key)
    case _ => Failure(TypeError)
  }

  /** `v > c` for a number literal `c`; TypeError unless `v` is a number. */
  function GreaterThan(v: Json, c: Decimal): (r: Result<bool, PyError>)
    ensures r.Success? <==> AsNumber(v).Some?
    ensures r.Success? ==> (r.value <==> Value(AsNumber(v).value) > Value(c))
  {
    match AsNumber(v)
    case None => Failure(TypeError)
    case Some(d) =>
      LessValue(c, d);
      Success(Less(c, d))
  }

  /**
    `str(v)`: a string is its own text; other values are shown as their
    JSON text, which is where Python's `repr` would differ.
  */
  function Str(v: Json): (r: string)
    ensures v.JString? ==> r == v.s
  {
    if v.JString? then v.s else Dump(v)
  }

  /** `for x in v`: a list's elements, a dict's keys, a string's characters. */
  function Iterate(v: Json): (r: Result<seq<Json>, PyError>)
    ensures v.JArray? ==> r == Success(v.items)
  {
    match v
    case JArray(items) => Success(items)
    case JObject(members) => Success(seq(|members|, i requires 0 <= i < |members| => JString(members[i].0)))
    case JString(s) => Success(seq(|s|, i requires 0 <= i < |s| => JString([s[i]])))
    case _ => Failure(TypeError)
  }

  /** `v - w`; TypeError unless both are numbers. */
  function Minus(v: Json, w: Json): (r: Result<Json, PyError>)
    ensures r.Success? <==> AsNumber(v).Some? && AsNumber(w).Some?
    ensures r.Success? ==>
              r.value.JNumber? && Value(r.value.n) == Value(AsNumber(v).value) - Value(AsNumber(w).value)
  {
    match (AsNumber(v), AsNumber(w))
    case (Some(a), Some(b)) => Success(JNumber(Sub(a, b)))
    case _ => Failure(TypeError)
  }

  // ---------------------------------------------------------------------
  // Properties of equality

  /** Every value equals itself. */
  lemma {:induction false} PyEqReflexive(v: Json)
    ensures PyEq(v, v)
    decreases v
  {
    match v
    case JArray(xs) =>
      forall i | 0 <= i < |xs| ensures PyEq(xs[i], xs[i]) {
        PyEqReflexive(xs[i]);
      }
    case JObject(ms) =>
      forall i | 0 <= i < |ms| && Lookup(ms, ms[i].0) == Some(ms[i].1)
        ensures PyEq(ms[i].1, Lookup(ms, ms[i].0).value)
      {
        PyEqReflexive(ms[i].1);
      }
      forall j | 0 <= j < |ms| ensures Lookup(ms, ms[j].0).Some? {
        LookupFinds(ms, j);
      }
    case _ =>
  }

  lemma {:induction false} LookupFinds(ms: seq<(string, Json)>, j: nat)
    requires j < |ms|
    ensures Lookup(ms, ms[j].0).Some?
  {
  }

  /** An integer and the same number written with a fraction are equal, as are `True` and `1`. */
  lemma {:induction false} NumericEquality()
    ensures PyEq(JNumber(Decimal(5, 0)), JNumber(Decimal(50, -1)))
    ensures PyEq(JBool(true), JNumber(Int(1)))
    ensures !PyEq(JString("5"), JNumber(Decimal(5, 0)))
  {
    assert Align(Decimal(5, 0), -1) == 10 * Align(Decimal(5, 0), 0);
  }

  /** Dicts that list the same keys and values in another order are equal. */
  lemma {:induction false} KeyOrderIgnored()
    ensures PyEq(JObject([("a", JNull), ("b", JBool(true))]), JObject([("b", JBool(true)), ("a", JNull)]))
  {
    var ms := [("a", JNull), ("b", JBool(true))];
    var ns := [("b", JBool(true)), ("a", JNull)];
    assert Lookup(ms, "a") == Some(JNull) && Lookup(ms, "b") == Some(JBool(true));
    assert Lookup(ns, "a") == Some(JNull) && Lookup(ns, "b") == Some(JBool(true));
    assert SameNumber(Int(1), Int(1));
  }
}
