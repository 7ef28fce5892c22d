/**
  JSON values and their text, as `json.dumps` writes it with its default
  settings (separators ", " and ": ", every character outside printable
  ASCII escaped) and as `json.loads` reads it back.

  Numbers are decimals: `Decimal(m, e)` stands for m times ten to the e.
  An integer is written as its digits, a negative exponent as a fraction ("5.0" is `Decimal(50, -1)`), a positive one
  with "e+". Every number the JSON grammar allows is read, but Python's
  exponent form for very small or very large floats ("1e-05") is never
  written; the non-standard `NaN`, `Infinity` and `-Infinity` and lone
  surrogate escapes are refused.
*/
module JsonText {
  import opened Wrappers

  datatype Decimal = Decimal(mantissa: int, exponent: int)

  datatype Json =
    | JNull
    | JBool(b: bool)
    | JNumber(n: Decimal)
    | JString(s: string)
    | JArray(items: seq<Json>)
    | JObject(members: seq<(string, Json)>)

  /**
    The value a key maps to in an object read from text: a later
    occurrence of a key wins, as in the dict `json.loads` builds.
  */
  function Lookup(members: seq<(string, Json)>, key: string): (r: Option<Json>)
    ensures r.None? <==> forall i | 0 <= i < |members| :: members[i].0 != key
    ensures r.Some? ==> exists i | 0 <= i < |members| :: members[i] == (key, r.value)
  {
    if |members| == 0 then None
    else if members[|members| - 1].0 == key then Some(members[|members| - 1].1)
    else
      var r := Lookup(members[..|members| - 1], key);
      assert forall i | 0 <= i < |members| - 1 :: members[..|members| - 1][i] == members[i];
      r
  }

  // ---------------------------------------------------------------------
  // Characters

  predicate IsDigit(c: char) { '0' <= c <= '9' }

  predicate AllDigits(s: string) { forall i | 0 <= i < |s| :: IsDigit(s[i]) }

  /** JSON's insignificant whitespace. */
  predicate IsWhitespace(c: char) { c == ' ' || c == '\t' || c == '\n' || c == '\r' }

  function DigitChar(d: nat): (c: char)
    requires d < 10
    ensures IsDigit(c)
  {
    ('0' as int + d) as char
  }

  function DigitValue(c: char): (d: nat)
    requires IsDigit(c)
    ensures d < 10 && DigitChar(d) == c
  {
    c as int - '0' as int
  }

  function HexChar(d: nat): char
    requires d < 16
  {
    if d < 10 then DigitChar(d) else ('a' as int + d - 10) as char
  }

  predicate IsHex(c: char) { IsDigit(c) || 'a' <= c <= 'f' || 'A' <= c <= 'F' }

  function HexValue(c: char): (d: nat)
    requires IsHex(c)
    ensures d < 16
  {
    if IsDigit(c) then DigitValue(c)
    else if 'a' <= c <= 'f' then c as int - 'a' as int + 10
    else c as int - 'A' as int + 10
  }

  // ---------------------------------------------------------------------
  // Writing

  /** The decimal digits of a natural number, without leading zeros. */
  function NatText(n: nat): (t: string)
    ensures |t| >= 1 && AllDigits(t)
    decreases n
  {
    if n < 10 then [DigitChar(n)] else NatText(n / 10) + [DigitChar(n % 10)]
  }

  function Zeros(k: nat): (t: string)
    ensures |t| == k && AllDigits(t)
    ensures forall i | 0 <= i < k :: t[i] == '0'
  {
    seq(k, i => '0')
  }

  function Abs(i: int): nat { if i < 0 then -i else i }

  /** The digits of `n` scaled by ten to the power `exponent`, without sign. */
  function UnsignedText(n: nat, exponent: int): string
  {
    var digits := NatText(n);
    if exponent == 0 then digits
    else if exponent > 0 then digits + ("e+" + NatText(exponent))
    else
      var k := -exponent;
      if |digits| > k then digits[..|digits| - k] + ("." + digits[|digits| - k..])
      else "0" + ("." + (Zeros(k - |digits|) + digits))
  }

  /** A decimal as a JSON number text. */
  function NumberText(d: Decimal): string
  {
    var u := UnsignedText(Abs(d.mantissa), d.exponent);
    if d.mantissa < 0 then "-" + u else u
  }

  /** Four lower-case hex digits. */
  function Hex4(n: nat): (t: string)
    requires n < 0x10000
    ensures |t| == 4
  {
    [HexChar(n / 4096), HexChar(n / 256 % 16), HexChar(n / 16 % 16), HexChar(n % 16)]
  }

  /**
    One character of a string body: quote, backslash and five control
    characters by their short escapes, printable ASCII as itself, any
    other character as `\uXXXX`, or as a surrogate pair beyond U+FFFF.
  */
  function EscapeChar(c: char): string
  {
    var n := c as int;
    if c == '"' then "\\\""
    else if c == '\\' then "\\\\"
    else if n == 0x0A then "\\n"
    else if n == 0x0D then "\\r"
    else if n == 0x09 then "\\t"
    else if n == 0x08 then "\\b"
    else if n == 0x0C then "\\f"
    else if 0x20 <= n <= 0x7E then [c]
    else if n < 0x10000 then "\\u" + Hex4(n)
    else
      var v := n - 0x10000;
      "\\u" + Hex4(0xD800 + v / 0x400) + "\\u" + Hex4(0xDC00 + v % 0x400)
  }

  function Escape(s: string): string
  {
    if |s| == 0 then "" else EscapeChar(s[0]) + Escape(s[1..])
  }

  function Quote(s: string): string
  {
    "\"" + (Escape(s) + "\"")
  }

  /** `json.dumps(j)` with its default separators `", "` and `": "`. */
  function Dump(j: Json): string
    decreases j, 1
  {
    match j
    case JNull => "null"
    case JBool(b) => if b then "true" else "false"
    case JNumber(d) => NumberText(d)
    case JString(s) => Quote(s)
    case JArray(items) => "[" + (DumpItems(items) + "]")
    case JObject(ms) => "{" + (DumpMembers(j, 0) + "}")
  }

  /** The elements of an array, separated by `", "`. */
  function DumpItems(items: seq<Json>): string
    decreases items
  {
    if |items| == 0 then ""
    else if |items| == 1 then Dump(items[0])
    else Dump(items[0]) + (", " + DumpItems(items[1..]))
  }

  /** The members of object `j` from the `i`-th on, each `"key": value`, separated by `", "`. */
  function DumpMembers(j: Json, i: nat): string
    requires j.JObject? && i <= |j.members|
    decreases j, 0, |j.members| - i
  {
    if i == |j.members| then ""
    else
      var text := Quote(j.members[i].0) + (": " + Dump(j.members[i].1));
      if i + 1 == |j.members| then text else text + (", " + DumpMembers(j, i + 1))
  }

  // ---------------------------------------------------------------------
  // Reading

  function SkipWhitespace(s: string): (r: string)
    ensures |r| <= |s| && r == s[|s| - |r|..]
    ensures |r| == 0 || !IsWhitespace(r[0])
  {
    if |s| > 0 && IsWhitespace(s[0]) then SkipWhitespace(s[1..]) else s
  }

  /** The longest prefix of digits. */
  function DigitRun(s: string): (r: string)
    ensures AllDigits(r) && |r| <= |s|
    ensures |s| > 0 && IsDigit(s[0]) ==> |r| > 0
  {
    if |s| == 0 || !IsDigit(s[0]) then "" else [s[0]] + DigitRun(s[1..])
  }

  /** The number a run of digits denotes. */
  function DigitsValue(ds: string): nat
    requires AllDigits(ds)
  {
    if |ds| == 0 then 0 else DigitsValue(ds[..|ds| - 1]) * 10 + DigitValue(ds[|ds| - 1])
  }

  /** The integer part, `0` or digits not starting with `0`, and the text after it. */
  function ReadInt(t: string): (r: (string, string))
    requires |t| > 0 && IsDigit(t[0])
    ensures |r.0| > 0 && AllDigits(r.0) && |r.1| < |t|
  {
    var ds := if t[0] == '0' then "0" else DigitRun(t);
    (ds, t[|ds|..])
  }

  /** An optional `.` and digits: the digits (empty when absent) and the text after them. */
  function ReadFraction(t: string): (r: (string, string))
    ensures AllDigits(r.0) && |r.1| <= |t|
  {
    if |t| >= 2 && t[0] == '.' && IsDigit(t[1]) then
      var ds := DigitRun(t[1..]);
      (ds, t[1 + |ds|..])
    else ("", t)
  }

  /** An optional exponent `[eE][-+]?digits`: its value (0 when absent) and the text after it. */
  function ReadExponent(t: string): (r: (int, string))
    ensures |r.1| <= |t|
  {
    if |t| >= 2 && (t[0] == 'e' || t[0] == 'E') then
      var start := if t[1] == '+' || t[1] == '-' then 2 else 1;
      if |t| > start && IsDigit(t[start]) then
        var ds := DigitRun(t[start..]);
        var v: int := DigitsValue(ds);
        (if t[1] == '-' then -v else v, t[start + |ds|..])
      else (0, t)
    else (0, t)
  }

  /** An unsigned number at the head of `t`: its digits' value, its exponent and the text after it. */
  function ParseUnsigned(t: string): (r: Option<(nat, int, string)>)
    ensures r.Some? ==> |r.value.2| < |t|
  {
    if |t| == 0 || !IsDigit(t[0]) then None
    else
      var i := ReadInt(t);
      var f := ReadFraction(i.1);
      var e := ReadExponent(f.1);
      Some((DigitsValue(i.0 + f.0), e.0 - |f.0|, e.1))
  }

  /**
    A JSON number at the head of `s` (`-?(0|[1-9][0-9]*)(\.[0-9]+)?([eE][-+]?[0-9]+)?`),
    and the text after it.
  */
  function ParseNumber(s: string): (r: Result<(Decimal, string), string>)
    ensures r.Success? ==> |r.value.1| < |s|
  {
    var neg := |s| > 0 && s[0] == '-';
    match ParseUnsigned(if neg then s[1..] else s)
    case None => Failure("Expecting value")
    case Some((m, e, rest)) =>
      var magnitude: int := m;
      Success((Decimal(if neg then -magnitude else magnitude, e), rest))
  }

  /** The code unit of four hex digits. */
  function Hex4Value(s: string): (n: nat)
    requires |s| == 4 && IsHex(s[0]) && IsHex(s[1]) && IsHex(s[2]) && IsHex(s[3])
    ensures n < 0x10000
  {
    ((HexValue(s[0]) * 16 + HexValue(s[1])) * 16 + HexValue(s[2])) * 16 + HexValue(s[3])
  }

  predicate HexAt(s: string, i: nat)
  {
    i + 4 <= |s| && IsHex(s[i]) && IsHex(s[i + 1]) && IsHex(s[i + 2]) && IsHex(s[i + 3])
  }

  /**
    A `\u` escape at the head of `s` (just after the backslash and the
    `u`): one code unit, or a surrogate pair joined into one character.
    A lone surrogate is refused, since a string of characters cannot hold
    it; Python's `json.loads` keeps it in the resulting `str`.
  */
  function ParseUnicodeEscape(s: string): (r: Result<(char, nat), string>)
    ensures r.Success? ==> 4 <= r.value.1 <= |s|
  {
    if !HexAt(s, 0) then Failure("Invalid \\uXXXX escape")
    else
      var hi := Hex4Value(s[..4]);
      if 0xD800 <= hi < 0xDC00 then
        if |s| >= 10 && s[4] == '\\' && s[5] == 'u' && HexAt(s, 6) then
          var lo := Hex4Value(s[6..10]);
          if 0xDC00 <= lo < 0xE000 then
            Success(((0x10000 + (hi - 0xD800) * 0x400 + (lo - 0xDC00)) as char, 10))
          else Failure("Unpaired surrogate")
        else Failure("Unpaired surrogate")
      else if 0xDC00 <= hi < 0xE000 then Failure("Unpaired surrogate")
      else Success((hi as char, 4))
  }

  /** The rest of a string after its opening quote, appended to `acc`, and the text after the closing quote. */
  function ParseStringBody(s: string, acc: string): (r: Result<(string, string), string>)
    ensures r.Success? ==> |r.value.1| < |s|
    decreases |s|
  {
    if |s| == 0 then Failure("Unterminated string")
    else if s[0] == '"' then Success((acc, s[1..]))
    else if s[0] == '\\' then
      if |s| < 2 then Failure("Unterminated string")
      else if s[1] == 'u' then
        match ParseUnicodeEscape(s[2..])
        case Failure(e) => Failure(e)
        case Success((c, used)) => ParseStringBody(s[2 + used..], acc + [c])
      else
        var e := s[1];
        var c: char :=
          if e == '"' then '"' else if e == '\\' then '\\' else if e == '/' then '/'
          else if e == 'n' then 0x0A as char else if e == 'r' then 0x0D as char
          else if e == 't' then 0x09 as char else if e == 'b' then 0x08 as char
          else 0x0C as char;
        if e in "\"\\/nrtbf" then ParseStringBody(s[2..], acc + [c])
        else Failure("Invalid \\escape")
    else if (s[0] as int) < 0x20 then Failure("Invalid control character")
    else ParseStringBody(s[1..], acc + [s[0]])
  }

  /** A value at the head of `s`, and the text after it. */
  function ParseValue(s: string): (r: Result<(Json, string), string>)
    ensures r.Success? ==> |r.value.1| < |s|
    decreases |s|, 1
  {
    if |s| == 0 then Failure("Expecting value")
    else if s[0] == '"' then
      match ParseStringBody(s[1..], "")
      case Failure(e) => Failure(e)
      case Success((str, rest)) => Success((JString(str), rest))
    else if s[0] == '[' then
      var t := SkipWhitespace(s[1..]);
      if |t| > 0 && t[0] == ']' then Success((JArray([]), t[1..]))
      else ParseElements(t, [])
    else if s[0] == '{' then
      var t := SkipWhitespace(s[1..]);
      if |t| > 0 && t[0] == '}' then Success((JObject([]), t[1..]))
      else ParseMembers(t, [])
    else if |s| >= 4 && s[..4] == "null" then Success((JNull, s[4..]))
    else if |s| >= 4 && s[..4] == "true" then Success((JBool(true), s[4..]))
    else if |s| >= 5 && s[..5] == "false" then Success((JBool(false), s[5..]))
    else
      match ParseNumber(s)
      case Failure(e) => Failure(e)
      case Success((d, rest)) => Success((JNumber(d), rest))
  }

  /** The elements of an array from `s` on, after `acc`, up to the closing bracket. */
  function ParseElements(s: string, acc: seq<Json>): (r: Result<(Json, string), string>)
    ensures r.Success? ==> |r.value.1| < |s|
    decreases |s|, 2
  {
    match ParseValue(s)
    case Failure(e) => Failure(e)
    case Success((v, rest)) =>
      var t := SkipWhitespace(rest);
      if |t| > 0 && t[0] == ',' then ParseElements(SkipWhitespace(t[1..]), acc + [v])
      else if |t| > 0 && t[0] == ']' then Success((JArray(acc + [v]), t[1..]))
      else Failure("Expecting ',' delimiter")
  }

  /** The members of an object from `s` on, after `acc`, up to the closing brace. */
  function ParseMembers(s: string, acc: seq<(string, Json)>): (r: Result<(Json, string), string>)
    ensures r.Success? ==> |r.value.1| < |s|
    decreases |s|, 2
  {
    if |s| == 0 || s[0] != '"' then Failure("Expecting property name enclosed in double quotes")
    else
      match ParseStringBody(s[1..], "")
      case Failure(e) => Failure(e)
      case Success((key, afterKey)) =>
        var t := SkipWhitespace(afterKey);
        if |t| == 0 || t[0] != ':' then Failure("Expecting ':' delimiter")
        else
          match ParseValue(SkipWhitespace(t[1..]))
          case Failure(e) => Failure(e)
          case Success((v, rest)) =>
            var u := SkipWhitespace(rest);
            if |u| > 0 && u[0] == ',' then ParseMembers(SkipWhitespace(u[1..]), acc + [(key, v)])
            else if |u| > 0 && u[0] == '}' then Success((JObject(acc + [(key, v)]), u[1..]))
            else Failure("Expecting ',' delimiter")
  }

  /** `json.loads(text)`: one value, with only whitespace around it. */
  function Parse(text: string): (r: Result<Json, string>)
  {
    match ParseValue(SkipWhitespace(text))
    case Failure(e) => Failure(e)
    case Success((v, rest)) =>
      if |SkipWhitespace(rest)| == 0 then Success(v) else Failure("Extra data")
  }

  // ---------------------------------------------------------------------
  // Numbers read back

  lemma {:induction false} NatTextValue(n: nat)
    ensures DigitsValue(NatText(n)) == n
    decreases n
  {
    if n >= 10 {
      var t := NatText(n / 10) + [DigitChar(n % 10)];
      assert t[..|t| - 1] == NatText(n / 10);
      NatTextValue(n / 10);
    }
  }

  /** Only zero is written with a leading zero. */
  lemma {:induction false} NatTextLeading(n: nat)
    ensures NatText(n)[0] == '0' ==> n == 0 && |NatText(n)| == 1
    decreases n
  {
    if n >= 10 {
      NatTextLeading(n / 10);
    }
  }

  lemma {:induction false} ZerosValue(k: nat)
    ensures DigitsValue(Zeros(k)) == 0
  {
    if k > 0 {
      assert Zeros(k)[..k - 1] == Zeros(k - 1);
      ZerosValue(k - 1);
    }
  }

  lemma {:induction false} LeadingZerosValue(k: nat, ds: string)
    requires AllDigits(ds)
    ensures AllDigits(Zeros(k) + ds) && DigitsValue(Zeros(k) + ds) == DigitsValue(ds)
    decreases |ds|
  {
    var t := Zeros(k) + ds;
    if |ds| == 0 {
      assert t == Zeros(k);
      ZerosValue(k);
    } else {
      assert t[..|t| - 1] == Zeros(k) + ds[..|ds| - 1];
      LeadingZerosValue(k, ds[..|ds| - 1]);
    }
  }

  lemma {:induction false} DigitRunStops(ds: string, rest: string)
    requires AllDigits(ds) && (|rest| == 0 || !IsDigit(rest[0]))
    ensures DigitRun(ds + rest) == ds
    decreases |ds|
  {
    if |ds| == 0 {
      assert ds + rest == rest;
    } else {
      assert (ds + rest)[1..] == ds[1..] + rest;
      DigitRunStops(ds[1..], rest);
    }
  }

  /** What may follow a value inside the writer's text: nothing, or a separator or closing bracket. */
  predicate Delimited(rest: string)
  {
    |rest| == 0 || rest[0] == ',' || rest[0] == ']' || rest[0] == '}'
  }

  /** An integer part the writer produces: `0` alone, or digits without a leading zero. */
  lemma {:induction false} ReadIntOf(ds: string, rest: string)
    requires |ds| > 0 && AllDigits(ds) && (ds[0] != '0' || |ds| == 1)
    requires |rest| == 0 || !IsDigit(rest[0])
    ensures ReadInt(ds + rest) == (ds, rest)
  {
    DigitRunStops(ds, rest);
    if ds[0] == '0' {
      assert ds == "0";
    }
    assert (ds + rest)[|ds|..] == rest;
  }

  lemma {:induction false} ReadFractionOf(ds: string, rest: string)
    requires |ds| > 0 && AllDigits(ds) && (|rest| == 0 || !IsDigit(rest[0]))
    ensures ReadFraction("." + (ds + rest)) == (ds, rest)
  {
    var t := "." + (ds + rest);
    assert t[1..] == ds + rest;
    DigitRunStops(ds, rest);
    assert t[1 + |ds|..] == rest;
  }

  lemma {:induction false} ReadExponentOf(ds: string, rest: string)
    requires |ds| > 0 && AllDigits(ds) && Delimited(rest)
    ensures ReadExponent("e+" + (ds + rest)) == (DigitsValue(ds), rest)
  {
    var t := "e+" + (ds + rest);
    assert t[2..] == ds + rest;
    DigitRunStops(ds, rest);
    assert t[2 + |ds|..] == rest;
  }

  /** The unsigned reader, from what its three parts read. */
  lemma {:induction false} ParseUnsignedParts(t: string, i: (string, string), f: (string, string), e: (int, string))
    requires |t| > 0 && IsDigit(t[0])
    requires ReadInt(t) == i && ReadFraction(i.1) == f && ReadExponent(f.1) == e
    ensures AllDigits(i.0 + f.0)
    ensures ParseUnsigned(t) == Some((DigitsValue(i.0 + f.0), e.0 - |f.0|, e.1))
  {
  }

  /** The unsigned reader on a number with no exponent, from its integer and fraction parts. */
  lemma {:induction false} ParseUnsignedPlain(t: string, whole: string, tail: string, fraction: string, rest: string)
    requires |t| > 0 && IsDigit(t[0]) && Delimited(rest)
    requires ReadInt(t) == (whole, tail) && ReadFraction(tail) == (fraction, rest)
    ensures AllDigits(whole + fraction)
    ensures ParseUnsigned(t) == Some((DigitsValue(whole + fraction), -|fraction|, rest))
  {
    assert ReadExponent(rest) == (0, rest);
  }

  /** Digits without a leading zero, then what cannot continue them. */
  lemma {:induction false} WholeRoundTrip(ds: string, rest: string)
    requires |ds| > 0 && AllDigits(ds) && (ds[0] != '0' || |ds| == 1) && Delimited(rest)
    ensures ParseUnsigned(ds + rest) == Some((DigitsValue(ds), 0, rest))
  {
    ReadIntOf(ds, rest);
    assert ds + "" == ds;
    ParseUnsignedParts(ds + rest, (ds, rest), ("", rest), (0, rest));
  }

  /** Digits, `e+`, and the digits of a positive exponent. */
  lemma {:induction false} ExponentRoundTrip(ds: string, es: string, rest: string)
    requires |ds| > 0 && AllDigits(ds) && (ds[0] != '0' || |ds| == 1)
    requires |es| > 0 && AllDigits(es) && Delimited(rest)
    ensures ParseUnsigned((ds + ("e+" + es)) + rest) == Some((DigitsValue(ds), DigitsValue(es), rest))
  {
    var tail := "e+" + (es + rest);
    assert (ds + ("e+" + es)) + rest == ds + tail;
    ReadIntOf(ds, tail);
    ReadExponentOf(es, rest);
    assert ds + "" == ds;
    ParseUnsignedParts(ds + tail, (ds, tail), ("", tail), (DigitsValue(es), rest));
  }

  /** Digits, a point, and more digits. */
  lemma {:induction false} PointRoundTrip(d1: string, d2: string, all: string, rest: string)
    requires |d1| > 0 && AllDigits(d1) && (d1[0] != '0' || |d1| == 1)
    requires |d2| > 0 && AllDigits(d2) && Delimited(rest)
    requires all == d1 + d2
    ensures AllDigits(all)
    ensures ParseUnsigned((d1 + ("." + d2)) + rest) == Some((DigitsValue(all), -|d2|, rest))
  {
    var tail := "." + (d2 + rest);
    assert (d1 + ("." + d2)) + rest == d1 + tail;
    ReadIntOf(d1, tail);
    ReadFractionOf(d2, rest);
    ParseUnsignedParts(d1 + tail, (d1, tail), (d2, rest), (0, rest));
  }

  lemma {:induction false} SplitDigits(digits: string, k: int)
    requires 0 < k < |digits| && AllDigits(digits) && (digits[0] != '0' || |digits| == 1)
    ensures var d1 := digits[..|digits| - k]; var d2 := digits[|digits| - k..];
      && |d1| > 0 && AllDigits(d1) && (d1[0] != '0' || |d1| == 1)
      && |d2| == k && AllDigits(d2) && digits == d1 + d2
  {
    assert digits == digits[..|digits| - k] + digits[|digits| - k..];
  }

  lemma {:induction false} PadDigits(digits: string, k: int)
    requires 0 < |digits| <= k && AllDigits(digits)
    ensures var fraction := Zeros(k - |digits|) + digits;
      && |fraction| == k && AllDigits(fraction) && AllDigits("0" + fraction)
      && DigitsValue("0" + fraction) == DigitsValue(digits)
  {
    var fraction := Zeros(k - |digits|) + digits;
    LeadingZerosValue(k - |digits|, digits);
    assert "0" + fraction == Zeros(k - |digits| + 1) + digits by {
      assert "0" + Zeros(k - |digits|) == Zeros(k - |digits| + 1);
    }
    LeadingZerosValue(k - |digits| + 1, digits);
  }

  lemma {:induction false} UnsignedWholeRoundTrip(n: nat, rest: string)
    requires Delimited(rest)
    ensures ParseUnsigned(UnsignedText(n, 0) + rest) == Some((n, 0, rest))
  {
    NatTextValue(n);
    NatTextLeading(n);
    WholeRoundTrip(NatText(n), rest);
  }

  lemma {:induction false} UnsignedExponentRoundTrip(n: nat, exponent: int, rest: string)
    requires exponent > 0 && Delimited(rest)
    ensures ParseUnsigned(UnsignedText(n, exponent) + rest) == Some((n, exponent, rest))
  {
    NatTextValue(n);
    NatTextLeading(n);
    NatTextValue(exponent);
    ExponentRoundTrip(NatText(n), NatText(exponent), rest);
  }

  lemma {:induction false} UnsignedPointRoundTrip(n: nat, exponent: int, rest: string)
    requires exponent < 0 && |NatText(n)| > -exponent && Delimited(rest)
    ensures ParseUnsigned(UnsignedText(n, exponent) + rest) == Some((n, exponent, rest))
  {
    var digits := NatText(n);
    NatTextValue(n);
    NatTextLeading(n);
    SplitDigits(digits, -exponent);
    PointRoundTrip(digits[..|digits| + exponent], digits[|digits| + exponent..], digits, rest);
  }

  lemma {:induction false} UnsignedFractionRoundTrip(n: nat, exponent: int, rest: string)
    requires exponent < 0 && |NatText(n)| <= -exponent && Delimited(rest)
    ensures ParseUnsigned(UnsignedText(n, exponent) + rest) == Some((n, exponent, rest))
  {
    var digits := NatText(n);
    NatTextValue(n);
    PadDigits(digits, -exponent);
    var fraction := Zeros(-exponent - |digits|) + digits;
    PointRoundTrip("0", fraction, "0" + fraction, rest);
  }

  lemma {:induction false} UnsignedRoundTrip(n: nat, exponent: int, rest: string)
    requires Delimited(rest)
    ensures ParseUnsigned(UnsignedText(n, exponent) + rest) == Some((n, exponent, rest))
  {
    if exponent == 0 {
      UnsignedWholeRoundTrip(n, rest);
    } else if exponent > 0 {
      UnsignedExponentRoundTrip(n, exponent, rest);
    } else if |NatText(n)| > -exponent {
      UnsignedPointRoundTrip(n, exponent, rest);
    } else {
      UnsignedFractionRoundTrip(n, exponent, rest);
    }
  }

  lemma {:induction false} NegativeRoundTrip(u: string, m: nat, e: int, rest: string)
    requires ParseUnsigned(u + rest) == Some((m, e, rest))
    ensures ParseNumber(("-" + u) + rest) == Success((Decimal(-(m as int), e), rest))
  {
    assert ("-" + u) + rest == "-" + (u + rest);
    NegatedNumber(u + rest, m, e, rest);
  }

  lemma {:induction false} NegatedNumber(t: string, m: nat, e: int, rest: string)
    requires ParseUnsigned(t) == Some((m, e, rest))
    ensures ParseNumber("-" + t) == Success((Decimal(-(m as int), e), rest))
  {
    assert ("-" + t)[1..] == t;
  }

  lemma {:induction false} PositiveRoundTrip(t: string, m: nat, e: int, rest: string)
    requires ParseUnsigned(t) == Some((m, e, rest))
    ensures ParseNumber(t) == Success((Decimal(m, e), rest))
  {
  }

  /** The writer's number text reads back as the same number, whatever delimiter follows. */
  lemma {:induction false} NumberRoundTrip(d: Decimal, rest: string)
    requires Delimited(rest)
    ensures ParseNumber(NumberText(d) + rest) == Success((d, rest))
  {
    var u := UnsignedText(Abs(d.mantissa), d.exponent);
    UnsignedRoundTrip(Abs(d.mantissa), d.exponent, rest);
    if d.mantissa < 0 {
      NegativeRoundTrip(u, Abs(d.mantissa), d.exponent, rest);
    } else {
      PositiveRoundTrip(u + rest, Abs(d.mantissa), d.exponent, rest);
    }
  }

  // ---------------------------------------------------------------------
  // Strings read back

  lemma {:induction false} HexCharValue(d: nat)
    requires d < 16
    ensures IsHex(HexChar(d)) && HexValue(HexChar(d)) == d
  {
  }

  /** Four hex digits of the writer read back as the same code unit. */
  lemma {:induction false} Hex4RoundTrip(n: nat, rest: string)
    requires n < 0x10000
    ensures HexAt(Hex4(n) + rest, 0)
    ensures Hex4Value((Hex4(n) + rest)[..4]) == n
  {
    var t := Hex4(n) + rest;
    assert t[..4] == Hex4(n);
    HexCharValue(n / 4096);
    HexCharValue(n / 256 % 16);
    HexCharValue(n / 16 % 16);
    HexCharValue(n % 16);
    HexDigitsValue(n);
  }

  lemma {:induction false} HexDigitsValue(n: nat)
    requires n < 0x10000
    ensures ((n / 4096 * 16 + n / 256 % 16) * 16 + n / 16 % 16) * 16 + n % 16 == n
  {
    assert n / 4096 * 16 + n / 256 % 16 == n / 256;
    assert n / 256 * 16 + n / 16 % 16 == n / 16;
  }

  /** A `\uXXXX` escape of a character of the Basic Multilingual Plane. */
  lemma {:induction false} BmpEscapeRoundTrip(c: char, t: string, acc: string)
    requires c as int < 0x10000 && !(0x20 <= c as int <= 0x7E)
    requires c as int !in {0x0A, 0x0D, 0x09, 0x08, 0x0C}
    ensures ParseStringBody(EscapeChar(c) + t, acc) == ParseStringBody(t, acc + [c])
  {
    var n := c as int;
    assert EscapeChar(c) == "\\u" + Hex4(n);
    var s := ("\\u" + Hex4(n)) + t;
    assert s[2..] == Hex4(n) + t;
    Hex4RoundTrip(n, t);
    assert ParseUnicodeEscape(s[2..]) == Success((c, 4));
    assert s[6..] == t;
  }

  /** The two halves of a surrogate pair, read back as one character. */
  lemma {:induction false} SurrogatePairRoundTrip(c: char, t: string)
    requires c as int >= 0x10000
    ensures var v := c as int - 0x10000;
      ParseUnicodeEscape(Hex4(0xD800 + v / 0x400) + ("\\u" + (Hex4(0xDC00 + v % 0x400) + t))) == Success((c, 10))
  {
    var v := c as int - 0x10000;
    var hi := 0xD800 + v / 0x400;
    var lo := 0xDC00 + v % 0x400;
    var u := Hex4(hi) + ("\\u" + (Hex4(lo) + t));
    Hex4RoundTrip(hi, "\\u" + (Hex4(lo) + t));
    assert u[6..] == Hex4(lo) + t;
    Hex4RoundTrip(lo, t);
    assert u[6..10] == (Hex4(lo) + t)[..4];
    assert 0x10000 + (hi - 0xD800) * 0x400 + (lo - 0xDC00) == c as int;
  }

  /** A surrogate pair for a character beyond U+FFFF. */
  lemma {:induction false} AstralEscapeRoundTrip(c: char, t: string, acc: string)
    requires c as int >= 0x10000
    ensures ParseStringBody(EscapeChar(c) + t, acc) == ParseStringBody(t, acc + [c])
  {
    var v := c as int - 0x10000;
    var hi := Hex4(0xD800 + v / 0x400);
    var lo := Hex4(0xDC00 + v % 0x400);
    var s := EscapeChar(c) + t;
    assert s == "\\u" + (hi + ("\\u" + (lo + t)));
    SurrogatePairRoundTrip(c, t);
    assert s[2..] == hi + ("\\u" + (lo + t));
    assert s[12..] == t;
  }

  /** The seven two-character escapes. */
  lemma {:induction false} ShortEscapeRoundTrip(c: char, t: string, acc: string)
    requires c == '"' || c == '\\' || c as int in {0x0A, 0x0D, 0x09, 0x08, 0x0C}
    ensures ParseStringBody(EscapeChar(c) + t, acc) == ParseStringBody(t, acc + [c])
  {
    var s := EscapeChar(c) + t;
    assert |EscapeChar(c)| == 2;
    assert s[2..] == t;
  }

  /** Printable ASCII other than quote and backslash stands for itself. */
  lemma {:induction false} PlainCharRoundTrip(c: char, t: string, acc: string)
    requires 0x20 <= c as int <= 0x7E && c != '"' && c != '\\'
    ensures ParseStringBody(EscapeChar(c) + t, acc) == ParseStringBody(t, acc + [c])
  {
    assert ([c] + t)[1..] == t;
  }

  /** Reading one escaped character appends that character. */
  lemma {:induction false} EscapeCharRoundTrip(c: char, t: string, acc: string)
    ensures ParseStringBody(EscapeChar(c) + t, acc) == ParseStringBody(t, acc + [c])
  {
    var n := c as int;
    if c == '"' || c == '\\' || n == 0x0A || n == 0x0D || n == 0x09 || n == 0x08 || n == 0x0C {
      ShortEscapeRoundTrip(c, t, acc);
    } else if 0x20 <= n <= 0x7E {
      PlainCharRoundTrip(c, t, acc);
    } else if n < 0x10000 {
      BmpEscapeRoundTrip(c, t, acc);
    } else {
      AstralEscapeRoundTrip(c, t, acc);
    }
  }

  /** The writer's string body, then the closing quote, reads back as the same string. */
  lemma {:induction false} EscapeRoundTrip(s: string, rest: string, acc: string)
    ensures ParseStringBody(Escape(s) + ("\"" + rest), acc) == Success((acc + s, rest))
    decreases |s|
  {
    if |s| == 0 {
      ClosingQuote(rest, acc);
    } else {
      var tail := Escape(s[1..]) + ("\"" + rest);
      EscapeHead(s, "\"" + rest);
      EscapeCharRoundTrip(s[0], tail, acc);
      EscapeRoundTrip(s[1..], rest, acc + [s[0]]);
      AppendHead(acc, s);
    }
  }

  /** The escaped text of a non-empty string starts with its first character's escape. */
  lemma {:induction false} EscapeHead(s: string, after: string)
    requires |s| > 0
    ensures Escape(s) + after == EscapeChar(s[0]) + (Escape(s[1..]) + after)
  {
  }

  /** The closing quote ends the string. */
  lemma {:induction false} ClosingQuote(rest: string, acc: string)
    ensures ParseStringBody(Escape("") + ("\"" + rest), acc) == Success((acc + "", rest))
  {
    assert Escape("") + ("\"" + rest) == "\"" + rest;
    assert ("\"" + rest)[1..] == rest;
    assert acc + "" == acc;
  }

  // ---------------------------------------------------------------------
  // Values read back

  /** Text that opens a value: what the writer's output always starts with. */
  predicate StartsValue(s: string)
  {
    |s| > 0 && (s[0] == '"' || s[0] == '[' || s[0] == '{' || s[0] == 'n' || s[0] == 't'
                || s[0] == 'f' || s[0] == '-' || IsDigit(s[0]))
  }

  lemma {:induction false} StartsValueAppend(a: string, b: string)
    requires StartsValue(a)
    ensures StartsValue(a + b) && (a + b)[0] == a[0]
  {
  }

  lemma {:induction false} NumberTextStarts(d: Decimal)
    ensures |NumberText(d)| > 0
    ensures NumberText(d)[0] == '-' || IsDigit(NumberText(d)[0])
  {
    var digits := NatText(Abs(d.mantissa));
    assert |digits| > 0 && IsDigit(digits[0]);
    var u := UnsignedText(Abs(d.mantissa), d.exponent);
    assert |u| > 0 && IsDigit(u[0]);
  }

  lemma {:induction false} DumpStarts(j: Json)
    ensures StartsValue(Dump(j))
  {
    match j
    case JNumber(d) => NumberTextStarts(d);
    case _ =>
  }

  lemma {:induction false} DumpItemsStarts(items: seq<Json>)
    requires |items| > 0
    ensures StartsValue(DumpItems(items))
  {
    DumpStarts(items[0]);
    if |items| > 1 {
      StartsValueAppend(Dump(items[0]), ", " + DumpItems(items[1..]));
    }
  }

  lemma {:induction false} DumpMembersStarts(j: Json, i: nat)
    requires j.JObject? && i < |j.members|
    ensures DumpMembers(j, i)[0] == '"' && |DumpMembers(j, i)| > 0
  {
  }

  lemma {:induction false} NoSkip(s: string)
    requires |s| > 0 && !IsWhitespace(s[0])
    ensures SkipWhitespace(s) == s
  {
  }

  /** One space after a separator is skipped. */
  lemma {:induction false} SkipOneSpace(s: string)
    requires |s| > 0 && !IsWhitespace(s[0])
    ensures SkipWhitespace(" " + s) == s
  {
    assert (" " + s)[1..] == s;
  }

  lemma {:induction false} LiteralRoundTrip(j: Json, rest: string)
    requires j.JNull? || j.JBool?
    ensures ParseValue(Dump(j) + rest) == Success((j, rest))
  {
    if j.JNull? {
      NullRoundTrip(rest);
    } else if j.b {
      TrueRoundTrip(rest);
    } else {
      FalseRoundTrip(rest);
    }
  }

  lemma {:induction false} NullRoundTrip(rest: string)
    ensures ParseValue("null" + rest) == Success((JNull, rest))
  {
    var s := "null" + rest;
    assert s[0] == 'n' && s[..4] == "null" && s[4..] == rest;
  }

  lemma {:induction false} TrueRoundTrip(rest: string)
    ensures ParseValue("true" + rest) == Success((JBool(true), rest))
  {
    var s := "true" + rest;
    assert s[0] == 't' && s[..4] == "true" && s[4..] == rest;
  }

  lemma {:induction false} FalseRoundTrip(rest: string)
    ensures ParseValue("false" + rest) == Success((JBool(false), rest))
  {
    var s := "false" + rest;
    assert s[0] == 'f' && s[..4] == "fals" && s[..5] == "false" && s[5..] == rest;
  }

  lemma {:induction false} NumberValueRoundTrip(d: Decimal, rest: string)
    requires Delimited(rest)
    ensures ParseValue(Dump(JNumber(d)) + rest) == Success((JNumber(d), rest))
  {
    NumberTextStarts(d);
    NumberRoundTrip(d, rest);
    var s := NumberText(d) + rest;
    assert s[0] == NumberText(d)[0];
    NumberValue(s);
  }

  /** Text opening with a sign or a digit is read as a number. */
  lemma {:induction false} NumberValue(s: string)
    requires |s| > 0 && (s[0] == '-' || IsDigit(s[0]))
    ensures ParseNumber(s).Success? ==> ParseValue(s) == Success((JNumber(ParseNumber(s).value.0), ParseNumber(s).value.1))
  {
    NotLiteral(s);
  }

  /** Text that opens with a sign or a digit is not one of the three literals. */
  lemma {:induction false} NotLiteral(s: string)
    requires |s| > 0 && (s[0] == '-' || IsDigit(s[0]))
    ensures !(|s| >= 4 && s[..4] == "null") && !(|s| >= 4 && s[..4] == "true")
    ensures !(|s| >= 5 && s[..5] == "false")
  {
    if |s| >= 4 {
      assert s[..4][0] == s[0];
    }
    if |s| >= 5 {
      assert s[..5][0] == s[0];
    }
  }

  lemma {:induction false} StringValueRoundTrip(str: string, rest: string)
    ensures ParseValue(Dump(JString(str)) + rest) == Success((JString(str), rest))
  {
    var s := Quote(str) + rest;
    assert s[1..] == Escape(str) + ("\"" + rest);
    EscapeRoundTrip(str, rest, "");
    assert "" + str == str;
  }

  /** An empty array or object. */
  lemma {:induction false} EmptyRoundTrip(open: char, close: char, rest: string)
    requires (open == '[' && close == ']') || (open == '{' && close == '}')
    ensures ParseValue([open] + ([close] + rest))
      == Success((if open == '[' then JArray([]) else JObject([]), rest))
  {
    if open == '[' {
      EmptyArrayRoundTrip(rest);
    } else {
      EmptyObjectRoundTrip(rest);
    }
  }

  lemma {:induction false} EmptyArrayRoundTrip(rest: string)
    ensures ParseValue(['['] + ([']'] + rest)) == Success((JArray([]), rest))
  {
    var s := ['['] + ([']'] + rest);
    assert s[0] == '[' && s[1..] == [']'] + rest;
    assert s[1..][0] == ']' && s[1..][1..] == rest;
  }

  lemma {:induction false} EmptyObjectRoundTrip(rest: string)
    ensures ParseValue(['{'] + (['}'] + rest)) == Success((JObject([]), rest))
  {
    var s := ['{'] + (['}'] + rest);
    assert s[0] == '{' && s[1..] == ['}'] + rest;
    assert s[1..][0] == '}' && s[1..][1..] == rest;
  }

  /** An opening bracket before the first element. */
  lemma {:induction false} ArrayOpen(body: string)
    requires |body| > 0 && !IsWhitespace(body[0]) && body[0] != ']'
    ensures ParseValue("[" + body) == ParseElements(body, [])
  {
    assert ("[" + body)[1..] == body;
  }

  /** An opening brace before the first member. */
  lemma {:induction false} ObjectOpen(body: string)
    requires |body| > 0 && body[0] == '"'
    ensures ParseValue("{" + body) == ParseMembers(body, [])
  {
    var s := "{" + body;
    assert s[0] == '{' && s[1..] == body;
    NoSkip(body);
    assert !(|body| > 0 && body[0] == '}');
  }

  /** `[` after-text splits as the writer wrote it. */
  lemma {:induction false} ArrayText(j: Json, rest: string)
    requires j.JArray?
    ensures Dump(j) + rest == "[" + (DumpItems(j.items) + ("]" + rest))
  {
  }

  lemma {:induction false} ObjectText(j: Json, rest: string)
    requires j.JObject?
    ensures Dump(j) + rest == "{" + (DumpMembers(j, 0) + ("}" + rest))
  {
  }

  lemma {:induction false} ItemsText(items: seq<Json>, rest: string)
    requires |items| > 1
    ensures DumpItems(items) + ("]" + rest) == Dump(items[0]) + (", " + (DumpItems(items[1..]) + ("]" + rest)))
  {
  }

  /** Regrouping the text of one member followed by `z`. */
  lemma {:induction false} MemberAssoc(e: string, d: string, z: string)
    ensures (("\"" + (e + "\"")) + (": " + d)) + z == "\"" + (e + ("\"" + (": " + (d + z))))
  {
  }

  lemma {:induction false} SeparatedAssoc(x: string, d: string, r: string)
    ensures (x + (", " + d)) + r == x + (", " + (d + r))
  {
  }

  lemma {:induction false} LastMemberText(j: Json, i: nat, rest: string)
    requires j.JObject? && i + 1 == |j.members|
    ensures var m := j.members[i];
      DumpMembers(j, i) + ("}" + rest) == "\"" + (Escape(m.0) + ("\"" + (": " + (Dump(m.1) + ("}" + rest)))))
  {
    var m := j.members[i];
    MemberAssoc(Escape(m.0), Dump(m.1), "}" + rest);
  }

  lemma {:induction false} NextMemberText(j: Json, i: nat, rest: string)
    requires j.JObject? && i + 1 < |j.members|
    ensures var m := j.members[i];
      var tail := ", " + (DumpMembers(j, i + 1) + ("}" + rest));
      DumpMembers(j, i) + ("}" + rest) == "\"" + (Escape(m.0) + ("\"" + (": " + (Dump(m.1) + tail))))
  {
    var m := j.members[i];
    var text := Quote(m.0) + (": " + Dump(m.1));
    var d := DumpMembers(j, i + 1);
    assert DumpMembers(j, i) == text + (", " + d);
    SeparatedAssoc(text, d, "}" + rest);
    MemberAssoc(Escape(m.0), Dump(m.1), ", " + (d + ("}" + rest)));
  }

  /** A separator `", "` before the next element or member. */
  lemma {:induction false} SeparatorRoundTrip(next: string)
    requires |next| > 0 && !IsWhitespace(next[0])
    ensures SkipWhitespace((", " + next)[1..]) == next
  {
    assert (", " + next)[1..] == " " + next;
    SkipOneSpace(next);
  }

  /** One element, read given that its text reads back. */
  lemma {:induction false} ElementStep(text: string, v: Json, tail: string, acc: seq<Json>)
    requires StartsValue(text) && |tail| > 0 && (tail[0] == ',' || tail[0] == ']')
    requires ParseValue(text + tail) == Success((v, tail))
    ensures ParseElements(text + tail, acc)
      == if tail[0] == ']' then Success((JArray(acc + [v]), tail[1..]))
         else ParseElements(SkipWhitespace(tail[1..]), acc + [v])
  {
    NoSkip(tail);
    ElementsStep(text + tail, v, tail, acc);
  }

  /** One element read by `ParseElements`, from what its value reads. */
  lemma {:induction false} ElementsStep(s: string, v: Json, tail: string, acc: seq<Json>)
    requires ParseValue(s) == Success((v, tail)) && SkipWhitespace(tail) == tail
    requires |tail| > 0 && (tail[0] == ',' || tail[0] == ']')
    ensures ParseElements(s, acc)
      == if tail[0] == ']' then Success((JArray(acc + [v]), tail[1..]))
         else ParseElements(SkipWhitespace(tail[1..]), acc + [v])
  {
  }

  /** Any value the writer produces reads back, whatever delimiter follows it. */
  lemma {:induction false} ValueRoundTrip(j: Json, rest: string)
    requires Delimited(rest)
    ensures ParseValue(Dump(j) + rest) == Success((j, rest))
    decreases j, 1
  {
    match j
    case JNull => LiteralRoundTrip(j, rest);
    case JBool(_) => LiteralRoundTrip(j, rest);
    case JNumber(d) => NumberValueRoundTrip(d, rest);
    case JString(str) => StringValueRoundTrip(str, rest);
    case JArray(_) => ArrayRoundTrip(j, rest);
    case JObject(_) => ObjectRoundTrip(j, rest);
  }

  lemma {:induction false} ArrayRoundTrip(j: Json, rest: string)
    requires j.JArray? && Delimited(rest)
    ensures ParseValue(Dump(j) + rest) == Success((j, rest))
    decreases j, 0
  {
    var items := j.items;
    var body := DumpItems(items) + ("]" + rest);
    ArrayText(j, rest);
    if |items| == 0 {
      assert body == "]" + rest;
      EmptyRoundTrip('[', ']', rest);
    } else {
      DumpItemsStarts(items);
      StartsValueAppend(DumpItems(items), "]" + rest);
      assert !IsWhitespace(body[0]) && body[0] != ']';
      ArrayOpen(body);
      ElementsRoundTrip(items, [], rest);
      assert [] + items == items;
    }
  }

  lemma {:induction false} ObjectRoundTrip(j: Json, rest: string)
    requires j.JObject? && Delimited(rest)
    ensures ParseValue(Dump(j) + rest) == Success((j, rest))
    decreases j, 0, |j.members| + 1, 0
  {
    var body := DumpMembers(j, 0) + ("}" + rest);
    ObjectText(j, rest);
    if |j.members| == 0 {
      assert body == "}" + rest;
      EmptyRoundTrip('{', '}', rest);
    } else {
      DumpMembersStarts(j, 0);
      ObjectOpen(body);
      MembersRoundTrip(j, 0, rest);
      assert j.members[..0] == [];
    }
  }

  /** The separator before the remaining elements is skipped. */
  lemma {:induction false} ItemsSeparator(items: seq<Json>, rest: string)
    requires |items| > 0
    ensures SkipWhitespace((", " + (DumpItems(items) + ("]" + rest)))[1..]) == DumpItems(items) + ("]" + rest)
  {
    DumpItemsStarts(items);
    StartsValueAppend(DumpItems(items), "]" + rest);
    SeparatorRoundTrip(DumpItems(items) + ("]" + rest));
  }

  lemma {:induction false} PrefixStep<T>(s: seq<T>, i: nat)
    requires i < |s|
    ensures s[..i] + [s[i]] == s[..i + 1]
  {
  }

  lemma {:induction false} AppendHead<T>(acc: seq<T>, items: seq<T>)
    requires |items| > 0
    ensures (acc + [items[0]]) + items[1..] == acc + items
  {
    assert items == [items[0]] + items[1..];
  }

  /** Array elements from the first of `items` on, then the closing bracket. */
  lemma {:induction false} ElementsRoundTrip(items: seq<Json>, acc: seq<Json>, rest: string)
    requires |items| > 0 && Delimited(rest)
    ensures ParseElements(DumpItems(items) + ("]" + rest), acc) == Success((JArray(acc + items), rest))
    decreases items, 1
  {
    if |items| == 1 {
      LastElementRoundTrip(items, acc, rest);
    } else {
      NextElementRoundTrip(items, acc, rest);
    }
  }

  lemma {:induction false} LastElementRoundTrip(items: seq<Json>, acc: seq<Json>, rest: string)
    requires |items| == 1 && Delimited(rest)
    ensures ParseElements(DumpItems(items) + ("]" + rest), acc) == Success((JArray(acc + items), rest))
    decreases items, 0
  {
    var v := items[0];
    DumpStarts(v);
    ValueRoundTrip(v, "]" + rest);
    ElementStep(Dump(v), v, "]" + rest, acc);
    assert ("]" + rest)[1..] == rest;
    assert [v] == items;
  }

  lemma {:induction false} NextElementRoundTrip(items: seq<Json>, acc: seq<Json>, rest: string)
    requires |items| > 1 && Delimited(rest)
    ensures ParseElements(DumpItems(items) + ("]" + rest), acc) == Success((JArray(acc + items), rest))
    decreases items, 0
  {
    var v := items[0];
    var next := DumpItems(items[1..]) + ("]" + rest);
    var tail := ", " + next;
    DumpStarts(v);
    ItemsText(items, rest);
    ValueRoundTrip(v, tail);
    ElementStep(Dump(v), v, tail, acc);
    ItemsSeparator(items[1..], rest);
    ElementsRoundTrip(items[1..], acc + [v], rest);
    AppendHead(acc, items);
  }

  /** The quoted key of a member, read up to its closing quote. */
  lemma {:induction false} KeyRoundTrip(key: string, after: string)
    ensures ("\"" + (Escape(key) + ("\"" + after)))[1..] == Escape(key) + ("\"" + after)
    ensures ParseStringBody(Escape(key) + ("\"" + after), "") == Success((key, after))
  {
    EscapeRoundTrip(key, after, "");
    assert "" + key == key;
  }

  /** The text after a member's key: the colon, one space and the value. */
  lemma {:induction false} ColonRoundTrip(text: string, v: Json, tail: string)
    requires StartsValue(text) && ParseValue(text + tail) == Success((v, tail))
    ensures SkipWhitespace(": " + (text + tail)) == ": " + (text + tail)
    ensures ParseValue(SkipWhitespace((": " + (text + tail))[1..])) == Success((v, tail))
  {
    StartsValueAppend(text, tail);
    ColonSkip(text + tail);
  }

  lemma {:induction false} ColonSkip(value: string)
    requires |value| > 0 && !IsWhitespace(value[0])
    ensures SkipWhitespace(": " + value) == ": " + value
    ensures SkipWhitespace((": " + value)[1..]) == value
  {
    assert (": " + value)[1..] == " " + value;
    SkipOneSpace(value);
  }

  /** One member read by `ParseMembers`, from the pieces its parts read. */
  lemma {:induction false} MemberStep(s: string, key: string, after: string, v: Json, tail: string,
                                      acc: seq<(string, Json)>)
    requires |s| > 0 && s[0] == '"' && ParseStringBody(s[1..], "") == Success((key, after))
    requires SkipWhitespace(after) == after && |after| > 0 && after[0] == ':'
    requires ParseValue(SkipWhitespace(after[1..])) == Success((v, tail)) && SkipWhitespace(tail) == tail
    ensures |tail| > 0 && tail[0] == '}' ==> ParseMembers(s, acc) == Success((JObject(acc + [(key, v)]), tail[1..]))
    ensures |tail| > 0 && tail[0] == ',' ==>
      ParseMembers(s, acc) == ParseMembers(SkipWhitespace(tail[1..]), acc + [(key, v)])
  {
  }

  /** The last member `"key": value` and the closing brace, given that the value's text reads back. */
  lemma {:induction false} LastMemberStep(key: string, text: string, v: Json, tail: string, acc: seq<(string, Json)>)
    requires StartsValue(text) && |tail| > 0 && tail[0] == '}'
    requires ParseValue(text + tail) == Success((v, tail))
    ensures ParseMembers("\"" + (Escape(key) + ("\"" + (": " + (text + tail)))), acc)
      == Success((JObject(acc + [(key, v)]), tail[1..]))
  {
    var after := ": " + (text + tail);
    KeyRoundTrip(key, after);
    ColonRoundTrip(text, v, tail);
    NoSkip(tail);
    MemberStep("\"" + (Escape(key) + ("\"" + after)), key, after, v, tail, acc);
  }

  /** A member `"key": value` and the separator after it, given that the value's text reads back. */
  lemma {:induction false} NextMemberStep(key: string, text: string, v: Json, tail: string, acc: seq<(string, Json)>)
    requires StartsValue(text) && |tail| > 0 && tail[0] == ','
    requires ParseValue(text + tail) == Success((v, tail))
    ensures ParseMembers("\"" + (Escape(key) + ("\"" + (": " + (text + tail)))), acc)
      == ParseMembers(SkipWhitespace(tail[1..]), acc + [(key, v)])
  {
    var after := ": " + (text + tail);
    KeyRoundTrip(key, after);
    ColonRoundTrip(text, v, tail);
    NoSkip(tail);
    MemberStep("\"" + (Escape(key) + ("\"" + after)), key, after, v, tail, acc);
  }

  /** Object members from the `i`-th on, then the closing brace. */
  lemma {:induction false} MembersRoundTrip(j: Json, i: nat, rest: string)
    requires j.JObject? && i < |j.members| && Delimited(rest)
    ensures ParseMembers(DumpMembers(j, i) + ("}" + rest), j.members[..i]) == Success((j, rest))
    decreases j, 0, |j.members| - i, 1
  {
    if i + 1 == |j.members| {
      LastMemberRoundTrip(j, i, rest);
    } else {
      NextMemberRoundTrip(j, i, rest);
    }
  }

  lemma {:induction false} LastMemberRoundTrip(j: Json, i: nat, rest: string)
    requires j.JObject? && i + 1 == |j.members| && Delimited(rest)
    ensures ParseMembers(DumpMembers(j, i) + ("}" + rest), j.members[..i]) == Success((j, rest))
    decreases j, 0, |j.members| - i, 0
  {
    var ms := j.members;
    var v := ms[i].1;
    LastMemberText(j, i, rest);
    assert ms[i] in ms;
    ValueRoundTrip(v, "}" + rest);
    DumpStarts(v);
    LastMemberStep(ms[i].0, Dump(v), v, "}" + rest, ms[..i]);
    assert ("}" + rest)[1..] == rest;
    PrefixStep(ms, i);
    assert ms[..i + 1] == ms;
  }

  lemma {:induction false} NextMemberRoundTrip(j: Json, i: nat, rest: string)
    requires j.JObject? && i + 1 < |j.members| && Delimited(rest)
    ensures ParseMembers(DumpMembers(j, i) + ("}" + rest), j.members[..i]) == Success((j, rest))
    decreases j, 0, |j.members| - i, 0
  {
    var ms := j.members;
    var v := ms[i].1;
    var next := DumpMembers(j, i + 1) + ("}" + rest);
    var tail := ", " + next;
    NextMemberText(j, i, rest);
    assert ms[i] in ms;
    ValueRoundTrip(v, tail);
    DumpStarts(v);
    NextMemberStep(ms[i].0, Dump(v), v, tail, ms[..i]);
    DumpMembersStarts(j, i + 1);
    SeparatorRoundTrip(next);
    MembersRoundTrip(j, i + 1, rest);
    PrefixStep(ms, i);
  }

  /** `json.loads(json.dumps(j)) == j`. */
  lemma {:induction false} ParseDump(j: Json)
    ensures Parse(Dump(j)) == Success(j)
  {
    DumpStarts(j);
    NoSkip(Dump(j));
    ValueRoundTrip(j, "");
    assert Dump(j) + "" == Dump(j);
  }
}
