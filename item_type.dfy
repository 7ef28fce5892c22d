/**
  The four commodities of the market, their wire names, and the
  case-insensitive parser that turns a name into a commodity.
*/
module ItemTypes {
  import opened Wrappers
  import opened Errors

  /** The commodities, in declaration order. */
  datatype ItemType = Flower | Sugar | Potato | Oil

  /** Every commodity once, in declaration order (the order of `for t in ItemType`). */
  const AllTypes: seq<ItemType> := [Flower, Sugar, Potato, Oil]

  /** The lower-case wire name of a commodity. */
  function Value(t: ItemType): string
  {
    match t
    case Flower => "flower"
    case Sugar => "sugar"
    case Potato => "potato"
    case Oil => "oil"
  }

  /** The commodity whose wire name is exactly `v`, if any (`ItemType(v)`). */
  function FromValue(v: string): (r: Option<ItemType>)
    ensures r.Some? ==> Value(r.value) == v
    ensures (exists t :: Value(t) == v) ==> r.Some?
  {
    if v == "flower" then Some(Flower)
    else if v == "sugar" then Some(Sugar)
    else if v == "potato" then Some(Potato)
    else if v == "oil" then Some(Oil)
    else None
  }

  /** ASCII lower-casing of one character. */
  function LowerChar(c: char): char
  {
    if 'A' <= c <= 'Z' then (c as int + 32) as char else c
  }

  /** ASCII lower-casing of a string (`str.lower()` restricted to ASCII). */
  function Lower(s: string): (r: string)
    ensures |r| == |s|
    ensures forall i :: 0 <= i < |s| ==> r[i] == LowerChar(s[i])
  {
    seq(|s|, i requires 0 <= i < |s| => LowerChar(s[i]))
  }

  /** The wire names of `ts` joined by ", ". */
  function JoinValues(ts: seq<ItemType>): string
  {
    if |ts| == 0 then ""
    else if |ts| == 1 then Value(ts[0])
    else Value(ts[0]) + ", " + JoinValues(ts[1..])
  }

  /** The error message of a failed parse. */
  function InvalidTypeMessage(s: string): string
  {
    "Invalid item type: " + s + ". Valid types are: " + JoinValues(AllTypes)
  }

  /** `ItemType.from_string`: look up the lower-cased text among the wire names. */
  function FromString(s: string): (r: Result<ItemType, PyError>)
    ensures r.Success? <==> exists t :: Value(t) == Lower(s)
    ensures r.Success? ==> Value(r.value) == Lower(s)
    ensures r.Failure? ==> r.error == ValueError(InvalidTypeMessage(s))
  {
    match FromValue(Lower(s))
    case Some(t) => Success(t)
    case None => Failure(ValueError(InvalidTypeMessage(s)))
  }

  /** Every commodity appears in AllTypes exactly once. */
  lemma AllTypesComplete()
    ensures forall t :: t in AllTypes
    ensures forall i, j :: 0 <= i < j < |AllTypes| ==> AllTypes[i] != AllTypes[j]
  {
    forall t ensures t in AllTypes {
      match t
      case Flower => assert AllTypes[0] == t;
      case Sugar => assert AllTypes[1] == t;
      case Potato => assert AllTypes[2] == t;
      case Oil => assert AllTypes[3] == t;
    }
  }

  /** Wire names are distinct. */
  lemma ValueInjective(a: ItemType, b: ItemType)
    ensures Value(a) == Value(b) ==> a == b
  {
    if a != b {
      assert Value(a)[0] != Value(b)[0] || |Value(a)| != |Value(b)|;
    }
  }

  /** Wire names are distinct and each parses back to its commodity. */
  lemma ValuesRoundTrip()
    ensures forall t, u :: Value(t) == Value(u) ==> t == u
    ensures forall t :: FromString(Value(t)) == Success(t)
  {
    forall t, u ensures Value(t) == Value(u) ==> t == u { ValueInjective(t, u); }
    forall t ensures FromString(Value(t)) == Success(t) { FromStringValue(t); }
  }

  /** The error message lists the wire names in declaration order. */
  lemma ValidTypesListed()
    ensures JoinValues(AllTypes) == "flower, sugar, potato, oil"
  {
    assert AllTypes[1..] == [Sugar, Potato, Oil];
    assert AllTypes[1..][1..] == [Potato, Oil];
    assert AllTypes[1..][1..][1..] == [Oil];
  }

  /** Wire names are already lower case. */
  lemma ValueIsLower(t: ItemType)
    ensures Lower(Value(t)) == Value(t)
  {
    var v := Value(t);
    assert forall i :: 0 <= i < |v| ==> !('A' <= v[i] <= 'Z');
  }

  /** Parsing a wire name gives back its commodity. */
  lemma FromStringValue(t: ItemType)
    ensures FromString(Value(t)) == Success(t)
  {
    ValueIsLower(t);
    ValueInjective(t, FromString(Value(t)).value);
  }

  /**
    The parse depends only on the lower-cased text: two spellings that
    lower-case alike are both accepted with the same commodity, or both
    refused (each refusal quoting its own spelling).
  */
  lemma FromStringCaseInsensitive(s: string, s': string)
    requires Lower(s) == Lower(s')
    ensures FromString(s).Success? <==> FromString(s').Success?
    ensures FromString(s).Success? ==> FromString(s).value == FromString(s').value
  {
  }

  /** An upper-case spelling of a wire name is accepted. */
  lemma UpperCaseAccepted()
    ensures FromString("FLOWER") == Success(Flower)
    ensures FromString("Sugar") == Success(Sugar)
  {
    assert Lower("FLOWER") == "flower";
    assert Lower("Sugar") == "sugar";
  }
}
