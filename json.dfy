/**
 * The JSON values the updater reads from `component-data.json` and writes to the
 * database, with the few JavaScript operations applied to them: truthiness, property
 * reads, `Object.values`, object spread, and the conversion of a value to a property
 * name. Numbers are integers.
 */
module Json {
  import opened Wrappers
  import opened JsObject

  datatype Json =
    | JNull
    | JBool(b: bool)
    | JNum(n: int)
    | JStr(s: string)
    | JArr(items: seq<Json>)
    | JObj(props: Object<Json>)

  /** A value, or `undefined` (`None`). */
  type Value = Option<Json>

  /** Whether `v` counts as true in a condition or before `||`. */
  predicate Truthy(v: Value) {
    match v
    case None => false
    case Some(JNull) => false
    case Some(JBool(b)) => b
    case Some(JNum(n)) => n != 0
    case Some(JStr(s)) => s != ""
    case Some(_) => true
  }

  /** `x.k` on a value that is not `null`: the property of an object, `undefined` for
      anything else. */
  function Field(x: Json, k: string): Value {
    if x.JObj? then Get(x.props, k) else None
  }

  /** `Object.values(v)`: an object's property values in order, an array's elements, a
      string's characters, nothing for a number or a boolean; `None` when it throws a
      `TypeError`, which it does exactly for `null` and `undefined`. */
  function ObjectValues(v: Value): (r: Option<seq<Json>>)
    ensures r.None? <==> v.None? || v == Some(JNull)
    ensures v.Some? && v.value.JObj? ==> r == Some(Values(v.value.props))
  {
    match v
    case None => None
    case Some(JNull) => None
    case Some(JObj(o)) => Some(Values(o))
    case Some(JArr(items)) => Some(items)
    case Some(JStr(s)) => Some(seq(|s|, i requires 0 <= i < |s| => JStr([s[i]])))
    case Some(_) => Some([])
  }

  /** The properties `{ ...v }` copies: an object's own properties; nothing from
      `undefined`, `null`, numbers or booleans. Strings and arrays are not modelled here. */
  function Spread(v: Value): Object<Json> {
    if v.Some? && v.value.JObj? then v.value.props else []
  }

  /** The decimal text of an integer, as `String(n)` writes it. */
  function Decimal(n: int): (r: string)
    ensures |r| > 0
    decreases if n < 0 then 1 - n else n
  {
    if n < 0 then "-" + Decimal(-n)
    else if n < 10 then [Digit(n)]
    else Decimal(n / 10) + [Digit(n % 10)]
  }

  function Digit(d: int): (c: char)
    requires 0 <= d < 10
    ensures '0' <= c <= '9'
  {
    (48 + d) as char
  }

  /** `Number(s)` on the texts `Decimal` writes: an optional `-` and decimal digits. */
  function Number(s: string): int {
    if |s| > 0 && s[0] == '-' then -Digits(s[1..]) else Digits(s)
  }

  function Digits(s: string): int {
    if |s| == 0 then 0 else Digits(s[..|s| - 1]) * 10 + (s[|s| - 1] as int - 48)
  }

  /** The decimal text of a natural number starts with a digit. */
  lemma {:induction false} DecimalStartsWithDigit(n: int)
    requires n >= 0
    ensures '0' <= Decimal(n)[0] <= '9'
    decreases n
  {
    if n >= 10 {
      DecimalStartsWithDigit(n / 10);
    }
  }

  /** The digits of a natural number read back as that number. */
  lemma {:induction false} DigitsOfDecimal(n: int)
    requires n >= 0
    ensures Digits(Decimal(n)) == n
    decreases n
  {
    if n < 10 {
      assert Decimal(n)[..0] == [];
    } else {
      var prefix := Decimal(n / 10);
      assert (prefix + [Digit(n % 10)])[..|prefix|] == prefix;
      DigitsOfDecimal(n / 10);
    }
  }

  /** `Number(String(n)) === n` for every integer. */
  lemma DecimalRoundTrip(n: int)
    ensures Number(Decimal(n)) == n
  {
    if n < 0 {
      assert Decimal(n)[1..] == Decimal(-n);
      DigitsOfDecimal(-n);
    } else {
      DecimalStartsWithDigit(n);
      DigitsOfDecimal(n);
    }
  }

  /** Different numbers have different decimal texts, so numeric ids name different
      properties. */
  lemma DecimalInjective(a: int, b: int)
    requires Decimal(a) == Decimal(b)
    ensures a == b
  {
    DecimalRoundTrip(a);
    DecimalRoundTrip(b);
  }

  /** `String(v)`, the property name `acc[v] = ...` uses. Arrays join their elements with
      commas, writing `null` and `undefined` as nothing. */
  function PropertyName(v: Value): string {
    match v
    case None => "undefined"
    case Some(x) => NameOf(x)
  }

  function NameOf(x: Json): string
    decreases x
  {
    match x
    case JNull => "null"
    case JBool(b) => if b then "true" else "false"
    case JNum(n) => Decimal(n)
    case JStr(s) => s
    case JArr(items) => Join(items)
    case JObj(_) => "[object Object]"
  }

  function Join(items: seq<Json>): string
    decreases items
  {
    if |items| == 0 then ""
    else
      var last := items[|items| - 1];
      assert last in items;
      var name := if last.JNull? then "" else NameOf(last);
      if |items| == 1 then name else Join(items[..|items| - 1]) + "," + name
  }

  /** A string names itself, a number its decimal text, so a number and its own text
      name the same property. */
  lemma PropertyNameOfScalar(s: string, n: int)
    ensures PropertyName(Some(JStr(s))) == s
    ensures PropertyName(Some(JNum(n))) == Decimal(n)
    ensures PropertyName(Some(JStr(Decimal(n)))) == PropertyName(Some(JNum(n)))
  {
  }

  /** Naming examples: strings name themselves, numbers by their decimal text, an
      absent id is the name `undefined`. */
  lemma PropertyNames()
    ensures PropertyName(Some(JStr("button"))) == "button"
    ensures PropertyName(Some(JNum(-42))) == "-42"
    ensures PropertyName(None) == "undefined"
    ensures PropertyName(Some(JArr([JNum(1), JNull, JStr("a")]))) == "1,,a"
  {
    assert Decimal(42) == Decimal(4) + [Digit(2)];
    assert [JNum(1), JNull, JStr("a")][..2] == [JNum(1), JNull];
    assert [JNum(1), JNull][..1] == [JNum(1)];
    assert Join([JNum(1)]) == "1" by {
      assert Decimal(1) == [Digit(1)];
    }
    assert Join([JNum(1), JNull]) == "1,";
    assert Join([JNum(1), JNull, JStr("a")]) == "1,,a";
  }
}
