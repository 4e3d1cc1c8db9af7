/**
 * Python values as `json.loads` produces them, and the few Python built-ins
 * the bot applies to them: `dict.get`, truth testing, hashing and `str()`.
 */
module JsonValue {

  datatype Option<T> = None | Some(value: T)

  /**
   * A decoded JSON document. Python's `None` and JSON `null` are the same
   * value, `JNull`. Floating-point numbers are not modelled.
   */
  datatype Json =
    | JNull
    | JBool(b: bool)
    | JInt(i: int)
    | JStr(s: string)
    | JList(items: seq<Json>)
    | JObject(fields: map<string, Json>)

  /** `d.get(key)`: the value stored under `key`, or `None` when there is none. */
  function Get(fields: map<string, Json>, key: string): Json
  {
    if key in fields then fields[key] else JNull
  }

  /** Python truth testing: `None`, `False`, `0` and empty containers are false. */
  predicate Truthy(v: Json)
  {
    match v
    case JNull => false
    case JBool(b) => b
    case JInt(i) => i != 0
    case JStr(s) => s != ""
    case JList(items) => items != []
    case JObject(fields) => fields != map[]
  }

  /** Lists and dicts are unhashable; every other value can be a dict key. */
  predicate Hashable(v: Json)
  {
    !v.JList? && !v.JObject?
  }

  /** `type(v).__name__` */
  function TypeName(v: Json): string
  {
    match v
    case JNull => "NoneType"
    case JBool(_) => "bool"
    case JInt(_) => "int"
    case JStr(_) => "str"
    case JList(_) => "list"
    case JObject(_) => "dict"
  }

  predicate IsDigit(c: char)
  {
    '0' <= c <= '9'
  }

  predicate AllDigits(s: string)
  {
    forall k :: 0 <= k < |s| ==> IsDigit(s[k])
  }

  function DigitChar(d: nat): char
    requires d < 10
  {
    ['0', '1', '2', '3', '4', '5', '6', '7', '8', '9'][d]
  }

  function DigitValue(c: char): nat
  {
    if IsDigit(c) then (c as int) - ('0' as int) else 0
  }

  /** The decimal numeral of `n`, as `str(n)` writes it: digits only, no leading zero. */
  function NatToDecimal(n: nat): (s: string)
    ensures |s| > 0 && AllDigits(s)
    ensures s[0] == '0' ==> n == 0 && |s| == 1
    decreases n
  {
    if n < 10 then [DigitChar(n)] else NatToDecimal(n / 10) + [DigitChar(n % 10)]
  }

  /** The number a string of decimal digits denotes, most significant digit first. */
  function DecimalValue(s: string): nat
    decreases |s|
  {
    if s == [] then 0 else DecimalValue(s[..|s| - 1]) * 10 + DigitValue(s[|s| - 1])
  }

  /** Reading back the numeral `str(n)` gives `n` again. */
  lemma {:induction false} DecimalRoundTrip(n: nat)
    ensures DecimalValue(NatToDecimal(n)) == n
    decreases n
  {
    var s := NatToDecimal(n);
    if n >= 10 {
      var prefix := NatToDecimal(n / 10);
      DecimalRoundTrip(n / 10);
      assert s[..|s| - 1] == prefix;
      assert DigitValue(s[|s| - 1]) == n % 10;
    } else {
      assert DigitValue(s[0]) == n;
    }
  }

  /** `str(i)` for a Python int: an optional minus sign, then the decimal numeral of |i|. */
  function IntToDecimal(i: int): (s: string)
    ensures i >= 0 ==> |s| > 0 && AllDigits(s) && DecimalValue(s) == i
    ensures i < 0 ==> |s| >= 2 && s[0] == '-' && AllDigits(s[1..]) && DecimalValue(s[1..]) == -i
    ensures i >= 0 ==> (s[0] == '0' ==> s == "0")
    ensures i < 0 ==> s[1] != '0'
  {
    if i < 0 then
      var digits := NatToDecimal(-i);
      DecimalRoundTrip(-i);
      assert ("-" + digits)[1..] == digits;
      "-" + digits
    else
      DecimalRoundTrip(i);
      NatToDecimal(i)
  }

  /**
   * `str(v)` as an f-string renders a value. Strings render as themselves,
   * `None`, `True`, `False` and ints as Python spells them; a list or a dict
   * renders as a fixed placeholder, since Python's `repr` is not modelled.
   */
  function Str(v: Json): string
  {
    match v
    case JNull => "None"
    case JBool(b) => if b then "True" else "False"
    case JInt(i) => IntToDecimal(i)
    case JStr(s) => s
    case JList(_) => "[...]"
    case JObject(_) => "{...}"
  }
}
