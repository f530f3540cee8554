/**
 * Parsed JSON values as the server code sees them after `JSON.parse`, together with the
 * two JavaScript coercions the model needs: truthiness (`if (x)`) and `Number(x)`.
 * Numbers are exact reals; `JSON.parse` itself is not modelled and appears wherever it is
 * used as a partial function parameter `string -> Option<Json>`.
 */
module Json {
  import opened Wrappers
  import opened Strings
  import opened Scanners

  datatype Json =
    | JNull
    | JBool(b: bool)
    | JNum(num: real)
    | JStr(str: string)
    | JArr(items: seq<Json>)
    | JObj(fields: map<string, Json>)

  /** JavaScript truthiness of a property read; `None` stands for `undefined`. */
  predicate Truthy(v: Option<Json>) {
    match v
    case None => false
    case Some(JNull) => false
    case Some(JBool(b)) => b
    case Some(JNum(n)) => n != 0.0
    case Some(JStr(s)) => s != []
    case Some(_) => true
  }

  /** `obj[key]` on a parsed value: a field of an object, `undefined` for everything else. */
  function Get(j: Json, key: string): (r: Option<Json>)
    ensures r.Some? <==> j.JObj? && key in j.fields
  {
    if j.JObj? && key in j.fields then Some(j.fields[key]) else None
  }

  // ---------------------------------------------------------------- Number(x)

  function Pow10(k: nat): (r: nat)
    ensures r >= 1
  {
    if k == 0 then 1 else 10 * Pow10(k - 1)
  }

  /** Drops leading and trailing whitespace, as `Number` does before reading a literal. */
  function Trim(s: string): (r: string)
    ensures |r| <= |s|
    ensures r != [] ==> !IsSpace(r[0]) && !IsSpace(r[|r| - 1])
    decreases |s|
  {
    if s == [] then []
    else if IsSpace(s[0]) then Trim(s[1..])
    else if IsSpace(s[|s| - 1]) then Trim(s[..|s| - 1])
    else s
  }

  /** An unsigned decimal literal: digits, optionally a point and more digits, at least one digit in all. */
  function UnsignedDecimal(t: string): (r: Option<real>)
    ensures r.Some? ==> r.value >= 0.0
  {
    var n := DigitRun(t);
    var rest := t[n..];
    if rest == [] then
      if n > 0 then Some(DecimalValue(t[..n]) as real) else None
    else if rest[0] == '.' && DigitRun(rest[1..]) == |rest| - 1 && n + |rest| - 1 > 0 then
      var frac := rest[1..];
      Some(DecimalValue(t[..n]) as real + DecimalValue(frac) as real / Pow10(|frac|) as real)
    else None
  }

  /**
   * `Number(s)` for a string: whitespace-only text is 0; otherwise an optional sign and a
   * decimal literal; anything else is NaN (`None`).
   */
  function StringToNumber(s: string): Option<real> {
    var t := Trim(s);
    if t == [] then Some(0.0)
    else if t[0] == '-' then
      match UnsignedDecimal(t[1..])
      case Some(v) => Some(-v)
      case None => None
    else if t[0] == '+' then UnsignedDecimal(t[1..])
    else UnsignedDecimal(t)
  }

  /**
   * `Number(String(x))` for an element of an array being converted: `null` prints as the
   * empty string, a boolean as a word, a nested array as its comma-joined elements.
   */
  function ElementToNumber(x: Json): Option<real> {
    match x
    case JNull => Some(0.0)
    case JBool(_) => None
    case JNum(n) => Some(n)
    case JStr(s) => StringToNumber(s)
    case JArr(items) =>
      if |items| == 0 then Some(0.0)
      else if |items| == 1 then ElementToNumber(items[0])
      else None
    case JObj(_) => None
  }

  /** `Number(x)` for a parsed value; `None` stands for NaN. */
  function ToNumber(j: Json): Option<real> {
    match j
    case JNull => Some(0.0)
    case JBool(b) => Some(if b then 1.0 else 0.0)
    case JNum(n) => Some(n)
    case JStr(s) => StringToNumber(s)
    case JArr(_) => ElementToNumber(j)
    case JObj(_) => None
  }

  /** `String(n)` of a whole number is read back as that number. */
  lemma {:induction false} NumberOfDecimalString(n: nat)
    ensures StringToNumber(DecimalString(n)) == Some(n as real)
  {
    var s := DecimalString(n);
    assert !IsSpace(s[0]) && !IsSpace(s[|s| - 1]);
    assert Trim(s) == s;
    DigitRunOfDigits(s);
    assert s[..|s|] == s;
    DecimalRoundTrip(n);
  }

  lemma {:induction false} DigitRunOfDigits(s: string)
    requires forall i :: 0 <= i < |s| ==> IsDigit(s[i])
    ensures DigitRun(s) == |s|
    decreases |s|
  {
    if s != [] {
      DigitRunOfDigits(s[1..]);
    }
  }

  /** `Number(x) || 0`: NaN and zero both become 0. */
  function OrZero(v: Option<real>): real {
    match v
    case None => 0.0
    case Some(n) => n
  }

  /** `Math.max(0, Math.min(100, v))`. */
  function Clamp(v: real): (r: real)
    ensures 0.0 <= r <= 100.0
    ensures 0.0 <= v <= 100.0 ==> r == v
    ensures v < 0.0 ==> r == 0.0
    ensures v > 100.0 ==> r == 100.0
  {
    if v > 100.0 then 100.0 else if v < 0.0 then 0.0 else v
  }

  /** The normalised value of one score field: `Math.max(0, Math.min(100, Number(x) || 0))`. */
  function ScoreOf(j: Json): (r: real)
    ensures 0.0 <= r <= 100.0
  {
    Clamp(OrZero(ToNumber(j)))
  }

  /**
   * Scores are clamped, never rounded: a number inside [0, 100] is kept exactly, values
   * outside are pulled to the nearer bound, anything that is not a number becomes 0, and
   * normalising an already normalised score changes nothing.
   */
  lemma ScoreOfFacts(j: Json)
    ensures j.JNum? && 0.0 <= j.num <= 100.0 ==> ScoreOf(j) == j.num
    ensures j.JNum? && j.num < 0.0 ==> ScoreOf(j) == 0.0
    ensures j.JNum? && j.num > 100.0 ==> ScoreOf(j) == 100.0
    ensures ToNumber(j).None? ==> ScoreOf(j) == 0.0
    ensures ScoreOf(JNum(ScoreOf(j))) == ScoreOf(j)
  {
  }

  /** Textual scores count too: `"85"` normalises to 85, `"250"` to 100. */
  lemma ScoreOfDecimalString(n: nat)
    ensures n <= 100 ==> ScoreOf(JStr(DecimalString(n))) == n as real
    ensures n > 100 ==> ScoreOf(JStr(DecimalString(n))) == 100.0
  {
    NumberOfDecimalString(n);
  }
}
