/** PHP values as the repository façade sees them, PHP 8 loose equality
    between an array key and a value, and `in_array` with its default
    (non-strict) comparison. */
module Values {

  datatype Option<T> = None | Some(value: T)

  /** How a call on the façade can fail. The PHP class of the failure is
      collapsed where the façade does not distinguish it. */
  datatype Error =
    | ResourceNotDefined     // the entities container has no current entity
    | ResourceNotFound       // a named lookup in the entities container missed
    | InvalidCallbackReturn  // a callback returned neither a Model nor a Builder
    | NullEntity             // a call on the current entity while it is still null
    | TypeError              // a value is not a Model, or not callable, where PHP demands one

  datatype Result<T> = Ok(value: T) | Err(error: Error)

  /** A scalar PHP value stored in a record attribute or an insert bag. */
  datatype Val = Null | Bool(b: bool) | Int(i: int) | Str(s: string)

  /** `Traits\Operations::hasValues` on an array: the array holds something. */
  predicate HasValues<T>(s: seq<T>) {
    |s| > 0
  }

  /** PHP truthiness of a string: everything except "" and "0". */
  predicate StringTruthy(s: string) {
    s != "" && s != "0"
  }

  predicate IsDigit(c: char) {
    '0' <= c <= '9'
  }

  predicate AllDigits(s: string) {
    forall i :: 0 <= i < |s| ==> IsDigit(s[i])
  }

  /** The string without one leading sign character. */
  function Unsigned(s: string): (d: string)
    ensures |d| <= |s|
  {
    if |s| > 0 && (s[0] == '-' || s[0] == '+') then s[1..] else s
  }

  /** Integer numeric strings: an optional sign followed by decimal digits. */
  predicate IsNumericString(s: string)
    ensures IsNumericString(s) ==> |s| > 0 && IsDigit(s[|s| - 1])
    ensures IsNumericString(s) ==> IsDigit(s[0]) || s[0] == '-' || s[0] == '+'
    ensures IsNumericString(s) ==> forall i :: 0 < i < |s| ==> IsDigit(s[i])
  {
    var d := Unsigned(s);
    |d| > 0 && AllDigits(d)
  }

  function DigitsValue(d: string): (n: nat)
    requires AllDigits(d)
    ensures d == [] ==> n == 0
    decreases |d|
  {
    if d == [] then 0
    else 10 * DigitsValue(d[..|d| - 1]) + (d[|d| - 1] as int - '0' as int)
  }

  /** The integer a numeric string denotes. */
  function NumericValue(s: string): int
    requires IsNumericString(s)
  {
    var magnitude: int := DigitsValue(Unsigned(s));
    if s[0] == '-' then -magnitude else magnitude
  }

  /** PHP 8 `$key == $v` for an array key. PHP stores a key written as a
      canonical decimal integer ("0", "5", "-3", but not "05" or "+5") as
      that integer; against a scalar this changes the answer only for "0",
      which as the integer 0 equals null. So: two numeric strings and a
      numeric string against an integer compare as numbers, a boolean
      compares against the key's truthiness, null equals exactly the falsy
      keys "" and "0", and everything else compares as strings. */
  function LooseEquals(key: string, v: Val): (eq: bool)
    ensures v == Str(key) ==> eq
    ensures !IsNumericString(key) && v.Int? ==> !eq
    ensures !IsNumericString(key) && v.Str? ==> (eq <==> v.s == key)
    ensures v.Bool? ==> (eq <==> v.b == StringTruthy(key))
    ensures v == Null ==> (eq <==> !StringTruthy(key))
  {
    match v
    case Null => key == "" || key == "0"
    case Bool(b) => StringTruthy(key) == b
    case Int(i) => IsNumericString(key) && NumericValue(key) == i
    case Str(s) =>
      if IsNumericString(key) && IsNumericString(s) then NumericValue(key) == NumericValue(s)
      else key == s
  }

  /** `in_array($needle, $haystack)`: some element is loosely equal. */
  function InArray(needle: string, haystack: seq<Val>): (found: bool)
    ensures found <==> exists j :: 0 <= j < |haystack| && LooseEquals(needle, haystack[j])
    decreases |haystack|
  {
    if haystack == [] then false
    else
      var rest := InArray(needle, haystack[1..]);
      assert forall j :: 1 <= j < |haystack| ==> haystack[j] == haystack[1..][j - 1];
      LooseEquals(needle, haystack[0]) || rest
  }

  /** A haystack holding `true` lets every truthy key through `in_array`. */
  lemma TrueMatchesTruthyKeys(needle: string, haystack: seq<Val>, k: nat)
    requires k < |haystack| && haystack[k] == Bool(true)
    requires StringTruthy(needle)
    ensures InArray(needle, haystack)
  {
  }

  /** Numeric strings compare by value, so "5" matches "05" and 5. */
  lemma NumericKeyComparesByValue()
    ensures LooseEquals("5", Str("05"))
    ensures LooseEquals("5", Int(5))
    ensures !LooseEquals("name", Int(0))
  {
  }
}
