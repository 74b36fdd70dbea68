/**
 * PHP scalar and array values as the authman code sees them: key values
 * decoded from JSON, request query arguments, form values and request
 * options. Only the PHP semantics the core relies on are modelled:
 * `empty()`, the null-coalescing lookup `$a[$k] ?? $d`, and string
 * conversion of integers (`sprintf('%d')`, `.` concatenation).
 */
module Php {

  /** A PHP value. Floats and objects do not occur in the modelled core. */
  datatype Value =
    | Null
    | Bool(b: bool)
    | Int(i: int)
    | Str(s: string)
    | Arr(entries: map<string, Value>)

  /** A string-keyed PHP array, such as a key's decoded values or request options. */
  type FieldMap = map<string, Value>

  /** PHP's `empty()` on a value that is set: null, false, 0, "", "0" and []. */
  predicate Falsy(v: Value) {
    match v
    case Null => true
    case Bool(b) => !b
    case Int(i) => i == 0
    case Str(s) => s == "" || s == "0"
    case Arr(m) => m == map[]
  }

  /** `empty($m[$k])`: a missing key is empty as well. */
  predicate EmptyAt(m: FieldMap, k: string) {
    k !in m || Falsy(m[k])
  }

  /** `$m[$k] ?? $default`: the entry unless it is missing or null. */
  function Coalesce(m: FieldMap, k: string, default: Value): Value {
    if k in m && m[k] != Null then m[k] else default
  }

  /** `$m[$k]` read with a missing key giving null, as `getValue()` and `query->get()` do. */
  function Lookup(m: FieldMap, k: string): Value {
    if k in m then m[k] else Null
  }

  function Digit(d: nat): char
    requires d < 10
  {
    (48 + d) as char
  }

  /** The decimal numeral of a natural number, as `%d` prints it. */
  function Decimal(n: nat): (s: string)
    ensures |s| >= 1
    ensures n < 10 <==> |s| == 1
    decreases n
  {
    if n < 10 then [Digit(n)] else Decimal(n / 10) + [Digit(n % 10)]
  }

  /** Different numbers have different numerals, so `base_2`, `base_3`, ... never collide. */
  lemma {:induction false} DecimalInjective(a: nat, b: nat)
    requires Decimal(a) == Decimal(b)
    ensures a == b
    decreases a
  {
    if a < 10 || b < 10 {
      assert |Decimal(a)| == 1 && |Decimal(b)| == 1;
      assert Decimal(a)[0] == Decimal(b)[0];
    } else {
      var sa, sb := Decimal(a), Decimal(b);
      assert sa[|sa| - 1] == sb[|sb| - 1];
      assert Digit(a % 10) == Digit(b % 10);
      assert sa[..|sa| - 1] == Decimal(a / 10);
      assert sb[..|sb| - 1] == Decimal(b / 10);
      DecimalInjective(a / 10, b / 10);
    }
  }

  /** PHP's `(string)` conversion, as used by `.` concatenation. */
  function ToPhpString(v: Value): string {
    match v
    case Null => ""
    case Bool(b) => if b then "1" else ""
    case Int(i) => if i < 0 then "-" + Decimal(-i) else Decimal(i)
    case Str(s) => s
    case Arr(_) => "Array"
  }
}
