/** PHP and WordPress values the backstop works on: scalars, request arguments,
    HTTP responses, the `empty()` test and the `(int)` / `(float)` casts, and the
    hashing, JSON and URL primitives that the core treats as black boxes. */
module Platform {

  datatype Option<T> = None | Some(value: T)

  /** A PHP scalar as it appears in request arguments, options and settings. */
  datatype Value = Null | Bool(b: bool) | Int(i: int) | Real(r: real) | Str(s: string)

  /** A PHP associative array of scalars (request arguments, backstop options, stored settings). */
  type Args = map<string, Value>

  /** What `$a[$k]` reads: the stored value, or null when the key is missing. */
  function Lookup(a: Args, k: string): (v: Value)
    ensures k !in a ==> v == Null
    ensures k in a ==> v == a[k]
  {
    if k in a then a[k] else Null
  }

  /** PHP's `empty()`: null, false, 0, 0.0, "" and "0" are empty, everything else is not. */
  predicate Empty(v: Value) {
    match v
    case Null => true
    case Bool(b) => !b
    case Int(i) => i == 0
    case Real(r) => r == 0.0
    case Str(s) => s == "" || s == "0"
  }

  predicate IsDigit(c: char) {
    '0' <= c <= '9'
  }

  /** Number of leading decimal digits of `s`. */
  function DigitCount(s: string): (n: nat)
    ensures n <= |s|
    ensures forall i :: 0 <= i < n ==> IsDigit(s[i])
    ensures n < |s| ==> !IsDigit(s[n])
  {
    if s == [] || !IsDigit(s[0]) then 0 else 1 + DigitCount(s[1..])
  }

  /** The number written by a string of decimal digits. */
  function DigitsValue(d: string): nat
    requires forall i :: 0 <= i < |d| ==> IsDigit(d[i])
  {
    if d == [] then 0 else 10 * DigitsValue(d[..|d| - 1]) + DigitOf(d[|d| - 1])
  }

  function DigitOf(c: char): nat
    requires IsDigit(c)
  {
    c as int - '0' as int
  }

  /** The number written by an optional sign and the leading decimal digits of a string
      (0 when there are none), without any bound on its size. */
  function LeadingNumber(s: string): int {
    if |s| > 0 && (s[0] == '-' || s[0] == '+') then
      var rest := s[1..];
      var n: int := DigitsValue(rest[..DigitCount(rest)]);
      if s[0] == '-' then -n else n
    else
      DigitsValue(s[..DigitCount(s)])
  }

  /** The range of a PHP integer on a 64-bit build: `PHP_INT_MIN` .. `PHP_INT_MAX`. */
  const PhpIntMin: int := -0x8000_0000_0000_0000
  const PhpIntMax: int := 0x7FFF_FFFF_FFFF_FFFF

  /** Clamping to the PHP integer range, as the string-to-integer conversion does. */
  function Saturate(n: int): (r: int)
    ensures PhpIntMin <= r <= PhpIntMax
    ensures PhpIntMin <= n <= PhpIntMax ==> r == n
    ensures n > PhpIntMax ==> r == PhpIntMax
    ensures n < PhpIntMin ==> r == PhpIntMin
  {
    if n > PhpIntMax then PhpIntMax else if n < PhpIntMin then PhpIntMin else n
  }

  /** The integer a PHP `(int)` cast reads from a string: the leading number, saturated
      at the bounds of a 64-bit integer. */
  function LeadingInt(s: string): int {
    Saturate(LeadingNumber(s))
  }

  /** PHP's `(int)` cast. Reals truncate toward zero. */
  function ToInt(v: Value): int {
    match v
    case Null => 0
    case Bool(b) => if b then 1 else 0
    case Int(i) => i
    case Real(r) => if r >= 0.0 then r.Floor else -((-r).Floor)
    case Str(s) => LeadingInt(s)
  }

  /** PHP's `(float)` cast; a string contributes only its integer prefix here, which a
      float does not clamp to the integer range. */
  function ToReal(v: Value): real {
    match v
    case Null => 0.0
    case Bool(b) => if b then 1.0 else 0.0
    case Int(i) => i as real
    case Real(r) => r
    case Str(s) => LeadingNumber(s) as real
  }

  /** Decimal rendering of a natural number, as PHP prints it. */
  function NatToString(n: nat): (s: string)
    ensures |s| > 0
    ensures forall i :: 0 <= i < |s| ==> IsDigit(s[i])
  {
    if n < 10 then [('0' as int + n) as char]
    else NatToString(n / 10) + [('0' as int + n % 10) as char]
  }

  /** Decimal rendering of an integer, as PHP prints it (and as a settings text field stores it). */
  function IntToString(i: int): string {
    if i < 0 then "-" + NatToString(-i) else NatToString(i)
  }

  lemma {:induction false} DigitsValueOfNatToString(n: nat)
    ensures DigitsValue(NatToString(n)) == n
  {
    if n >= 10 {
      var s := NatToString(n);
      assert s[..|s| - 1] == NatToString(n / 10);
      DigitsValueOfNatToString(n / 10);
    }
  }

  /** Reading back a printed integer gives the number itself, with no bound on its size. */
  lemma LeadingNumberRoundTrip(i: int)
    ensures LeadingNumber(IntToString(i)) == i
  {
    var n: nat := if i < 0 then -i else i;
    var d := NatToString(n);
    assert DigitCount(d) == |d|;
    assert d[..|d|] == d;
    DigitsValueOfNatToString(n);
    if i < 0 {
      assert IntToString(i)[1..] == d;
    }
  }

  /** Reading back a printed 64-bit integer with `(int)` gives the integer itself: a number
      a settings text field stores as a string is the number the filters use. Beyond the
      64-bit range the cast saturates at `PHP_INT_MAX` or `PHP_INT_MIN`. */
  lemma IntCastRoundTrip(i: int)
    ensures PhpIntMin <= i <= PhpIntMax ==> ToInt(Str(IntToString(i))) == i
    ensures i > PhpIntMax ==> ToInt(Str(IntToString(i))) == PhpIntMax
    ensures i < PhpIntMin ==> ToInt(Str(IntToString(i))) == PhpIntMin
  {
    LeadingNumberRoundTrip(i);
  }

  /** A transport response, with the WordPress shapes the backstop tells apart. */
  datatype Response =
    | WPError(code: string, message: string)
      // a `WP_Error` object
    | Reply(status: int, body: string, headers: map<string, string>, cookies: seq<string>)
      // a response array: `response.code`, body, headers, cookies
    | ErrorRecord(code: string, message: string)
      // the array `{error: true, code, message}` that a cached `WP_Error` becomes

  /** The black-box platform functions: `md5`, `wp_json_encode` and the host part of
      `wp_parse_url( $url, PHP_URL_HOST )`. */
  datatype Primitives = Primitives(
    md5: string -> string,
    jsonEncode: Args -> string,
    parseHost: string -> string)

  ghost predicate Injective<A(!new), B>(f: A -> B) {
    forall x, y :: f(x) == f(y) ==> x == y
  }
}
