/** The values `json.loads` produces and the handful of Python operations the
    bot applies to them: `dict.get` with a default, truthiness, and the
    `str()` conversion an f-string performs. */
module Json {
  import opened Wrappers

  /** A decoded JSON value, as the Python object `json.loads` returns. */
  datatype Value =
    | Null
    | Bool(b: bool)
    | Int(i: int)
    | Float(x: real)
    | Str(s: string)
    | Arr(items: seq<Value>)
    | Obj(fields: map<string, Value>)

  /** The outcome of `json.loads`: a value, or a `JSONDecodeError` with its message. */
  datatype Decoded = Decoded(value: Value) | DecodeError(message: string)

  /** Library behaviour the bot calls but that is not part of this model:
      `json.loads`, `json.dumps(data, indent=2)`, `str.title()` and `str()` of
      a float, list or dict. `dumps` gives `None` where `json.dumps` raises
      (a value nested too deeply for the encoder, for instance). */
  datatype Library = Library(
    loads: string -> Decoded,
    dumps: Value -> Option<string>,
    title: string -> string,
    repr: Value -> string)

  /** Python's `d.get(key, default)`. */
  function Get(d: map<string, Value>, key: string, default: Value): Value
  {
    if key in d then d[key] else default
  }

  /** Python truthiness of a decoded value (`if v:`). */
  predicate Truthy(v: Value)
  {
    match v
    case Null => false
    case Bool(b) => b
    case Int(i) => i != 0
    case Float(x) => x != 0.0
    case Str(s) => s != ""
    case Arr(items) => items != []
    case Obj(fields) => fields != map[]
  }

  function DigitChar(d: nat): (c: char)
    requires d < 10
    ensures '0' <= c <= '9'
  {
    (d + '0' as int) as char
  }

  /** The decimal digits of a natural number, as `str()` writes them. */
  function Digits(n: nat): (r: string)
    ensures |r| > 0
    ensures forall k :: 0 <= k < |r| ==> '0' <= r[k] <= '9'
    ensures n > 0 ==> r[0] != '0'
    ensures n == 0 <==> r == "0"
    decreases n
  {
    if n < 10 then [DigitChar(n)] else Digits(n / 10) + [DigitChar(n % 10)]
  }

  /** The numeric value of a string of decimal digits. */
  function DigitsValue(r: string): nat
    requires forall k :: 0 <= k < |r| ==> '0' <= r[k] <= '9'
  {
    if r == [] then 0 else 10 * DigitsValue(r[..|r| - 1]) + (r[|r| - 1] - '0') as nat
  }

  /** Reading back the digits gives the number again. */
  lemma {:induction false} DigitsRoundTrip(n: nat)
    ensures DigitsValue(Digits(n)) == n
  {
    if n >= 10 {
      DigitsRoundTrip(n / 10);
      var r, d := Digits(n), Digits(n / 10);
      assert r[..|r| - 1] == d;
      assert (r[|r| - 1] - '0') as nat == n % 10;
    }
  }

  /** `d` is the canonical decimal writing of `n`: non-empty digits, no
      leading zero unless `n` is zero, reading back as `n`. */
  predicate WritesDecimal(d: string, n: nat)
  {
    && |d| > 0
    && (forall k :: 0 <= k < |d| ==> '0' <= d[k] <= '9')
    && (n != 0 ==> d[0] != '0')
    && DigitsValue(d) == n
  }

  /** `str()` of a Python `int`: an optional minus sign, then the canonical
      decimal writing of the magnitude. */
  function Decimal(i: int): (r: string)
    ensures |r| > 0
    ensures (r[0] == '-') == (i < 0)
    ensures WritesDecimal(if i < 0 then r[1..] else r, if i < 0 then -i else i)
  {
    var n := if i < 0 then -i else i;
    DigitsRoundTrip(n);
    var d := Digits(n);
    assert WritesDecimal(d, n);
    if i < 0 then
      assert ("-" + d)[1..] == d;
      "-" + d
    else
      d
  }

  /** The text an f-string inserts for a value: `str(v)`. */
  function Show(v: Value, lib: Library): string
  {
    match v
    case Null => "None"
    case Bool(b) => if b then "True" else "False"
    case Int(i) => Decimal(i)
    case Str(s) => s
    case _ => lib.repr(v)
  }
}
