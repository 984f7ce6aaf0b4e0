/** The PHP values that status records are flattened into.

    A record's `toArray()` builds a PHP array keyed by strings; here that
    array is a `Wire` (a finite map from key to `Value`). The JSON text that
    the store keeps is taken to be a lossless encoding of this form, so only
    the form itself is modelled. The readers at the end mirror the two ways
    a `fromArray` reads a key: `$data['k']` handed to a typed constructor
    parameter (missing or mistyped is a TypeError) and `$data['k'] ?? d`
    (missing or NULL gives the default). */
module PhpValues {

  datatype Option<+T> = None | Some(value: T)

  /** The exceptions the core raises, by kind. */
  datatype Error =
    | UnknownType(tag: Value)   // the factory's InvalidArgumentException
    | Malformed(key: string)    // a TypeError: a key missing or of the wrong type
    | NotStarted                // 'This store has not been started.'
    | NoSession                 // no session for the private temp storage
    | NotAString(call: string)  // a TypeError: an array handed to a string function

  datatype Result<+T> = Success(value: T) | Failure(error: Error) {
    predicate IsFailure() { Failure? }
    function PropagateFailure<U>(): Result<U> requires Failure? { Failure(error) }
    function Extract(): T requires Success? { value }
  }

  /** What a `void` operation that may throw ends with. */
  datatype Outcome = Pass | Fail(error: Error)

  /** A JSON-compatible PHP value. `Float` carries a timestamp, which the
      model never computes with. */
  datatype Value =
    | Null
    | Bool(b: bool)
    | Int(i: int)
    | Float(f: real)
    | Str(s: string)
    | List(elems: seq<Value>)
    | Dict(fields: map<string, Value>)

  /** A value a PHP `array` parameter accepts. */
  type PhpArray = v: Value | v.List? || v.Dict? witness List([])

  type Wire = map<string, Value>

  /** PHP's `$a + $b` on arrays: every key of `$a` keeps its value, and
      `$b` only contributes the keys `$a` lacks. */
  function Union(a: Wire, b: Wire): (r: Wire)
    ensures r.Keys == a.Keys + b.Keys
    ensures forall k :: k in a ==> r[k] == a[k]
    ensures forall k :: k in b && k !in a ==> r[k] == b[k]
  {
    b + a
  }

  /** How a `?string` is written into the array. */
  function Nullable(s: Option<string>): Value {
    match s
    case None => Null
    case Some(x) => Str(x)
  }

  /** True when `$data[key] ?? …` falls back to its default. */
  predicate Absent(data: Wire, key: string) {
    key !in data || data[key] == Null
  }

  /** `$data[key]` into a `string` parameter. */
  function RequiredString(data: Wire, key: string): Result<string> {
    if key in data && data[key].Str? then Success(data[key].s) else Failure(Malformed(key))
  }

  /** `$data[key]` into an `int` parameter. */
  function RequiredInt(data: Wire, key: string): Result<int> {
    if key in data && data[key].Int? then Success(data[key].i) else Failure(Malformed(key))
  }

  /** `$data[key]` into a `float` parameter; an int is widened, as PHP
      does even under strict typing. */
  function RequiredTime(data: Wire, key: string): Result<real> {
    if key !in data then Failure(Malformed(key))
    else match data[key]
      case Float(f) => Success(f)
      case Int(i) => Success(i as real)
      case _ => Failure(Malformed(key))
  }

  /** `$data[key] ?? NULL` into a `?string` parameter. */
  function NullableString(data: Wire, key: string): Result<Option<string>> {
    if Absent(data, key) then Success(None)
    else if data[key].Str? then Success(Some(data[key].s))
    else Failure(Malformed(key))
  }

  /** `$data[key] ?? default` into a `string` parameter. */
  function StringOr(data: Wire, key: string, default: string): Result<string> {
    if Absent(data, key) then Success(default)
    else if data[key].Str? then Success(data[key].s)
    else Failure(Malformed(key))
  }

  /** `$data[key] ?? default` into an `array` parameter. */
  function ArrayOr(data: Wire, key: string, default: PhpArray): Result<PhpArray> {
    if Absent(data, key) then Success(default)
    else if data[key].List? || data[key].Dict? then Success(data[key])
    else Failure(Malformed(key))
  }
}
