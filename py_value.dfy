/** Python values as the handler sees them: decoded JSON plus objects JSON cannot encode,
    with the few Python semantics the handler relies on (truthiness, `dict.get`,
    `x[0]`, `in`, `int()`, exception type names). */
module PyValue {

  datatype Option<+T> = None | Some(value: T)

  datatype Result<+T, +E> = Ok(value: T) | Err(error: E)

  /** A Python float, carried without arithmetic: only the distinctions the handler can
      observe (zero is falsy; `int()` refuses infinities and NaN) are kept. */
  datatype FloatValue = Zero(negative: bool) | Finite(id: nat) | Infinite(negative: bool) | NaN

  /** A Python value. `Opaque` is any other object (neither JSON-encodable nor a container). */
  datatype Value =
    | Null
    | Bool(b: bool)
    | Int(i: int)
    | Float(f: FloatValue)
    | Str(s: string)
    | List(items: seq<Value>)
    | Dict(fields: map<string, Value>)
    | Opaque(id: nat)

  /** A scraped record or any other JSON object. */
  type Item = map<string, Value>

  /** Python's `bool(v)`: empty containers, zero, `None` and `False` are falsy; an object
      without `__bool__`/`__len__` is truthy. */
  predicate Truthy(v: Value) {
    match v
    case Null => false
    case Bool(b) => b
    case Int(i) => i != 0
    case Float(f) => !f.Zero?
    case Str(s) => s != ""
    case List(xs) => xs != []
    case Dict(m) => m != map[]
    case Opaque(_) => true
  }

  /** Whether `json.dumps(v)` succeeds: everything but an opaque object, at any depth. */
  predicate Serializable(v: Value) {
    match v
    case List(xs) => forall i | 0 <= i < |xs| :: Serializable(xs[i])
    case Dict(m) => forall k | k in m :: Serializable(m[k])
    case Opaque(_) => false
    case _ => true
  }

  /** `d.get(k)`: the value, or `None` when the key is absent. */
  function Get(d: Item, k: string): (r: Value)
    ensures k !in d ==> r == Null
    ensures k in d ==> r == d[k]
  {
    if k in d then d[k] else Null
  }

  /** `d.get(k, default)`. */
  function GetOr(d: Item, k: string, default: Value): (r: Value)
    ensures k !in d ==> r == default
    ensures k in d ==> r == d[k]
  {
    if k in d then d[k] else default
  }

  /** The exceptions the modelled code can raise on its own. */
  datatype PyError =
    | NotSubscriptable(v: Value)       // `v[0]` on a number, bool, None or object
    | IndexOutOfRange(v: Value)        // `v[0]` on an empty list or string
    | MissingKey(key: Value)           // `d[k]` for an absent key
    | NoAttribute(v: Value, name: string)
    | NotIterable(v: Value)            // `x in v` on a non-container
    | NotJoinable(v: Value)            // `sep.join(v)` on a non-iterable or with a non-str part
    | NotAnInteger(v: Value)           // `int(v)` that fails
    | NotJsonText(v: Value)            // `json.loads(v)` on something that is not text

  /** `type(e).__name__`. */
  function TypeName(e: PyError): string {
    match e
    case NotSubscriptable(_) => "TypeError"
    case IndexOutOfRange(_) => "IndexError"
    case MissingKey(_) => "KeyError"
    case NoAttribute(_, _) => "AttributeError"
    case NotIterable(_) => "TypeError"
    case NotJoinable(_) => "TypeError"
    case NotAnInteger(v) =>
      if v.Str? then "ValueError"
      else if v.Float? && v.f.NaN? then "ValueError"
      else if v.Float? && v.f.Infinite? then "OverflowError"
      else "TypeError"
    case NotJsonText(_) => "TypeError"
  }

  /** What the Python runtime contributes as text or as arithmetic the model does not
      carry: `str(v)`, `str(e)`, a traceback, iteration order of a dict, and `int(f)`
      for a finite non-zero float. */
  datatype Py = Py(
    show: Value -> string,
    message: PyError -> string,
    traceback: string,
    keyOrder: map<string, Value> -> seq<string>,
    truncate: nat -> int)

  /** `v[0]`. JSON object keys are strings, so the integer key 0 is never present. */
  function First(v: Value): (r: Result<Value, PyError>)
    ensures v.List? && v.items != [] ==> r == Ok(v.items[0])
    ensures v.Str? && v.s != [] ==> r == Ok(Str([v.s[0]]))
    ensures r.Ok? <==> (v.List? || v.Str?) && Truthy(v)
  {
    match v
    case List(xs) => if xs == [] then Err(IndexOutOfRange(v)) else Ok(xs[0])
    case Str(s) => if s == [] then Err(IndexOutOfRange(v)) else Ok(Str([s[0]]))
    case Dict(_) => Err(MissingKey(Int(0)))
    case _ => Err(NotSubscriptable(v))
  }

  predicate OccursAt(t: string, s: string, i: int) {
    0 <= i && i + |t| <= |s| && s[i..i + |t|] == t
  }

  /** `t in s` for strings. */
  predicate IsSubstring(t: string, s: string) {
    exists i | 0 <= i <= |s| - |t| :: OccursAt(t, s, i)
  }

  /** `needle in container` for a string needle. */
  function Contains(container: Value, needle: string): (r: Result<bool, PyError>)
    ensures container.Str? ==> r == Ok(IsSubstring(needle, container.s))
    ensures r.Err? <==> !(container.Str? || container.List? || container.Dict?)
  {
    match container
    case Str(s) => Ok(IsSubstring(needle, s))
    case List(xs) => Ok(Str(needle) in xs)
    case Dict(m) => Ok(needle in m)
    case _ => Err(NotIterable(container))
  }
}
