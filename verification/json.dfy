/** Decoded JSON values as Python's `json` module hands them to the client, and the
    Python operations the client applies to them. Numbers are carried as their literal text:
    the client only copies them. */
module Json {

  import Text

  datatype Json =
    | Null
    | Bool(b: bool)
    | Number(literal: string)
    | Str(s: string)
    | Array(items: seq<Json>)
    | Object(fields: map<string, Json>)

  /** The exceptions the client code can let escape. */
  datatype PyException = TypeError | AttributeError | IndexError | KeyError

  /** A Python evaluation: it returns a value or raises an exception. Failure-compatible, so
      `var x :- e; ...` reads like Python code where an exception propagates. */
  datatype Py<+T> = Returns(value: T) | Raises(exception: PyException) {
    predicate IsFailure() { Raises? }

    function PropagateFailure<U>(): Py<U>
      requires Raises?
    {
      Raises(exception)
    }

    function Extract(): T
      requires Returns?
    {
      value
    }
  }

  /** The library's uniform error value `{"error": message}`. */
  function ErrorObject(message: Json): (r: Json)
    ensures r.Object? && r.fields.Keys == {"error"} && r.fields["error"] == message
  {
    Object(map["error" := message])
  }

  function ErrorText(message: string): Json {
    ErrorObject(Str(message))
  }

  /** Python's `key in container` for a string key. */
  function PyIn(key: string, container: Json): (r: Py<bool>)
    ensures r.Returns? <==> (container.Object? || container.Array? || container.Str?)
    ensures container.Object? ==> r == Returns(key in container.fields)
    ensures container.Array? ==> r == Returns(Str(key) in container.items)
    ensures container.Str? ==> r == Returns(Text.IsSubstring(key, container.s))
  {
    match container
    case Object(m) => Returns(key in m)
    case Array(xs) => Returns(Str(key) in xs)
    case Str(s) => Returns(Text.IsSubstring(key, s))
    case _ => Raises(TypeError)
  }

  /** Python's `container[key]` for a string key. */
  function PySubscript(container: Json, key: string): (r: Py<Json>)
    ensures r.Returns? <==> (container.Object? && key in container.fields)
    ensures r.Returns? ==> r.value == container.fields[key]
  {
    match container
    case Object(m) => if key in m then Returns(m[key]) else Raises(KeyError)
    case _ => Raises(TypeError)
  }

  /** Python's `dict.get(key, default)`. */
  function DictGet(m: map<string, Json>, key: string, default: Json): Json {
    if key in m then m[key] else default
  }

  /** Python's `container.get(key, default)`: only dictionaries have a `get`. */
  function PyGet(container: Json, key: string, default: Json): (r: Py<Json>)
    ensures r.Returns? <==> container.Object?
    ensures container.Object? && key in container.fields ==> r == Returns(container.fields[key])
    ensures container.Object? && key !in container.fields ==> r == Returns(default)
  {
    match container
    case Object(m) => Returns(DictGet(m, key, default))
    case _ => Raises(AttributeError)
  }

  /** Python's `container[0]`: a list or string yields its first element (a one-character
      string for `str`), a dictionary has no key `0`, anything else is not subscriptable. */
  function PyFirst(container: Json): (r: Py<Json>)
    ensures r.Returns? <==> ((container.Array? && |container.items| > 0) || (container.Str? && |container.s| > 0))
    ensures container.Array? && |container.items| > 0 ==> r == Returns(container.items[0])
    ensures container.Str? && |container.s| > 0 ==> r == Returns(Str(container.s[..1]))
    ensures (container.Array? && |container.items| == 0) || (container.Str? && |container.s| == 0) ==> r == Raises(IndexError)
    ensures container.Object? ==> r == Raises(KeyError)
  {
    match container
    case Array(xs) => if |xs| == 0 then Raises(IndexError) else Returns(xs[0])
    case Str(s) => if |s| == 0 then Raises(IndexError) else Returns(Str(s[..1]))
    case Object(_) => Raises(KeyError)
    case _ => Raises(TypeError)
  }
}
