/** Values and failures shared by every part of the mapper model. */
module Common {

  datatype Option<+T> = None | Some(value: T)

  /** The outcome of an operation that may raise one of the mapper's exceptions. */
  datatype Result<+T> = Ok(value: T) | Err(error: Error) {
    predicate IsFailure() {
      Err?
    }

    function PropagateFailure<U>(): Result<U>
      requires Err?
    {
      Err(error)
    }

    function Extract(): T
      requires Ok?
    {
      value
    }
  }

  /** A Python `str` attribute or argument that may also be `None`. */
  type PyStr = Option<string>

  /** The exceptions the mapper raises or lets through. */
  datatype Error =
    | IncompleteKey                        // lazyboy.exceptions.ErrorIncompleteKey
    | UnknownTable                         // ErrorUnknownTable
    | MissingField(missing: seq<string>)   // ErrorMissingField, carrying `missing()`
    | InvalidField(field: string)          // ErrorInvalidField
    | NotSupported                         // ErrorNotSupported
    | ClientNotFound                       // ErrorCassandraClientNotFound
    | ThriftMessage(message: string)       // ErrorThriftMessage raised by the pool proxy
    | CallFailed(reason: string)           // any other exception raised by a backend call
    | KeyError(key: PyStr)
    | AttributeError(name: string)
    | TypeError
    | ValueError
    | IndexError
    | ZeroDivisionError
    | UnboundLocalError
    | StopIteration
      /** Not raised by the library: the model's bound on backend round trips in one step ran out. */
    | Exhausted

  /** Python truthiness of a string attribute: `None` and `''` are false. */
  predicate Truthy(s: PyStr) {
    s.Some? && s.value != ""
  }

  /** `'%s' % (s,)`: `None` renders as the text `None`. */
  function Render(s: PyStr): (r: string)
    ensures s.Some? ==> r == s.value
    ensures s.None? ==> r == "None"
  {
    match s
    case None => "None"
    case Some(t) => t
  }

  /** `a or b` on string attributes. */
  function Or(a: PyStr, b: PyStr): (r: PyStr)
    ensures r == a || r == b
    ensures Truthy(r) <==> Truthy(a) || Truthy(b)
    ensures Truthy(a) ==> r == a
  {
    if Truthy(a) then a else b
  }
}
