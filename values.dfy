/** Shared value types: optional values, Go errors and the untyped
    `interface{}` trees that the provider and the client pass around. */
module Values {

  datatype Option<T> = None | Some(value: T)

  /** A Go `(T, error)` pair where exactly one side is meaningful. */
  datatype Result<T> = Ok(value: T) | Err(error: Error)

  /** A Go `error`. `Wrap(context, cause)` is `fmt.Errorf("<context>: %w", cause)`:
      the cause stays inspectable and the message is the two joined by ": ". */
  datatype Error = Fail(text: string) | Wrap(context: string, cause: Error)
  {
    function Message(): string
    {
      match this
      case Fail(t) => t
      case Wrap(c, e) => c + ": " + e.Message()
    }
  }

  /** A decoded JSON value as the provider sees it through `interface{}`:
      nil, a string, a `map[string]interface{}`, or anything else (numbers,
      booleans, arrays), which the core only ever compares for equality. */
  datatype Val = Null | Str(s: string) | Map(m: map<string, Val>) | Other(repr: string)

  /** A `map[string]interface{}`. */
  type Tree = map<string, Val>

  /** `json.Unmarshal` followed by `json.Marshal` of a string: the canonical
      re-serialisation, or None when the text is not JSON. */
  type Canon = string -> Option<string>

  /** `json.Unmarshal` into a `map[string]interface{}`: an error, the nil map
      (the text `null`), or an object. */
  type Decode = string -> Result<Option<Tree>>

  /** How a map argument that may be nil is sent as a query variable. */
  function MapOrNull(m: Option<Tree>): (v: Val)
    ensures v == Null <==> m.None?
    ensures m.Some? ==> v.Map? && v.m == m.value
  {
    match m
    case None => Null
    case Some(t) => Map(t)
  }
}
