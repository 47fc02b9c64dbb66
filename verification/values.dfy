/** The Python values the library inspects, its keyword-argument maps and the
    exceptions it raises. */
module Values {

  /** A Python value, as far as this library looks at it. */
  datatype Value =
    | NoneValue                          // `None`
    | Str(s: string)                     // a `str`
    | Cls(qualname: string)              // a class object, by qualified name
    | Dict(entries: map<string, Value>)  // a `dict` with string keys
    | Obj(id: nat)                       // any other object, by identity

  /** The `**kwargs` of a call. */
  type Kwargs = map<string, Value>

  /** The exceptions the library raises, and the opaque failures of the
      authorization service that it lets through unchanged. */
  datatype Error =
    | ValueError(message: string)
    | RuntimeError(message: string)
    | NotImplementedError(message: string)
    | ServiceError(detail: Value)
}
