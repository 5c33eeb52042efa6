/** Python-level values the router works with: optional arguments that default to
    `None`, Python's truthiness of such arguments, and the exceptions that can
    leave a request handler. */
module PyValues {

  datatype Option<+T> = None | Some(value: T)

  /** `if s:` on an argument that is either `None` or a `str`: both `None` and the
      empty string are false. */
  predicate Truthy(s: Option<string>)
  {
    s.Some? && s.value != ""
  }

  /** The exceptions the model distinguishes. `except ValueError:` catches
      `ValueError` and every subclass of it; everything else propagates
      unchanged. */
  datatype PyError =
    | ValueError(kind: string)     // `ValueError` or a subclass (`UnicodeError`, `UnicodeDecodeError`, ...), by class name
    | KeyError(key: string)        // a missing entry of a `dict`
    | Exception(message: string)   // a bare `Exception(...)`
    | OtherError(kind: string)     // any class outside the `ValueError` family, by name
  {
    /** `isinstance(e, ValueError)`. */
    predicate IsValueError()
    {
      ValueError?
    }
  }
}
