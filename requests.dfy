/**
 * What the request validators share: the `{'is_valid': ..., 'errors': [...]}`
 * result, and the "required" test `not v or not str(v).strip()`.  Python's
 * `str()` of a value that is not a string is a library formatting routine;
 * it is passed in as `show`.  Each validator lists its errors as values of
 * its own error type, whose `Message` function gives the text the handler
 * sends back.  Python's `in` and `[]` on a decoded JSON value are here too.
 */
module Requests {
  import opened Wrappers
  import opened Json
  import Text

  datatype Validation<E> = Validation(isValid: bool, errors: seq<E>)

  /** `str(v)`: a string is itself, anything else is formatted by `show`. */
  function PyStr(v: Value, show: Value -> string): string
  {
    if v.Str? then v.s else show(v)
  }

  /** `not v or not str(v).strip()`. */
  predicate Missing(v: Value, show: Value -> string) {
    !Truthy(v) || Text.IsBlank(PyStr(v, show))
  }

  /** The result the validators return for a list of errors. */
  function ValidationOf<E>(errors: seq<E>): (r: Validation<E>)
    ensures r.errors == errors
    ensures r.isValid <==> errors == []
  {
    Validation(|errors| == 0, errors)
  }

  /** `key in v`: a key of a dictionary, an element of a list, a substring of a string; `None` where Python raises. */
  function PyIn(key: string, v: Value): Option<bool>
  {
    match v
    case Object(fields) => Some(key in fields)
    case List(items) => Some(Str(key) in items)
    case Str(s) => Some(Text.Contains(s, key))
    case _ => None
  }

  /** `v[key]`: only a dictionary holding the key answers; anything else raises. */
  function PyIndex(v: Value, key: string): (r: Option<Value>)
    ensures r.Some? <==> v.Object? && key in v.fields
  {
    if v.Object? && key in v.fields then Some(v.fields[key]) else None
  }
}
