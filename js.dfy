/** JavaScript values as far as the widget inspects them, and the wrapper types
    the model uses for the source's `undefined`/`null` results and thrown errors. */
module Js {

  /** A value of one of the widget's variables or object properties:
      `null`, `undefined` or a string. */
  datatype Value = Null | Undefined | Str(s: string)

  datatype Option<+T> = None | Some(value: T)

  datatype Result<+T, +E> = Ok(value: T) | Err(error: E)

  /** The loose test `v != null`: false for both `null` and `undefined`. */
  predicate IsPresent(v: Value)
  {
    v.Str?
  }

  /** What an input element's `value` setter stores: `null` becomes the empty
      string, `undefined` the text "undefined". */
  function InputText(v: Value): string
  {
    match v
    case Null => ""
    case Undefined => "undefined"
    case Str(s) => s
  }
}
