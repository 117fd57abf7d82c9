/**
 * Go's own values that cross the layer's interface: an optional value, which
 * stands for a pointer or interface that may be `nil`, and an `error`.
 * Neither belongs to logrus; every other module imports them from here.
 */
module GoValues {

  datatype Option<+T> = None | Some(value: T)

  /** A Go `error` value; `None` stands for `nil`. */
  datatype ErrorValue = ErrorValue(text: string)
}
