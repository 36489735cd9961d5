/** The optional value used across the model: Go's `(value, ok)` pairs and nil-able inputs. */
module Wrappers {

  datatype Option<+T> = None | Some(value: T)
}
