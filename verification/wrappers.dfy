/** The optional-value datatype used for schemas a route may leave undeclared,
    table entries whose definition is absent, and error fields that may be missing. */
module Wrappers {

  datatype Option<+T> = None | Some(value: T)
}
