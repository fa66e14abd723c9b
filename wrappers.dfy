/** Option type for values a JavaScript program represents as null/undefined. */
module Wrappers {

  datatype Option<+T> = None | Some(value: T)
}
