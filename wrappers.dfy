/** The optional value used throughout the model: Rust's `Option`, and, for complex
    iterates, the stand-in for a NaN value (`None`). */
module Wrappers {

  datatype Option<+T> = None | Some(value: T)

}
