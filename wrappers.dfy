/** The optional value used throughout the model: an absent dictionary key,
    a path that was not produced, a payload that carries no format. */
module Wrappers {

  datatype Option<+T> = None | Some(value: T)
}
