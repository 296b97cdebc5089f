/** Option, for values the program may or may not have (a dictionary key that
    may be missing, a parse that may fail). */
module Wrappers {

  datatype Option<+T> = None | Some(value: T)
}
