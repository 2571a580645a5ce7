/** The optional value that std::optional and nullable pointers stand for. */
module Wrappers {
  datatype Option<+T> = None | Some(value: T)
}
