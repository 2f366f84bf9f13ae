/** Result wrapper shared by the modules: where the source raises, the model returns None. */
module Wrappers {
  datatype Option<T> = None | Some(value: T)
}
