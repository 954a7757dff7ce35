/** Values every protocol of the model shares. */
module Wrappers {

  datatype Option<+T> = None | Some(value: T)

  /** How a database write ends: its reply arrived, it took effect unheard, or it did not happen. */
  datatype Write = Written | WrittenUnheard | NotWritten
}
