/** The optional-value datatype used for nullable values of the source
    (`string | null`, a missing response header) and for parsers that may fail. */
module Wrappers {

  datatype Option<+T> = None | Some(value: T)
}
