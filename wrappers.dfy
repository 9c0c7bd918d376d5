/** The nullable values of the source (`string | null`, `x?.y`, `find` results). */
module Wrappers {

  datatype Option<+T> = None | Some(value: T)
}
