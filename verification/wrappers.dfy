/** The optional-value wrapper used wherever the tracker answers "no data". */
module Wrappers {

  datatype Option<+T> = None | Some(value: T)

}
