/** The usual optional-value datatype. In the JavaScript model `None` stands
    for a missing property (`undefined`). */
module Wrappers {

  datatype Option<+T> = None | Some(value: T)
}
