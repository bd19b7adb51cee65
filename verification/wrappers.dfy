/** The optional result used wherever the source answers "nothing" instead of a value:
    a line that does not parse, a number that float() rejects, a reader not yet created. */
module Wrappers {

  datatype Option<+T> = None | Some(value: T)

}
