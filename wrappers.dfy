/** The optional value the source writes as a float or `None`. */
module Wrappers {

  datatype Option<+T> = None | Some(value: T)

}
