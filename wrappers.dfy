/** The optional value used throughout the model: `None` stands for pandas' NaN
    (an undefined average) and for "no chart was produced". */
module Wrappers {

  datatype Option<+T> = None | Some(value: T)
}
