/** An optional value, used for the absent cases of the models (an error
    the source raises, a fault index that did not happen). */
module Wrappers {

  datatype Option<+T> = None | Some(value: T)
}
