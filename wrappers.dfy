/** The Option datatype used for the hook's lookups: `None` stands for the
    JavaScript value `undefined` that `arr[-1]` yields when nothing matched. */
module Wrappers {

  datatype Option<+T> = None | Some(value: T)
}
