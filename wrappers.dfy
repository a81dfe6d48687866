/** Optional values: `None` stands for JavaScript's `undefined` / `NaN` / a thrown
    collaborator call, depending on where it is used. */
module Wrappers {

  datatype Option<+T> = None | Some(value: T)
}
