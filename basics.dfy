/** Optional values, standing for Python's `None` in database columns, JSON
    fields and command arguments. */
module Basics {

  datatype Option<+T> = None | Some(value: T)
}
