/** An optional value: a prop or field that TypeScript declares with `?` or as `T | null`. */
module Wrappers {

  datatype Option<+T> = None | Some(value: T)
}
