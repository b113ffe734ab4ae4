/** The optional value used for fields a JavaScript object may lack (`null` / `undefined`). */
module Wrappers {

  datatype Option<+T> = None | Some(value: T)
}
