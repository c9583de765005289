/** Small helper types shared by every simulator. */
module Wrappers {

  /** An optional value; `None` stands for JavaScript's `NaN` or `undefined`. */
  datatype Option<+T> = None | Some(value: T)

  function Min(a: nat, b: nat): nat {
    if a <= b then a else b
  }
}
