/** Small shared vocabulary. */
module Basics {

  type Byte = bv8

  datatype Option<+T> = None | Some(value: T) {
    function Or(other: Option<T>): Option<T> {
      if this.None? then other else this
    }
  }

  function Max(a: nat, b: nat): nat {
    if a < b then b else a
  }
}
