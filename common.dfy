/** Small value types shared by both sides of the boundary. */
module Common {

  /** Rust's `Option<T>`: an optional value. */
  datatype Option<T> = None | Some(value: T)

  /** An octet, as in the serialized engine snapshot handed to `engine_deserialize`. */
  newtype byte = b: int | 0 <= b < 256

  function Min(a: nat, b: nat): nat {
    if a <= b then a else b
  }
}
