/** Types shared by the component models. */
module Prelude {
  datatype Option<+T> = None | Some(value: T)

  /** UUIDs, channel names and other opaque identifiers. */
  type Uuid = nat

  function Max(a: int, b: int): int {
    if a < b then b else a
  }

  function Min(a: int, b: int): int {
    if a < b then a else b
  }
}
