/** Machine types of the STM32 target and a small Option wrapper. */
module Basics {

  /** C's `uint32_t`: raw register and measurement values. */
  type uint32 = x: int | 0 <= x < 0x1_0000_0000

  /** C's `int` (32 bits on the target) and `int32_t`: return codes and the temperature. */
  type int32 = x: int | -0x8000_0000 <= x < 0x8000_0000

  datatype Option<T> = None | Some(value: T) {

    /** The wrapped value, or `default` when there is none. */
    function GetOr(default: T): T {
      match this
      case Some(v) => v
      case None => default
    }
  }
}
