/** Types shared by every part of the model. */
module TelephonyBase {

  datatype Option<+T> = None | Some(value: T)

  /** A thread, in the models of interleaved steps. */
  type Tid = nat

  type int32 = x: int | -0x8000_0000 <= x < 0x8000_0000
  type int64 = x: int | -0x8000_0000_0000_0000 <= x < 0x8000_0000_0000_0000
  type uint8 = x: int | 0 <= x < 0x100

  /** The conversion of a container size to a 32-bit integer: modulo 2^32, into the signed range. */
  function WrapToInt32(n: nat): (r: int32)
    ensures (r - n) % 0x1_0000_0000 == 0
  {
    var m := n % 0x1_0000_0000;
    if m < 0x8000_0000 then m else m - 0x1_0000_0000
  }
}
