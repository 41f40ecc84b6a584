/**
 * The integer part of the BH1750 light reading, and the read-or-zero
 * wrapper two variants put around it.
 */
module Light {
  import opened Common

  /**
   * The raw illuminance count assembled from the sensor's two result bytes:
   * ((b0 & 3) << 8) + b1. Only the low two bits of the high byte are kept.
   */
  function RawLux(b0: bv8, b1: bv8): (r: int)
    ensures 0 <= r <= 1023
    ensures r == (b0 as int % 4) * 256 + b1 as int
  {
    ((((b0 as bv16) & 3) << 8) + (b1 as bv16)) as int
  }

  /** A light read that raised yields 0 instead of propagating. */
  function ReadOrZero(read: Option<int>): (lux: int)
    ensures read.Some? ==> lux == read.value
    ensures read.None? ==> lux == 0
  {
    match read
    case Some(v) => v
    case None => 0
  }
}
