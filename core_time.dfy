/**
 * Time bases (src/core/time.rs).  `Timebase` is the rational unit of the
 * older frame type; `Time` is the unit carried by packets, frames and
 * streams, whose definition is not part of this model: it is represented
 * by the same numerator/denominator pair.
 */
module CoreTime {
  import opened Ints

  datatype Timebase = Timebase(num: u32, den: u32)

  datatype Time = Time(num: u32, den: u32)

  /** `Timebase::new` asserts (panics otherwise) that both parts are positive. */
  function NewTimebase(num: u32, den: u32): (t: Timebase)
    requires num > 0 && den > 0
    ensures t.num == num && t.den == den && t.num > 0 && t.den > 0
  {
    Timebase(num, den)
  }
}
