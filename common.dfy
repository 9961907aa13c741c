/**
 * Small shared vocabulary: optional values, opaque byte payloads and
 * timestamps. Timestamps are plain integers supplied by the caller; the
 * model never reads a clock.
 */
module Common {

  datatype Option<T> = None | Some(value: T)
  {
    function GetOr(default: T): T
    {
      if Some? then value else default
    }
  }

  /** Opaque binary payloads (uploaded images, PDF documents). */
  type Bytes = seq<bv8>

  /** A point in time, as handed in by the caller in place of `timezone.now()`. */
  type Time = int
}
