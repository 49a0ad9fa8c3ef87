/** Time as seen by the model. The wall clock is never read: every operation
    that calls `datetime.now()` in the source takes `now` as a parameter.
    The date formatters (`strftime`, `isoformat`) are opaque functions handed
    in by the caller. */
module Clock {

  /** Microseconds since an arbitrary epoch, the resolution of Python's datetime. */
  type Timestamp = int

  const MicrosPerDay: int := 24 * 60 * 60 * 1000000

  /** `t + timedelta(days=d)` */
  function AddDays(t: Timestamp, d: int): Timestamp
  {
    t + d * MicrosPerDay
  }

  /** The three renderings of a timestamp the source uses:
      `clock` is `strftime('%H:%M')`, `stamp` is `strftime('%Y-%m-%d %H:%M')`,
      `iso` is `isoformat()`. */
  datatype Formats = Formats(
    clock: Timestamp -> string,
    stamp: Timestamp -> string,
    iso: Timestamp -> string)
}
