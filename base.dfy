/** backend/auth/core/models/base.py: the clock used for every stored timestamp. */
module Base {

  /** A stored timestamp: `date_now` drops microseconds, so whole seconds since the epoch are exact. */
  type Time = int
}
