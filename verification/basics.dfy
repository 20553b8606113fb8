/** Small value types shared by every part of the hub model. */
module Basics {

  /** The source's `None`-or-value fields (`completion_time`, `latest_online_review`). */
  datatype Option<+T> = None | Some(value: T)

  /** A wall-clock reading. The page formats `datetime.now()` as an "HH:MM" string;
      the model takes that string as an opaque value supplied by the caller. */
  type Timestamp = string
}
