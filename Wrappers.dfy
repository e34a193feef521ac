/** A value that may be missing: Java's nullable references (a `null` from Jedis, a failed parse). */
module Wrappers {

  datatype Option<+T> = None | Some(value: T)
}
