/** Shared value types of the load balancer model. */
module Common {

  /** A value that may be absent: Python's `None` or a dictionary miss. */
  datatype Option<+T> = None | Some(value: T)

  /** One octet of an HTTP body. */
  newtype byte = b: int | 0 <= b < 256

  type Bytes = seq<byte>

  /** A URL or path, kept as text. */
  type Url = string
}
