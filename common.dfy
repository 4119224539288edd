/** Types shared by the components of the code execution tool. */
module Common {

  /** One byte of a socket payload or of a stream chunk. */
  newtype byte = x: int | 0 <= x < 256

  /** A Python value that may be `None`. */
  datatype Option<T> = None | Some(value: T)
}
