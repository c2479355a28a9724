/**
 * Values shared by the region-side and the master-side observers of the
 * Themis coprocessor: an optional value (Java's nullable references), an
 * error-or-value outcome (Java's checked exceptions), the bounds of Java's
 * `int`, and the name of the family that holds Themis lock cells.
 */
module Common {

  /** A Java reference that may be null. */
  datatype Option<+T> = None | Some(value: T)

  /** The outcome of an operation that may throw. */
  datatype Result<+T, +E> = Ok(value: T) | Err(error: E)

  /** Java's `Integer.MAX_VALUE`. */
  const IntMax: int := 0x7fff_ffff

  /**
   * `ColumnUtil.LOCK_FAMILY_NAME`: the family reserved by Themis for lock
   * cells.
   */
  const LockFamilyName: string := "L"
}
