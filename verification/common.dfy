/** What several components share. */
module Common {
  /** A value that may be missing: nil pointers, SQL NULL, absent parameters and failed reads. */
  datatype Option<T> = None | Some(value: T)

  datatype ClusterId = ClusterId(id: string)

  function Min(a: int, b: int): int { if a <= b then a else b }
}
