/** What several modules share. */
module Common {

  datatype Option<+T> = None | Some(value: T)

  /** One more than an unsigned 64-bit word can hold. */
  const TWO64: nat := 0x1_0000_0000_0000_0000
}
