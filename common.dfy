/** Small value types shared by the modules of the worker model. */
module Common {

  /** std::uint32_t */
  newtype u32 = x: int | 0 <= x < 0x1_0000_0000

  /** std::uint64_t */
  newtype u64 = x: int | 0 <= x < 0x1_0000_0000_0000_0000

  datatype Option<T> = None | Some(value: T)

  datatype Result<T, E> = Ok(value: T) | Err(error: E)
}
