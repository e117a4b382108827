/** Vocabulary shared by every module: Swift optionals and the fixed-width
    unsigned integers the source uses. */
module Types {

  /** Swift's `T?`. */
  datatype Option<T> = None | Some(value: T)

  /** Swift's `UInt8`: one byte of a `Data` buffer. */
  type byte = bv8

  /** Swift's `UInt16`: every port in the program. */
  type UInt16 = bv16
}
