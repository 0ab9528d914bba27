/** Go value types that the model of package lsp needs. */
module GoTypes {

  /** Go's `uint32`, the width of tree-sitter's row and column fields. */
  newtype uint32 = x: int | 0 <= x < 0x1_0000_0000

  /** A Go pointer or interface that may be nil. */
  datatype Option<+T> = None | Some(value: T)
}
