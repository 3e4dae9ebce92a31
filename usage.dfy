/** Token counts reported by the provider (src/usage.rs). */
module Usages {

  /** A signed 32-bit integer, the width of every count. */
  newtype i32 = x: int | -0x8000_0000 <= x < 0x8000_0000

  /** A plain record, passed through unchanged from provider to caller. */
  datatype Usage = Usage(promptTokens: i32, completionTokens: i32, totalTokens: i32)
}
