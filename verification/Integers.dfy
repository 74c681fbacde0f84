/** The ranges of the machine integers. */
module Integers {
  const UINT64 := 0x1_0000_0000_0000_0000
  const INT64 := 0x8000_0000_0000_0000
}
