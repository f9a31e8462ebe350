/** Types and constants shared by several components. */
module Basics {
  newtype Byte = b: int | 0 <= b < 256

  /** Where a flow was observed. */
  datatype Source = Packet | XFlow | EBPF | OTel

  /** How many items are gathered before they are sent on. */
  const QUEUE_BATCH_SIZE: nat := 1024

  function Min(a: int, b: int): int { if a < b then a else b }
}
