/** Constants that several components share. */
module Constants {
  const WORD64: nat := 0x1_0000_0000_0000_0000

  const MAX_RX_BURST: nat := 8
}
