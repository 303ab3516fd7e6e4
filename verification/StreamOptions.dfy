/** Options of a subscription: where to start, how much to send, and five flag bits. */
module StreamOptions {
  import opened ByteStrings

  type U64 = x: int | 0 <= x < 0x1_0000_0000_0000_0000

  const TAIL: U64 := 0xFFFF_FFFF_FFFF_FFFF

  const OPT_NONE: bv8 := 0
  const OPT_KEYS_ONLY: bv8 := 2
  const OPT_SKIP_FIRST: bv8 := 4
  const OPT_FROM_HEAD: bv8 := 8
  const OPT_FROM_GENESIS: bv8 := 16
  const OPT_FROM_INDEX: bv8 := 32

  datatype StreamOpts = StreamOpts(seek: Bytes, max: U64, flags: bv8) {
    predicate KeysOnly() { flags & OPT_KEYS_ONLY != 0 }
    predicate SkipFirst() { flags & OPT_SKIP_FIRST != 0 }
    predicate FromHead() { flags & OPT_FROM_HEAD != 0 }
    predicate FromGenesis() { flags & OPT_FROM_GENESIS != 0 }
    predicate FromIndex() { flags & OPT_FROM_INDEX != 0 }
  }

  /** The tail is no limit. */
  lemma TailIsNoLimit(m: U64)
    ensures m <= TAIL
  {
  }
}
