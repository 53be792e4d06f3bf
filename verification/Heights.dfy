/** Block heights with a revision number. */
module Heights {
  import Varint

  type Uint64 = Varint.Uint64

  /** Ordered by revision first. */
  datatype Height = Height(revision: Uint64, height: Uint64) {
    predicate Less(other: Height) {
      revision < other.revision || (revision == other.revision && height < other.height)
    }
  }

  const ZERO_HEIGHT := Height(0, 0)
}
