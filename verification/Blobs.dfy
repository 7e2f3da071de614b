/** Immutable version blobs and their digests. */
module Blobs {

  newtype byte = x: int | 0 <= x < 256
  type Bytes = seq<byte>

  /** SHA-256, taken to be injective. */
  datatype Digest = Sha256(preimage: Bytes)

  /** The largest version number the eight-digit key field holds. */
  const MAX_VERSION := 99999999
}
