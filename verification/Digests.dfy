/** Content digests.  SHA-256 is taken to be injective: a well-formed digest is the term naming
    its preimage.  Any other string in a digest position is `Malformed`. */
module Digests {
  import opened Foundation

  datatype Digest = Sha256(preimage: Bytes) | Malformed(text: string)

  predicate ValidDigest(d: Digest) {
    d.Sha256?
  }

  predicate AllValid(ds: seq<Digest>) {
    forall d :: d in ds ==> ValidDigest(d)
  }
}
