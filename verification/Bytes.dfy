/** Bytes and the numbers they stand for. */
module Bytes {
  type byte = bv8

  lemma ByteRoundTrip(n: nat)
    requires n < 256
    ensures (n as byte) as nat == n
  {
  }

  lemma ByteOf(b: byte)
    ensures (b as nat) < 256 && (b as nat) as byte == b
  {
  }
}
