/** The shape of the protocol's identifiers. */
module Ids {
  import opened Bytes

  /** a-z or 2-7, the lowercase base32 alphabet. */
  predicate Base32Char(c: byte) {
    97 <= c <= 122 || 50 <= c <= 55
  }

  /** One letter, an underscore and `n` base32 characters. */
  predicate Shaped(b: bytes, letter: byte, n: nat) {
    |b| == n + 2 && b[0] == letter && b[1] == 95 && forall i :: 2 <= i < |b| ==> Base32Char(b[i])
  }

  predicate ValidGrantId(b: bytes) {
    Shaped(b, 103, 16)
  }

  predicate ValidAgentId(b: bytes) {
    Shaped(b, 97, 32)
  }

  predicate ValidHostId(b: bytes) {
    Shaped(b, 104, 32)
  }
}
