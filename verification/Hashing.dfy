/**
 Byte strings, and SHA-256 as an unknown total function to 32 bytes.

 Nothing is assumed about the hash beyond the length of its result, so every theorem of this project
 holds for every such function.  Where the program relies on a hash being hard to collide, the theorem
 says: either the inputs are equal, or two different byte strings that were actually hashed on the way
 have the same digest.
 */
module Hashing {
  type byte = x: int | 0 <= x < 256
  type Bytes = seq<byte>
  type Bytes32 = b: Bytes | |b| == 32 witness seq(32, _ => 0)

  function Zeros(n: nat): Bytes {
    seq(n, _ => 0)
  }

  const ZERO_32: Bytes32 := Zeros(32)

  /** The value of this constant is left open: any function to 32 bytes will do. */
  const SHA256: Bytes -> Bytes32

  function Sha256(b: Bytes): (digest: Bytes32) {
    SHA256(b)
  }

  /** Two different strings with one digest. */
  predicate Clash(x: Bytes, y: Bytes) {
    x != y && Sha256(x) == Sha256(y)
  }

  /** Concatenations agree part by part when the first parts have the same length. */
  lemma SplitEqual(a: Bytes, b: Bytes, c: Bytes, d: Bytes)
    requires |a| == |c| && a + b == c + d
    ensures a == c && b == d
  {
    assert a == (a + b)[..|a|] && c == (c + d)[..|a|];
    assert b == (a + b)[|a|..] && d == (c + d)[|a|..];
  }
}
