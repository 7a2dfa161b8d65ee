// SHA-256 (FIPS 180-4) as an unknown function to 64 hexadecimal characters.
module Digest {
  import opened Text

  type Hash = string -> string

  predicate IsHex(s: string) {
    |s| == 64 && forall c :: c in s ==> IsDigit(c) || 'a' <= c <= 'f'
  }

  // "0" * 64, the hash before the first record.
  function Genesis(): (s: string)
    ensures IsHex(s) && forall c :: c in s ==> c == '0'
  {
    seq(64, i => '0')
  }

  ghost predicate HexDigest(h: Hash) {
    forall text :: IsHex(h(text))
  }

  // The hash has no collision among these inputs.
  ghost predicate CollisionFreeOn(h: Hash, inputs: set<string>) {
    forall x, y :: x in inputs && y in inputs && h(x) == h(y) ==> x == y
  }

  // No input hashes to the chain's starting point.
  ghost predicate AvoidsGenesis(h: Hash, inputs: set<string>) {
    forall x :: x in inputs ==> h(x) != Genesis()
  }

  lemma HexIsPlain(s: string)
    requires IsHex(s)
    ensures '|' !in s && '\n' !in s && IsAscii(s)
  {}
}
