/**
 * The key under which the replay guard remembers a consumed authorization:
 * the lower-cased signer, a colon, and the nonce exactly as submitted.
 */
module ReplayGuard {
  import opened Text

  function NonceKey(from: string, nonce: string): (key: string)
    ensures |key| == |from| + 1 + |nonce|
    ensures key[|from|] == ':' && key[|from| + 1..] == nonce
    ensures forall i :: 0 <= i < |from| ==> key[i] == LowerChar(from[i])
  {
    Lower(from) + ":" + nonce
  }

  /** Signers that differ only in letter case share a key. */
  lemma KeyIgnoresSignerCase(from1: string, from2: string, nonce: string)
    requires EqualsIgnoreCase(from1, from2)
    ensures NonceKey(from1, nonce) == NonceKey(from2, nonce)
  {
  }

  /**
   * The nonce is not case-folded: for one signer, two nonces that differ in any way,
   * letter case included, give two keys.
   */
  lemma KeySeparatesNonces(from: string, nonce1: string, nonce2: string)
    requires nonce1 != nonce2
    ensures NonceKey(from, nonce1) != NonceKey(from, nonce2)
  {
  }

  /**
   * For signers without a colon (every well-formed address), the key determines the
   * lower-cased signer and the nonce: distinct pairs never collide.
   */
  lemma KeyDeterminesPair(from1: string, nonce1: string, from2: string, nonce2: string)
    requires ':' !in from1 && ':' !in from2
    requires NonceKey(from1, nonce1) == NonceKey(from2, nonce2)
    ensures EqualsIgnoreCase(from1, from2) && nonce1 == nonce2
  {
  }
}
