/** The registration proof of work (`solve_pow`, examples/python/lais_vegas.py):
    the least nonce whose digest, taken over the seed followed by the nonce's
    decimal rendering, starts with the target prefix. The digest (SHA-256 as a
    hex string) is a parameter of the model. */
module ProofOfWork {
  import opened Decimal

  /** Nonce `n` solves the challenge. */
  predicate Accepts(hash: string -> string, seed: string, targetPrefix: string, n: nat) {
    targetPrefix <= hash(seed + NatToString(n))
  }

  /** `n` solves the challenge and no smaller nonce does. */
  predicate IsLeastNonce(hash: string -> string, seed: string, targetPrefix: string, n: nat) {
    Accepts(hash, seed, targetPrefix, n) &&
    forall k: nat :: k < n ==> !Accepts(hash, seed, targetPrefix, k)
  }

  /** Tries 0, 1, 2, ... and returns the decimal rendering of the first nonce
      that is accepted. The search ends only when some nonce is accepted. */
  method SolvePow(seed: string, targetPrefix: string, hash: string -> string) returns (proof: string)
    requires exists n: nat :: Accepts(hash, seed, targetPrefix, n)
    ensures exists n: nat :: IsLeastNonce(hash, seed, targetPrefix, n) && proof == NatToString(n)
    ensures targetPrefix == "" ==> proof == "0"
  {
    ghost var bound: nat :| Accepts(hash, seed, targetPrefix, bound);
    var nonce: nat := 0;
    while !(targetPrefix <= hash(seed + NatToString(nonce)))
      invariant nonce <= bound
      invariant forall k: nat :: k < nonce ==> !Accepts(hash, seed, targetPrefix, k)
      decreases bound - nonce
    {
      nonce := nonce + 1;
    }
    assert IsLeastNonce(hash, seed, targetPrefix, nonce);
    assert targetPrefix == "" ==> Accepts(hash, seed, targetPrefix, 0);
    proof := NatToString(nonce);
  }

  /** The least accepted nonce is unique: the proof depends only on the seed,
      the prefix and the digest. */
  lemma LeastNonceIsUnique(hash: string -> string, seed: string, targetPrefix: string, m: nat, n: nat)
    requires IsLeastNonce(hash, seed, targetPrefix, m)
    requires IsLeastNonce(hash, seed, targetPrefix, n)
    ensures m == n
  {
  }
}
