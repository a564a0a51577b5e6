/**
 * bcrypt as the user model uses it: `hash(value, rounds)` and `compare(candidate, digest)`.
 * The cipher is not modelled: a digest is a value that remembers what it was computed from.
 * What is modelled is the part callers can observe: bcrypt keys on at most 72 bytes of
 * the password, so only that prefix takes part in a comparison.
 */
module Bcrypt {

  /** The content of a stored password field: text as it was set, or a digest of an earlier value. */
  datatype Secret = Plain(text: string) | Digest(rounds: int, of: Secret)

  /** bcrypt reads at most this many bytes of a password (characters stand for bytes here). */
  const KeyLimit: nat := 72

  /** The part of a password bcrypt actually keys on. */
  function Significant(p: string): (k: string)
    ensures |k| <= KeyLimit && k <= p
    ensures |p| <= KeyLimit ==> k == p
  {
    if |p| <= KeyLimit then p else p[..KeyLimit]
  }

  /** bcrypt.hash(value, rounds): a digest of whatever the field currently holds. */
  function Hash(value: Secret, rounds: int): (h: Secret)
    ensures h.Digest? && h != value
  {
    var h := Digest(rounds, value);
    assert value < h;
    h
  }

  /** bcrypt.compare(candidate, stored): does `stored` digest a text with the same significant prefix? */
  predicate Compare(candidate: string, stored: Secret)
  {
    stored.Digest? && stored.of.Plain? && Significant(stored.of.text) == Significant(candidate)
  }

  /** For passwords within the key limit, comparison against a fresh digest is exactly equality. */
  lemma CompareHash(candidate: string, password: string, rounds: int)
    requires |candidate| <= KeyLimit && |password| <= KeyLimit
    ensures Compare(candidate, Hash(Plain(password), rounds)) <==> candidate == password
  {
  }

  /** A password always matches its own digest, whatever its length. */
  lemma CompareOwnHash(password: string, rounds: int)
    ensures Compare(password, Hash(Plain(password), rounds))
  {
  }

  /** Beyond the key limit, a different password with the same first 72 characters also matches. */
  lemma LongPasswordsCollide(password: string, other: string, rounds: int)
    requires |password| > KeyLimit && |other| > KeyLimit
    requires password[..KeyLimit] == other[..KeyLimit]
    ensures Compare(other, Hash(Plain(password), rounds))
  {
  }

  /** An unhashed value never compares equal: only digests verify. */
  lemma PlainNeverMatches(candidate: string, text: string)
    ensures !Compare(candidate, Plain(text))
  {
  }

  /** Hashing a digest again (a second save) locks the original password out. */
  lemma RehashLocksOut(password: string, rounds1: int, rounds2: int)
    ensures !Compare(password, Hash(Hash(Plain(password), rounds1), rounds2))
  {
  }
}
