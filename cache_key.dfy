/**
  The Redis key under which answer_query caches an answer: the prefix "rag:"
  followed by the hex SHA-256 digest of the UTF-8 bytes of `source:question`.
  The digest is a parameter; nothing is normalised (case, whitespace).
*/
module CacheKeys {
  import opened Wrappers

  const CachePrefix: string := "rag:"
  const Separator: char := ':'

  /** The text that is hashed: the source, one colon, the question. */
  function KeyBasis(source: string, question: string): (basis: string)
    ensures |basis| == |source| + 1 + |question|
    ensures basis[|source|] == Separator
  {
    source + [Separator] + question
  }

  /** The cache key for a (source, question) pair; a function, so the same pair always gives the same key. */
  function CacheKey(digest: string -> string, source: string, question: string): (key: string)
    ensures |key| == |CachePrefix| + |digest(KeyBasis(source, question))|
    ensures key[..|CachePrefix|] == CachePrefix
    ensures key[|CachePrefix|..] == digest(KeyBasis(source, question))
  {
    CachePrefix + digest(KeyBasis(source, question))
  }

  /** What hexdigest() of SHA-256 yields: 64 lower-case hexadecimal characters. */
  ghost predicate IsHexDigest(d: string)
  {
    |d| == 64 && forall i :: 0 <= i < |d| ==> d[i] in "0123456789abcdef"
  }

  /** With a SHA-256-shaped digest every key is 68 characters long and made of the prefix and hex digits. */
  lemma CacheKeyShape(digest: string -> string, source: string, question: string)
    requires IsHexDigest(digest(KeyBasis(source, question)))
    ensures |CacheKey(digest, source, question)| == 68
    ensures CacheKey(digest, source, question)[4..] == digest(KeyBasis(source, question))
  {
  }

  /** Position of the first occurrence of `c`. */
  function IndexOf(s: string, c: char): (i: nat)
    requires c in s
    ensures i < |s| && s[i] == c
    ensures c !in s[..i]
  {
    if s[0] == c then 0 else 1 + IndexOf(s[1..], c)
  }

  /**
    Splits a key basis at its first colon: the reading of the basis that is
    right whenever the source tag holds no colon.
  */
  function SplitBasis(basis: string): Option<(string, string)>
  {
    if Separator in basis then
      var i := IndexOf(basis, Separator);
      Some((basis[..i], basis[i + 1..]))
    else
      None
  }

  /** A source without a colon can be read back from the key basis, and so can the question. */
  lemma KeyBasisRoundTrip(source: string, question: string)
    requires Separator !in source
    ensures SplitBasis(KeyBasis(source, question)) == Some((source, question))
  {
    var basis := KeyBasis(source, question);
    assert basis[..|source|] == source;
    var i := IndexOf(basis, Separator);
    assert i == |source| by {
      assert basis[|source|] == Separator;
      assert basis[..i] == source[..i];
    }
    assert basis[i + 1..] == question;
  }

  /** Hence two colon-free sources give different key bases for different pairs. */
  lemma KeyBasisInjective(s1: string, q1: string, s2: string, q2: string)
    requires Separator !in s1 && Separator !in s2
    requires KeyBasis(s1, q1) == KeyBasis(s2, q2)
    ensures s1 == s2 && q1 == q2
  {
    KeyBasisRoundTrip(s1, q1);
    KeyBasisRoundTrip(s2, q2);
  }

  /** The basis is not injective in general: a colon inside the source tag moves the boundary. */
  lemma KeyBasisCollision(digest: string -> string)
    ensures KeyBasis("a:b", "c") == KeyBasis("a", "b:c")
    ensures CacheKey(digest, "a:b", "c") == CacheKey(digest, "a", "b:c")
  {
  }

  /**
    Nothing is normalised before hashing: questions differing only in case
    give different bases, so their keys coincide only if the digest itself
    collides on them.
  */
  lemma CacheKeyCaseSensitive(digest: string -> string)
    ensures KeyBasis("all", "Foo?") != KeyBasis("all", "foo?")
    ensures CacheKey(digest, "all", "Foo?") == CacheKey(digest, "all", "foo?") <==>
            digest(KeyBasis("all", "Foo?")) == digest(KeyBasis("all", "foo?"))
  {
    assert KeyBasis("all", "Foo?")[4] != KeyBasis("all", "foo?")[4];
    var a, b := CacheKey(digest, "all", "Foo?"), CacheKey(digest, "all", "foo?");
    if a == b {
      assert a[|CachePrefix|..] == b[|CachePrefix|..];
    }
  }
}
