/** Versions of the prover as (major, minor, patch) triples, ordered by
    the precedence of section 11 of Semantic Versioning 2.0.0 for versions
    without pre-release or build parts: numerically, field by field. */
module SemVer {
  datatype Version = Version(major: nat, minor: nat, patch: nat)

  /** Precedence: the first differing field decides. */
  predicate Less(a: Version, b: Version)
  {
    a.major < b.major ||
    (a.major == b.major && (a.minor < b.minor || (a.minor == b.minor && a.patch < b.patch)))
  }

  /** `satisfies(v, ">= w")`. */
  predicate AtLeast(v: Version, w: Version)
  {
    !Less(v, w)
  }

  /** A version string "M.m" as the ranges above read it: "M.m.0". */
  function MinorVersion(major: nat, minor: nat): (r: Version)
    ensures r.patch == 0
  {
    Version(major, minor, 0)
  }

  /** Precedence is a strict total order. */
  lemma LessIsStrictTotalOrder(a: Version, b: Version, c: Version)
    ensures !Less(a, a)
    ensures Less(a, b) ==> !Less(b, a)
    ensures Less(a, b) && Less(b, c) ==> Less(a, c)
    ensures a == b || Less(a, b) || Less(b, a)
  {
  }
}
