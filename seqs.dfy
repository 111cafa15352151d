/** Facts about sequences that the proofs elsewhere need, stated once and
    for any element type: proved here, away from the definitions they are
    used next to, they stay cheap to check. */
module Seqs {

  lemma EmptyAppend<A>(s: seq<A>)
    ensures [] + s == s
  {
  }

  lemma AppendEmpty<A>(s: seq<A>)
    ensures s + [] == s
  {
  }

  lemma AppendAssoc<A>(a: seq<A>, b: seq<A>, c: seq<A>)
    ensures (a + b) + c == a + (b + c)
  {
  }

  lemma TakeAll<A>(s: seq<A>)
    ensures s[..|s|] == s
  {
  }

  lemma TakeTake<A>(s: seq<A>, m: nat, n: nat)
    requires m <= n <= |s|
    ensures s[..n][..m] == s[..m]
  {
  }

  /** The first `n + 1` elements are the first `n` and then element `n`. */
  lemma TakeSnoc<A>(s: seq<A>, n: nat)
    requires n < |s|
    ensures s[..n] + [s[n]] == s[..n + 1]
  {
  }

  /** Dropping the element just appended gives the sequence back. */
  lemma InitOfSnoc<A>(s: seq<A>, x: A)
    ensures (s + [x])[..|s|] == s
    ensures (s + [x])[|s|] == x
  {
  }

  /** The last element of `a + b` is the last of `b`, and what precedes it is
      `a` and the rest of `b`. */
  lemma InitOfAppend<A>(a: seq<A>, b: seq<A>)
    requires |b| > 0
    ensures (a + b)[..|a + b| - 1] == a + b[..|b| - 1]
    ensures (a + b)[|a + b| - 1] == b[|b| - 1]
  {
  }
}
