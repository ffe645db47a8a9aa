/**
 * The telemetry hash chain: `head' = sha256(head || date || data_hash)`. The hash is a
 * parameter; lemmas that need it collision-free say so.
 */
module HashChain {
  type Hash = string

  /** A calendar day as the program stores it, YYYYMMDD. */
  type Date = nat

  type ChainStep = (Hash, Date, Hash) -> Hash

  /** One daily record as the chain commits to it. */
  datatype Entry = Entry(date: Date, dataHash: Hash)

  /** Head of an empty chain: 32 zero bytes in hex. */
  const EMPTY_HEAD: Hash := "0000000000000000000000000000000000000000000000000000000000000000"

  function Head(step: ChainStep, head: Hash, entries: seq<Entry>): Hash {
    if entries == [] then head
    else step(Head(step, head, entries[..|entries| - 1]), entries[|entries| - 1].date, entries[|entries| - 1].dataHash)
  }

  ghost predicate CollisionFree(step: ChainStep) {
    forall h, d, x, h', d', x' :: step(h, d, x) == step(h', d', x') ==> h == h' && d == d' && x == x'
  }

  lemma {:induction false} HeadConcat(step: ChainStep, head: Hash, a: seq<Entry>, b: seq<Entry>)
    ensures Head(step, head, a + b) == Head(step, Head(step, head, a), b)
  {
    if b == [] {
      assert a + b == a;
    } else {
      assert (a + b)[..|a + b| - 1] == a + b[..|b| - 1];
      HeadConcat(step, head, a, b[..|b| - 1]);
    }
  }

  /** The head after `n` days commits to every one of them, in order. */
  lemma {:induction false} HeadCommits(step: ChainStep, a: seq<Entry>, b: seq<Entry>, head: Hash)
    requires CollisionFree(step) && |a| == |b| && Head(step, head, a) == Head(step, head, b)
    ensures a == b
  {
    if a != [] {
      HeadCommits(step, a[..|a| - 1], b[..|b| - 1], head);
      assert a == a[..|a| - 1] + [a[|a| - 1]];
      assert b == b[..|b| - 1] + [b[|b| - 1]];
    }
  }

  ghost predicate Ascending(after: Date, entries: seq<Entry>) {
    && (forall i :: 0 <= i < |entries| ==> after < entries[i].date)
    && (forall i, j :: 0 <= i < j < |entries| ==> entries[i].date < entries[j].date)
  }
}
