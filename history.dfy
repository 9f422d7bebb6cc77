/** The bounded, most-recent-first list of previous rounds: the entry list is
    popped (oldest dropped) when it holds more than `limit` entries, then the
    new entry is put at the front. The server keeps it with limit 15, the
    client with limit 50. */
module History {

  /** The list after one insertion. */
  function PushBounded<T>(h: seq<T>, x: T, limit: nat): (r: seq<T>)
    ensures |r| > 0 && r[0] == x
    ensures r[1..] <= h
    ensures |r| == if |h| > limit then |h| else |h| + 1
  {
    if |h| > limit then [x] + h[..|h| - 1] else [x] + h
  }

  /** The list after inserting each of xs in turn, the last of xs last. */
  function PushAll<T>(h: seq<T>, xs: seq<T>, limit: nat): (r: seq<T>)
    decreases |xs|
  {
    if xs == [] then h else PushBounded(PushAll(h, xs[..|xs| - 1], limit), xs[|xs| - 1], limit)
  }

  /** A list that starts within limit + 1 entries stays within it. */
  lemma {:induction false} PushAllBounded<T>(h: seq<T>, xs: seq<T>, limit: nat)
    requires |h| <= limit + 1
    ensures |PushAll(h, xs, limit)| <= limit + 1
    decreases |xs|
  {
    if xs != [] {
      PushAllBounded(h, xs[..|xs| - 1], limit);
    }
  }

  // Position k > 0 after one more insertion holds what position k - 1 held.
  lemma ShiftedByOne<T>(p: seq<T>, x: T, limit: nat, k: nat)
    requires 0 < k <= limit && k - 1 < |p|
    ensures k < |PushBounded(p, x, limit)| && PushBounded(p, x, limit)[k] == p[k - 1]
  {
    var r := PushBounded(p, x, limit);
    assert r[1..][k - 1] == r[k];
  }

  /** The list holds the last limit + 1 entries, newest first. */
  lemma {:induction false} PushAllNewestFirst<T>(h: seq<T>, xs: seq<T>, limit: nat, k: nat)
    requires k < |xs| && k <= limit
    ensures k < |PushAll(h, xs, limit)| && PushAll(h, xs, limit)[k] == xs[|xs| - 1 - k]
    decreases |xs|
  {
    var init := xs[..|xs| - 1];
    if k > 0 {
      PushAllNewestFirst(h, init, limit, k - 1);
      ShiftedByOne(PushAll(h, init, limit), xs[|xs| - 1], limit, k);
      assert init[|init| - 1 - (k - 1)] == xs[|xs| - 1 - k];
    }
  }

  /** An entry at position j moves back one place per insertion while within
      the limit. */
  lemma {:induction false} PushAllShift<T>(h: seq<T>, xs: seq<T>, limit: nat, x: T, j: nat, k: nat)
    requires j < |h| && h[j] == x && j + |xs| == k && k <= limit
    ensures k < |PushAll(h, xs, limit)| && PushAll(h, xs, limit)[k] == x
    decreases |xs|
  {
    if xs != [] {
      PushAllShift(h, xs[..|xs| - 1], limit, x, j, k - 1);
      ShiftedByOne(PushAll(h, xs[..|xs| - 1], limit), xs[|xs| - 1], limit, k);
    }
  }
}
