/** Ordering of the cookie domains: longer, more specific domains are tried
    first. */
module CookieDomains {
  /** Each domain is at least as long as the one after it. */
  predicate LongestFirst(ds: seq<string>)
    decreases |ds|
  {
    |ds| <= 1 || (|ds[0]| >= |ds[1]| && LongestFirst(ds[1..]))
  }

  /** A longest-first list orders every pair of domains, not only
      neighbours: no domain is shorter than one that comes after it. */
  lemma {:induction false} LongestFirstPairwise(ds: seq<string>)
    requires LongestFirst(ds)
    ensures forall i, j | 0 <= i < j < |ds| :: |ds[i]| >= |ds[j]|
    decreases |ds|
  {
    if |ds| > 1 {
      var tail := ds[1..];
      LongestFirstPairwise(tail);
      forall i, j | 0 <= i < j < |ds| ensures |ds[i]| >= |ds[j]| {
        if i > 0 {
          assert ds[i] == tail[i - 1] && ds[j] == tail[j - 1];
        } else if j > 1 {
          assert ds[1] == tail[0] && ds[j] == tail[j - 1];
        }
      }
    }
  }

  /** Places `d` into a longest-first list, after every domain at least as
      long as it. */
  function Insert(d: string, ds: seq<string>): (r: seq<string>)
    requires LongestFirst(ds)
    ensures LongestFirst(r)
    ensures |r| == |ds| + 1 && (r[0] == d || (ds != [] && r[0] == ds[0]))
  {
    if ds == [] || |ds[0]| < |d| then [d] + ds
    else
      var rest := Insert(d, ds[1..]);
      assert ([ds[0]] + rest)[1..] == rest;
      [ds[0]] + rest
  }

  /** Inserting adds `d` and loses nothing. */
  lemma {:induction false} InsertPermutes(d: string, ds: seq<string>)
    requires LongestFirst(ds)
    ensures multiset(Insert(d, ds)) == multiset(ds) + multiset{d}
    decreases |ds|
  {
    if ds != [] && |ds[0]| >= |d| {
      InsertPermutes(d, ds[1..]);
      assert ds == [ds[0]] + ds[1..];
    }
  }

  /** The domains reordered longest first. */
  function SortLongestFirst(ds: seq<string>): (r: seq<string>)
    ensures LongestFirst(r) && |r| == |ds|
  {
    if ds == [] then []
    else Insert(ds[0], SortLongestFirst(ds[1..]))
  }

  /** The sort is a permutation: every domain is kept, as often as it was
      given. */
  lemma {:induction false} SortPermutes(ds: seq<string>)
    ensures multiset(SortLongestFirst(ds)) == multiset(ds)
  {
    if ds != [] {
      SortPermutes(ds[1..]);
      InsertPermutes(ds[0], SortLongestFirst(ds[1..]));
      assert ds == [ds[0]] + ds[1..];
    }
  }
}
