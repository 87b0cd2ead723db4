/**
 * The bot's uses of Python's `random` module, with the randomness taken in as
 * explicit draws. Each function fails exactly where the library call raises.
 */
module Draws {
  import opened Collections

  /** `random.choice(s)`: raises IndexError on an empty sequence. */
  function Choice<T>(s: seq<T>, draw: nat): (r: Option<T>)
    ensures r.Some? <==> |s| > 0
    ensures r.Some? ==> r.value in s
  {
    if |s| == 0 then None else Some(s[draw % |s|])
  }

  /** `random.randint(lo, hi)`: a value in the closed range; raises ValueError when it is empty. */
  function RandInt(lo: int, hi: int, draw: nat): (r: Option<int>)
    ensures r.Some? <==> lo <= hi
    ensures r.Some? ==> lo <= r.value <= hi
  {
    if lo > hi then None else Some(lo + draw % (hi - lo + 1))
  }

  /** Every value of the range is some draw's outcome, so RandInt loses none of randint's behaviours. */
  lemma RandIntReachesAll(lo: int, hi: int, v: int)
    requires lo <= v <= hi
    ensures exists draw: nat :: RandInt(lo, hi, draw) == Some(v)
  {
    var draw: nat := v - lo;
    assert draw % (hi - lo + 1) == draw;
    assert RandInt(lo, hi, draw) == Some(v);
  }

  /**
   * `k` elements taken from distinct positions of `pool`: each draw picks one
   * of the positions not taken yet.
   */
  function SampleOf<T>(pool: seq<T>, k: nat, draws: seq<nat>): (r: seq<T>)
    requires k <= |pool|
    ensures |r| == k
    ensures multiset(r) <= multiset(pool)
    decreases k
  {
    if k == 0 then []
    else
      var i := (if draws == [] then 0 else draws[0]) % |pool|;
      var rest := pool[..i] + pool[i + 1..];
      assert pool == pool[..i] + [pool[i]] + pool[i + 1..];
      [pool[i]] + SampleOf(rest, k - 1, if draws == [] then [] else draws[1..])
  }

  /** `random.sample(pool, k)`: raises ValueError unless `0 <= k <= len(pool)`. */
  function Sample<T>(pool: seq<T>, k: int, draws: seq<nat>): (r: Option<seq<T>>)
    ensures r.Some? <==> 0 <= k <= |pool|
    ensures r.Some? ==> |r.value| == k && multiset(r.value) <= multiset(pool)
  {
    if 0 <= k <= |pool| then Some(SampleOf(pool, k, draws)) else None
  }

  /** A sample of a pool without repeated entries has no repeated entries. */
  lemma SampleDistinct<T>(pool: seq<T>, k: int, draws: seq<nat>)
    requires NoDuplicates(pool)
    requires Sample(pool, k, draws).Some?
    ensures NoDuplicates(Sample(pool, k, draws).value)
  {
    SubMultisetNoDuplicates(Sample(pool, k, draws).value, pool);
  }
}
