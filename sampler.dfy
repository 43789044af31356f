/**
 * The random-subset draw `rnd` of dov-bear/src/javascript/main.js.
 *
 * `rnd(range, total)` pushes 0 .. range-1 into an array, swaps every
 * position i with a random position in [0, range), and returns
 * `splice(0, total)` of the result.  The calls to `Math.random` are
 * replaced by `picks`: the index each swap iteration drew, supplied by
 * the caller.
 */
module Sampler {

  /** How many times the push loop runs: `range` times, and never when range <= 0. */
  function PoolSize(range: int): (n: nat)
    ensures n == range || (range <= 0 && n == 0)
  {
    if range <= 0 then 0 else range
  }

  /** The array the first loop builds: iteration i pushes i. */
  function Iota(n: nat): (r: seq<int>)
    ensures |r| == n
    ensures forall k :: 0 <= k < n ==> r[k] == k
  {
    if n == 0 then [] else Iota(n - 1) + [n - 1]
  }

  /** No id occurs twice. */
  predicate Distinct(s: seq<int>)
  {
    forall i, j :: 0 <= i < j < |s| ==> s[i] != s[j]
  }

  /** Every id lies in [0, n). */
  predicate InPool(s: seq<int>, n: int)
  {
    forall k :: 0 <= k < |s| ==> 0 <= s[k] < n
  }

  /**
   * What `Math.floor(Math.random() * range)` can deliver: one index per
   * iteration of the swap loop, each in [0, n).
   */
  predicate ValidPicks(picks: seq<int>, n: nat)
  {
    |picks| == n && forall k :: 0 <= k < n ==> 0 <= picks[k] < n
  }

  /** `Math.floor(r * n)` for `r` in [0, 1) and n > 0 is an index in [0, n). */
  lemma FloorDrawInPool(r: real, n: nat)
    requires 0.0 <= r < 1.0 && n > 0
    ensures 0 <= (r * n as real).Floor < n
  {
  }

  /** Every index d in [0, n) is `Math.floor(r * n)` for some r in [0, 1), namely d / n. */
  lemma FloorDrawReaches(d: int, n: nat)
    requires 0 <= d < n
    ensures var r := d as real / n as real;
      0.0 <= r < 1.0 && (r * n as real).Floor == d
  {
  }

  /** One iteration of the swap loop, through the temporary `t`. */
  function Swap(s: seq<int>, i: nat, j: nat): (r: seq<int>)
    requires i < |s| && j < |s|
    ensures |r| == |s| && r[i] == s[j] && r[j] == s[i]
    ensures forall k :: 0 <= k < |s| && k != i && k != j ==> r[k] == s[k]
  {
    s[i := s[j]][j := s[i]]
  }

  /** A swap only rearranges: the multiset of ids is unchanged. */
  lemma SwapPermutes(s: seq<int>, i: nat, j: nat)
    requires i < |s| && j < |s|
    ensures multiset(Swap(s, i, j)) == multiset(s)
  {
  }

  /** The array after the first k iterations of the swap loop. */
  function Shuffled(s: seq<int>, picks: seq<int>, k: nat): (r: seq<int>)
    requires k <= |s| && k <= |picks|
    requires forall m :: 0 <= m < |picks| ==> 0 <= picks[m] < |s|
    ensures |r| == |s|
  {
    if k == 0 then s else Swap(Shuffled(s, picks, k - 1), k - 1, picks[k - 1])
  }

  /** Any number of swap iterations leaves a rearrangement of the starting array. */
  lemma {:induction false} ShuffledPermutes(s: seq<int>, picks: seq<int>, k: nat)
    requires k <= |s| && k <= |picks|
    requires forall m :: 0 <= m < |picks| ==> 0 <= picks[m] < |s|
    ensures multiset(Shuffled(s, picks, k)) == multiset(s)
  {
    if k > 0 {
      var before := Shuffled(s, picks, k - 1);
      calc {
        multiset(Shuffled(s, picks, k));
        multiset(Swap(before, k - 1, picks[k - 1]));
        { SwapPermutes(before, k - 1, picks[k - 1]); }
        multiset(before);
        { ShuffledPermutes(s, picks, k - 1); }
        multiset(s);
      }
    }
  }

  /**
   * How many elements `splice(0, total)` removes from an array of length
   * len: a negative deleteCount removes nothing, one beyond the end
   * removes everything.
   */
  function SpliceCount(total: int, len: nat): (c: nat)
    ensures c <= len
    ensures total <= 0 ==> c == 0
    ensures 0 <= total <= len ==> c == total
    ensures len <= total ==> c == len
  {
    if total < 0 then 0 else if total > len then len else total
  }

  /** The value `rnd(range, total)` returns when its swaps drew `picks`. */
  function Sample(range: int, total: int, picks: seq<int>): (dovs: seq<int>)
    requires ValidPicks(picks, PoolSize(range))
    ensures |dovs| == SpliceCount(total, PoolSize(range))
    ensures dovs <= Shuffled(Iota(PoolSize(range)), picks, PoolSize(range))
  {
    var n := PoolSize(range);
    Shuffled(Iota(n), picks, n)[..SpliceCount(total, n)]
  }

  /** In a sequence without repeats an id occurs once or not at all. */
  lemma {:induction false} DistinctMultiplicity(s: seq<int>, v: int)
    requires Distinct(s)
    ensures multiset(s)[v] == if v in s then 1 else 0
  {
    if s != [] {
      var last := |s| - 1;
      assert s == s[..last] + [s[last]];
      assert Distinct(s[..last]);
      DistinctMultiplicity(s[..last], v);
      assert s[last] !in s[..last];
      assert v in s <==> v in s[..last] || v == s[last];
    }
  }

  /** An id at two positions occurs at least twice. */
  lemma RepeatMultiplicity(s: seq<int>, i: nat, j: nat)
    requires i < j < |s| && s[i] == s[j]
    ensures multiset(s)[s[i]] >= 2
  {
    var front, back := s[..j], s[j..];
    assert s == front + back;
    assert s[i] == front[i];
    assert s[j] == back[0];
    assert multiset(front)[s[i]] >= 1;
    assert multiset(back)[s[i]] >= 1;
  }

  /** A rearrangement of 0 .. n-1 holds each of them exactly once. */
  lemma PermutationOfIota(s: seq<int>, n: nat)
    requires multiset(s) == multiset(Iota(n))
    ensures |s| == n && Distinct(s) && InPool(s, n)
    ensures forall v :: v in s <==> 0 <= v < n
  {
    var pool := Iota(n);
    assert |s| == |multiset(s)| == |multiset(pool)| == n;
    assert Distinct(pool);
    forall v
      ensures v in s <==> 0 <= v < n
    {
      assert v in s <==> v in multiset(s);
      assert v in pool <==> v in multiset(pool);
      if 0 <= v < n {
        assert pool[v] == v;
      }
    }
    forall i, j | 0 <= i < j < |s|
      ensures s[i] != s[j]
    {
      if s[i] == s[j] {
        RepeatMultiplicity(s, i, j);
        DistinctMultiplicity(pool, s[i]);
        assert false;
      }
    }
    forall k | 0 <= k < |s|
      ensures 0 <= s[k] < n
    {
      assert s[k] in s;
    }
  }

  /** A prefix of a sequence without repeats, inside the pool, is again both. */
  lemma PrefixKeeps(s: seq<int>, c: nat, n: nat)
    requires c <= |s| && Distinct(s) && InPool(s, n)
    ensures Distinct(s[..c]) && InPool(s[..c], n)
  {
  }

  /**
   * The ids `rnd` returns: `min(total, range)` of them (none for a
   * negative total), pairwise distinct, each in [0, range), and exactly
   * the front of the shuffled array.
   */
  lemma SampleProperties(range: int, total: int, picks: seq<int>)
    requires ValidPicks(picks, PoolSize(range))
    ensures var n := PoolSize(range);
      var dovs := Sample(range, total, picks);
      |dovs| == SpliceCount(total, n) &&
      Distinct(dovs) && InPool(dovs, range) &&
      dovs == Shuffled(Iota(n), picks, n)[..|dovs|]
  {
    var n := PoolSize(range);
    var shuffled := Shuffled(Iota(n), picks, n);
    ShuffledPermutes(Iota(n), picks, n);
    PermutationOfIota(shuffled, n);
    PrefixKeeps(shuffled, SpliceCount(total, n), n);
  }

  /** Asking for the whole pool or more returns every id, each once. */
  lemma SampleFullPool(range: int, total: int, picks: seq<int>)
    requires ValidPicks(picks, PoolSize(range))
    requires total >= range
    ensures var dovs := Sample(range, total, picks);
      multiset(dovs) == multiset(Iota(PoolSize(range))) &&
      forall v :: v in dovs <==> 0 <= v < range
  {
    var n := PoolSize(range);
    var shuffled := Shuffled(Iota(n), picks, n);
    assert Sample(range, total, picks) == shuffled;
    ShuffledPermutes(Iota(n), picks, n);
    PermutationOfIota(shuffled, n);
  }

  /** `rnd(range, total)` with total <= 0 returns no ids. */
  lemma SampleEmpty(range: int, total: int, picks: seq<int>)
    requires ValidPicks(picks, PoolSize(range))
    requires total <= 0
    ensures Sample(range, total, picks) == []
  {
  }

  /**
   * `rnd` as written: a push loop, a swap loop over an array, and the
   * splice that cuts off the first `total` elements.
   */
  method Rnd(range: int, total: int, picks: seq<int>) returns (dovs: seq<int>)
    requires ValidPicks(picks, PoolSize(range))
    ensures dovs == Sample(range, total, picks)
    ensures |dovs| == SpliceCount(total, PoolSize(range))
    ensures Distinct(dovs) && InPool(dovs, range)
  {
    var n := PoolSize(range);
    // The pushes all come before any read, so the array is allocated at its final length.
    var nums := new int[n];
    var i := 0;
    while i < range
      invariant 0 <= i <= n
      invariant nums[..i] == Iota(i)
    {
      nums[i] := i;
      assert nums[..i + 1] == nums[..i] + [i];
      i := i + 1;
    }
    assert nums[..] == nums[..n];
    i := 0;
    while i < range
      invariant 0 <= i <= n
      invariant nums[..] == Shuffled(Iota(n), picks, i)
    {
      ghost var before := nums[..];
      var idx := picks[i];
      var t := nums[i];
      nums[i] := nums[idx];
      nums[idx] := t;
      assert nums[..] == Swap(before, i, idx);
      i := i + 1;
    }
    dovs := nums[..SpliceCount(total, n)];
    SampleProperties(range, total, picks);
  }
}
