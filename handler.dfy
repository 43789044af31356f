/**
 * The page handler of dov-bear/src/javascript/main.js: the sample size
 * taken from the `num` query parameter, the draw `rnd(14, total)`, and
 * one `add(1)` on the counter of every drawn image.
 */
module Handler {
  import opened Wrappers
  import opened JsValues
  import opened Sampler

  /** Images available, and so the pool size passed to `rnd` and the number of image counters. */
  const ImageCount := 14
  const DefaultNum := 4

  /**
   * `parseInt(req.query['num']) || 4`, where `parsed` is what `parseInt`
   * produced (`None` for NaN, which is also what an absent `num` gives).
   */
  function SampleCount(parsed: Option<int>): (total: int)
    ensures total != 0
    ensures parsed.Some? && parsed.value != 0 ==> total == parsed.value
    ensures parsed.None? || parsed.value == 0 ==> total == DefaultNum
  {
    match parsed
    case Some(n) => if n != 0 then n else DefaultNum
    case None => DefaultNum
  }

  /** SampleCount is the `||` of the parsed number and the literal 4. */
  lemma SampleCountIsOr(parsed: Option<int>)
    ensures Num(SampleCount(parsed)) == OrChain([Number(parsed), Num(DefaultNum)])
  {
  }

  /** `[...Array(14).keys()]`: the image number each counter is created for, by position. */
  function ImageNumbers(): (r: seq<int>)
    ensures |r| == ImageCount
    ensures forall k :: 0 <= k < ImageCount ==> r[k] == k
  {
    Iota(ImageCount)
  }

  /** The ids one page draws. */
  function PageIds(parsed: Option<int>, picks: seq<int>): (dovs: seq<int>)
    requires ValidPicks(picks, ImageCount)
    ensures |dovs| == SpliceCount(SampleCount(parsed), ImageCount)
  {
    Sample(ImageCount, SampleCount(parsed), picks)
  }

  /**
   * Every drawn id `v` names a counter: `imageCounters[v]` exists and was
   * created for image number v.
   */
  lemma DrawnIdsIndexCounters(parsed: Option<int>, picks: seq<int>)
    requires ValidPicks(picks, ImageCount)
    ensures forall v :: v in PageIds(parsed, picks) ==>
      0 <= v < |ImageNumbers()| && ImageNumbers()[v] == v
  {
    SampleProperties(ImageCount, SampleCount(parsed), picks);
  }

  /**
   * How many distinct images a page shows: `num` when 1 <= num <= 14,
   * 4 when `num` is absent, non-numeric or 0, all 14 when num > 14, and
   * none for a negative `num`.
   */
  lemma PageSize(parsed: Option<int>, picks: seq<int>)
    requires ValidPicks(picks, ImageCount)
    ensures var dovs := PageIds(parsed, picks);
      Distinct(dovs) && InPool(dovs, ImageCount) &&
      (parsed.None? ==> |dovs| == DefaultNum) &&
      (parsed.Some? && parsed.value == 0 ==> |dovs| == DefaultNum) &&
      (parsed.Some? && 0 < parsed.value <= ImageCount ==> |dovs| == parsed.value) &&
      (parsed.Some? && parsed.value > ImageCount ==> |dovs| == ImageCount) &&
      (parsed.Some? && parsed.value < 0 ==> dovs == [])
  {
    SampleProperties(ImageCount, SampleCount(parsed), picks);
  }

  /**
   * The fourteen `dovs` counters of the meter, each reduced to the sum
   * of the values added to it.
   */
  class ImageCounters {
    var sums: array<nat>

    /** `[...Array(14).keys()].map(i => meter.createCounter(...))` */
    constructor ()
      ensures fresh(sums) && sums.Length == ImageCount
      ensures forall k :: 0 <= k < ImageCount ==> sums[k] == 0
    {
      sums := new nat[ImageCount](_ => 0);
    }

    /**
     * `dovs.map(v => imageCounters[v].add(1, ...))`: counter k grows by
     * the number of times k occurs in `dovs`.  An id outside the array
     * would make `imageCounters[v]` undefined and the call throw.
     */
    method AddDraws(dovs: seq<int>)
      requires forall j :: 0 <= j < |dovs| ==> 0 <= dovs[j] < sums.Length
      modifies sums
      ensures forall k :: 0 <= k < sums.Length ==> sums[k] == old(sums[k]) + multiset(dovs)[k]
    {
      var i := 0;
      while i < |dovs|
        invariant 0 <= i <= |dovs|
        invariant forall k :: 0 <= k < sums.Length ==> sums[k] == old(sums[k]) + multiset(dovs[..i])[k]
      {
        assert dovs[..i + 1] == dovs[..i] + [dovs[i]];
        sums[dovs[i]] := sums[dovs[i]] + 1;
        i := i + 1;
      }
      assert dovs[..i] == dovs;
    }
  }

  /**
   * The `/` and `/index.html` handler, without rendering, timing and the
   * request counter: the ids shown are `rnd(14, total)` and every image
   * counter grows by one exactly when its image is among them.
   */
  method HandleIndex(counters: ImageCounters, parsed: Option<int>, picks: seq<int>) returns (dovs: seq<int>)
    requires counters.sums.Length == ImageCount
    requires ValidPicks(picks, ImageCount)
    modifies counters.sums
    ensures dovs == PageIds(parsed, picks)
    ensures forall k :: 0 <= k < ImageCount ==>
      counters.sums[k] == old(counters.sums[k]) + (if k in dovs then 1 else 0)
  {
    var total := SampleCount(parsed);
    dovs := Rnd(ImageCount, total, picks);
    counters.AddDraws(dovs);
    forall k | 0 <= k < ImageCount
      ensures multiset(dovs)[k] == if k in dovs then 1 else 0
    {
      DistinctMultiplicity(dovs, k);
    }
  }
}
