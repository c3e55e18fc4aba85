/** `PriceScout.compare_and_output` (main.py:94-110): fetch, then annotate every
    result, then rank by price; an empty fetch becomes `None`. */
module Comparison {
  import opened Wrappers
  import opened Strings
  import opened Records
  import opened Fetcher
  import opened Affiliate
  import opened Ranking

  /** Some item of `items` has a price that parses. */
  predicate AnyParses(items: seq<RawItem>, parse: string -> Option<real>) {
    exists i :: 0 <= i < |items| && Parses(items[i], parse)
  }

  /** The comparison: `None` for an empty fetch, otherwise the annotated results
      in ascending price order. An exception raised while fetching propagates. */
  function CompareAndOutput(cfg: Config, upstream: Upstream, parse: string -> Option<real>)
    : (r: Result<Option<seq<AnnotatedResult>>, Uncaught>)
    ensures r.Failure? <==> FetchPrices(cfg, upstream, parse).Failure?
    ensures r.Success? ==> (r.value.None? <==> FetchPrices(cfg, upstream, parse).value == [])
    ensures r.Success? && r.value.Some? ==>
      var fetched := FetchPrices(cfg, upstream, parse).value;
      && |r.value.value| == |fetched| > 0
      && Sorted(r.value.value)
      && multiset(r.value.value) == multiset(AnnotateAll(cfg.affiliateId, fetched))
      && forall p :: WithPrice(r.value.value, p) == WithPrice(AnnotateAll(cfg.affiliateId, fetched), p)
  {
    match FetchPrices(cfg, upstream, parse)
    case Failure(e) => Failure(e)
    case Success(all) =>
      if all == [] then Success(None)
      else Success(Some(Rank(AnnotateAll(cfg.affiliateId, all))))
  }

  /** The result is `None` exactly when nothing usable was fetched: no API key,
      a failed request, a missing `results` key, or no item whose price parses. */
  lemma CompareNoneExactlyWhenNothingFetched(cfg: Config, upstream: Upstream, parse: string -> Option<real>)
    ensures CompareAndOutput(cfg, upstream, parse) == Success(None) <==>
      || !HasKey(cfg)
      || (&& Find(cfg.baseUrl, "//").Some?
          && (upstream.RequestFailed? || !AnyParses(upstream.results.GetOr([]), parse)))
  {
  }

  /** Every output item is a fetched result with its affiliate link added, its
      other fields unchanged; and every fetched result appears, annotated. */
  lemma CompareAnnotatesEachFetched(cfg: Config, upstream: Upstream, parse: string -> Option<real>)
    ensures var r := CompareAndOutput(cfg, upstream, parse);
      r.Success? && r.value.Some? ==>
        var out := r.value.value;
        var fetched := FetchPrices(cfg, upstream, parse).value;
        && (forall k :: 0 <= k < |out| ==>
              && out[k].affiliateLink == CreateAffiliateLink(cfg.affiliateId, out[k].linkBase)
              && Forget(out[k]) in fetched)
        && (forall n :: n in fetched ==> Annotate(cfg.affiliateId, n) in out)
  {
    var r := CompareAndOutput(cfg, upstream, parse);
    if r.Success? && r.value.Some? {
      var out := r.value.value;
      var fetched := FetchPrices(cfg, upstream, parse).value;
      var annotated := AnnotateAll(cfg.affiliateId, fetched);
      assert multiset(out) == multiset(annotated);
      forall k | 0 <= k < |out|
        ensures out[k].affiliateLink == CreateAffiliateLink(cfg.affiliateId, out[k].linkBase)
        ensures Forget(out[k]) in fetched
      {
        assert out[k] in multiset(annotated);
        var j :| 0 <= j < |annotated| && annotated[j] == out[k];
        assert ForgetAll(annotated)[j] == fetched[j];
      }
      forall n | n in fetched
        ensures Annotate(cfg.affiliateId, n) in out
      {
        var j :| 0 <= j < |fetched| && fetched[j] == n;
        assert Forget(annotated[j]) == n;
        assert annotated[j] == Annotate(cfg.affiliateId, n);
        assert annotated[j] in multiset(out);
      }
    }
  }

  /** The output is the one stable ascending arrangement of the annotated results:
      what Python's `sorted` with a price key returns. */
  lemma CompareIsPythonSorted(cfg: Config, upstream: Upstream, parse: string -> Option<real>, t: seq<AnnotatedResult>)
    ensures var r := CompareAndOutput(cfg, upstream, parse);
      r.Success? && r.value.Some? ==>
        var annotated := AnnotateAll(cfg.affiliateId, FetchPrices(cfg, upstream, parse).value);
        Sorted(t) && (forall p :: WithPrice(t, p) == WithPrice(annotated, p)) ==> t == r.value.value
  {
    var r := CompareAndOutput(cfg, upstream, parse);
    if r.Success? && r.value.Some? {
      var annotated := AnnotateAll(cfg.affiliateId, FetchPrices(cfg, upstream, parse).value);
      if Sorted(t) && forall p :: WithPrice(t, p) == WithPrice(annotated, p) {
        RankIsTheStableSort(annotated, t);
      }
    }
  }
}
