/** The `/api/search` handler (main.py:119-135): the status decision and the body
    sent with it. The handler's JSON serialization is left to the framework. */
module Routes {
  import opened Wrappers
  import opened Strings
  import opened Records
  import opened Fetcher
  import opened Ranking
  import opened Comparison

  /** A JSON reply body: an `{"error": ...}` object or the list of results. */
  datatype Body = ErrorBody(error: string) | ResultsBody(results: seq<AnnotatedResult>)

  /** An HTTP reply: status code and JSON body. */
  datatype Reply = Reply(status: int, body: Body)

  const NoQueryMessage: string := "No search query provided."

  /** The 404 message, naming the query. */
  function NoDataMessage(query: string): string {
    "No live price data found for '" + query + "'. Please try a different product."
  }

  /** Python's truth test on `request.args.get('product')`: present and non-empty. */
  predicate HasQuery(product: Option<string>) {
    product.Some? && product.value != ""
  }

  /** `api_search`: 400 without a query, 404 when the comparison gives `None` or an
      empty list, 200 with the results otherwise. The upstream answer for the
      query is the `upstream` argument. */
  function ApiSearch(cfg: Config, product: Option<string>, upstream: Upstream, parse: string -> Option<real>)
    : (r: Result<Reply, Uncaught>)
    ensures !HasQuery(product) ==> r == Success(Reply(400, ErrorBody(NoQueryMessage)))
    ensures r.Success? ==> r.value.status in {200, 400, 404}
    ensures r.Failure? ==> HasQuery(product)
    ensures r.Success? && r.value.status == 404 ==>
      HasQuery(product) && r.value.body == ErrorBody(NoDataMessage(product.value))
    ensures r.Success? && r.value.status == 200 ==>
      && r.value.body.ResultsBody?
      && CompareAndOutput(cfg, upstream, parse) == Success(Some(r.value.body.results))
      && |r.value.body.results| > 0
      && Sorted(r.value.body.results)
  {
    if !HasQuery(product) then Success(Reply(400, ErrorBody(NoQueryMessage)))
    else
      match CompareAndOutput(cfg, upstream, parse)
      case Failure(e) => Failure(e)
      case Success(results) =>
        if results.None? || results.value == [] then
          Success(Reply(404, ErrorBody(NoDataMessage(product.value))))
        else
          Success(Reply(200, ResultsBody(results.value)))
  }

  /** The status decision in terms of the request and the upstream answer:
      400 exactly without a query; an exception exactly when a key is set but the
      base URL has no `//`; 404 exactly when nothing usable was fetched; 200
      exactly when some item's price parses. */
  lemma ApiSearchStatus(cfg: Config, product: Option<string>, upstream: Upstream, parse: string -> Option<real>)
    ensures var r := ApiSearch(cfg, product, upstream, parse);
      && (r == Success(Reply(400, ErrorBody(NoQueryMessage))) <==> !HasQuery(product))
      && (r.Failure? <==> HasQuery(product) && HasKey(cfg) && Find(cfg.baseUrl, "//").None?)
      && (r.Success? && r.value.status == 404 <==>
            && HasQuery(product)
            && (|| !HasKey(cfg)
                || (&& Find(cfg.baseUrl, "//").Some?
                    && (upstream.RequestFailed? || !AnyParses(upstream.results.GetOr([]), parse)))))
      && (r.Success? && r.value.status == 200 <==>
            && HasQuery(product) && HasKey(cfg) && Find(cfg.baseUrl, "//").Some?
            && upstream.Answered? && AnyParses(upstream.results.GetOr([]), parse))
  {
    CompareNoneExactlyWhenNothingFetched(cfg, upstream, parse);
  }
}
