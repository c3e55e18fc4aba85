/** `PriceScout.fetch_prices` (main.py:24-84): the API-key guard and the
    normalization of the upstream answer. The HTTP request is
    not performed here; its outcome is the `Upstream` argument. */
module Fetcher {
  import opened Wrappers
  import opened Strings
  import opened Records
  import opened Host

  /** Python's truth test on `API_CONFIG.get('api_key')`: neither absent nor empty. */
  predicate HasKey(cfg: Config) {
    cfg.apiKey.Some? && cfg.apiKey.value != ""
  }

  // ---------------------------------------------------------------------------
  // Normalization
  // ---------------------------------------------------------------------------

  /** `float(result.get('new_price'))` succeeds: the key is present and the
      abstract parser `parse` accepts its text. */
  predicate Parses(item: RawItem, parse: string -> Option<real>) {
    item.newPrice.Some? && parse(item.newPrice.value).Some?
  }

  /** The record built for one surviving item; `url` defaults to `"#"`. */
  function NormalizeItem(item: RawItem, parse: string -> Option<real>): NormalizedResult
    requires Parses(item, parse)
  {
    NormalizedResult(Coles, parse(item.newPrice.value).value, item.url.GetOr("#"))
  }

  /** The normalization loop: each item whose price parses is appended to the
      output, the others are skipped. */
  function Normalize(items: seq<RawItem>, parse: string -> Option<real>): (r: seq<NormalizedResult>)
    ensures |r| <= |items|
    ensures forall k :: 0 <= k < |r| ==> r[k].platform == Coles
    ensures r == [] <==> forall i :: 0 <= i < |items| ==> !Parses(items[i], parse)
    decreases |items|
  {
    if items == [] then []
    else
      var last := items[|items| - 1];
      var front := Normalize(items[..|items| - 1], parse);
      assert forall i :: 0 <= i < |items| - 1 ==> items[..|items| - 1][i] == items[i];
      front + (if Parses(last, parse) then [NormalizeItem(last, parse)] else [])
  }

  /** The positions of the items whose price parses, in increasing order. */
  function KeptIndices(items: seq<RawItem>, parse: string -> Option<real>): (ks: seq<nat>)
    ensures forall k :: 0 <= k < |ks| ==> ks[k] < |items| && Parses(items[ks[k]], parse)
    ensures forall i :: 0 <= i < |items| && Parses(items[i], parse) ==> i in ks
    ensures forall k, l :: 0 <= k < l < |ks| ==> ks[k] < ks[l]
    decreases |items|
  {
    if items == [] then []
    else
      var n := |items| - 1;
      var front := KeptIndices(items[..n], parse);
      assert forall i :: 0 <= i < n ==> items[..n][i] == items[i];
      front + (if Parses(items[n], parse) then [n] else [])
  }

  /** Normalization keeps exactly the items whose price parses, in their original
      relative order, and builds each survivor's record from that item alone. */
  lemma {:induction false} NormalizeKeepsParsedInOrder(items: seq<RawItem>, parse: string -> Option<real>)
    ensures var ks := KeptIndices(items, parse);
      && |Normalize(items, parse)| == |ks|
      && forall k :: 0 <= k < |ks| ==>
           Normalize(items, parse)[k] == NormalizeItem(items[ks[k]], parse)
    decreases |items|
  {
    if items != [] {
      var n := |items| - 1;
      var prefix := items[..n];
      NormalizeKeepsParsedInOrder(prefix, parse);
      var fks := KeptIndices(prefix, parse);
      var ks := KeptIndices(items, parse);
      var front := Normalize(prefix, parse);
      assert ks[..|fks|] == fks;
      assert Normalize(items, parse)[..|front|] == front;
      forall k | 0 <= k < |ks|
        ensures Normalize(items, parse)[k] == NormalizeItem(items[ks[k]], parse)
      {
        if k < |fks| {
          assert prefix[fks[k]] == items[fks[k]];
        }
      }
    }
  }

  /** Each kept record carries the platform label, the parsed price and the URL
      (or `"#"` when the item has no `url`). */
  lemma NormalizedRecordFields(item: RawItem, parse: string -> Option<real>)
    requires Parses(item, parse)
    ensures var n := NormalizeItem(item, parse);
      && n.platform == "coles"
      && Some(n.price) == parse(item.newPrice.value)
      && (item.url.Some? ==> n.linkBase == item.url.value)
      && (item.url.None? ==> n.linkBase == "#")
  {
  }

  // ---------------------------------------------------------------------------
  // fetch_prices
  // ---------------------------------------------------------------------------

  /** `fetch_prices`: without a key it returns `[]` before anything else runs;
      otherwise the host header is derived (and may raise), and the upstream
      outcome is normalized, a failed request giving `[]`. */
  function FetchPrices(cfg: Config, upstream: Upstream, parse: string -> Option<real>)
    : (r: Result<seq<NormalizedResult>, Uncaught>)
    ensures !HasKey(cfg) ==> r == Success([])
    ensures HasKey(cfg) ==> (r.Failure? <==> Find(cfg.baseUrl, "//").None?)
    ensures r.Success? && upstream.RequestFailed? ==> r.value == []
    ensures r.Success? && upstream.Answered? && upstream.results.None? ==> r.value == []
    ensures HasKey(cfg) && r.Success? && upstream.Answered? ==>
      r.value == Normalize(upstream.results.GetOr([]), parse)
  {
    if !HasKey(cfg) then Success([])
    else
      match HostHeader(cfg.baseUrl)
      case Failure(e) => Failure(e)
      case Success(_) =>
        match upstream
        case RequestFailed => Success([])
        case Answered(results) => Success(Normalize(results.GetOr([]), parse))
  }
}
