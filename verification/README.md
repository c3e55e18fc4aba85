# PriceScout price-comparison pipeline, modelled in Dafny

This project models the core of the Dealscout backend. The core is the
`PriceScout` class and the `/api/search` handler in `main.py`. One request
does the following:

- checks that an API key is configured;
- derives the `X-RapidAPI-Host` header from the base URL;
- asks the external price API for the product;
- normalizes every upstream item whose `new_price` parses into
  `{platform: "coles", price, link_base}`;
- appends `&affid=<affiliate id>` to each link;
- sorts the results by ascending price, stably;
- maps the outcome to HTTP 400, 404 or 200.

The model is functional throughout: immutable records, pure functions and lemmas.

| file | module | models |
|---|---|---|
| `wrappers.dfy` | `Wrappers` | `Option` (Python `None`) and `Result` (a returned value or an escaping exception) |
| `strings.dfy` | `Strings` | substring search and Python's `str.split(sep)` |
| `records.dfy` | `Records` | configuration, raw upstream items, normalized and annotated results, the shipped constants |
| `host.dfy` | `Host` | the host header derivation, `base_url.split('//')[1].split('/')[0]` |
| `fetcher.dfy` | `Fetcher` | `fetch_prices`: the key guard and the normalization loop |
| `affiliate.dfy` | `Affiliate` | `create_affiliate_link` and the annotation loop |
| `ranking.dfy` | `Ranking` | `sorted(..., key=price)` as a stable insertion sort |
| `comparison.dfy` | `Comparison` | `compare_and_output` |
| `routes.dfy` | `Routes` | `api_search`'s status decision and reply body |
| `scenarios.dfy` | `Scenarios` | worked requests against the shipped configuration |

Inputs that the code gets from outside are parameters of the model:

- The HTTP request's outcome is the `Upstream` argument. It is either
  `RequestFailed` (any `RequestException`: timeout, connection error, 4xx/5xx
  status) or `Answered(results)`, where `results` is `None` when the JSON body
  has no `results` key.
- Python's `float()` is an abstract partial function `parse: string -> Option<real>`.
- The `RAPIDAPI_KEY` environment variable is the `apiKey` field of `Config`.

Prices are `real`. This assumes that prices are totally ordered.

The host derivation runs before the request's `try` block. On a base URL without
`//` its `IndexError` therefore escapes `fetch_prices`, `compare_and_output` and
`api_search`. The model returns it as `Failure(IndexError)`. With the shipped base
URL this cannot happen (`Host.DefaultHostHeader`).

Behaviour of the code worth noting:

- The key guard rejects an empty key as well as a missing one (Python's truth test).
- The 400 reply is given for an empty `product` as well as a missing one.

## Model

| member | source | states |
|---|---|---|
| `Strings.Split` | main.py:41 | Python's `str.split(sep)`: joining the pieces with `sep` gives back the string, no piece contains `sep`, every cut is at the leftmost occurrence of `sep` (no occurrence straddles a cut), and there is a single piece exactly when `sep` does not occur |
| `Strings.FirstCutIsLeftmost` | main.py:41 | the text before the first `sep`, followed by `sep`, has its first `sep` right after that text: the first cut of a split is where Python makes it |
| `Host.HostHeader` | main.py:41 | the header derivation raises `IndexError` exactly when the base URL contains no `//`; otherwise the header is the text right after the first `//`, running up to the next `/` or the end of the URL, and it contains no `/` |
| `Host.HostHeaderOfUrl` | main.py:41 | for any URL `scheme//host/path` whose scheme and host hold no `/`, the header is `host` |
| `Host.DefaultHostHeader` | main.py:14-22 | with the configured base URL the derivation does not raise and yields `coles-product-price-api.p.rapidapi.com` |
| `Fetcher.Normalize` | main.py:64-77 | at most one record per item; every record has platform `"coles"`; the output is empty exactly when no item's `new_price` parses |
| `Fetcher.KeptIndices` | main.py:64-70 | the positions kept are increasing, each holds an item whose price parses, and every item whose price parses is kept |
| `Fetcher.NormalizeKeepsParsedInOrder` | main.py:64-77 | the k-th record is built from the k-th item whose price parses: exactly the parseable items, in their original order |
| `Fetcher.NormalizedRecordFields` | main.py:73-77 | a kept record has platform `"coles"`, the parsed price, and `link_base` equal to the item's `url`, or `"#"` when `url` is absent |
| `Fetcher.FetchPrices` | main.py:24-84 | without a key (missing or empty) the result is `[]`, whatever the base URL and the upstream; with a key it raises exactly when the base URL lacks `//`; a failed request or a missing `results` key gives `[]`; otherwise it is the normalization of `results` |
| `Affiliate.CreateAffiliateLink` | main.py:86-92 | the link starts with the base link, the rest is exactly `&affid=` followed by the affiliate id, and the lengths add up |
| `Affiliate.StripCreate` | main.py:92 | removing the `&affid=<id>` suffix from a created link gives back the base link |
| `Affiliate.CreateStrip` | main.py:92 | any link that ends with `&affid=<id>` is the created link of what precedes that suffix |
| `Affiliate.CreateAffiliateLinkInjective` | main.py:92 | different base links give different affiliate links |
| `Affiliate.Annotate` | main.py:104-105 | annotation keeps platform, price and `link_base`, and its link strips back to `link_base` |
| `Affiliate.AnnotateAll` | main.py:103-105 | one annotated item per fetched result; dropping the links gives the fetched list back; each link is `create_affiliate_link(link_base)` |
| `Ranking.Insert` | main.py:108 | inserting into a sorted list keeps it sorted and adds exactly that element |
| `Ranking.Rank` | main.py:108 | the output is sorted by ascending price, is a permutation (same multiset) of the input, and for every price keeps the input order of the results with that price |
| `Ranking.InsertWithPrice` | main.py:108 | an inserted element lands before the elements that tie with it, and the order among the others is unchanged |
| `Ranking.SortedStableUnique` | main.py:108 | two sorted lists that agree on the order of every price class are equal |
| `Ranking.RankIsTheStableSort` | main.py:108 | any sorted list that keeps the input order within every price class equals `Rank` of the input: `Rank` is Python's stable `sorted` |
| `Comparison.CompareAndOutput` | main.py:94-110 | an exception from the fetch propagates; the result is `None` exactly when the fetch gave `[]`; otherwise it is non-empty, as long as the fetched list, sorted, a permutation of the annotated fetched list, and within each price keeps the order in which the upstream listed the results |
| `Comparison.CompareNoneExactlyWhenNothingFetched` | main.py:98-101 | `None` exactly when there is no key, or the URL is well formed and the request failed or no item's price parses |
| `Comparison.CompareAnnotatesEachFetched` | main.py:103-108 | each output item is a fetched result, unchanged, with `affiliate_link == create_affiliate_link(link_base)`; each fetched result appears annotated in the output |
| `Comparison.CompareIsPythonSorted` | main.py:107-110 | the output is the unique stable ascending arrangement of the annotated results |
| `Routes.ApiSearch` | main.py:119-135 | a missing or empty `product` gives 400 with `"No search query provided."`; every reply is 200, 400 or 404; a 404 carries the "No live price data" message for the query; an exception needs a query; a 200 reply carries exactly the list `compare_and_output` returned, which is non-empty and price-sorted |
| `Routes.ApiSearchStatus` | main.py:123-135 | 400 exactly without a query; an escaping exception exactly when a key is set and the URL lacks `//`; 404 exactly when nothing usable was fetched; 200 exactly when some upstream item's price parses |
| `Scenarios.MilkScenario` | main.py:94-110 | upstream prices `"3.50"`, `"2.00"` and `"bad"` give the `2.00` item and then the `3.50` item, both annotated; the `"bad"` item is dropped |
| `Scenarios.MilkSearch` | main.py:119-135 | the same search answers 200 with those two results |
| `Scenarios.DefaultConfigReachesUpstream` | main.py:14-41 | with the shipped configuration and a non-empty key, the key guard passes and the base URL contains `//`, so the host split does not raise |
| `Scenarios.TimeoutIsNotFound` | main.py:81-84 | a failed upstream request gives 404 with the "No live price data" message, not an error |
| `Scenarios.NoResultsIsNotFound` | main.py:131-132 | an upstream answer with an empty `results` list gives 404 |

## Left out

- The HTTP request itself is not modelled: headers, the `query` and `country_code=IN` parameters, the 10-second timeout, `raise_for_status`, `response.json()` and the `RequestException` handler. It is network I/O. Its outcome is the `Upstream` argument.
- A body that does not decode as JSON is not a separate case. `requests` raises a `RequestException` subclass for it, so it is covered by `RequestFailed`.
- Malformed JSON shapes are not modelled: a body that is not an object, `results: null`, or items that are not objects. Python raises an uncaught `AttributeError` or `TypeError` for them.
- Non-finite prices cannot be represented: prices are mathematical reals, so `float("nan")`, `float("inf")` and `float("-inf")`, which Python accepts, have no counterpart in the model.
- `float()` raising `OverflowError` is not modelled: an integer `new_price` too large for a float (hundreds of digits) makes `float()` raise it, and neither the `except (ValueError, TypeError)` of the normalization loop nor the `RequestException` handler catches it, so it would escape `fetch_prices` and `api_search`. The `parse` parameter can only accept or skip an item.
- Python's `float()` is an abstract parameter, because it is a foreign call. A JSON number in `new_price` is represented by its text. `null` and a missing key are both `None` and are skipped.
- Ranking.Rank: orders by mathematical reals. Python floats include NaN, which compares false with everything, so a NaN price can leave `sorted`'s output unsorted. Float rounding is also not modelled.
- A `url` that is present but `null` is not modelled. Python would put `None` in `link_base` and `"None&affid=..."` in the link.
- The annotation loop mutates the fetched dictionaries in place. The model builds new records instead, and nothing else reads the old ones.
- `print` logging, reading `os.environ`, `render_template` and the `/` route, route registration, the `app.config['PRICESCOUT']` lookup and `app.run` are left out. They are process, UI and framework plumbing.
- Routes.ApiSearch: returns an escaping `IndexError` as `Failure(IndexError)`. It does not model Flask turning that into an HTTP 500 page, nor `jsonify`'s serialization.
