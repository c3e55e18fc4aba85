/** The records that flow through the price comparison pipeline and its
    configuration (main.py, class `PriceScout`). */
module Records {
  import opened Wrappers

  /** Platform label written into every normalized result. */
  const Coles: string := "coles"

  /** Affiliate identifier used when `PriceScout()` is constructed without one. */
  const DefaultAffiliateId: string := "YOUR_AFFILIATE_ID_123"

  /** The host of the external API endpoint. */
  const DefaultApiHost: string := "coles-product-price-api.p.rapidapi.com"

  /** The path and query of the external API endpoint. */
  const DefaultApiPath: string := "/coles/price-changes/" + "?date=2025-03-02&page=1&page_size=20"

  /** The external API endpoint the service is configured with:
      `https://coles-product-price-api.p.rapidapi.com/coles/price-changes/?date=2025-03-02&page=1&page_size=20`. */
  const DefaultBaseUrl: string := "https:" + "//" + DefaultApiHost + DefaultApiPath

  /** Display name of the upstream provider; configured but never consulted. */
  const DefaultPlatformName: string := "RapidAPI Partner"

  /** The comparison service's configuration. `apiKey` is the `RAPIDAPI_KEY`
      environment variable, `None` when it is unset. */
  datatype Config = Config(
    baseUrl: string,
    apiKey: Option<string>,
    platformName: string,
    affiliateId: string)

  /** The configuration `PriceScout()` builds, given what the environment holds. */
  function DefaultConfig(apiKey: Option<string>): Config {
    Config(DefaultBaseUrl, apiKey, DefaultPlatformName, DefaultAffiliateId)
  }

  /** One entry of the upstream `results` array. Only `new_price` and `url` are
      consulted; each is `None` when the key is absent from the JSON object. */
  datatype RawItem = RawItem(newPrice: Option<string>, url: Option<string>)

  /** What the upstream request produced: a transport or HTTP-status failure, or a
      JSON object whose `results` key may be absent. */
  datatype Upstream =
    | RequestFailed
    | Answered(results: Option<seq<RawItem>>)

  /** A successfully parsed upstream item. */
  datatype NormalizedResult = NormalizedResult(platform: string, price: real, linkBase: string)

  /** A normalized result with its affiliate link attached. */
  datatype AnnotatedResult = AnnotatedResult(
    platform: string,
    price: real,
    linkBase: string,
    affiliateLink: string)

  /** An exception that escapes the pipeline: indexing `[1]` into a split that
      produced a single piece. */
  datatype Uncaught = IndexError
}
