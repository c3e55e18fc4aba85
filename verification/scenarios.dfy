/** Worked request scenarios for the shipped configuration. */
module Scenarios {
  import opened Wrappers
  import opened Records
  import opened Strings
  import opened Host
  import opened Fetcher
  import opened Affiliate
  import opened Comparison
  import Ranking
  import opened Routes

  /** Three upstream items, the last with an unparseable price. */
  function MilkItems(): seq<RawItem> {
    [ RawItem(Some("3.50"), Some("https://x/a")),
      RawItem(Some("2.00"), Some("https://x/b")),
      RawItem(Some("bad"), Some("https://x/c")) ]
  }

  /** The first two items both parse and keep their order. */
  lemma MilkNormalizeFront(parse: string -> Option<real>)
    requires parse("3.50") == Some(3.5) && parse("2.00") == Some(2.0)
    ensures Normalize(MilkItems()[..2], parse) == [
      NormalizedResult("coles", 3.5, "https://x/a"),
      NormalizedResult("coles", 2.0, "https://x/b")]
  {
    var items := MilkItems();
    assert items[..2][..1] == items[..1];
    assert items[..1][..0] == [];
    assert Normalize(items[..1], parse) == [NormalizedResult("coles", 3.5, "https://x/a")];
  }

  /** The item with price "bad" is skipped. */
  lemma MilkNormalize(parse: string -> Option<real>)
    requires parse("3.50") == Some(3.5) && parse("2.00") == Some(2.0) && parse("bad") == None
    ensures Normalize(MilkItems(), parse) == [
      NormalizedResult("coles", 3.5, "https://x/a"),
      NormalizedResult("coles", 2.0, "https://x/b")]
  {
    MilkNormalizeFront(parse);
    var items := MilkItems();
    assert items[..2] == items[..|items| - 1];
    assert !Parses(items[2], parse);
  }

  /** With a key set, the fetch yields the two survivors. */
  lemma MilkFetch(key: string, parse: string -> Option<real>)
    requires key != ""
    requires parse("3.50") == Some(3.5) && parse("2.00") == Some(2.0) && parse("bad") == None
    ensures FetchPrices(DefaultConfig(Some(key)), Answered(Some(MilkItems())), parse) == Success([
      NormalizedResult("coles", 3.5, "https://x/a"),
      NormalizedResult("coles", 2.0, "https://x/b")])
  {
    DefaultHostHeader();
    MilkNormalize(parse);
  }

  /** The affiliate links of the two survivors. */
  lemma MilkLinks()
    ensures CreateAffiliateLink(DefaultAffiliateId, "https://x/a") == "https://x/a" + "&affid=" + "YOUR_AFFILIATE_ID_123"
    ensures CreateAffiliateLink(DefaultAffiliateId, "https://x/b") == "https://x/b" + "&affid=" + "YOUR_AFFILIATE_ID_123"
  {
  }

  /** The two survivors, annotated with the default affiliate identifier. */
  lemma MilkAnnotate()
    ensures AnnotateAll(DefaultAffiliateId, [
        NormalizedResult("coles", 3.5, "https://x/a"),
        NormalizedResult("coles", 2.0, "https://x/b")])
      == [AnnotatedResult("coles", 3.5, "https://x/a", "https://x/a" + "&affid=" + "YOUR_AFFILIATE_ID_123"),
          AnnotatedResult("coles", 2.0, "https://x/b", "https://x/b" + "&affid=" + "YOUR_AFFILIATE_ID_123")]
  {
    MilkLinks();
  }

  /** Ranking puts the cheaper item first. */
  lemma MilkRank(aa: AnnotatedResult, ab: AnnotatedResult)
    requires ab.price < aa.price
    ensures Ranking.Rank([aa, ab]) == [ab, aa]
  {
    assert [aa, ab][1..] == [ab];
    assert Ranking.Rank([ab]) == [ab];
  }

  /** The unparseable item is dropped and the other two come back annotated,
      cheapest first. */
  lemma MilkScenario(key: string, parse: string -> Option<real>)
    requires key != ""
    requires parse("3.50") == Some(3.5) && parse("2.00") == Some(2.0) && parse("bad") == None
    ensures CompareAndOutput(DefaultConfig(Some(key)), Answered(Some(MilkItems())), parse)
      == Success(Some([
           AnnotatedResult("coles", 2.0, "https://x/b", "https://x/b" + "&affid=" + "YOUR_AFFILIATE_ID_123"),
           AnnotatedResult("coles", 3.5, "https://x/a", "https://x/a" + "&affid=" + "YOUR_AFFILIATE_ID_123")]))
  {
    var aa := AnnotatedResult("coles", 3.5, "https://x/a", "https://x/a" + "&affid=" + "YOUR_AFFILIATE_ID_123");
    var ab := AnnotatedResult("coles", 2.0, "https://x/b", "https://x/b" + "&affid=" + "YOUR_AFFILIATE_ID_123");
    var fetched := [NormalizedResult("coles", 3.5, "https://x/a"), NormalizedResult("coles", 2.0, "https://x/b")];
    MilkFetch(key, parse);
    MilkAnnotate();
    MilkRank(aa, ab);
    assert AnnotateAll(DefaultAffiliateId, fetched) == [aa, ab];
    assert Ranking.Rank(AnnotateAll(DefaultAffiliateId, fetched)) == [ab, aa];
  }

  /** The search for "milk" answers 200 with those two results. */
  lemma MilkSearch(key: string, parse: string -> Option<real>)
    requires key != ""
    requires parse("3.50") == Some(3.5) && parse("2.00") == Some(2.0) && parse("bad") == None
    ensures ApiSearch(DefaultConfig(Some(key)), Some("milk"), Answered(Some(MilkItems())), parse)
      == Success(Reply(200, ResultsBody([
           AnnotatedResult("coles", 2.0, "https://x/b", "https://x/b" + "&affid=" + "YOUR_AFFILIATE_ID_123"),
           AnnotatedResult("coles", 3.5, "https://x/a", "https://x/a" + "&affid=" + "YOUR_AFFILIATE_ID_123")])))
  {
    MilkScenario(key, parse);
  }

  /** With a key set, the default configuration gets past the guard and the
      host-header split. */
  lemma DefaultConfigReachesUpstream(key: string)
    requires key != ""
    ensures HasKey(DefaultConfig(Some(key)))
    ensures Find(DefaultConfig(Some(key)).baseUrl, "//").Some?
  {
    DefaultHostHeader();
  }

  /** An upstream timeout gives 404 rather than an error. */
  lemma TimeoutIsNotFound(key: string, parse: string -> Option<real>)
    requires key != ""
    ensures ApiSearch(DefaultConfig(Some(key)), Some("milk"), RequestFailed, parse)
      == Success(Reply(404, ErrorBody(NoDataMessage("milk"))))
  {
    DefaultConfigReachesUpstream(key);
    ApiSearchStatus(DefaultConfig(Some(key)), Some("milk"), RequestFailed, parse);
  }

  /** An answer with an empty `results` list gives 404. */
  lemma NoResultsIsNotFound(key: string, parse: string -> Option<real>)
    requires key != ""
    ensures ApiSearch(DefaultConfig(Some(key)), Some("milk"), Answered(Some([])), parse)
      == Success(Reply(404, ErrorBody(NoDataMessage("milk"))))
  {
    DefaultConfigReachesUpstream(key);
    ApiSearchStatus(DefaultConfig(Some(key)), Some("milk"), Answered(Some([])), parse);
  }
}
