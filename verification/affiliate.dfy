/** `PriceScout.create_affiliate_link` (main.py:86-92) and the annotation loop of
    `compare_and_output` (main.py:103-105). */
module Affiliate {
  import opened Wrappers
  import opened Records

  /** The query fragment placed in front of the affiliate identifier. */
  const AffidParam: string := "&affid="

  /** The base link with `&affid=<affiliateId>` appended. No check is made that
      the link already carries a query string. */
  function CreateAffiliateLink(affiliateId: string, baseLink: string): (r: string)
    ensures |r| == |baseLink| + |AffidParam| + |affiliateId|
    ensures r[..|baseLink|] == baseLink
    ensures r[|baseLink|..] == "&affid=" + affiliateId
  {
    baseLink + AffidParam + affiliateId
  }

  /** Recovers the base link from an affiliate link, when `link` ends with the
      parameter for `affiliateId`. */
  function StripAffiliate(affiliateId: string, link: string): Option<string> {
    var suffix := AffidParam + affiliateId;
    if |suffix| <= |link| && link[|link| - |suffix|..] == suffix
    then Some(link[..|link| - |suffix|])
    else None
  }

  /** Stripping undoes the annotation. */
  lemma StripCreate(affiliateId: string, baseLink: string)
    ensures StripAffiliate(affiliateId, CreateAffiliateLink(affiliateId, baseLink)) == Some(baseLink)
  {
    var r := CreateAffiliateLink(affiliateId, baseLink);
    assert r[|r| - |AffidParam + affiliateId|..] == AffidParam + affiliateId;
  }

  /** A link that strips is exactly the annotation of what it strips to. */
  lemma CreateStrip(affiliateId: string, link: string)
    ensures StripAffiliate(affiliateId, link).Some? ==>
      CreateAffiliateLink(affiliateId, StripAffiliate(affiliateId, link).value) == link
  {
    if StripAffiliate(affiliateId, link).Some? {
      var suffix := AffidParam + affiliateId;
      var b := link[..|link| - |suffix|];
      assert link == b + link[|link| - |suffix|..];
    }
  }

  /** Distinct base links give distinct affiliate links. */
  lemma CreateAffiliateLinkInjective(affiliateId: string, b1: string, b2: string)
    requires CreateAffiliateLink(affiliateId, b1) == CreateAffiliateLink(affiliateId, b2)
    ensures b1 == b2
  {
    StripCreate(affiliateId, b1);
    StripCreate(affiliateId, b2);
  }

  /** Drops the affiliate link again. */
  function Forget(a: AnnotatedResult): NormalizedResult {
    NormalizedResult(a.platform, a.price, a.linkBase)
  }

  /** `item['affiliate_link'] = self.create_affiliate_link(item['link_base'])`: the
      other fields are left as they were. */
  function Annotate(affiliateId: string, n: NormalizedResult): (a: AnnotatedResult)
    ensures Forget(a) == n
    ensures StripAffiliate(affiliateId, a.affiliateLink) == Some(a.linkBase)
  {
    StripCreate(affiliateId, n.linkBase);
    AnnotatedResult(n.platform, n.price, n.linkBase, CreateAffiliateLink(affiliateId, n.linkBase))
  }

  /** `Forget` applied to every element. */
  function ForgetAll(s: seq<AnnotatedResult>): (r: seq<NormalizedResult>)
    ensures |r| == |s|
  {
    seq(|s|, k requires 0 <= k < |s| => Forget(s[k]))
  }

  /** The annotation loop over all fetched results. */
  function AnnotateAll(affiliateId: string, s: seq<NormalizedResult>): (r: seq<AnnotatedResult>)
    ensures |r| == |s|
    ensures ForgetAll(r) == s
    ensures forall k :: 0 <= k < |r| ==>
      r[k].affiliateLink == CreateAffiliateLink(affiliateId, s[k].linkBase)
  {
    seq(|s|, k requires 0 <= k < |s| => Annotate(affiliateId, s[k]))
  }
}
