/**
 * The decoder: `handle_redirect` (src/routes.rs:29-104) without its HTTP and
 * HTML glue. A short code is decoded to a list of numbers; the first two are
 * mapped to a community and a platform by their ordinals, and a recognised
 * pair plus the third number gives the destination URL.
 */
module Redirect {
  import opened Wrappers
  import opened Registry
  import opened Decimal
  import opened Sqids

  /**
   * What the handler answers. `Page(url)` is the 200 redirect document whose
   * `og:url`, `twitter:url` and refresh target are `url`; the source renders
   * it even when `url` is empty.
   */
  datatype Response = Page(url: string) | BadRequest | Panic(fault: Fault)

  /** `match numbers[0] { 1 => Some(LilNouns), _ => None }` */
  function CommunityOf(n: nat): (c: Option<Community>)
    ensures c.Some? ==> CommunityOrdinal(c.value) == n
    ensures c.None? ==> forall k :: CommunityOrdinal(k) != n
  {
    if n == 1 then Some(LilNouns) else None
  }

  /** `match numbers[1] { 1 => Some(Ethereum), 2 => Some(PropLot), 3 => Some(MetaGov), _ => None }` */
  function PlatformOf(n: nat): (p: Option<Platform>)
    ensures p.Some? ==> PlatformOrdinal(p.value) == n
    ensures p.None? ==> forall k :: PlatformOrdinal(k) != n
  {
    match n
    case 1 => Some(Ethereum)
    case 2 => Some(PropLot)
    case 3 => Some(MetaGov)
    case _ => None
  }

  /** The decode maps undo the discriminants. */
  lemma OrdinalsInvert(c: Community, p: Platform)
    ensures CommunityOf(CommunityOrdinal(c)) == Some(c)
    ensures PlatformOf(PlatformOrdinal(p)) == Some(p)
  {
  }

  /**
   * The `format!` arm for a recognised platform, given the id as `format!`
   * spells it: always its platform's registry template filled with the id.
   */
  function Destination(p: Platform, digits: string): (url: string)
    ensures url == TemplateUrl(p, digits)
  {
    match p
    case Ethereum => VoteTemplate(digits); "https://lilnouns.wtf/vote" + "/" + digits
    case PropLot => IdeaTemplate(digits); "https://lilnouns.proplot.wtf/idea" + "/" + digits
    case MetaGov => NounsdaoTemplate(digits); "https://lilnouns.wtf/vote/nounsdao" + "/" + digits
  }

  lemma VoteTemplate(digits: string)
    ensures "https://lilnouns.wtf/vote" + "/" + digits == TemplateUrl(Ethereum, digits)
  {
    var base := "https://" + CanonicalHost(Ethereum) + JoinPath(Prefix(Ethereum));
    assert base == "https://lilnouns.wtf/vote" by {
      assert JoinPath(["vote"]) == "/vote" + JoinPath([]);
    }
    TemplateUrlSplit(Ethereum, digits);
  }

  lemma IdeaTemplate(digits: string)
    ensures "https://lilnouns.proplot.wtf/idea" + "/" + digits == TemplateUrl(PropLot, digits)
  {
    var base := "https://" + CanonicalHost(PropLot) + JoinPath(Prefix(PropLot));
    assert base == "https://lilnouns.proplot.wtf/idea" by {
      assert JoinPath(["idea"]) == "/idea" + JoinPath([]);
    }
    TemplateUrlSplit(PropLot, digits);
  }

  lemma NounsdaoTemplate(digits: string)
    ensures "https://lilnouns.wtf/vote/nounsdao" + "/" + digits == TemplateUrl(MetaGov, digits)
  {
    TemplateUrlSplit(MetaGov, digits);
    assert JoinPath(["vote", "nounsdao"]) == "/vote" + JoinPath(["nounsdao"]);
    assert JoinPath(["nounsdao"]) == "/nounsdao" + JoinPath([]);
  }

  /**
   * The URL the page redirects to, from the decoded numbers; `None` where
   * the source indexes past the end of `numbers`. `numbers[2]` is read only
   * in the three recognised arms, so `[1, 1]` panics while `[2, 1]` gives "".
   */
  function TargetUrl(numbers: seq<nat>): (r: Option<string>)
    ensures r.None? <==> |numbers| < 2 || (|numbers| == 2 && CommunityOf(numbers[0]).Some? && PlatformOf(numbers[1]).Some?)
    ensures r.Some? && r.value != "" <==>
      |numbers| >= 3 && CommunityOf(numbers[0]).Some? && PlatformOf(numbers[1]).Some?
    ensures r.Some? && r.value != "" ==> r.value == TemplateUrl(PlatformOf(numbers[1]).value, Show(numbers[2]))
  {
    if |numbers| < 2 then None
    else
      match (CommunityOf(numbers[0]), PlatformOf(numbers[1]))
      case (Some(LilNouns), Some(p)) =>
        if |numbers| < 3 then None
        else Some(Destination(p, Show(numbers[2])))
      case _ => Some("")
  }

  /** `handle_redirect`: `sqid` is the route parameter, absent when the route did not bind it. */
  function HandleRedirect(sqid: Option<string>, codec: Codec): (r: Response)
    ensures r == BadRequest <==> sqid.None?
    ensures r.Page? <==> sqid.Some? && TargetUrl(codec.decode(sqid.value)).Some?
    ensures r.Panic? <==> sqid.Some? && TargetUrl(codec.decode(sqid.value)).None?
    ensures r.Panic? ==> r.fault == IndexOutOfBounds
    ensures r.Page? ==> sqid.Some? && Some(r.url) == TargetUrl(codec.decode(sqid.value))
  {
    match sqid
    case None => BadRequest
    case Some(code) =>
      match TargetUrl(codec.decode(code))
      case None => Panic(IndexOutOfBounds)
      case Some(url) => Page(url)
  }
}
