/**
 * The two-way law between the encoder and the decoder: the code the encoder
 * gives for a Ethereum or MetaGov URL leads the decoder back to that URL in
 * canonical form (no `www.`, no empty or trailing segments).
 */
module RoundTrip {
  import opened Wrappers
  import opened Registry
  import opened Decimal
  import opened Segments
  import opened Sqids
  import Redirect
  import Creation

  /** The decoder turns the triple of a recognised platform into that platform's template URL. */
  lemma {:induction false} ResolveTriple(p: Platform, id: nat)
    ensures Redirect.TargetUrl([CommunityOrdinal(LilNouns), PlatformOrdinal(p), id]) == Some(TemplateUrl(p, Show(id)))
  {
  }

  /**
   * For the two lilnouns.wtf templates: a URL whose path is the template's
   * prefix followed by a canonical `u32` id encodes to a code that redirects
   * to the template URL for that id, on either host.
   */
  lemma {:induction false} VoteFamilyRoundTrip(p: Platform, host: string, path: seq<string>, href: string, digits: string, codec: Codec)
    requires RoundTrips(codec)
    requires p != PropLot && host in HostsOf(p)
    requires var segments := NonEmpty(path);
      |segments| > |Prefix(p)| && segments[..|Prefix(p)|] == Prefix(p) && segments[|Prefix(p)|] == digits
    requires Canonical(digits) && Value(digits) < U32Limit
    ensures var response := Creation.Respond(Creation.Payload(Creation.Url(Some(host), path, href)), codec);
      response.Created? && response.url == href &&
      Redirect.HandleRedirect(Some(response.sqid), codec) == Redirect.Page(TemplateUrl(p, digits))
  {
    var segments := NonEmpty(path);
    var id := Value(digits);
    assert ParseU32(digits) == Some(id);
    assert segments[0] == Prefix(p)[0] == "vote";
    if p == Ethereum {
      assert segments[1] != "nounsdao" by {
        assert IsDigit(digits[0]) && !IsDigit("nounsdao"[0]);
      }
    } else {
      assert segments[1] == Prefix(p)[1] == "nounsdao";
    }
    var numbers := [CommunityOrdinal(LilNouns), PlatformOrdinal(p), id];
    assert Creation.Classify(Some(host), path) == Creation.Numbers(numbers);
    assert IsTriple(numbers);
    ResolveTriple(p, id);
    ShowParse(digits);
  }

  /** `https://[www.]lilnouns.wtf/vote/{id}` comes back as `https://lilnouns.wtf/vote/{id}`. */
  lemma VoteRoundTrip(host: string, path: seq<string>, href: string, digits: string, codec: Codec)
    requires RoundTrips(codec) && host in LilNounsHosts
    requires NonEmpty(path) == ["vote", digits]
    requires Canonical(digits) && Value(digits) < U32Limit
    ensures var response := Creation.Respond(Creation.Payload(Creation.Url(Some(host), path, href)), codec);
      response.Created? &&
      Redirect.HandleRedirect(Some(response.sqid), codec) == Redirect.Page("https://lilnouns.wtf/vote" + "/" + digits)
  {
    assert NonEmpty(path) == Prefix(Ethereum) + [digits];
    VoteFamilyRoundTrip(Ethereum, host, path, href, digits, codec);
    Redirect.VoteTemplate(digits);
  }

  /** `https://[www.]lilnouns.wtf/vote/nounsdao/{id}` comes back as `https://lilnouns.wtf/vote/nounsdao/{id}`. */
  lemma NounsdaoRoundTrip(host: string, path: seq<string>, href: string, digits: string, codec: Codec)
    requires RoundTrips(codec) && host in LilNounsHosts
    requires NonEmpty(path) == ["vote", "nounsdao", digits]
    requires Canonical(digits) && Value(digits) < U32Limit
    ensures var response := Creation.Respond(Creation.Payload(Creation.Url(Some(host), path, href)), codec);
      response.Created? &&
      Redirect.HandleRedirect(Some(response.sqid), codec) == Redirect.Page("https://lilnouns.wtf/vote/nounsdao" + "/" + digits)
  {
    assert NonEmpty(path) == Prefix(MetaGov) + [digits];
    VoteFamilyRoundTrip(MetaGov, host, path, href, digits, codec);
    Redirect.NounsdaoTemplate(digits);
  }
}
