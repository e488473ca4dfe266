/**
 * Where the code departs from what it is evidently meant to do, each shown
 * on the model of the code as written, and a corrected encoder and decoder
 * with the intended properties proved about them.
 *
 * 1. A proplot `idea` URL encodes to `[1, 1, 2]` (the community is pushed
 *    twice and no id is read), which the decoder sends to
 *    `https://lilnouns.wtf/vote/2`.
 * 2. `/vote`, `/vote/nounsdao`, a non-numeric id and an empty proplot path
 *    panic instead of answering Bad Request.
 * 3. A code that decodes to fewer than two numbers panics, and one whose
 *    ordinals are not a known pair gets a redirect page to the empty URL
 *    instead of Bad Request.
 */
module Findings {
  import opened Wrappers
  import opened Registry
  import opened Decimal
  import opened Segments
  import opened Sqids
  import Redirect
  import Creation

  // ---- The code as written ----

  /** Finding 1: every proplot `idea` URL redirects to the Ethereum vote 2 (never an idea, by `IdeaIsNotVote`). */
  lemma IdeaRedirectsToVoteTwo(host: string, path: seq<string>, href: string, codec: Codec)
    requires RoundTrips(codec) && host in PropLotHosts
    requires var segments := NonEmpty(path); segments != [] && segments[0] == "idea"
    ensures var response := Creation.Respond(Creation.Payload(Creation.Url(Some(host), path, href)), codec);
      response.Created? &&
      Redirect.HandleRedirect(Some(response.sqid), codec) == Redirect.Page(TemplateUrl(Ethereum, "2"))
  {
  }

  /** No idea URL is a vote URL: the hosts differ. */
  lemma IdeaIsNotVote(idea: string, vote: string)
    ensures TemplateUrl(PropLot, idea) != TemplateUrl(Ethereum, vote)
  {
    Redirect.IdeaTemplate(idea);
    Redirect.VoteTemplate(vote);
    assert TemplateUrl(PropLot, idea)[17] == 'p';
    assert TemplateUrl(Ethereum, vote)[17] == 'w';
  }

  /*
   * Finding 2: a vote URL without a usable id makes the encoder panic (an
   * index past the segments, or `unwrap` on a parse error), which `Respond`
   * passes on as a panic rather than Bad Request.
   */

  /** `/vote` indexes past the segments. */
  lemma MissingVoteIdPanics(host: string)
    requires host in LilNounsHosts
    ensures Creation.Classify(Some(host), ["vote"]) == Creation.Crashed(IndexOutOfBounds)
  {
    NonEmptyKeeps(["vote"]);
  }

  /** `/vote/nounsdao` indexes past the segments. */
  lemma MissingNounsdaoIdPanics(host: string)
    requires host in LilNounsHosts
    ensures Creation.Classify(Some(host), ["vote", "nounsdao"]) == Creation.Crashed(IndexOutOfBounds)
  {
    NonEmptyKeeps(["vote", "nounsdao"]);
  }

  /** `/vote/latest` unwraps a parse error. */
  lemma NonNumericIdPanics(host: string)
    requires host in LilNounsHosts
    ensures Creation.Classify(Some(host), ["vote", "latest"]) == Creation.Crashed(ParseIntError)
  {
    NonEmptyKeeps(["vote", "latest"]);
    assert !IsDigit("latest"[0]);
  }

  /** Finding 3: a code that decodes to fewer than two numbers makes the decoder panic. */
  lemma UndecodableCodePanics(code: string, codec: Codec)
    requires |codec.decode(code)| < 2
    ensures Redirect.HandleRedirect(Some(code), codec) == Redirect.Panic(IndexOutOfBounds)
  {
  }

  /** Finding 3: a code for an unknown pair, such as `[1, 9, 3]`, gets a page redirecting to "". */
  lemma UnknownPairRedirectsNowhere(code: string, codec: Codec)
    requires codec.decode(code) == [1, 9, 3]
    ensures Redirect.HandleRedirect(Some(code), codec) == Redirect.Page("")
  {
  }

  // ---- The corrected encoder and decoder ----

  /** The id of `segments` under the template of `p` on `host`: the `u32` right after the prefix. */
  function TemplateId(p: Platform, host: string, segments: seq<string>): (id: Option<nat>)
    ensures id.Some? ==> host in HostsOf(p) && |segments| > |Prefix(p)| && segments[..|Prefix(p)|] == Prefix(p)
    ensures id.Some? ==> id == ParseU32(segments[|Prefix(p)|])
  {
    if host in HostsOf(p) && |segments| > |Prefix(p)| && segments[..|Prefix(p)|] == Prefix(p)
    then ParseU32(segments[|Prefix(p)|])
    else None
  }

  /** The template's own path, with the id `format!` writes, yields that id, whatever follows it. */
  lemma TemplateIdExtracts(p: Platform, host: string, n: nat, rest: seq<string>)
    requires host in HostsOf(p) && n < U32Limit
    ensures TemplateId(p, host, Prefix(p) + [Show(n)] + rest) == Some(n)
  {
    var segments := Prefix(p) + [Show(n)] + rest;
    assert segments[..|Prefix(p)|] == Prefix(p);
    assert segments[|Prefix(p)|] == Show(n);
    ParseShow(n);
  }

  /**
   * The decoder as intended: the template URL of a recognised pair, and
   * `None` (Bad Request) for anything else, a short list included.
   */
  function IntendedResolve(numbers: seq<nat>): (url: Option<string>)
    ensures url.Some? <==>
      |numbers| >= 3 && Redirect.CommunityOf(numbers[0]).Some? && Redirect.PlatformOf(numbers[1]).Some?
    ensures url.Some? ==> url.value == TemplateUrl(Redirect.PlatformOf(numbers[1]).value, Show(numbers[2]))
  {
    if |numbers| >= 3 && Redirect.CommunityOf(numbers[0]).Some? && Redirect.PlatformOf(numbers[1]).Some? then
      var p := Redirect.PlatformOf(numbers[1]).value;
      Some(Redirect.Destination(p, Show(numbers[2])))
    else None
  }

  /**
   * The encoder as intended: the registry's templates tried in turn, each
   * capturing its own id, and `None` (Bad Request) where nothing matches.
   * Every triple it builds is one the intended decoder resolves.
   */
  function IntendedClassify(host: Option<string>, path: seq<string>): (numbers: Option<seq<nat>>)
    ensures numbers.Some? ==> IsTriple(numbers.value) && IntendedResolve(numbers.value).Some?
    ensures numbers.Some? ==> (
      host.Some? &&
      var p := Redirect.PlatformOf(numbers.value[1]).value;
      var segments := NonEmpty(path);
      host.value in HostsOf(p) && |segments| > |Prefix(p)| && segments[..|Prefix(p)|] == Prefix(p) &&
      ParseU32(segments[|Prefix(p)|]) == Some(numbers.value[2]))
  {
    if host.None? then None
    else
      var segments := NonEmpty(path);
      var p :=
        if TemplateId(MetaGov, host.value, segments).Some? then MetaGov
        else if TemplateId(Ethereum, host.value, segments).Some? then Ethereum
        else PropLot;
      match TemplateId(p, host.value, segments)
      case None => None
      case Some(id) =>
        Redirect.OrdinalsInvert(LilNouns, p);
        Some([CommunityOrdinal(LilNouns), PlatformOrdinal(p), id])
  }

  /**
   * The intended round-trip law, for every template: a URL whose path is the
   * template's prefix and a canonical `u32` id encodes to a code that the
   * intended decoder resolves to the template URL for that id.
   */
  lemma {:induction false} IntendedRoundTrip(p: Platform, host: string, path: seq<string>, digits: string, codec: Codec)
    requires RoundTrips(codec)
    requires host in HostsOf(p)
    requires var segments := NonEmpty(path);
      |segments| > |Prefix(p)| && segments[..|Prefix(p)|] == Prefix(p) && segments[|Prefix(p)|] == digits
    requires Canonical(digits) && Value(digits) < U32Limit
    ensures var numbers := IntendedClassify(Some(host), path);
      numbers.Some? && codec.encode(numbers.value).Some? &&
      IntendedResolve(codec.decode(codec.encode(numbers.value).value)) == Some(TemplateUrl(p, digits))
  {
    var id := Value(digits);
    IntendedClassifiesTemplate(p, host, NonEmpty(path), digits);
    var numbers := [CommunityOrdinal(LilNouns), PlatformOrdinal(p), id];
    assert IsTriple(numbers);
    Redirect.OrdinalsInvert(LilNouns, p);
    ShowParse(digits);
  }

  /** The intended encoder files a template-shaped path under that template, with its id. */
  lemma IntendedClassifiesTemplate(p: Platform, host: string, segments: seq<string>, digits: string)
    requires host in HostsOf(p)
    requires |segments| > |Prefix(p)| && segments[..|Prefix(p)|] == Prefix(p) && segments[|Prefix(p)|] == digits
    requires Canonical(digits) && Value(digits) < U32Limit
    ensures forall path | NonEmpty(path) == segments ::
      IntendedClassify(Some(host), path) == Some([CommunityOrdinal(LilNouns), PlatformOrdinal(p), Value(digits)])
  {
    assert ParseU32(digits) == Some(Value(digits));
    assert TemplateId(p, host, segments) == Some(Value(digits));
    if p == Ethereum {
      assert segments[1] != "nounsdao" by {
        assert IsDigit(digits[0]) && !IsDigit("nounsdao"[0]);
      }
      assert TemplateId(MetaGov, host, segments).None?;
    } else if p == PropLot {
      assert host !in LilNounsHosts;
    }
  }

  /** The corrected encoder refuses `/vote`, which has no id. */
  lemma IntendedRefusesMissingVoteId(host: string)
    requires host in LilNounsHosts
    ensures IntendedClassify(Some(host), ["vote"]) == None
  {
    NonEmptyKeeps(["vote"]);
  }

  /** The corrected encoder refuses `/vote/nounsdao`, which has no id. */
  lemma IntendedRefusesMissingNounsdaoId(host: string)
    requires host in LilNounsHosts
    ensures IntendedClassify(Some(host), ["vote", "nounsdao"]) == None
  {
    NonEmptyKeeps(["vote", "nounsdao"]);
    assert !IsDigit("nounsdao"[0]);
  }

  /** The corrected encoder refuses `/vote/latest`, whose id is not a number. */
  lemma IntendedRefusesNonNumericId(host: string)
    requires host in LilNounsHosts
    ensures IntendedClassify(Some(host), ["vote", "latest"]) == None
  {
    NonEmptyKeeps(["vote", "latest"]);
    assert !IsDigit("latest"[0]);
  }

  /** Where the written encoder builds a triple on a lilnouns.wtf host, the intended one builds the same. */
  lemma IntendedAgreesOnVotes(host: string, path: seq<string>)
    requires host in LilNounsHosts && Creation.Classify(Some(host), path).Numbers?
    ensures IntendedClassify(Some(host), path) == Some(Creation.Classify(Some(host), path).numbers)
  {
    var segments := NonEmpty(path);
    if segments[1] == "nounsdao" {
      assert segments[..2] == ["vote", "nounsdao"];
      assert TemplateId(MetaGov, host, segments).Some?;
    } else {
      assert TemplateId(MetaGov, host, segments).None?;
      assert segments[..1] == ["vote"];
    }
  }

  /** Where the written decoder produces a URL, the intended one produces the same; elsewhere it refuses. */
  lemma IntendedResolveAgrees(numbers: seq<nat>)
    ensures Redirect.TargetUrl(numbers).Some? && Redirect.TargetUrl(numbers).value != "" <==> IntendedResolve(numbers).Some?
    ensures IntendedResolve(numbers).Some? ==> Redirect.TargetUrl(numbers) == IntendedResolve(numbers)
  {
  }
}
