/**
 * The encoder: `handle_creation` (src/routes.rs:106-169) without its HTTP,
 * JSON and URL-parsing glue. A URL's host picks a host family, its non-empty
 * path segments pick a template, the template's id segment is read as a
 * `u32`, and the triple `[community, platform, id]` is handed to the codec.
 */
module Creation {
  import opened Wrappers
  import opened Registry
  import opened Decimal
  import opened Segments
  import opened Sqids
  import Redirect

  /**
   * A URL as `Url::parse` leaves it: `host` is `host_str()`, `path` the raw
   * `path_segments()` (empty ones included) and `href` the serialisation
   * `url.into()` gives back.
   */
  datatype Url = Url(host: Option<string>, path: seq<string>, href: string)

  /** The request body: not a `UrlPayload`, a payload whose URL does not parse, or a parsed URL. */
  datatype Body = NotPayload | UnparsableUrl | Payload(url: Url)

  /** What the handler answers: the JSON `UrlPayload` with its code, a 400, or a panic. */
  datatype Response = Created(url: string, sqid: string) | BadRequest | Panic(fault: Fault)

  /** What the host and path of a URL yield before the codec is called. */
  datatype Classification = Numbers(numbers: seq<nat>) | Rejected | Crashed(fault: Fault)

  /**
   * The id triple of a template whose id segment is `segment`: the
   * `parse::<u32>().unwrap()` panics when the segment is not a `u32`.
   */
  function IdTriple(c: Community, p: Platform, segment: string): Classification
  {
    match ParseU32(segment)
    case None => Crashed(ParseIntError)
    case Some(id) => Numbers([CommunityOrdinal(c), PlatformOrdinal(p), id])
  }

  /**
   * The lilnouns.wtf arm (src/routes.rs:117-142), read off the registry: the
   * path must start with `vote`, the second segment chooses between the
   * MetaGov and the Ethereum template, and the segment after the template's
   * prefix is the id.
   */
  function VoteClassification(segments: seq<string>): (r: Classification)
    ensures r == Rejected <==> segments == [] || segments[0] != "vote"
    ensures r.Numbers? ==> (
      |r.numbers| == 3 && r.numbers[0] == CommunityOrdinal(LilNouns) &&
      Redirect.PlatformOf(r.numbers[1]) in {Some(Ethereum), Some(MetaGov)} &&
      var p := Redirect.PlatformOf(r.numbers[1]).value;
      |segments| > |Prefix(p)| && segments[..|Prefix(p)|] == Prefix(p) &&
      ParseU32(segments[|Prefix(p)|]) == Some(r.numbers[2]))
  {
    if segments == [] || segments[0] != "vote" then Rejected
    else if |segments| < 2 then Crashed(IndexOutOfBounds)
    else
      var p := if segments[1] == "nounsdao" then MetaGov else Ethereum;
      if |segments| <= |Prefix(p)| then Crashed(IndexOutOfBounds)
      else IdTriple(LilNouns, p, segments[|Prefix(p)|])
  }

  /**
   * The proplot arm (src/routes.rs:143-163): a first segment `idea` gives
   * `[LilNouns, LilNouns, PropLot]` (sic: the source pushes the community
   * twice and reads no id).
   */
  function IdeaClassification(segments: seq<string>): (r: Classification)
    ensures r.Crashed? <==> segments == []
    ensures r.Numbers? <==> segments != [] && segments[0] == "idea"
    ensures r.Numbers? ==> Redirect.TargetUrl(r.numbers) == Some(TemplateUrl(Ethereum, "2"))
  {
    if segments == [] then Crashed(IndexOutOfBounds)
    else if segments[0] == "idea" then
      Numbers([CommunityOrdinal(LilNouns), CommunityOrdinal(LilNouns), PlatformOrdinal(PropLot)])
    else Rejected
  }

  /**
   * What the host and the non-empty path segments of a URL yield. A triple
   * that reaches the codec is always three `u32` values whose first two
   * the decoder recognises.
   */
  function Classify(host: Option<string>, path: seq<string>): (r: Classification)
    ensures r.Numbers? ==> IsTriple(r.numbers) && r.numbers[2] < U32Limit
    ensures r.Numbers? ==> Redirect.CommunityOf(r.numbers[0]) == Some(LilNouns) && Redirect.PlatformOf(r.numbers[1]).Some?
    ensures host.None? || (host.value !in LilNounsHosts && host.value !in PropLotHosts) ==> r == Rejected
  {
    if host.Some? && host.value in LilNounsHosts then VoteClassification(NonEmpty(path))
    else if host.Some? && host.value in PropLotHosts then IdeaClassification(NonEmpty(path))
    else Rejected
  }

  /** The response `handle_creation` gives for a body, given the codec. */
  function Respond(body: Body, codec: Codec): (r: Response)
    ensures r.Panic? <==>
      body.UnparsableUrl? ||
      (body.Payload? && (Classify(body.url.host, body.url.path).Crashed? ||
        (Classify(body.url.host, body.url.path).Numbers? &&
         codec.encode(Classify(body.url.host, body.url.path).numbers).None?)))
  {
    match body
    case NotPayload => BadRequest
    case UnparsableUrl => Panic(InvalidUrl)
    case Payload(url) =>
      match Classify(url.host, url.path)
      case Rejected => BadRequest
      case Crashed(fault) => Panic(fault)
      case Numbers(numbers) =>
        match codec.encode(numbers)
        case None => Panic(EncodeError)
        case Some(sqid) => Created(url.href, sqid)
  }

  /** The lilnouns.wtf arm of `handle_creation`, pushing the ordinals and the id onto `numbers`. */
  method PushVoteNumbers(segments: seq<string>) returns (r: Classification)
    ensures r == VoteClassification(segments)
  {
    var numbers: seq<nat> := [];
    if |segments| == 0 || segments[0] != "vote" {
      return Rejected;
    }
    if |segments| < 2 {
      return Crashed(IndexOutOfBounds);
    }
    if segments[1] == "nounsdao" {
      numbers := numbers + [CommunityOrdinal(LilNouns)];
      numbers := numbers + [PlatformOrdinal(MetaGov)];
      if |segments| < 3 {
        return Crashed(IndexOutOfBounds);
      }
      var id := ParseU32(segments[2]);
      if id.None? {
        return Crashed(ParseIntError);
      }
      numbers := numbers + [id.value];
    } else {
      numbers := numbers + [CommunityOrdinal(LilNouns)];
      numbers := numbers + [PlatformOrdinal(Ethereum)];
      var id := ParseU32(segments[1]);
      if id.None? {
        return Crashed(ParseIntError);
      }
      numbers := numbers + [id.value];
    }
    return Numbers(numbers);
  }

  /** The proplot arm of `handle_creation`, pushing onto `numbers` as the source does. */
  method PushIdeaNumbers(segments: seq<string>) returns (r: Classification)
    ensures r == IdeaClassification(segments)
  {
    var numbers: seq<nat> := [];
    numbers := numbers + [CommunityOrdinal(LilNouns)];
    if |segments| == 0 {
      return Crashed(IndexOutOfBounds);
    }
    if segments[0] == "idea" {
      numbers := numbers + [CommunityOrdinal(LilNouns)];
      numbers := numbers + [PlatformOrdinal(PropLot)];
    } else {
      return Rejected;
    }
    return Numbers(numbers);
  }

  /**
   * `handle_creation`: the host picks an arm, the arm builds `numbers`, and
   * the codec turns them into the code returned beside the URL.
   */
  method HandleCreation(body: Body, codec: Codec) returns (response: Response)
    ensures response == Respond(body, codec)
    ensures response.Created? ==> body.Payload? && response.url == body.url.href
  {
    if body.NotPayload? {
      return BadRequest;
    }
    if body.UnparsableUrl? {
      return Panic(InvalidUrl);
    }
    var url := body.url;
    var classification: Classification;
    if url.host == Some("lilnouns.wtf") || url.host == Some("www.lilnouns.wtf") {
      classification := PushVoteNumbers(NonEmpty(url.path));
    } else if url.host == Some("lilnouns.proplot.wtf") || url.host == Some("www.lilnouns.proplot.wtf") {
      classification := PushIdeaNumbers(NonEmpty(url.path));
    } else {
      return BadRequest;
    }
    assert classification == Classify(url.host, url.path);
    match classification
    case Rejected =>
      return BadRequest;
    case Crashed(fault) =>
      return Panic(fault);
    case Numbers(numbers) =>
      var sqid := codec.encode(numbers);
      if sqid.None? {
        return Panic(EncodeError);
      }
      return Created(url.href, sqid.value);
  }

  /** On a lilnouns.wtf host, `/vote/nounsdao/{n}` with `n` a `u32` gives `[1, 3, n]`, whatever follows. */
  lemma NounsdaoTriple(host: string, path: seq<string>, id: nat)
    requires host in LilNounsHosts
    requires var segments := NonEmpty(path);
      |segments| >= 3 && segments[0] == "vote" && segments[1] == "nounsdao" && ParseU32(segments[2]) == Some(id)
    ensures Classify(Some(host), path) == Numbers([1, 3, id])
  {
  }

  /** On a lilnouns.wtf host, `/vote/{n}` with `n` a `u32` other than `nounsdao` gives `[1, 1, n]`. */
  lemma VoteTriple(host: string, path: seq<string>, id: nat)
    requires host in LilNounsHosts
    requires var segments := NonEmpty(path);
      |segments| >= 2 && segments[0] == "vote" && segments[1] != "nounsdao" && ParseU32(segments[1]) == Some(id)
    ensures Classify(Some(host), path) == Numbers([1, 1, id])
  {
  }

  /** On a proplot host, a first segment `idea` gives `[1, 1, 2]` whatever the later segments are. */
  lemma IdeaTriple(host: string, path: seq<string>)
    requires host in PropLotHosts
    requires var segments := NonEmpty(path); segments != [] && segments[0] == "idea"
    ensures Classify(Some(host), path) == Numbers([1, 1, 2])
  {
  }

  /**
   * The encoder answers Bad Request exactly for an unknown (or missing) host,
   * a lilnouns.wtf path not starting with `vote`, and a proplot path whose
   * first segment is not `idea`.
   */
  lemma RejectedExactly(host: Option<string>, path: seq<string>)
    ensures var segments := NonEmpty(path);
      Classify(host, path) == Rejected <==>
        host.None? ||
        (host.value !in LilNounsHosts && host.value !in PropLotHosts) ||
        (host.value in LilNounsHosts && (segments == [] || segments[0] != "vote")) ||
        (host.value in PropLotHosts && segments != [] && segments[0] != "idea")
  {
  }

  /**
   * The encoder panics exactly when it indexes past the segments or reads an
   * id that is not a `u32`: `/vote`, `/vote/nounsdao`, a bad id, or an empty
   * proplot path.
   */
  lemma CrashedExactly(host: Option<string>, path: seq<string>)
    ensures var segments := NonEmpty(path);
      Classify(host, path).Crashed? <==>
        host.Some? &&
        ((host.value in LilNounsHosts && segments != [] && segments[0] == "vote" &&
          (|segments| < 2 ||
           (segments[1] == "nounsdao" && (|segments| < 3 || ParseU32(segments[2]).None?)) ||
           (segments[1] != "nounsdao" && ParseU32(segments[1]).None?))) ||
         (host.value in PropLotHosts && segments == []))
  {
  }

  /** A successful answer echoes the URL and carries the code of the URL's triple. */
  lemma CreatedCarriesCode(body: Body, codec: Codec)
    requires Respond(body, codec).Created?
    ensures body.Payload? && Classify(body.url.host, body.url.path).Numbers?
    ensures var numbers := Classify(body.url.host, body.url.path).numbers;
      codec.encode(numbers) == Some(Respond(body, codec).sqid) && Respond(body, codec).url == body.url.href
  {
  }

  /** Bad Request is answered exactly for a body that is not a payload and for a rejected URL. */
  lemma BadRequestExactly(body: Body, codec: Codec)
    ensures Respond(body, codec) == BadRequest <==>
      body.NotPayload? || (body.Payload? && Classify(body.url.host, body.url.path) == Rejected)
  {
  }
}
