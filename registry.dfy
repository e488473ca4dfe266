/**
 * The two tag enumerations of the service and the static table of URL
 * templates that both the encoder and the decoder follow.
 *
 * The enumerations and their discriminants are declared in src/routes.rs:17-27.
 * The table below is the one the decoder's `format!` calls and the encoder's
 * host and segment matches spell out in src/routes.rs.
 */
module Registry {

  /** A site family; its only variant has discriminant 1. */
  datatype Community = LilNouns

  /** A sub-application inside a community. */
  datatype Platform = Ethereum | PropLot | MetaGov

  /** Why a request handler panicked instead of answering. */
  datatype Fault =
    | InvalidUrl        // `Url::parse(..).expect("Invalid URL")`
    | IndexOutOfBounds  // indexing `segments` or `numbers` past its end
    | ParseIntError     // `parse::<u32>().unwrap()` on a malformed id
    | EncodeError       // `sqids.encode(..).unwrap()` on a codec error

  /** The discriminant `Community as u64`. */
  function CommunityOrdinal(c: Community): (n: nat)
    ensures n > 0
  {
    match c
    case LilNouns => 1
  }

  /** The discriminant `Platform as u64`. */
  function PlatformOrdinal(p: Platform): (n: nat)
    ensures 0 < n <= 3
  {
    match p
    case Ethereum => 1
    case PropLot => 2
    case MetaGov => 3
  }

  /** Distinct platforms have distinct discriminants. */
  lemma PlatformOrdinalInjective(p: Platform, q: Platform)
    ensures PlatformOrdinal(p) == PlatformOrdinal(q) <==> p == q
  {
  }

  const LilNounsHosts: set<string> := {"lilnouns.wtf", "www.lilnouns.wtf"}
  const PropLotHosts: set<string> := {"lilnouns.proplot.wtf", "www.lilnouns.proplot.wtf"}

  /** The host a destination URL of platform `p` is built on (never a `www.` host). */
  function CanonicalHost(p: Platform): (h: string)
    ensures h in HostsOf(p)
  {
    match p
    case Ethereum => "lilnouns.wtf"
    case MetaGov => "lilnouns.wtf"
    case PropLot => "lilnouns.proplot.wtf"
  }

  /** The hosts whose URLs the encoder files under platform `p`. */
  function HostsOf(p: Platform): set<string>
  {
    if p == PropLot then PropLotHosts else LilNounsHosts
  }

  /** The literal path segments that precede the item id in a URL of platform `p`. */
  function Prefix(p: Platform): (segments: seq<string>)
    ensures |segments| > 0 && segments[0] != ""
  {
    match p
    case Ethereum => ["vote"]
    case MetaGov => ["vote", "nounsdao"]
    case PropLot => ["idea"]
  }

  /** `/s1/s2/...`: the path of a URL made of the given segments. */
  function JoinPath(segments: seq<string>): string
  {
    if segments == [] then "" else "/" + segments[0] + JoinPath(segments[1..])
  }

  /** The path of two segment lists in a row is the two paths in a row. */
  lemma {:induction false} JoinPathAppend(a: seq<string>, b: seq<string>)
    ensures JoinPath(a + b) == JoinPath(a) + JoinPath(b)
  {
    if a == [] {
      assert a + b == b;
    } else {
      assert (a + b)[1..] == a[1..] + b;
      JoinPathAppend(a[1..], b);
    }
  }

  /** The destination URL of platform `p` for the item whose id is spelled `id`. */
  function TemplateUrl(p: Platform, id: string): string
  {
    "https://" + CanonicalHost(p) + JoinPath(Prefix(p) + [id])
  }

  /** A template URL is its platform's fixed part, a slash and the id. */
  lemma TemplateUrlSplit(p: Platform, id: string)
    ensures TemplateUrl(p, id) == "https://" + CanonicalHost(p) + JoinPath(Prefix(p)) + "/" + id
  {
    JoinPathAppend(Prefix(p), [id]);
    assert JoinPath([id]) == "/" + id + JoinPath([]);
  }
}

