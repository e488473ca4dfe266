# lilnouns-click: the URL-shape classification and triple mapping

lilnouns-click is a stateless link shortener for a handful of Lil Nouns URL
shapes. Its creation endpoint (`handle_creation`) classifies a destination URL
by its host and its path segments, builds the integer triple
`[community, platform, id]` and turns it into a short code with the Sqids
codec. Its redirect endpoint (`handle_redirect`) decodes a code back into
numbers, maps the first two to a `Community` and a `Platform` by their
ordinals, and builds the destination URL from the recognised pair and the
third number.

This project models both sides of `src/routes.rs` in Dafny and proves the
two-way law between them. It also shows where the code falls short of that
law.

- `registry.dfy` (`Registry`) holds the `Community` and `Platform` enumerations and their discriminants, plus the static table of templates both sides follow. A template is a platform's hosts, its path prefix and its destination URL.
- `decimal.dfy` (`Decimal`) models Rust's `str::parse::<u32>` and `format!("{}", ..)`. It proves that each undoes the other on canonical ids below 2^32.
- `segments.dfy` (`Segments`) models the empty-segment filter.
- `sqids.dfy` (`Sqids`) models the codec as a pair of function values. `RoundTrips(codec)` states the codec's round-trip law on triples, and every law that needs it takes it as a hypothesis.
- `redirect.dfy` (`Redirect`) models the decoder as pure functions: the ordinal matches, the URL `format!` arms and the handler.
- `creation.dfy` (`Creation`) models the encoder. `HandleCreation` and the two arm methods build `numbers` by appending, as the source's `push` calls do. The arm methods `PushVoteNumbers` and `PushIdeaNumbers` are proved equal to the arm functions `VoteClassification` and `IdeaClassification`, which `Classify` dispatches to. `HandleCreation` is proved equal to the specification function `Respond`. Lemmas state the classification cases about these functions.
- `roundtrip.dfy` (`RoundTrip`) proves the two-way law for the two lilnouns.wtf templates.
- `findings.dfy` (`Findings`) covers the defects listed under "## Findings": the code as written, and a corrected encoder and decoder proved to round-trip for all three templates.

Each Rust panic becomes an explicit outcome: `Panic(fault)` in a response, or `Crashed(fault)` in a classification. It is kept apart from the `Bad Request` the code answers on purpose. The source does not treat the two alike either: a panic is not a 400.

Where the code departs from what the service evidently intends, the model follows the code. The service evidently intends a 400 for any URL or code it cannot handle, and an id that survives the round trip:
- An unrecognised `(community, platform)` pair still gets a 200 redirect page whose target is the empty string (src/routes.rs:56, src/routes.rs:100). It does not get a 400.
- A proplot `idea` URL is encoded as `[1, 1, 2]`, with no id.
- Failures are a plain `Bad Request` or a panic. There is no taxonomy of error kinds.

## Model

| member | source | states |
|---|---|---|
| `Registry.CommunityOrdinal` | src/routes.rs:17-20 | the community's discriminant is positive, so 0 is never a valid ordinal |
| `Registry.PlatformOrdinal` | src/routes.rs:22-27 | each platform's discriminant lies in 1..3 |
| `Registry.PlatformOrdinalInjective` | src/routes.rs:22-27 | two platforms share a discriminant exactly when they are the same platform |
| `Registry.CanonicalHost` | src/routes.rs:47-55 | the host every destination URL is built on belongs to the host family the encoder accepts for that platform |
| `Decimal.ParseU32` | src/routes.rs:131 | an accepted id is below 2^32, and neither "" nor a lone "+" is accepted |
| `Decimal.Show` | src/routes.rs:48 | `format!` writes a canonical numeral: non-empty, digits only, no leading zero |
| `Decimal.ValueOfShow` | src/routes.rs:48 | the numeral `format!` writes denotes the number it was given |
| `Decimal.ValuePositive` | src/routes.rs:131 | a numeral with a non-zero first digit denotes a positive number |
| `Decimal.ParseShow` | src/routes.rs:131-135 | parsing the numeral of any id below 2^32 gives back that id |
| `Decimal.ShowValue` | src/routes.rs:48 | a canonical numeral is exactly what `format!` writes for its value |
| `Decimal.ShowParse` | src/routes.rs:131-135 | a canonical id that `parse::<u32>` accepts is spelled back unchanged by `format!` |
| `Segments.NonEmpty` | src/routes.rs:118-122 | the kept segments are exactly the non-empty ones: the same members, and the same multiset with every "" removed |
| `Segments.NonEmptyAppend` | src/routes.rs:118-122 | filtering commutes with concatenation, so the kept segments keep their order |
| `Segments.NonEmptyKeeps` | src/routes.rs:118-122 | a path without empty segments is returned unchanged |
| `Redirect.CommunityOf` | src/routes.rs:34-37 | a recognised number is the discriminant of the community it gives; no community has an unrecognised number as its discriminant |
| `Redirect.PlatformOf` | src/routes.rs:39-44 | a recognised number is the discriminant of the platform it gives; no platform has an unrecognised number as its discriminant |
| `Redirect.OrdinalsInvert` | src/routes.rs:34-44 | decoding a discriminant gives back its community and its platform |
| `Redirect.Destination` | src/routes.rs:46-55 | each `format!` arm is its platform's registry template filled with the id |
| `Redirect.VoteTemplate` | src/routes.rs:47-49 | the Ethereum arm's URL is the template on host lilnouns.wtf with path `/vote/{id}` |
| `Redirect.IdeaTemplate` | src/routes.rs:50-52 | the PropLot arm's URL is the template on host lilnouns.proplot.wtf with path `/idea/{id}` |
| `Redirect.NounsdaoTemplate` | src/routes.rs:53-55 | the MetaGov arm's URL is the template on host lilnouns.wtf with path `/vote/nounsdao/{id}` |
| `Redirect.TargetUrl` | src/routes.rs:34-57 | it panics exactly on a list shorter than 2, or on a list of 2 whose pair is recognised; it gives a non-empty URL exactly for a recognised pair with a third number, and that URL is the template of the pair's platform for that number |
| `Redirect.HandleRedirect` | src/routes.rs:29-103 | it answers Bad Request exactly when the parameter is missing; it panics (index out of bounds) exactly when `TargetUrl` does on the decoded numbers; it answers a page exactly when a code is present and `TargetUrl` gives a URL, and the page redirects to that URL |
| `Creation.VoteClassification` | src/routes.rs:117-136 | the lilnouns.wtf arm rejects exactly the paths not starting with `vote`; a triple it builds is `[1, p, id]` for `p` Ethereum or MetaGov, with the path starting with `p`'s prefix and `id` the parsed segment after it |
| `Creation.IdeaClassification` | src/routes.rs:143-157 | the proplot arm panics exactly on an empty path and builds a triple exactly when the first segment is `idea`; that triple redirects to `https://lilnouns.wtf/vote/2` |
| `Creation.Classify` | src/routes.rs:116-165 | any triple it lets through has three `u64` numbers, a `u32` id and a pair the decoder recognises; an unknown or missing host is rejected |
| `Creation.PushVoteNumbers` | src/routes.rs:117-136 | pushing the ordinals and the parsed id onto `numbers` gives the lilnouns.wtf arm's classification |
| `Creation.PushIdeaNumbers` | src/routes.rs:143-157 | pushing onto `numbers` as the proplot arm does gives that arm's classification |
| `Creation.Respond` | src/routes.rs:106-169 | the handler panics exactly on an unparsable URL, a classification that crashes, and a triple the codec refuses to encode |
| `Creation.HandleCreation` | src/routes.rs:106-169 | the step-by-step handler answers as `Respond` specifies; a created answer echoes the payload's URL |
| `Creation.NounsdaoTriple` | src/routes.rs:128-131 | on a lilnouns.wtf host, segments `vote, nounsdao, n, ...` with `n` a `u32` give `[1, 3, n]` |
| `Creation.VoteTriple` | src/routes.rs:132-136 | on a lilnouns.wtf host, segments `vote, s, ...` with `s` other than `nounsdao` and a `u32` give `[1, 1, s]` |
| `Creation.IdeaTriple` | src/routes.rs:152-154 | on a proplot host, a first segment `idea` gives `[1, 1, 2]` whatever follows |
| `Creation.RejectedExactly` | src/routes.rs:116-165 | Bad Request comes exactly from a missing or unknown host, a lilnouns.wtf path that is empty or does not start with `vote`, or a proplot path whose first segment is not `idea` |
| `Creation.CrashedExactly` | src/routes.rs:124-152 | the classification crashes exactly on `/vote`, on `/vote/nounsdao`, on an id that is not a `u32`, and on an empty proplot path |
| `Creation.CreatedCarriesCode` | src/routes.rs:138-141 | a created answer holds the input URL and the codec's code for the URL's triple |
| `Creation.BadRequestExactly` | src/routes.rs:113-168 | the handler answers Bad Request exactly when the body is not a payload or the URL is rejected |
| `RoundTrip.ResolveTriple` | src/routes.rs:46-57 | the decoder turns `[1, ordinal(p), id]` into platform `p`'s template URL for `id` |
| `RoundTrip.VoteFamilyRoundTrip` | src/routes.rs:117-141 | for the Ethereum and MetaGov templates, on either host, a template-shaped URL with a canonical `u32` id gets a code that redirects to the template URL for that id |
| `RoundTrip.VoteRoundTrip` | src/routes.rs:128-136 | `https://[www.]lilnouns.wtf/vote/{id}` comes back as `https://lilnouns.wtf/vote/{id}` |
| `RoundTrip.NounsdaoRoundTrip` | src/routes.rs:128-131 | `https://[www.]lilnouns.wtf/vote/nounsdao/{id}` comes back as `https://lilnouns.wtf/vote/nounsdao/{id}` |
| `Findings.IdeaRedirectsToVoteTwo` | src/routes.rs:152-154 | every proplot `idea` URL gets a code that redirects to the Ethereum vote 2, whatever its id |
| `Findings.IdeaIsNotVote` | src/routes.rs:47-52 | no idea URL equals any vote URL |
| `Findings.MissingVoteIdPanics` | src/routes.rs:128-131 | on a lilnouns.wtf host, `/vote` panics on an index past the segments |
| `Findings.MissingNounsdaoIdPanics` | src/routes.rs:128-131 | on a lilnouns.wtf host, `/vote/nounsdao` panics on an index past the segments |
| `Findings.NonNumericIdPanics` | src/routes.rs:131-135 | on a lilnouns.wtf host, `/vote/latest` panics on the `unwrap` of the parse |
| `Findings.UndecodableCodePanics` | src/routes.rs:32-39 | a code that decodes to fewer than two numbers makes the redirect panic |
| `Findings.UnknownPairRedirectsNowhere` | src/routes.rs:46-57 | a code that decodes to `[1, 9, 3]` gets a page that redirects to the empty URL |
| `Findings.TemplateIdExtracts` | src/routes.rs:128-135 | on a host of a template, the template's prefix followed by the numeral `format!` writes for an id below 2^32 yields that id, whatever follows |
| `Findings.IntendedResolve` | src/routes.rs:46-57 | the corrected decoder gives a URL exactly for a recognised pair with an id, and that URL is the template URL |
| `Findings.IntendedClassify` | src/routes.rs:116-165 | every triple the corrected encoder builds is a `u64` triple that the corrected decoder resolves, and it builds one only for a host of the triple's template, a path starting with that template's prefix, and an id that is the parsed segment after the prefix; any other URL is refused |
| `Findings.IntendedRefusesMissingVoteId` | src/routes.rs:128-131 | the corrected encoder refuses `/vote` |
| `Findings.IntendedRefusesMissingNounsdaoId` | src/routes.rs:128-131 | the corrected encoder refuses `/vote/nounsdao` |
| `Findings.IntendedRefusesNonNumericId` | src/routes.rs:131-135 | the corrected encoder refuses `/vote/latest` |
| `Findings.IntendedRoundTrip` | src/routes.rs:128-154 | for all three templates, a template-shaped URL with a canonical `u32` id resolves back to the template URL |
| `Findings.IntendedClassifiesTemplate` | src/routes.rs:128-154 | the corrected encoder files a template-shaped path under its template, with its id |
| `Findings.IntendedAgreesOnVotes` | src/routes.rs:128-136 | wherever the written encoder builds a lilnouns.wtf triple, the corrected one builds the same triple |
| `Findings.IntendedResolveAgrees` | src/routes.rs:46-57 | the corrected decoder gives a URL exactly where the written one gives a non-empty URL, and it is the same URL |

## Findings

| source | as written | input that shows it | evidently intended | confidence | as-written member | corrected member |
|---|---|---|---|---|---|---|
| src/routes.rs:144-154 | the proplot arm pushes `LilNouns` twice and then `PropLot`, and reads no id, so every idea URL encodes to `[1, 1, 2]` | `https://lilnouns.proplot.wtf/idea/5` gets a code that redirects to `https://lilnouns.wtf/vote/2` | `[1, 2, 5]`, which redirects to `https://lilnouns.proplot.wtf/idea/5` | high, not executed | `Findings.IdeaRedirectsToVoteTwo` | `Findings.IntendedRoundTrip` |
| src/routes.rs:128-135 | `segments[1]`, `segments[2]` and `parse::<u32>().unwrap()` run with no check | `https://lilnouns.wtf/vote`, `https://lilnouns.wtf/vote/nounsdao` and `https://lilnouns.wtf/vote/latest` panic | Bad Request | medium, not executed | `Findings.MissingVoteIdPanics` | `Findings.IntendedClassify` |
| src/routes.rs:34-39 | `numbers[0]` and `numbers[1]` are read with no length check | a string that is not a valid code, which Sqids decodes to an empty list, panics | Bad Request | medium, not executed | `Findings.UndecodableCodePanics` | `Findings.IntendedResolve` |
| src/routes.rs:46-57 | an unrecognised pair gives `String::new()`, and the page is still rendered with status 200 | a code that decodes to `[1, 9, 3]` gets a page redirecting to "" | Bad Request | medium, not executed | `Findings.UnknownPairRedirectsNowhere` | `Findings.IntendedResolveAgrees` |

The main model (`Creation`, `Redirect`) keeps the code as written, including the proplot arm. The corrected definitions live beside it in `Findings`. Each one is tied to the written model where the two agree (`IntendedAgreesOnVotes`, `IntendedResolveAgrees`).

## Left out

- HTTP transport and routing are not modelled: `Request`, `Response`, `RouteContext`, the async body read and the status codes (src/routes.rs:29-30, src/routes.rs:100-113, src/routes.rs:168). The route parameter becomes an `Option<string>` and the request body becomes the `Creation.Body` datatype.
- JSON (de)serialisation of `UrlPayload` through serde is not modelled (src/routes.rs:11-15, src/routes.rs:138-141, src/routes.rs:159-162). It is a foreign library; a body that is not a payload becomes `NotPayload`.
- The Sqids algorithm is not modelled (src/routes.rs:31-32, src/routes.rs:110, src/routes.rs:140). A codec is any pair of functions. Its round-trip law on triples of `u64` values is the hypothesis `Sqids.RoundTrips` of the laws that need it, and an encode error is a `None` that leads to a panic.
- URL parsing by the `url` crate is not modelled: `Url::parse`, `host_str`, `path_segments` and the `url.into()` serialisation (src/routes.rs:114-119). The model takes the host, the raw segments and the serialised URL as given, so host lower-casing, percent-encoding and the "Cannot get path segments" `expect` are not captured. A URL that fails to parse becomes `UnparsableUrl`, which panics as the `expect` does.
- The HTML redirect document is not modelled (src/routes.rs:59-98). It is static text around the target URL; `Redirect.Page(url)` stands for it.
- Integer widths are modelled only where they matter. The `u32` bound on parsed ids is explicit, and `try_into` into `u64` cannot fail. Decoded numbers are unbounded naturals, which cover every `u64` Sqids can return.
- Determinism of encoding and decoding is not stated as a lemma. It holds because every member is a function of its inputs.
