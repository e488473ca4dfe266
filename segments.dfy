/**
 * The empty-segment filter the encoder applies to a URL path before looking
 * at it: `path_segments().filter(|segment| !segment.is_empty()).collect()`
 * (src/routes.rs:118-122 and again at src/routes.rs:146-150). It lets
 * `/vote/42/` and `/vote//42` read like `/vote/42`.
 */
module Segments {

  /** The segments of `path` that are not empty, in their original order. */
  function NonEmpty(path: seq<string>): (segments: seq<string>)
    ensures forall s :: s in segments <==> s in path && s != ""
    ensures multiset(segments) == multiset(path)["" := 0]
  {
    if path == [] then []
    else
      var rest := NonEmpty(path[1..]);
      assert path == [path[0]] + path[1..];
      if path[0] == "" then rest else [path[0]] + rest
  }

  /** Filtering commutes with concatenation, so the kept segments stay in order. */
  lemma {:induction false} NonEmptyAppend(a: seq<string>, b: seq<string>)
    ensures NonEmpty(a + b) == NonEmpty(a) + NonEmpty(b)
  {
    if a == [] {
      assert a + b == b;
    } else {
      assert (a + b)[1..] == a[1..] + b;
      NonEmptyAppend(a[1..], b);
    }
  }

  /** A path without empty segments is left as it is. */
  lemma {:induction false} NonEmptyKeeps(path: seq<string>)
    requires forall i :: 0 <= i < |path| ==> path[i] != ""
    ensures NonEmpty(path) == path
  {
    if path != [] {
      NonEmptyKeeps(path[1..]);
    }
  }
}
