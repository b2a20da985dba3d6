/**
 * The breadcrumb trail above a page: a leading "Inicio" link, then one crumb per
 * segment of the current path, each linking to the path up to that segment, the
 * last one shown as plain text.
 */
module Breadcrumbs {
  import opened Wrappers
  import opened Text

  /** `pathname.split("/").filter(x => x)`. */
  function Segments(path: string): (r: seq<string>)
    ensures forall k :: 0 <= k < |r| ==> r[k] != "" && '/' !in r[k]
  {
    var pieces := Split(path, '/');
    var r := NonEmpty(pieces);
    assert forall k :: 0 <= k < |r| ==> r[k] in pieces;
    r
  }

  /** A well-formed segment list: what `Segments` can return. */
  predicate PathSegments(segs: seq<string>) {
    forall k :: 0 <= k < |segs| ==> segs[k] != "" && '/' !in segs[k]
  }

  /** The link of the crumb for segment `i`: "/" and the first `i + 1` segments joined by "/". */
  function RouteTo(segs: seq<string>, i: nat): string
    requires i < |segs|
  {
    "/" + Join("/", segs[..i + 1])
  }

  /** `s.replace(/-/g, " ")`. */
  function DashesToSpaces(s: string): (r: string)
    ensures |r| == |s|
    ensures forall i :: 0 <= i < |s| ==> r[i] == (if s[i] == '-' then ' ' else s[i])
  {
    if s == "" then "" else [if s[0] == '-' then ' ' else s[0]] + DashesToSpaces(s[1..])
  }

  /** `segment.charAt(0).toUpperCase() + segment.slice(1).replace(/-/g, " ")`. */
  function Label(segment: string): string {
    if segment == "" then "" else [UpperChar(segment[0])] + DashesToSpaces(segment[1..])
  }

  /** One crumb: its text, and its link unless it is the current page. */
  datatype Crumb = Crumb(text: string, link: Option<string>)

  /** The leading crumb. */
  const Home := Crumb("Inicio", Some("/"))

  /** The crumbs of the segments, in order; only the last one has no link. */
  function SegmentCrumbs(segs: seq<string>): (r: seq<Crumb>)
    ensures |r| == |segs|
    ensures forall i :: 0 <= i < |segs| ==> r[i].text == Label(segs[i])
    ensures forall i :: 0 <= i < |segs| ==>
              r[i].link == (if i == |segs| - 1 then None else Some(RouteTo(segs, i)))
  {
    seq(|segs|, i requires 0 <= i < |segs| =>
      Crumb(Label(segs[i]), if i == |segs| - 1 then None else Some(RouteTo(segs, i))))
  }

  /** The whole trail for a path. */
  function Crumbs(path: string): (r: seq<Crumb>)
    ensures |r| == 1 + |Segments(path)|
    ensures r[0] == Home
  {
    [Home] + SegmentCrumbs(Segments(path))
  }

  /** The links of a trail built from any segment list. */
  lemma TrailLinks(segs: seq<string>)
    ensures var r := [Home] + SegmentCrumbs(segs);
            forall k :: 1 <= k < |r| ==>
              r[k].link == (if k == |r| - 1 then None else Some(RouteTo(segs, k - 1)))
  {
    var tail := SegmentCrumbs(segs);
    var r := [Home] + tail;
    forall k | 1 <= k < |r|
      ensures r[k].link == (if k == |r| - 1 then None else Some(RouteTo(segs, k - 1)))
    {
      assert r[k] == tail[k - 1];
    }
  }

  /**
   * Exactly the last crumb is plain text, and only when the path has a segment;
   * every other crumb after the first links to its segment's prefix.
   */
  lemma OnlyLastIsText(path: string)
    ensures var r := Crumbs(path);
            forall k :: 0 <= k < |r| ==> (r[k].link.None? <==> k == |r| - 1 && k >= 1)
    ensures var r := Crumbs(path); var segs := Segments(path);
            forall k :: 1 <= k < |r| - 1 ==> r[k].link == Some(RouteTo(segs, k - 1))
  {
    TrailLinks(Segments(path));
  }

  /** A crumb's label is its segment with the first letter raised and dashes turned to spaces. */
  lemma LabelShape(segment: string)
    requires segment != ""
    ensures |Label(segment)| == |segment|
    ensures Label(segment)[0] == UpperChar(segment[0])
    ensures forall i :: 1 <= i < |segment| ==>
              Label(segment)[i] == (if segment[i] == '-' then ' ' else segment[i])
    ensures '-' !in Label(segment)[1..]
  {
    var d := DashesToSpaces(segment[1..]);
    assert Label(segment)[1..] == d;
    forall i | 1 <= i < |segment|
      ensures Label(segment)[i] == (if segment[i] == '-' then ' ' else segment[i])
    {
      assert Label(segment)[i] == d[i - 1];
    }
  }

  /** Each crumb's link extends the previous one by "/" and the next segment. */
  lemma RouteStep(segs: seq<string>, i: nat)
    requires i + 1 < |segs|
    ensures RouteTo(segs, i + 1) == RouteTo(segs, i) + "/" + segs[i + 1]
  {
    assert segs[..i + 2][..i + 1] == segs[..i + 1];
  }

  /** Each crumb's link is a prefix of every later one. */
  lemma {:induction false} RoutePrefix(segs: seq<string>, i: nat, j: nat)
    requires i <= j < |segs|
    ensures RouteTo(segs, i) <= RouteTo(segs, j)
    decreases j - i
  {
    if i < j {
      RouteStep(segs, i);
      RoutePrefix(segs, i + 1, j);
    }
  }

  /** The last segment's route is "/" and all segments joined. */
  lemma LastRoute(segs: seq<string>)
    requires segs != []
    ensures RouteTo(segs, |segs| - 1) == "/" + Join("/", segs)
  {
    assert segs[..|segs|] == segs;
  }

  /** Dropping empty pieces changes nothing when there are none. */
  lemma {:induction false} NonEmptyNoEmpty(parts: seq<string>)
    requires forall k :: 0 <= k < |parts| ==> parts[k] != ""
    ensures NonEmpty(parts) == parts
  {
    if parts != [] {
      NonEmptyNoEmpty(parts[1..]);
      assert [parts[0]] + parts[1..] == parts;
    }
  }

  /** "/" followed by joined segments splits into an empty piece and the segments. */
  lemma SplitRooted(segs: seq<string>)
    requires segs != [] && PathSegments(segs)
    ensures Segments("/" + Join("/", segs)) == segs
  {
    JoinCons("/", "", segs);
    assert [""] + segs != [];
    assert forall k :: 0 <= k < |[""] + segs| ==> '/' !in ([""] + segs)[k];
    SplitJoin([""] + segs, '/');
    NonEmptyNoEmpty(segs);
    assert NonEmpty([""] + segs) == NonEmpty(segs) by {
      assert ([""] + segs)[1..] == segs;
    }
  }

  /**
   * Following the link of the crumb for segment `i` leads to a page whose segments
   * are the first `i + 1` segments of this one.
   */
  lemma LinkLeadsToPrefix(path: string, i: nat)
    requires i < |Segments(path)|
    ensures Segments(RouteTo(Segments(path), i)) == Segments(path)[..i + 1]
  {
    var segs := Segments(path);
    var pre := segs[..i + 1];
    assert PathSegments(pre) by {
      assert forall k :: 0 <= k < |pre| ==> pre[k] == segs[k];
    }
    SplitRooted(pre);
  }

  /**
   * The trail of a path equals the trail of its normalized form, "/" and its segments
   * joined by "/", so repeated or trailing slashes change nothing.
   */
  lemma NormalizedPathSameTrail(path: string)
    requires Segments(path) != []
    ensures Crumbs("/" + Join("/", Segments(path))) == Crumbs(path)
  {
    SplitRooted(Segments(path));
  }
}
