/**
 * The breadcrumb trail of components/Breadcrumb.tsx: Home, then one crumb per non-empty segment of the current
 * path. Every crumb but the last links to the path up to and including its segment; the last is the current
 * page. A separator is drawn after every entry but the last.
 */
module Breadcrumb {
  import opened Base
  import opened Strings
  import opened Lists

  predicate NonEmpty(s: string) {
    s != ""
  }

  /** `pathname.split("/").filter(Boolean)`. */
  function Segments(path: string): (r: seq<string>)
    ensures forall x :: x in r ==> x != "" && '/' !in x
  {
    SplitPiecesFree(path, '/');
    Filter(Split(path, '/'), NonEmpty)
  }

  /** A slash separates the segments of its two sides, and adds none of its own. */
  lemma SlashSeparates(a: string, b: string)
    ensures Segments(a + "/" + b) == Segments(a) + Segments(b)
  {
    SplitConcat(a, b, '/');
    FilterConcat(Split(a, '/'), Split(b, '/'), NonEmpty);
  }

  /** Repeated slashes count as one. */
  lemma DoubleSlash(a: string, b: string)
    ensures Segments(a + "//" + b) == Segments(a + "/" + b)
  {
    assert a + "//" + b == a + "/" + ("/" + b);
    SlashSeparates(a, "/" + b);
    assert "/" + b == "" + "/" + b;
    SlashSeparates("", b);
    assert Segments("") == [];
    SlashSeparates(a, b);
  }

  /** The path a crumb links to: a slash and the segments up to and including index `i`. */
  function Href(segments: seq<string>, i: int): string
    requires 0 <= i < |segments|
  {
    "/" + Join(segments[..i + 1], "/")
  }

  /** Each crumb's link is the previous one's followed by a slash and the next segment. */
  lemma HrefExtends(segments: seq<string>, i: int)
    requires 0 <= i && i + 1 < |segments|
    ensures Href(segments, i + 1) == Href(segments, i) + "/" + segments[i + 1]
    ensures Href(segments, i) <= Href(segments, i + 1)
  {
    assert segments[..i + 2] == segments[..i + 1] + [segments[i + 1]];
    JoinSnoc(segments[..i + 1], segments[i + 1], "/");
  }

  /** A crumb's link leads back to a page whose own trail is the crumbs up to it. */
  lemma HrefRoundTrip(path: string, i: int)
    requires 0 <= i < |Segments(path)|
    ensures Segments(Href(Segments(path), i)) == Segments(path)[..i + 1]
  {
    var segs := Segments(path)[..i + 1];
    forall k | 0 <= k < |segs| ensures '/' !in segs[k] && segs[k] != "" {
      assert segs[k] in Segments(path);
    }
    SplitJoin(segs, '/');
    assert Href(Segments(path), i) == "" + "/" + Join(segs, "/");
    SlashSeparates("", Join(segs, "/"));
    assert Segments("") == [];
    FilterAll(segs, NonEmpty);
  }

  /** One entry of the trail: `href` is `None` for the current page, which is text, not a link. */
  datatype Entry = Entry(caption: string, href: Option<string>, separatorAfter: bool)

  /** The rendered trail for `path`. */
  function Trail(path: string): (r: seq<Entry>)
    ensures |r| == |Segments(path)| + 1
    ensures r[0] == Entry("Home", Some("/"), |Segments(path)| > 0)
    ensures forall k :: 0 <= k < |r| ==> (r[k].separatorAfter <==> k < |r| - 1)
    ensures forall k :: 0 <= k < |r| ==> (r[k].href.None? <==> k == |r| - 1 && k > 0)
    ensures forall k :: 1 <= k < |r| ==> r[k].caption == Segments(path)[k - 1]
    ensures forall k :: 1 <= k < |r| - 1 ==> r[k].href == Some(Href(Segments(path), k - 1))
  {
    var segs := Segments(path);
    [Entry("Home", Some("/"), |segs| > 0)] +
    seq(|segs|, i requires 0 <= i < |segs| =>
      var isLast := i == |segs| - 1;
      Entry(segs[i], if isLast then None else Some(Href(segs, i)), !isLast))
  }
}
