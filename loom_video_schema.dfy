/** The content-store schema of a Loom video document: its constraints, its
    initial value, its preview, and the `orderAsc` ordering (display order
    ascending, then title ascending). */
module LoomVideoSchema {
  import opened Wrappers
  import opened Strings
  import CaseStudySchema

  /** A stored Loom video. `order` is a number field, so any real value. */
  datatype LoomVideo = LoomVideo(
    title: Option<string>,
    description: Option<string>,
    loomUrl: Option<string>,
    embedUrl: Option<string>,
    tags: Option<seq<string>>,
    order: Option<real>,
    isActive: Option<bool>)

  /** The ten tag values of the list, in list order. */
  const LoomTags: seq<string> := [
    "ux-ui-design", "product-design", "branding", "web-development", "mobile-app",
    "prototype", "research", "strategy", "presentation", "process"
  ]

  /** The schemes `uri({ scheme: [...] })` admits. */
  const AllowedSchemes: set<string> := {"http", "https"}

  /** The scheme of a URL: the text before its first ':', when there is one. */
  function Scheme(url: string): (r: Option<string>)
    ensures r.Some? ==> r.value + ":" <= url && ':' !in r.value
    ensures r.None? <==> ':' !in url
  {
    var s := Before(url, ':');
    if |s| < |url| then
      assert url[..|s| + 1] == s + ":";
      Some(s)
    else
      assert s == url;
      None
  }

  /** The Loom URL is required and must use http or https. */
  predicate UrlValid(url: Option<string>) {
    Truthy(url) && Scheme(url.value).Some? && Scheme(url.value).value in AllowedSchemes
  }

  /** Tags, when present, are values of the list; the list sets no count. */
  predicate TagsValid(tags: Option<seq<string>>) {
    tags.None? || forall i :: 0 <= i < |tags.value| ==> tags.value[i] in LoomTags
  }

  /** The document constraints: a title, a valid Loom URL and listed tags. */
  predicate Valid(v: LoomVideo)
    ensures Valid(v) ==> v.title.Some? && v.title.value != ""
    ensures Valid(v) ==> v.loomUrl.Some? && ("http:" <= v.loomUrl.value || "https:" <= v.loomUrl.value)
  {
    Truthy(v.title) && UrlValid(v.loomUrl) && TagsValid(v.tags)
  }

  /** The two schemes the rule names are the only ones it lets through. */
  lemma UrlSchemes(rest: string)
    ensures UrlValid(Some("https:" + rest)) && UrlValid(Some("http:" + rest))
    ensures !UrlValid(Some("ftp:" + rest))
    ensures !UrlValid(Some("www.loom.com/share/x"))
  {
    BeforeStopsAt("https", ":" + rest, ':');
    assert "https:" + rest == "https" + (":" + rest);
    BeforeStopsAt("http", ":" + rest, ':');
    assert "http:" + rest == "http" + (":" + rest);
    BeforeStopsAt("ftp", ":" + rest, ':');
    assert "ftp:" + rest == "ftp" + (":" + rest);
  }

  /** A new document: everything empty except `isActive`, which starts true. */
  function NewLoomVideo(): (r: LoomVideo)
    ensures r.isActive == Some(true)
    ensures !Valid(r)
  {
    LoomVideo(None, None, None, None, None, None, Some(true))
  }

  /** The preview shows the title and the description as they are. */
  function LoomPreview(v: LoomVideo): (r: CaseStudySchema.Preview)
    ensures Valid(v) ==> r.title.Some? && r.title.value != ""
    ensures r.title == v.title && r.subtitle == v.description
  {
    CaseStudySchema.Preview(v.title, v.description)
  }

  /** Lexicographic comparison of strings by character code: negative, zero
      or positive as `a` sorts before, with, or after `b`. */
  function CompareText(a: string, b: string): (r: int)
    ensures -1 <= r <= 1
    ensures a == b ==> r == 0
    ensures |a| == 0 && |b| > 0 ==> r == -1
    decreases |a|
  {
    if |a| == 0 && |b| == 0 then 0
    else if |a| == 0 then -1
    else if |b| == 0 then 1
    else if a[0] < b[0] then -1
    else if a[0] > b[0] then 1
    else CompareText(a[1..], b[1..])
  }

  lemma {:induction false} CompareTextAntisymmetric(a: string, b: string)
    ensures CompareText(a, b) == -CompareText(b, a)
    decreases |a|
  {
    if |a| > 0 && |b| > 0 && a[0] == b[0] {
      CompareTextAntisymmetric(a[1..], b[1..]);
    }
  }

  lemma {:induction false} CompareTextZero(a: string, b: string)
    ensures CompareText(a, b) == 0 <==> a == b
    decreases |a|
  {
    if |a| > 0 && |b| > 0 && a[0] == b[0] {
      CompareTextZero(a[1..], b[1..]);
      if a[1..] == b[1..] {
        assert a == [a[0]] + a[1..] && b == [b[0]] + b[1..];
      }
    }
  }

  lemma {:induction false} CompareTextTransitive(a: string, b: string, c: string)
    requires CompareText(a, b) <= 0 && CompareText(b, c) <= 0
    ensures CompareText(a, c) <= 0
    decreases |a|
  {
    if |a| > 0 && |b| > 0 && |c| > 0 && a[0] == b[0] && b[0] == c[0] {
      CompareTextTransitive(a[1..], b[1..], c[1..]);
    }
  }

  /** The comparison is ascending lexicographic order: a proper prefix
      sorts first, and otherwise the first differing character decides. */
  lemma {:induction false} CompareTextLexicographic(a: string, b: string, k: nat)
    requires k <= |a| && k <= |b| && a[..k] == b[..k]
    ensures k == |a| && k < |b| ==> CompareText(a, b) == -1
    ensures k < |a| && k < |b| && a[k] < b[k] ==> CompareText(a, b) == -1
    ensures k < |a| && k < |b| && a[k] > b[k] ==> CompareText(a, b) == 1
    decreases k
  {
    if k > 0 {
      assert a[0] == a[..k][0] && b[0] == b[..k][0];
      assert a[1..][..k - 1] == a[1..k] == a[..k][1..];
      assert b[1..][..k - 1] == b[1..k] == b[..k][1..];
      CompareTextLexicographic(a[1..], b[1..], k - 1);
    }
  }

  /** One key of the ordering: present values ascending, missing values last. */
  function CompareOrder(a: Option<real>, b: Option<real>): (r: int)
    ensures -1 <= r <= 1
    ensures r == 0 <==> a == b
  {
    if a.None? && b.None? then 0
    else if a.None? then 1
    else if b.None? then -1
    else if a.value < b.value then -1
    else if a.value > b.value then 1
    else 0
  }

  function CompareTitle(a: Option<string>, b: Option<string>): (r: int)
    ensures -1 <= r <= 1
  {
    if a.None? && b.None? then 0
    else if a.None? then 1
    else if b.None? then -1
    else CompareText(a.value, b.value)
  }

  /** `orderAsc`: by display order, then by title. */
  function Compare(a: LoomVideo, b: LoomVideo): (r: int)
    ensures -1 <= r <= 1
    ensures CompareOrder(a.order, b.order) != 0 ==> r == CompareOrder(a.order, b.order)
    ensures a.order.Some? && b.order.Some? && a.order.value < b.order.value ==> r < 0
    ensures a.order.Some? && b.order.None? ==> r < 0
  {
    var c := CompareOrder(a.order, b.order);
    if c != 0 then c else CompareTitle(a.title, b.title)
  }

  /** Swapping the arguments flips the verdict. */
  lemma CompareAntisymmetric(a: LoomVideo, b: LoomVideo)
    ensures Compare(a, b) == -Compare(b, a)
  {
    if a.order == b.order && a.title.Some? && b.title.Some? {
      CompareTextAntisymmetric(a.title.value, b.title.value);
    }
  }

  /** Two videos tie exactly when they share display order and title. */
  lemma CompareTies(a: LoomVideo, b: LoomVideo)
    ensures Compare(a, b) == 0 <==> a.order == b.order && a.title == b.title
  {
    if a.title.Some? && b.title.Some? {
      CompareTextZero(a.title.value, b.title.value);
    }
  }

  /** "Sorts no later than" is transitive, so the ordering is a total preorder. */
  lemma CompareTransitive(a: LoomVideo, b: LoomVideo, c: LoomVideo)
    requires Compare(a, b) <= 0 && Compare(b, c) <= 0
    ensures Compare(a, c) <= 0
  {
    if a.order == b.order && b.order == c.order
       && a.title.Some? && b.title.Some? && c.title.Some? {
      CompareTextTransitive(a.title.value, b.title.value, c.title.value);
    }
    if CompareOrder(a.order, b.order) == 0 {
      assert a.order == b.order;
    }
    if CompareOrder(b.order, c.order) == 0 {
      assert b.order == c.order;
    }
  }

  /** A list in `orderAsc` order. */
  predicate Sorted(vs: seq<LoomVideo>) {
    forall i, j :: 0 <= i < j < |vs| ==> Compare(vs[i], vs[j]) <= 0
  }

  /** In a sorted list display orders never decrease, videos without an order
      come after every video with one, and equal orders are in title order. */
  lemma SortedMeaning(vs: seq<LoomVideo>, i: nat, j: nat)
    requires Sorted(vs) && i < j < |vs|
    ensures vs[i].order.Some? && vs[j].order.Some? ==> vs[i].order.value <= vs[j].order.value
    ensures vs[i].order.None? ==> vs[j].order.None?
    ensures vs[i].order == vs[j].order ==> CompareTitle(vs[i].title, vs[j].title) <= 0
  {
    assert Compare(vs[i], vs[j]) <= 0;
  }
}
