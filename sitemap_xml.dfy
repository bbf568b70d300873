/** The hand-written XML sitemap route: five fixed entries and one per case
    study, each serialised as a `<url>` element inside one `urlset`. The
    clock's ISO timestamp and the case studies' slugs are parameters. */
module SitemapXml {
  import opened Wrappers
  import opened Strings

  const Base := "https://airstudio.work"

  datatype Entry = Entry(loc: string, priority: string, lastmod: string, changefreq: string)

  /** `toISOString().split('T')[0]`: the date part of the timestamp. */
  function Today(iso: string): (r: string)
    ensures r <= iso && 'T' !in r
    ensures r == Split(iso, 'T')[0]
  {
    BeforeIsFirstPiece(iso, 'T');
    Before(iso, 'T')
  }

  /** The fixed pages: path, priority and change frequency, in order. */
  const StaticPages: seq<(string, string, string)> := [
    ("", "1.0", "daily"),
    ("#about", "0.8", "weekly"),
    ("#contact", "0.8", "weekly"),
    ("#work", "0.9", "daily"),
    ("#benefits", "0.7", "monthly")
  ]

  /** Every entry of the route, the fixed pages first, then one per slug. */
  function Entries(iso: string, slugs: seq<string>): (r: seq<Entry>)
    ensures |r| == |StaticPages| + |slugs| == 5 + |slugs|
    ensures forall i :: 0 <= i < |StaticPages| ==>
      r[i] == Entry(Base + "/" + StaticPages[i].0, StaticPages[i].1, Today(iso), StaticPages[i].2)
    ensures forall j :: 0 <= j < |slugs| ==>
      r[|StaticPages| + j] == Entry(Base + "/" + slugs[j], "0.9", Today(iso), "weekly")
  {
    var today := Today(iso);
    seq(|StaticPages|, i requires 0 <= i < |StaticPages| =>
          Entry(Base + "/" + StaticPages[i].0, StaticPages[i].1, today, StaticPages[i].2))
    + seq(|slugs|, j requires 0 <= j < |slugs| => Entry(Base + "/" + slugs[j], "0.9", today, "weekly"))
  }

  /** The fixed text around an element's four values. */
  datatype Tags = Tags(locOpen: string, locClose: string,
                       lastmodOpen: string, lastmodClose: string,
                       freqOpen: string, freqClose: string,
                       priorityOpen: string, priorityClose: string)

  /** The text the route's template puts around the values. */
  const UrlTags := Tags(
    "<url>\n        <loc>", "</loc>",
    "\n        <lastmod>", "</lastmod>",
    "\n        <changefreq>", "</changefreq>",
    "\n        <priority>", "</priority>\n      </url>")

  /** Each closing text starts a new tag. */
  predicate WellFormed(t: Tags) {
    |t.locClose| > 0 && t.locClose[0] == '<' &&
    |t.lastmodClose| > 0 && t.lastmodClose[0] == '<' &&
    |t.freqClose| > 0 && t.freqClose[0] == '<' &&
    |t.priorityClose| > 0 && t.priorityClose[0] == '<'
  }

  lemma UrlTagsWellFormed()
    ensures WellFormed(UrlTags)
  {
  }

  /** A value between its opening and closing text, followed by `rest`. */
  function FieldXml(open: string, v: string, close: string, rest: string): string {
    open + v + close + rest
  }

  /** An element followed by `rest`: loc, lastmod, changefreq, priority, in
      that order. */
  function EntryXmlThen(e: Entry, t: Tags, rest: string): string {
    FieldXml(t.locOpen, e.loc, t.locClose,
      FieldXml(t.lastmodOpen, e.lastmod, t.lastmodClose,
        FieldXml(t.freqOpen, e.changefreq, t.freqClose,
          FieldXml(t.priorityOpen, e.priority, t.priorityClose, rest))))
  }

  /** One `<url>` element. */
  function EntryXml(e: Entry): string {
    EntryXmlThen(e, UrlTags, "")
  }

  /** The elements joined with nothing between them. */
  function UrlsXmlWith(es: seq<Entry>, t: Tags): string
    decreases |es|
  {
    if |es| == 0 then "" else EntryXmlThen(es[0], t, UrlsXmlWith(es[1..], t))
  }

  function UrlsXml(es: seq<Entry>): string {
    UrlsXmlWith(es, UrlTags)
  }

  const Header :=
    "<?xml version=\"1.0\" encoding=\"UTF-8\"?>\n<urlset \n"
    + "  xmlns=\"http://www.sitemaps.org/schemas/sitemap/0.9\"\n"
    + "  xmlns:xsi=\"http://www.w3.org/2001/XMLSchema-instance\"\n"
    + "  xmlns:image=\"http://www.google.com/schemas/sitemap-image/1.1\"\n"
    + "  xmlns:video=\"http://www.google.com/schemas/sitemap-video/1.1\"\n"
    + "  xsi:schemaLocation=\"http://www.sitemaps.org/schemas/sitemap/0.9 \n"
    + "                      http://www.sitemaps.org/schemas/sitemap/0.9/sitemap.xsd\"\n>"
  const Footer := "</urlset>"

  /** `GET`'s response body. */
  function SitemapXml(iso: string, slugs: seq<string>): (r: string)
    ensures Header <= r
    ensures |Footer| <= |r| && r[|r| - |Footer|..] == Footer
  {
    var body := UrlsXml(Entries(iso, slugs));
    assert (Header + body + Footer)[|Header + body|..] == Footer;
    Header + body + Footer
  }

  /** Reads `open`, then text up to the next '<', then `close`; gives back
      the text and what follows. */
  function Field(s: string, open: string, close: string): (r: Option<(string, string)>)
    ensures r.Some? ==> |r.value.1| < |s| || |open| + |close| == 0
  {
    if !(open <= s) then None
    else
      var rest := s[|open|..];
      var v := Before(rest, '<');
      var after := rest[|v|..];
      if close <= after then Some((v, after[|close|..])) else None
  }

  lemma FieldRoundTrip(open: string, v: string, close: string, rest: string)
    requires '<' !in v && |close| > 0 && close[0] == '<'
    ensures Field(FieldXml(open, v, close, rest), open, close) == Some((v, rest))
  {
    var s := open + v + close + rest;
    assert s[|open|..] == v + (close + rest);
    BeforeStopsAt(v, close + rest, '<');
    assert (v + (close + rest))[|v|..] == close + rest;
    assert (close + rest)[|close|..] == rest;
  }

  function ParseEntryWith(s: string, t: Tags): (r: Option<(Entry, string)>)
    ensures r.Some? && WellFormed(t) ==> |r.value.1| < |s|
  {
    var f1 := Field(s, t.locOpen, t.locClose);
    if f1.None? then None else
    var f2 := Field(f1.value.1, t.lastmodOpen, t.lastmodClose);
    if f2.None? then None else
    var f3 := Field(f2.value.1, t.freqOpen, t.freqClose);
    if f3.None? then None else
    var f4 := Field(f3.value.1, t.priorityOpen, t.priorityClose);
    if f4.None? then None else
    Some((Entry(f1.value.0, f4.value.0, f2.value.0, f3.value.0), f4.value.1))
  }

  /** Reads one `<url>` element back. */
  function ParseEntry(s: string): (r: Option<(Entry, string)>)
    ensures r.Some? ==> |r.value.1| < |s|
  {
    UrlTagsWellFormed();
    ParseEntryWith(s, UrlTags)
  }

  /** Reads a run of `<url>` elements back, up to the end of the text. */
  function ParseEntriesWith(s: string, t: Tags): Option<seq<Entry>>
    requires WellFormed(t)
    decreases |s|
  {
    if |s| == 0 then Some([])
    else
      var first := ParseEntryWith(s, t);
      if first.None? then None
      else
        var rest := ParseEntriesWith(first.value.1, t);
        if rest.None? then None else Some([first.value.0] + rest.value)
  }

  function ParseEntries(s: string): Option<seq<Entry>> {
    UrlTagsWellFormed();
    ParseEntriesWith(s, UrlTags)
  }

  /** None of an entry's values contains a '<'. */
  predicate Plain(e: Entry) {
    '<' !in e.loc && '<' !in e.priority && '<' !in e.lastmod && '<' !in e.changefreq
  }

  lemma EntryRoundTripWith(e: Entry, t: Tags, rest: string)
    requires Plain(e) && WellFormed(t)
    ensures ParseEntryWith(EntryXmlThen(e, t, rest), t) == Some((e, rest))
  {
    var r4 := FieldXml(t.priorityOpen, e.priority, t.priorityClose, rest);
    var r3 := FieldXml(t.freqOpen, e.changefreq, t.freqClose, r4);
    var r2 := FieldXml(t.lastmodOpen, e.lastmod, t.lastmodClose, r3);
    FieldRoundTrip(t.locOpen, e.loc, t.locClose, r2);
    FieldRoundTrip(t.lastmodOpen, e.lastmod, t.lastmodClose, r3);
    FieldRoundTrip(t.freqOpen, e.changefreq, t.freqClose, r4);
    FieldRoundTrip(t.priorityOpen, e.priority, t.priorityClose, rest);
  }

  /** The serialised elements read back as the same entries, in the same
      order, so nothing is lost, added or reordered. */
  lemma {:induction false} UrlsRoundTripWith(es: seq<Entry>, t: Tags)
    requires WellFormed(t)
    requires forall i :: 0 <= i < |es| ==> Plain(es[i])
    ensures ParseEntriesWith(UrlsXmlWith(es, t), t) == Some(es)
    decreases |es|
  {
    if |es| > 0 {
      var tail := UrlsXmlWith(es[1..], t);
      EntryRoundTripWith(es[0], t, tail);
      assert forall i :: 0 <= i < |es[1..]| ==> Plain(es[1..][i]);
      UrlsRoundTripWith(es[1..], t);
      ParseEntriesCons(UrlsXmlWith(es, t), t, es[0], tail, es[1..]);
      HeadTail(es);
    }
  }

  /** One element read, then the rest read: the run reads as their concatenation. */
  lemma ParseEntriesCons(s: string, t: Tags, e: Entry, tail: string, rest: seq<Entry>)
    requires WellFormed(t)
    requires ParseEntryWith(s, t) == Some((e, tail))
    requires ParseEntriesWith(tail, t) == Some(rest)
    ensures ParseEntriesWith(s, t) == Some([e] + rest)
  {
  }

  lemma HeadTail<T>(xs: seq<T>)
    requires |xs| > 0
    ensures [xs[0]] + xs[1..] == xs
  {
  }

  lemma UrlsRoundTrip(es: seq<Entry>)
    requires forall i :: 0 <= i < |es| ==> Plain(es[i])
    ensures ParseEntries(UrlsXml(es)) == Some(es)
  {
    UrlTagsWellFormed();
    UrlsRoundTripWith(es, UrlTags);
  }

  /** The whole document, read back: strip the declaration and the closing
      tag, then read the elements. */
  function ParseSitemap(xml: string): Option<seq<Entry>> {
    if Header <= xml && |Header| + |Footer| <= |xml| && xml[|xml| - |Footer|..] == Footer
    then ParseEntries(xml[|Header|..|xml| - |Footer|])
    else None
  }

  lemma StripFrame(h: string, b: string, f: string)
    ensures var xml := h + b + f;
      h <= xml && |h| + |f| <= |xml| && xml[|xml| - |f|..] == f && xml[|h|..|xml| - |f|] == b
  {
    var xml := h + b + f;
    assert xml[..|h|] == h;
    assert xml[|xml| - |f|..] == f;
    assert xml[|h|..|xml| - |f|] == b;
  }

  /** No entry of the route has a '<' in it when the timestamp and the slugs
      have none. */
  lemma EntriesPlain(iso: string, slugs: seq<string>)
    requires '<' !in iso
    requires forall j :: 0 <= j < |slugs| ==> '<' !in slugs[j]
    ensures forall i :: 0 <= i < |Entries(iso, slugs)| ==> Plain(Entries(iso, slugs)[i])
  {
    var es := Entries(iso, slugs);
    assert '<' !in Base;
    forall i | 0 <= i < |es| ensures Plain(es[i]) {
      if i < |StaticPages| {
        assert '<' !in StaticPages[i].0 && '<' !in StaticPages[i].1 && '<' !in StaticPages[i].2;
      } else {
        assert '<' !in slugs[i - |StaticPages|];
      }
    }
  }

  /** The route's document carries exactly its entries, in order, when the
      timestamp and the slugs contain no '<'. */
  lemma SitemapRoundTrip(iso: string, slugs: seq<string>)
    requires '<' !in iso
    requires forall j :: 0 <= j < |slugs| ==> '<' !in slugs[j]
    ensures ParseSitemap(SitemapXml(iso, slugs)) == Some(Entries(iso, slugs))
  {
    var es := Entries(iso, slugs);
    EntriesPlain(iso, slugs);
    UrlsRoundTrip(es);
    StripFrame(Header, UrlsXml(es), Footer);
  }
}
