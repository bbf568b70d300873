/** The content-store schema of a case-study document: the constraints it
    declares on stored documents, the slug generated from the title, and the
    preview line the editor shows for each kind of content block. */
module CaseStudySchema {
  import opened Wrappers
  import opened Strings
  import opened DesignTokens
  import opened TagColors
  import opened Content
  import CaseStudyPage
  import CaseStudyModal

  const SlugMaxLength := 96
  const MaxTags := 6
  const MaxMetrics := 3

  /** The tag list options: the title the editor shows and the stored value. */
  const TagOptions: seq<(string, string)> := [
    ("UX/UI Design", "ux-ui-design"),
    ("Experiment", "experiment"),
    ("Motion Design", "motion-design"),
    ("Full Cycle", "full-cycle"),
    ("AI", "ai"),
    ("Product Systems", "product-systems")
  ]

  /** The stored values of the tag list, in list order. */
  function TagValues(): (r: seq<string>)
    ensures |r| == |TagOptions|
    ensures forall i :: 0 <= i < |r| ==> r[i] == TagOptions[i].1
  {
    seq(|TagOptions|, i requires 0 <= i < |TagOptions| => TagOptions[i].1)
  }

  /** The schema's tag list is the design library's: same values in the same
      order, and the editor shows each with the title the site shows. */
  lemma TagOptionsMatchLibrary()
    ensures TagValues() == KnownTags
    ensures forall i :: 0 <= i < |TagOptions| ==>
      TagOptions[i].1 in TagTitleTable && TagTitleTable[TagOptions[i].1] == TagOptions[i].0
  {
    var v := TagValues();
    assert v[0] == KnownTags[0] && v[1] == KnownTags[1] && v[2] == KnownTags[2];
    assert v[3] == KnownTags[3] && v[4] == KnownTags[4] && v[5] == KnownTags[5];
  }

  /** A slug field: `{ current: string }`. */
  datatype SlugValue = SlugValue(current: Option<string>)

  /** A stored case study, with the fields the schema constrains. */
  datatype Document = Document(
    slug: Option<SlugValue>,
    title: Option<string>,
    tags: Option<seq<string>>,
    content: Option<seq<Block>>)

  /** The six `_type`s the content array admits. */
  predicate SchemaKind(b: Block) {
    b.MetricsCallout? || b.PromptCallout? || b.QuoteCallout? ||
    b.TestimonialCallout? || b.TextSection? || b.ImageBlock?
  }

  /** One content entry: a schema kind; a metrics list of at most three; the
      text of a text section is a plain `text` field, not rich text. */
  predicate BlockValid(b: Block) {
    SchemaKind(b) &&
    (b.MetricsCallout? && b.metrics.Some? ==> |b.metrics.value| <= MaxMetrics) &&
    (b.TextSection? && b.body.Some? ==> b.body.value.PlainText?)
  }

  /** A tag array: at most six entries, each a value of the list. */
  predicate TagsValid(tags: Option<seq<string>>) {
    tags.None? ||
    (|tags.value| <= MaxTags && forall i :: 0 <= i < |tags.value| ==> tags.value[i] in TagValues())
  }

  /** The document constraints: a slug and a title are required, the tags
      and the content obey their rules; every other field is optional. */
  predicate Valid(d: Document)
    ensures Valid(d) ==> d.slug.Some? && d.slug.value.current.Some? && d.slug.value.current.value != ""
    ensures Valid(d) ==> d.title.Some? && d.title.value != ""
    ensures Valid(d) && d.tags.Some? ==>
      |d.tags.value| <= MaxTags && forall i :: 0 <= i < |d.tags.value| ==> d.tags.value[i] in KnownTags
  {
    TagOptionsMatchLibrary();
    d.slug.Some? && Truthy(d.slug.value.current) &&
    Truthy(d.title) &&
    TagsValid(d.tags) &&
    (d.content.Some? ==> forall i :: 0 <= i < |d.content.value| ==> BlockValid(d.content.value[i]))
  }

  /** The slug the editor generates from the (already slugified) title: cut
      to at most 96 characters, otherwise unchanged. */
  function GenerateSlug(candidate: string): (r: string)
    ensures |r| <= SlugMaxLength
    ensures r <= candidate
    ensures |candidate| <= SlugMaxLength ==> r == candidate
    ensures |candidate| > SlugMaxLength ==> |r| == SlugMaxLength
  {
    if |candidate| <= SlugMaxLength then candidate else candidate[..SlugMaxLength]
  }

  /** Generating again from a generated slug changes nothing. */
  lemma GenerateSlugIdempotent(candidate: string)
    ensures GenerateSlug(GenerateSlug(candidate)) == GenerateSlug(candidate)
  {
  }

  /** Every tag of a valid document is drawn with its own palette colour and
      its readable title on the case-study page: none falls back to grey. */
  lemma ValidTagsStyled(d: Document, i: nat)
    requires Valid(d) && d.tags.Some? && i < |d.tags.value|
    ensures d.tags.value[i] in KnownTags
    ensures CaseStudyPage.TagChip(d.tags.value[i]).background != Grey500
    ensures CaseStudyPage.TagChip(d.tags.value[i]).caption == TagTitleTable[d.tags.value[i]]
  {
    TagOptionsMatchLibrary();
  }

  /** Only the renderers' extra kinds (links, facts, Loom embeds, videos and
      unknown types) are out of reach of a valid document: its blocks render
      in the modal as metrics, prompt, quote, testimonial, text or image, or
      not at all. */
  lemma ValidBlocksModalKinds(b: Block)
    requires BlockValid(b)
    ensures var r := CaseStudyModal.RenderBlock(b);
      r.None? || r.value.MetricsView? || r.value.PromptView? || r.value.QuoteView? ||
      r.value.TestimonialView? || r.value.TextView? || r.value.ImageView?
  {
  }

  /** A schema-valid document can still hold an image block whose image has
      no uploaded asset: the schema requires neither, so the unguarded reads
      in both renderers are reachable from valid data. */
  lemma SchemaAdmitsImageWithoutAsset()
    ensures var b := ImageBlock(Some(Media(None, Some("cover"))));
      Valid(Document(Some(SlugValue(Some("case"))), Some("Case"), None, Some([b]))) &&
      CaseStudyModal.RenderBlockAsWritten(b).Crash? &&
      CaseStudyPage.RenderPageBlockAsWritten(b).Crash?
  {
    var b := ImageBlock(Some(Media(None, Some("cover"))));
    var d := Document(Some(SlugValue(Some("case"))), Some("Case"), None, Some([b]));
    assert BlockValid(d.content.value[0]);
  }

  /** On a valid document the page as written throws only on an image
      without an asset: the text of a valid text section is plain text,
      which the page can put inside a paragraph. */
  lemma ValidBlocksPageCrash(b: Block)
    requires BlockValid(b)
    ensures CaseStudyPage.RenderPageBlockAsWritten(b).Crash? <==>
      b.ImageBlock? && b.image.Some? && b.image.value.asset.None?
  {
  }

  /** The editor's preview of a block: a title line and an optional subtitle
      (`undefined` when the selected field is missing). */
  datatype Preview = Preview(title: Option<string>, subtitle: Option<string>)

  /** How a template literal writes a value that may be `undefined`. */
  function Interpolated(o: Option<string>): string {
    if o.Some? then o.value else "undefined"
  }

  /** The metrics preview: the title or "Metrics"; the subtitle carries the
      number of metrics when there is a list, and no number otherwise. */
  function MetricsPreview(title: Option<string>, metrics: Option<seq<Metric>>): (r: Preview)
    ensures r.title.Some? && r.title.value != ""
    ensures Truthy(title) ==> r.title == title
    ensures !Truthy(title) ==> r.title == Some("Metrics")
    ensures r.subtitle.Some?
    ensures metrics.Some? ==> ParseInt(r.subtitle.value) == Some(|metrics.value|)
    ensures metrics.Some? ==>
      (|r.subtitle.value| > 8 && r.subtitle.value[|r.subtitle.value| - 8..] == " metrics")
    ensures metrics.None? ==> ParseInt(r.subtitle.value) == None && r.subtitle.value == "No metrics"
  {
    if metrics.Some? then
      ParseIntOfNatToString(|metrics.value|, " metrics");
      Preview(Some(OrDefault(title, "Metrics")), Some(NatToString(|metrics.value|) + " metrics"))
    else
      Preview(Some(OrDefault(title, "Metrics")), Some("No metrics"))
  }

  /** The prompt preview: the title or "Prompt", and the prompt text. */
  function PromptPreview(title: Option<string>, text: Option<string>): (r: Preview)
    ensures r.title.Some? && r.title.value != ""
    ensures Truthy(title) ==> r.title == title
    ensures !Truthy(title) ==> r.title == Some("Prompt")
    ensures r.subtitle == text
  {
    Preview(Some(OrDefault(title, "Prompt")), text)
  }

  /** The subtitle shared by quotes and testimonials: the text, followed by
      " - " and the author when there is one. */
  function AttributedSubtitle(text: Option<string>, author: Option<string>): (r: Option<string>)
    ensures !Truthy(author) ==> r == text
    ensures Truthy(author) ==> r.Some? && Interpolated(text) <= r.value
    ensures Truthy(author) ==> var tail := " - " + author.value;
      |tail| <= |r.value| && r.value[|r.value| - |tail|..] == tail &&
      |r.value| == |Interpolated(text)| + |tail|
  {
    if Truthy(author) then
      var line := Interpolated(text) + (" - " + author.value);
      assert Interpolated(text) + " - " + author.value == line;
      Some(line)
    else text
  }

  /** The quote preview: the title or "Quote". */
  function QuotePreview(title: Option<string>, text: Option<string>, author: Option<string>): (r: Preview)
    ensures r.title.Some? && r.title.value != ""
    ensures Truthy(title) ==> r.title == title
    ensures !Truthy(title) ==> r.title == Some("Quote")
    ensures r.subtitle == AttributedSubtitle(text, author)
  {
    Preview(Some(OrDefault(title, "Quote")), AttributedSubtitle(text, author))
  }

  /** The testimonial preview: the title or "Testimonial". */
  function TestimonialPreview(title: Option<string>, text: Option<string>, author: Option<string>): (r: Preview)
    ensures r.title.Some? && r.title.value != ""
    ensures Truthy(title) ==> r.title == title
    ensures !Truthy(title) ==> r.title == Some("Testimonial")
    ensures r.subtitle == AttributedSubtitle(text, author)
  {
    Preview(Some(OrDefault(title, "Testimonial")), AttributedSubtitle(text, author))
  }

  /** Quotes and testimonials preview alike: the same subtitle, and titles
      that differ only when the editor left the title empty. */
  lemma QuoteTestimonialPreviewsAgree(title: Option<string>, text: Option<string>, author: Option<string>)
    ensures QuotePreview(title, text, author).subtitle == TestimonialPreview(title, text, author).subtitle
    ensures QuotePreview(title, text, author).title == TestimonialPreview(title, text, author).title
      <==> Truthy(title)
  {
  }

  /** An author with no text still gets a subtitle: the literal "undefined"
      before the dash. */
  lemma AuthorWithoutText(author: string)
    requires author != ""
    ensures AttributedSubtitle(None, Some(author)) == Some("undefined - " + author)
  {
    assert "undefined" + (" - " + author) == "undefined - " + author;
  }

  /** The preview of a content block of one of the six kinds; a text section
      shows its heading and text, an image its alt text. */
  function BlockPreview(b: Block): (r: Preview)
    requires SchemaKind(b)
    ensures b.MetricsCallout? ==> r == MetricsPreview(b.title, b.metrics)
    ensures b.PromptCallout? ==> r == PromptPreview(b.title, b.text)
    ensures b.QuoteCallout? ==> r == QuotePreview(b.title, b.text, b.author)
    ensures b.TestimonialCallout? ==> r == TestimonialPreview(b.title, b.text, b.author)
    ensures b.TextSection? ==> r.title == b.heading
    ensures b.TextSection? && b.body.Some? && b.body.value.PlainText? ==> r.subtitle == Some(b.body.value.s)
    ensures b.TextSection? && b.body.None? ==> r.subtitle.None?
    ensures b.ImageBlock? ==> r.title == (if b.image.Some? then b.image.value.alt else None)
    ensures b.ImageBlock? ==> r.subtitle.None?
  {
    match b
    case MetricsCallout(title, metrics) => MetricsPreview(title, metrics)
    case PromptCallout(title, text) => PromptPreview(title, text)
    case QuoteCallout(title, text, author, _) => QuotePreview(title, text, author)
    case TestimonialCallout(title, text, author, _) => TestimonialPreview(title, text, author)
    case TextSection(heading, body) =>
      Preview(heading,
              if body.Some? && body.value.PlainText? then Some(body.value.s) else None)
    case ImageBlock(image) =>
      Preview(if image.Some? then image.value.alt else None, None)
  }

  /** Every callout's preview has a non-empty title: each falls back to its
      kind's name. */
  lemma CalloutPreviewsTitled(b: Block)
    requires b.MetricsCallout? || b.PromptCallout? || b.QuoteCallout? || b.TestimonialCallout?
    ensures BlockPreview(b).title.Some? && BlockPreview(b).title.value != ""
  {
  }
}
