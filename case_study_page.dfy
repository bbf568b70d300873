/** The stand-alone case-study page: its header (tags, title, summary, link,
    facts, Loom embed) and the content blocks it knows how to draw. */
module CaseStudyPage {
  import opened Wrappers
  import opened DesignTokens
  import opened TagColors
  import opened RichText
  import opened Content

  /** A tag chip: its background colour and the words on it. */
  datatype Chip = Chip(background: string, caption: string)

  /** `CaseStudyTag`: the page's own colour and name tables, with grey500 and
      the raw value as fallbacks. */
  function TagChip(tag: string): (r: Chip)
    ensures tag in KnownTags ==> r == Chip(TagColorTable[tag].background, TagTitleTable[tag])
    ensures tag !in KnownTags ==> r == Chip(Grey500, tag)
  {
    var colors := map[
      "ux-ui-design" := Green, "experiment" := Dun, "motion-design" := Blue,
      "full-cycle" := Pink, "ai" := LightGreen, "product-systems" := Beige];
    var names := map[
      "ux-ui-design" := "UX/UI Design", "experiment" := "Experiment",
      "motion-design" := "Motion Design", "full-cycle" := "Full Cycle",
      "ai" := "AI", "product-systems" := "Product Systems"];
    Chip(if tag in colors then colors[tag] else Grey500,
         if tag in names then names[tag] else tag)
  }

  /** The page's chip and the shared tag helpers name every tag alike and
      colour the six known tags alike; they part only on the fallback
      colour of an unknown tag (grey500 here, grey100 there). */
  lemma ChipMatchesLibrary(tag: string)
    ensures TagChip(tag).caption == GetTagTitle(tag)
    ensures tag in KnownTags ==> TagChip(tag).background == GetTagColors(tag).background
    ensures tag !in KnownTags ==>
      TagChip(tag).background == Grey500 && GetTagColors(tag).background == Grey100
  {
  }

  /** What a content block draws on the page. */
  datatype PageView =
    | MetricsRow(metrics: seq<Metric>, inRow: bool)
    | PromptBox(prompt: string)
    | QuoteBox(quote: string, attribution: Option<seq<string>>)
    | TestimonialBox(testimonial: string, attribution: Option<seq<string>>)
    | TextBlock(heading: Option<string>, text: Option<TextValue>)
    | Picture(src: Option<string>, alt: string)

  datatype Outcome = Shown(view: PageView) | Blank | Crash

  /** The attribution box of a quote or testimonial: shown when there is an
      author or an author title, listing those that are present. */
  function Attribution(author: Option<string>, authorTitle: Option<string>): (r: Option<seq<string>>)
    ensures r.Some? <==> Truthy(author) || Truthy(authorTitle)
    ensures r.Some? ==> 1 <= |r.value| <= 2
    ensures r.Some? && Truthy(author) ==> r.value[0] == author.value
    ensures r.Some? && Truthy(authorTitle) ==> r.value[|r.value| - 1] == authorTitle.value
  {
    if Truthy(author) || Truthy(authorTitle) then
      Some((if Truthy(author) then [author.value] else [])
           + (if Truthy(authorTitle) then [authorTitle.value] else []))
    else None
  }

  /** `MetricsCallout`: nothing for an empty list; side by side when there
      is more than one metric, stacked otherwise. */
  function MetricsView(metrics: seq<Metric>): (r: Option<PageView>)
    ensures r.None? <==> |metrics| == 0
    ensures r.Some? ==> r.value == MetricsRow(metrics, |metrics| > 1)
  {
    if |metrics| == 0 then None else Some(MetricsRow(metrics, |metrics| > 1))
  }

  /** A text body that React cannot put inside a paragraph: a non-empty
      array of portable-text blocks (objects are not valid children). */
  predicate RichBody(t: Option<TextValue>) {
    t.Some? && t.value.Portable? && |t.value.blocks| > 0
  }

  /** The block dispatch of the page exactly as written: an image with no
      asset is read through (`block.image.asset.url`), and a text section's
      text is placed inside a paragraph as it is, so a rich-text array
      throws. */
  function RenderPageBlockAsWritten(b: Block): (r: Outcome)
    ensures r.Crash? <==>
      (b.ImageBlock? && b.image.Some? && b.image.value.asset.None?) ||
      (b.TextSection? && RichBody(b.body))
    ensures b.LinkBlock? || b.FactsBlock? || b.LoomBlock? || b.VideoBlock? || b.UnknownBlock? ==> r.Blank?
  {
    match b
    case MetricsCallout(_, metrics) =>
      if metrics.None? then Blank
      else var v := MetricsView(metrics.value); if v.None? then Blank else Shown(v.value)
    case PromptCallout(_, text) =>
      if Truthy(text) then Shown(PromptBox(text.value)) else Blank
    case QuoteCallout(_, text, author, authorTitle) =>
      if Truthy(text) then Shown(QuoteBox(text.value, Attribution(author, authorTitle))) else Blank
    case TestimonialCallout(_, text, author, authorTitle) =>
      if Truthy(text) then Shown(TestimonialBox(text.value, Attribution(author, authorTitle))) else Blank
    case TextSection(heading, text) =>
      if RichBody(text) then Crash
      else Shown(TextBlock(if Truthy(heading) then heading else None, if TextTruthy(text) then text else None))
    case ImageBlock(image) =>
      if image.None? then Blank
      else if image.value.asset.None? then Crash
      else Shown(Picture(image.value.asset.value.url, OrDefault(image.value.alt, "")))
    case _ => Blank
  }

  /** The page's dispatch with the image read guarded like its other fields:
      an image without an asset draws nothing, and so does a text section
      whose text is rich text rather than the plain text the schema
      declares. */
  function RenderPageBlock(b: Block): (r: Option<PageView>)
    ensures b.MetricsCallout? ==> (r.Some? <==> b.metrics.Some? && |b.metrics.value| > 0)
    ensures b.PromptCallout? || b.QuoteCallout? || b.TestimonialCallout? ==> (r.Some? <==> Truthy(b.text))
    ensures b.TextSection? ==> (r.Some? <==> !RichBody(b.body))
    ensures b.ImageBlock? ==> (r.Some? <==> b.image.Some? && b.image.value.asset.Some?)
    ensures b.LinkBlock? || b.FactsBlock? || b.LoomBlock? || b.VideoBlock? || b.UnknownBlock? ==> r.None?
    ensures b.MetricsCallout? && r.Some? ==> Some(r.value) == MetricsView(b.metrics.value)
    ensures b.PromptCallout? && r.Some? ==> r.value == PromptBox(b.text.value)
    ensures b.QuoteCallout? && r.Some? ==>
      r.value == QuoteBox(b.text.value, Attribution(b.author, b.authorTitle))
    ensures b.TestimonialCallout? && r.Some? ==>
      r.value == TestimonialBox(b.text.value, Attribution(b.author, b.authorTitle))
    ensures b.TextSection? && r.Some? ==>
      r.value == TextBlock(if Truthy(b.heading) then b.heading else None,
                           if TextTruthy(b.body) then b.body else None)
    ensures b.ImageBlock? && r.Some? ==>
      r.value == Picture(b.image.value.asset.value.url,
                         if Truthy(b.image.value.alt) then b.image.value.alt.value else "")
  {
    match b
    case ImageBlock(image) =>
      if image.None? || image.value.asset.None? then None
      else Some(Picture(image.value.asset.value.url, OrDefault(image.value.alt, "")))
    case _ => Guard(RenderPageBlockAsWritten(b))
  }

  function Guard(o: Outcome): Option<PageView> {
    match o
    case Shown(v) => Some(v)
    case _ => None
  }

  /** An image block whose image has no asset throws on the page. */
  lemma PageImageCrash()
    ensures RenderPageBlockAsWritten(ImageBlock(Some(Media(None, Some("cover"))))) == Crash
    ensures RenderPageBlock(ImageBlock(Some(Media(None, Some("cover"))))) == None
  {
  }

  /** Only that shape and a rich-text text section throw, and elsewhere the
      guarded dispatch agrees with the code as written. */
  lemma PageGuardedAgrees(b: Block)
    ensures RenderPageBlockAsWritten(b).Crash? <==>
      (b.ImageBlock? && b.image.Some? && b.image.value.asset.None?) ||
      (b.TextSection? && RichBody(b.body))
    ensures RenderPageBlockAsWritten(b).Shown? ==> RenderPageBlock(b) == Some(RenderPageBlockAsWritten(b).view)
    ensures RenderPageBlockAsWritten(b).Blank? ==> RenderPageBlock(b) == None
  {
  }

  /** The rendered page, reduced to what it shows. */
  datatype PageDoc = PageDoc(
    chips: Option<seq<Chip>>,
    title: string,
    summary: Option<string>,
    link: Option<LinkField>,
    facts: Option<seq<(string, string)>>,
    loom: Option<string>,
    blocks: Option<seq<Option<PageView>>>)

  /** `CaseStudyPage`: the header parts each present under their own guard, then the content blocks in order. */
  function RenderPage(cs: CaseStudy): (r: PageDoc)
    ensures r.title == cs.title
    ensures r.chips.Some? <==> cs.tags.Some? && |cs.tags.value| > 0
    ensures r.chips.Some? ==> |r.chips.value| == |cs.tags.value|
    ensures r.chips.Some? ==>
      forall i :: 0 <= i < |cs.tags.value| ==> r.chips.value[i] == TagChip(cs.tags.value[i])
    ensures r.summary == (if Truthy(cs.summary) then cs.summary else None)
    ensures r.link == cs.link
    ensures r.facts.Some? <==> cs.facts.Some?
    ensures cs.facts.Some? ==>
      r.facts == Some(FactEntries(cs.facts.value.client, cs.facts.value.year, cs.facts.value.role))
    ensures r.loom == (if Truthy(cs.loomEmbed) then cs.loomEmbed else None)
    ensures r.blocks.Some? <==> cs.content.Some?
    ensures r.blocks.Some? ==> |r.blocks.value| == |cs.content.value|
    ensures r.blocks.Some? ==>
      forall i :: 0 <= i < |cs.content.value| ==> r.blocks.value[i] == RenderPageBlock(cs.content.value[i])
  {
    PageDoc(
      if cs.tags.Some? && |cs.tags.value| > 0
      then var ts := cs.tags.value; Some(seq(|ts|, i requires 0 <= i < |ts| => TagChip(ts[i])))
      else None,
      cs.title,
      if Truthy(cs.summary) then cs.summary else None,
      cs.link,
      if cs.facts.Some? then Some(FactEntries(cs.facts.value.client, cs.facts.value.year, cs.facts.value.role))
      else None,
      if Truthy(cs.loomEmbed) then cs.loomEmbed else None,
      if cs.content.Some?
      then var bs := cs.content.value; Some(seq(|bs|, i requires 0 <= i < |bs| => RenderPageBlock(bs[i])))
      else None)
  }
}
