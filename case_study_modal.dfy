/** The case-study modal: how each content block is rendered inside the
    slide-in panel, and the panel body as a whole. */
module CaseStudyModal {
  import opened Wrappers
  import opened RichText
  import opened Content

  /** What a block renders as, reduced to the values that reach the page. */
  datatype ModalView =
    | LinkView(caption: Option<string>, href: Option<string>)
    | FactsView(entries: seq<(string, string)>)
    | LoomView(src: Option<string>)
    | MetricsView(metrics: seq<Metric>)
    | PromptView(text: Option<string>)
    | QuoteView(quoted: string, footer: Option<string>)
    | TestimonialView(text: Option<string>, footer: Option<string>)
    | TextView(heading: Option<string>, body: TextValue)
    | ImageView(imageSrc: Option<string>, alt: string)
    | VideoView(videoSrc: string, poster: Option<string>, ariaLabel: string)

  /** The result of rendering as the code is written: an element, nothing
      (`null`), or a `TypeError` from reading a property of `undefined`. */
  datatype Outcome = Shown(view: ModalView) | Blank | Crash

  /** `authorTitle ? ", " + authorTitle : ''`. */
  function TitleSuffix(authorTitle: Option<string>): string {
    if Truthy(authorTitle) then ", " + authorTitle.value else ""
  }

  /** The quote's attribution line: present only with an author, led by a
      dash, then the author, then the title after a comma when there is one. */
  function QuoteFooter(author: Option<string>, authorTitle: Option<string>): (r: Option<string>)
    ensures r.Some? <==> Truthy(author)
    ensures r.Some? ==> "— " + author.value <= r.value
    ensures r.Some? && !Truthy(authorTitle) ==> r.value == "— " + author.value
    ensures r.Some? && Truthy(authorTitle) ==>
      |authorTitle.value| + 2 <= |r.value| &&
      r.value[|r.value| - |authorTitle.value| - 2..] == ", " + authorTitle.value
  {
    if Truthy(author) then
      var line := "— " + author.value + TitleSuffix(authorTitle);
      assert ("— " + author.value) + TitleSuffix(authorTitle) == line;
      Some(line)
    else None
  }

  /** The testimonial's attribution line: the same, without the dash. */
  function TestimonialFooter(author: Option<string>, authorTitle: Option<string>): (r: Option<string>)
    ensures r.Some? <==> Truthy(author)
    ensures r.Some? ==> author.value <= r.value
    ensures r.Some? && !Truthy(authorTitle) ==> r.value == author.value
    ensures r.Some? && Truthy(authorTitle) ==>
      |authorTitle.value| + 2 <= |r.value| &&
      r.value[|r.value| - |authorTitle.value| - 2..] == ", " + authorTitle.value
  {
    if Truthy(author) then Some(author.value + TitleSuffix(authorTitle)) else None
  }

  /** The quote text between straight double quotes; a missing text leaves
      just the quotes. */
  function Quoted(text: Option<string>): (r: string)
    ensures |r| >= 2 && r[0] == '"' && r[|r| - 1] == '"'
    ensures text.Some? ==> r[1..|r| - 1] == text.value
    ensures text.None? ==> r == "\"\""
  {
    "\"" + (if text.Some? then text.value else "") + "\""
  }

  /** `renderContentBlock` exactly as written: the image and the metrics
      components read `image.asset.url` and `metrics.map` without checking
      that the field is there. */
  function RenderBlockAsWritten(b: Block): (r: Outcome)
    ensures r.Crash? <==>
      (b.ImageBlock? && (b.image.None? || b.image.value.asset.None?)) ||
      (b.MetricsCallout? && b.metrics.None?)
    ensures b.PromptCallout? || b.QuoteCallout? || b.TestimonialCallout? || b.LinkBlock? || b.LoomBlock? ==> r.Shown?
    ensures b.UnknownBlock? ==> r.Blank?
  {
    match b
    case LinkBlock(text, url) => Shown(LinkView(OrElse(text, url), url))
    case FactsBlock(client, year, role) =>
      var entries := FactEntries(client, year, role);
      if entries == [] then Blank else Shown(FactsView(entries))
    case LoomBlock(url) => Shown(LoomView(url))
    case MetricsCallout(_, metrics) =>
      if metrics.None? then Crash else Shown(MetricsView(metrics.value))
    case PromptCallout(_, text) => Shown(PromptView(text))
    case QuoteCallout(_, text, author, authorTitle) =>
      Shown(QuoteView(Quoted(text), QuoteFooter(author, authorTitle)))
    case TestimonialCallout(_, text, author, authorTitle) =>
      Shown(TestimonialView(text, TestimonialFooter(author, authorTitle)))
    case TextSection(heading, text) =>
      if !TextTruthy(text) then Blank
      else Shown(TextView(if Truthy(heading) then heading else None, CleanBlockContent(text.value)))
    case ImageBlock(image) =>
      if image.None? || image.value.asset.None? then Crash
      else Shown(ImageView(image.value.asset.value.url, OrDefault(image.value.alt, "Case study image")))
    case VideoBlock(video, alt, poster) =>
      var src := AssetUrl(video);
      if !Truthy(src) then Blank
      else Shown(VideoView(src.value, AssetUrl(poster), OrDefault(alt, "Case study video")))
    case UnknownBlock(_) => Blank
  }

  /** The blocks that render to nothing once the unguarded reads are
      guarded: missing facts, text, image asset, metrics or video URL, and
      unknown kinds. */
  predicate RendersNothing(b: Block) {
    (b.FactsBlock? && !Truthy(b.client) && !Truthy(b.year) && !Truthy(b.role)) ||
    (b.TextSection? && !TextTruthy(b.body)) ||
    (b.ImageBlock? && (b.image.None? || b.image.value.asset.None?)) ||
    (b.MetricsCallout? && b.metrics.None?) ||
    (b.VideoBlock? && !Truthy(AssetUrl(b.video))) ||
    b.UnknownBlock?
  }

  /** `renderContentBlock` with the image and metrics reads guarded the way
      the video block already is: a block missing its media renders nothing. */
  function RenderBlock(b: Block): (r: Option<ModalView>)
    ensures r.None? <==> RendersNothing(b)
    ensures b.LinkBlock? ==> r == Some(LinkView(if Truthy(b.linkText) then b.linkText else b.url, b.url))
    ensures b.TextSection? && r.Some? ==>
      r.value == TextView(if Truthy(b.heading) then b.heading else None, CleanBlockContent(b.body.value)) &&
      IsClean(r.value.body)
    ensures b.QuoteCallout? ==> r == Some(QuoteView(Quoted(b.text), QuoteFooter(b.author, b.authorTitle)))
    ensures b.TestimonialCallout? ==>
      r == Some(TestimonialView(b.text, TestimonialFooter(b.author, b.authorTitle)))
    ensures b.PromptCallout? ==> r == Some(PromptView(b.text))
    ensures b.LoomBlock? ==> r == Some(LoomView(b.loomUrl))
    ensures b.MetricsCallout? && r.Some? ==> r.value == MetricsView(b.metrics.value)
    ensures b.FactsBlock? && r.Some? ==> r.value == FactsView(FactEntries(b.client, b.year, b.role))
    ensures b.VideoBlock? && r.Some? ==>
      r.value == VideoView(AssetUrl(b.video).value, AssetUrl(b.poster),
                           if Truthy(b.videoAlt) then b.videoAlt.value else "Case study video") &&
      r.value.videoSrc != ""
    ensures b.ImageBlock? && r.Some? ==>
      r.value == ImageView(b.image.value.asset.value.url,
                           if Truthy(b.image.value.alt) then b.image.value.alt.value else "Case study image")
  {
    match b
    case MetricsCallout(_, metrics) =>
      if metrics.None? then None else Some(MetricsView(metrics.value))
    case ImageBlock(image) =>
      if image.None? || image.value.asset.None? then None
      else Some(ImageView(image.value.asset.value.url, OrDefault(image.value.alt, "Case study image")))
    case TextSection(_, text) =>
      CleanedIsClean(if text.Some? then text.value else PlainText(""));
      Guard(RenderBlockAsWritten(b))
    case _ => Guard(RenderBlockAsWritten(b))
  }

  /** An element becomes `Some`; nothing or a crash becomes `None`. */
  function Guard(o: Outcome): Option<ModalView> {
    match o
    case Shown(v) => Some(v)
    case _ => None
  }

  /** The image block of the modal throws when the block has no image. */
  lemma ModalImageCrash()
    ensures RenderBlockAsWritten(ImageBlock(None)) == Crash
    ensures RenderBlockAsWritten(ImageBlock(Some(Media(None, Some("diagram"))))) == Crash
    ensures RenderBlock(ImageBlock(None)) == None
  {
  }

  /** The metrics block of the modal throws when the block has no metrics. */
  lemma ModalMetricsCrash()
    ensures RenderBlockAsWritten(MetricsCallout(Some("Results"), None)) == Crash
    ensures RenderBlock(MetricsCallout(Some("Results"), None)) == None
  {
  }

  /** The crash happens exactly for those two shapes, and wherever the code
      as written does not crash the guarded renderer agrees with it. */
  lemma GuardedAgrees(b: Block)
    ensures RenderBlockAsWritten(b).Crash? <==>
      (b.ImageBlock? && (b.image.None? || b.image.value.asset.None?)) ||
      (b.MetricsCallout? && b.metrics.None?)
    ensures RenderBlockAsWritten(b).Shown? ==> RenderBlock(b) == Some(RenderBlockAsWritten(b).view)
    ensures RenderBlockAsWritten(b).Blank? ==> RenderBlock(b) == None
  {
  }

  /** The panel body: the title, then either every block in order or the
      "No content available" notice, never both. */
  datatype ModalDoc = ModalDoc(title: string, blocks: seq<Option<ModalView>>, noContent: bool)

  function RenderCaseStudy(cs: CaseStudy): (r: ModalDoc)
    ensures r.title == cs.title
    ensures r.noContent <==> cs.content.None? || |cs.content.value| == 0
    ensures r.noContent ==> r.blocks == []
    ensures !r.noContent ==> |r.blocks| == |cs.content.value|
    ensures !r.noContent ==>
      forall i :: 0 <= i < |r.blocks| ==> r.blocks[i] == RenderBlock(cs.content.value[i])
  {
    if cs.content.Some? && |cs.content.value| > 0 then
      var bs := cs.content.value;
      ModalDoc(cs.title, seq(|bs|, i requires 0 <= i < |bs| => RenderBlock(bs[i])), false)
    else ModalDoc(cs.title, [], true)
  }
}
