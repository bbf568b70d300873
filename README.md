# airstudio core, modelled in Dafny

airstudio is a portfolio site built with Next.js, with case studies kept in a
Sanity content store. This project models the logic under its pages, one
Dafny module per source file:

- the modal state shared by the navigation bar, the work grid and the
  case-study panel (`ModalContext`);
- the first-load flag (`LoadingContext`);
- the studio/site layout switch (`ConditionalLayout`);
- the rich-text clean-up pass and the block dispatch of the case-study modal
  (`RichText`, `CaseStudyModal`);
- the block dispatch of the case-study page (`CaseStudyPage`);
- the navigation bar's choice of displayed case, its panel branches and its
  key and click handlers (`Navbar`);
- the work grid's query fallback chain and its placeholder records
  (`WorkSection`);
- the class-name joiners, the component-style builder, the tag colour and
  title tables, the responsive-text helpers and the button's style, class
  and content (`ClassNames`, `TagColors`, `ResponsiveText`, `Button`);
- the two sitemaps: the XML route and the framework route list
  (`SitemapXml`, `Sitemap`);
- the two content-store schemas: their constraints, previews and ordering
  (`CaseStudySchema`, `LoomVideoSchema`).

`Content` holds the case-study record the renderers receive. `DesignTokens`
holds the constant tables the logic reads. `Wrappers` and `Strings` hold
`Option`/`Result`, JavaScript truthiness and `||` fallbacks, `join`/`split`,
and `parseInt`.

JavaScript values that may be `undefined` are `Option`s. A string is truthy
when it is present and non-empty. An object spread is a map union in which
the later map wins.

The model takes these as parameters:

- content-store query answers, as `Rows`, `null` or a thrown error;
- the clock, as an ISO timestamp for the XML sitemap and one `now` for the
  route list;
- the environment's site URL;
- the window width;
- which providers enclose a component.

Rendering is reduced to which view a block produces and the values that
reach it. Markup and styling are not modelled.

A few facts about the code that the model keeps:

- `closeModal` clears the selected case at once.
- `toggleModal` flips only the open flag and keeps the selected case.
- No component locks or restores the page scroll.
- The case-study page places a text section's text inside a paragraph as
  it is. The schema declares that text as plain text.

## Model

| member | source | states |
|---|---|---|
| DesignTokens.HeadingTablesCover | src/lib/design-tokens.ts:96-118 | the mobile heading table has an entry for each of h1, h2 and h3, as the desktop table does |
| TagColors.GetTagColors | src/lib/tag-colors.ts:32-37 | a known tag gets its table colour pair (never grey100); any other tag gets grey100; the text is always black |
| TagColors.GetTagTitle | src/lib/tag-colors.ts:40-51 | a known tag gets its readable title, which differs from the value; any other tag is shown as itself |
| TagColors.KnownTagsDistinguished | src/lib/tag-colors.ts:4-29 | two different known tags never share a background colour or a title |
| ClassNames.Survivors | src/lib/utils.ts:3 | `filter(Boolean)` keeps no more arguments than it gets, and none it keeps is empty |
| ClassNames.Cn | src/lib/utils.ts:2-4 | the surviving arguments joined by single blanks: "" exactly when nothing survives, a lone survivor as itself, otherwise the first survivor and a blank lead |
| ClassNames.SurvivorsAppend | src/lib/utils.ts:3 | filtering distributes over concatenation: survivors keep their order and nothing is added |
| ClassNames.SurvivorsExactly | src/lib/utils.ts:3 | nothing survives exactly when every argument is falsy |
| ClassNames.CnEmpty | src/lib/design-system.ts:7-9 | `cn` gives "" exactly when no argument is truthy |
| ClassNames.CnSplit | src/lib/utils.ts:2-4 | splitting `cn`'s result on blanks gives back the surviving arguments, in order, when none contains a blank |
| ClassNames.CnAppend | src/lib/design-system.ts:7-9 | `cn(a..., b...)` is `cn(a...)` and `cn(b...)` joined by one blank; an empty side adds nothing |
| ClassNames.CnKeepsTrue | src/lib/utils.ts:2-4 | `true` survives and prints as "true"; `false`, `null`, `undefined` and "" all vanish |
| ClassNames.CnSingle | src/lib/design-system.ts:7-9 | `cn` of one optional string is that string, or "" when it is falsy |
| ClassNames.SelectVariant | src/lib/design-system.ts:189-190 | the requested variant (default 'default') when its entry is truthy, else the 'default' entry, else nothing |
| ClassNames.ComponentStyles | src/lib/design-system.ts:188-193 | `cn(base, variant, additional)`: the truthy parts among the base, the selected variant's classes and the extra classes, in that order, joined by single blanks; so the base leads and the extras end the string; "" only when all three are falsy; when no part holds a blank, splitting on blanks gives back exactly those parts |
| ClassNames.ComponentStylesParts | src/lib/design-system.ts:191 | for any variant string: the base leads, the extra classes end the string, and the result is "" only when all three parts are falsy |
| ClassNames.ComponentStylesTokens | src/lib/design-system.ts:191 | the tokens `cn` keeps are the truthy parts among base, variant and extras, in that order, and they split back out when none holds a blank |
| ResponsiveText.GetResponsiveTextStyle | src/lib/responsive-text.ts:4-12 | on mobile the mobile heading style, otherwise the desktop style; the mobile table covers every level |
| ResponsiveText.OnlyH2Shrinks | src/lib/responsive-text.ts:8-11 | h1 and h3 are the same on both device classes; h2 differs only in font size (1.25rem on mobile) |
| ResponsiveText.GetResponsiveFontSize | src/lib/responsive-text.ts:15-25 | the fragment opens with the desktop size declaration and the media-query opening, and closes with the mobile size and the block's close |
| ResponsiveText.FontSizeRoundTrip | src/lib/responsive-text.ts:15-25 | the CSS fragment carries the desktop size first and the mobile size inside the media block, and both read back |
| ResponsiveText.UseIsMobile | src/lib/responsive-text.ts:28-31 | mobile exactly when there is a window and its width is at most `parseInt("768px")` = 768 |
| Button.ButtonStyle | src/components/ui/button.tsx:20-25 | the style has the keys of all four spread parts; for each key the caller's style wins, then loading, then size, then variant |
| Button.ButtonStyleEffects | src/components/ui/button.tsx:12-25 | unless the caller overrides them: padding and font size come from the size; cursor is not-allowed while loading and pointer otherwise; opacity 0.5 is present exactly while loading |
| Button.IsDisabled | src/components/ui/button.tsx:32 | disabled exactly when `disabled` or `isLoading` is true; loading always disables |
| Button.ButtonClass | src/components/ui/button.tsx:29 | the fixed classes, then the caller's class after one blank when it is truthy |
| Button.ButtonContent | src/components/ui/button.tsx:35-57 | a spinner is present exactly while loading, and comes first; then every child in order |
| ModalContext.RunAppend | src/contexts/ModalContext.tsx:20-30 | running one more callback is one more step on the state the run left |
| ModalContext.RunMeaning | src/contexts/ModalContext.tsx:20-30 | after any sequence of callbacks: the selection is the latest opened case unless a close came later; the panel is open after open or a case open, closed after close, and flipped by toggle |
| ModalContext.StaleSelectionReopens | src/contexts/ModalContext.tsx:21-25 | a case closed by toggling stays selected and is shown again on reopening; closing with `closeModal` clears it |
| ModalContext.ToggleTwice | src/contexts/ModalContext.tsx:25 | two toggles leave the state unchanged |
| ModalContext.Step | src/contexts/ModalContext.tsx:20-30 | one callback: open and toggle keep the selection, toggle flips the flag and open sets it; close resets to closed with no selection; a case open selects that case and opens |
| ModalContext.Run | src/contexts/ModalContext.tsx:20-30 | callbacks one after another: only opens and toggles leave the selection unchanged; ending with a close gives the initial state; ending with a case open gives that case, open |
| ModalContext.ModalProvider.constructor | src/contexts/ModalContext.tsx:17-18 | starts closed with no case selected |
| ModalContext.ModalProvider.OpenModal | src/contexts/ModalContext.tsx:20 | opens and keeps the selection |
| ModalContext.ModalProvider.CloseModal | src/contexts/ModalContext.tsx:21-24 | closes and clears the selection at once |
| ModalContext.ModalProvider.ToggleModal | src/contexts/ModalContext.tsx:25 | flips the open flag and keeps the selection |
| ModalContext.ModalProvider.OpenCaseModal | src/contexts/ModalContext.tsx:27-30 | selects the slug and opens |
| ModalContext.UseModal | src/contexts/ModalContext.tsx:46-52 | succeeds with the provider's state exactly when a provider encloses the caller; otherwise fails with the provider error message |
| LoadingContext.LoadingProvider.constructor | src/contexts/LoadingContext.tsx:14 | every mount starts with the first-load flag set |
| LoadingContext.LoadingProvider.SetFirstLoadComplete | src/contexts/LoadingContext.tsx:16-18 | clears the flag |
| LoadingContext.UseLoading | src/contexts/LoadingContext.tsx:27-33 | succeeds with the flag exactly when a provider encloses the caller; otherwise fails with the provider error message |
| ConditionalLayout.Layout | src/components/ConditionalLayout.tsx:15-34 | a `/studio…` path gets the page alone with no provider; any other path (or none) gets navbar, page and footer, in that order, each under both providers |
| ConditionalLayout.LayoutLeaves | src/components/ConditionalLayout.tsx:23-34 | the client layout and footer contribute navbar, page and footer, in order |
| ConditionalLayout.HooksAvailable | src/components/ConditionalLayout.tsx:15-34 | every component the layout places can use `useModal` and `useLoading` outside the studio; under the studio both hooks throw |
| RichText.CleanMarks | src/components/CaseStudyModal.tsx:22 | no missing mark remains, and the present marks keep their multiplicity |
| RichText.CleanMarksAppend | src/components/CaseStudyModal.tsx:22 | the filter distributes over concatenation, so the kept marks stay in their order |
| RichText.CleanMarksFixpoint | src/components/CaseStudyModal.tsx:22 | the filter changes a mark list exactly when the list has a missing mark |
| RichText.MultisetRemoveBound | src/components/CaseStudyModal.tsx:22 | the filter never adds marks |
| RichText.CleanChild | src/components/CaseStudyModal.tsx:18-25 | a span with marks loses its missing marks and keeps its text; any other child is returned as it is |
| RichText.CleanChildren | src/components/CaseStudyModal.tsx:18-26 | children keep their count and order, each cleaned on its own |
| RichText.CleanBlock | src/components/CaseStudyModal.tsx:14-29 | a `block` with children gets its children cleaned and keeps its style; any other node is returned as it is |
| RichText.CleanBlockContent | src/components/CaseStudyModal.tsx:11-31 | plain text is returned unchanged; a block array keeps its length and order, each block cleaned |
| RichText.CleanedIsClean | src/components/CaseStudyModal.tsx:14-29 | after cleaning, no span directly under a block holds a missing mark |
| RichText.CleanChildFixpoint | src/components/CaseStudyModal.tsx:18-25 | cleaning leaves a child unchanged exactly when it is already clean |
| RichText.CleanBlockFixpoint | src/components/CaseStudyModal.tsx:14-29 | cleaning leaves a block unchanged exactly when all its children are clean |
| RichText.CleanFixpoint | src/components/CaseStudyModal.tsx:11-31 | cleaning leaves content unchanged exactly when it is clean, so cleaning twice is cleaning once |
| Content.FactEntries | src/components/CaseStudyModal.tsx:355-435 | one entry per truthy fact and no other, each labelled with its own value, in Client, Year, Role order; no entry exactly when all three are falsy |
| CaseStudyModal.QuoteFooter | src/components/CaseStudyModal.tsx:118-126 | a footer exactly when there is an author: a dash and the author, then ", " and the title when there is one |
| CaseStudyModal.TestimonialFooter | src/components/CaseStudyModal.tsx:148-156 | the same footer rule without the dash |
| CaseStudyModal.Quoted | src/components/CaseStudyModal.tsx:116 | the quote text between straight double quotes |
| CaseStudyModal.RenderBlockAsWritten | src/components/CaseStudyModal.tsx:523-552 | the switch as written throws exactly for an image block without an image or an asset and for a metrics block without a list; prompts, quotes, testimonials, links and Loom embeds always draw; unknown kinds draw nothing |
| CaseStudyModal.RenderBlock | src/components/CaseStudyModal.tsx:523-552 | a block renders nothing exactly when: its facts are all falsy; its text is missing; its image or asset is missing; its metrics are missing; its video has no URL; or its kind is unknown. Otherwise: a prompt shows its text; a Loom block its URL; metrics and facts their lists; a quote the quoted text with its "— author, title" footer; a testimonial its text with its footer; a link falls back to its URL; a text section shows its heading only when truthy and its cleaned text; an image shows its asset URL, labelled by its alt text or "Case study image"; a video shows its URL and its poster's URL, labelled by its alt text or "Case study video" |
| CaseStudyModal.ModalImageCrash | src/components/CaseStudyModal.tsx:464-483 | an image block without an image, or without an asset, throws as written; the guarded renderer draws nothing |
| CaseStudyModal.ModalMetricsCrash | src/components/CaseStudyModal.tsx:38-77 | a metrics block without a list throws as written; the guarded renderer draws nothing |
| CaseStudyModal.GuardedAgrees | src/components/CaseStudyModal.tsx:523-552 | the guarded renderer agrees with the code on every block that does not throw; it throws only in the image and metrics cases above |
| CaseStudyModal.RenderCaseStudy | src/components/CaseStudyModal.tsx:554-595 | the title; the "no content" notice exactly when the content is missing or empty; otherwise one rendered entry per block, in order |
| CaseStudyPage.TagChip | src/components/CaseStudyPage.tsx:8-46 | a known tag gets its palette colour and title; any other tag gets grey500 and its own value |
| CaseStudyPage.ChipMatchesLibrary | src/components/CaseStudyPage.tsx:27-28 | the page agrees with the tag library on titles and on known colours; for unknown tags the page uses grey500 where the library uses grey100 |
| CaseStudyPage.Attribution | src/components/CaseStudyPage.tsx:179-200 | an attribution box exactly when there is an author or an author title; the author comes first and the title last |
| CaseStudyPage.MetricsView | src/components/CaseStudyPage.tsx:48-93 | nothing for an empty list; otherwise the metrics side by side when there are more than one, stacked when there is one |
| CaseStudyPage.RenderPageBlockAsWritten | src/components/CaseStudyPage.tsx:503-587 | the dispatch as written throws exactly for an image without an asset and for a text section whose text is a non-empty rich-text array; the modal-only kinds draw nothing |
| CaseStudyPage.RenderPageBlock | src/components/CaseStudyPage.tsx:503-587 | when each kind shows: metrics with a non-empty list; prompt, quote and testimonial exactly with truthy text; a text section unless its text is rich text; an image exactly with an asset; the modal-only kinds never. What it shows: the metrics laid out as `MetricsView` gives (a row exactly when more than one); the prompt text; the quote or testimonial text with its author/title box; the heading and the text, each only when present; the image URL with its alt text or '' |
| CaseStudyPage.PageImageCrash | src/components/CaseStudyPage.tsx:564-573 | an image with no asset throws as written; the guarded dispatch draws nothing |
| CaseStudyPage.PageGuardedAgrees | src/components/CaseStudyPage.tsx:503-587 | the guarded dispatch agrees with the code on every block that does not throw; it throws only for an image without an asset and for a rich-text text section |
| CaseStudyPage.RenderPage | src/components/CaseStudyPage.tsx:321-594 | the title; one chip per tag exactly when tags are non-empty; the summary and the Loom embed exactly when truthy, with their own values; the facts as `FactEntries` lists them whenever the facts object is present; the link as given; one entry per content block, in order |
| Navbar.DisplayCaseStudy | src/components/Navbar.tsx:91 | the fetched case, else the test case for the 'test-case' slug, else the first listed case, else the test case; never nothing |
| Navbar.PanelBody | src/components/Navbar.tsx:350-386 | loading wins, then a truthy error, then the displayed case; the "no cases" notice exactly when none of these applies |
| Navbar.NoStudiesUnreachable | src/components/Navbar.tsx:350-386 | the "no cases" notice is never reached, because a case is always displayed |
| Navbar.TestCaseRenders | src/components/Navbar.tsx:25-88 | the built-in test case shows all five of its blocks, starting with its three metrics |
| Navbar.Reaction | src/components/Navbar.tsx:110-338 | the only callback any key or click reaches is `toggleModal`; while closed only "Let's talk" reaches it; while open every event but "Let's talk", a content click and a key other than Escape reaches it |
| Navbar.React | src/components/Navbar.tsx:110-338 | an event never changes the selected case, and flips the open flag exactly when it reaches a callback |
| Navbar.EventsOnlyClose | src/components/Navbar.tsx:112-121 | no key or click changes the selected case. While the panel is open, an event closes it or does nothing, and Escape closes it. While closed, only "Let's talk" opens it. A click inside the content does nothing |
| Navbar.NavbarHandlers.Handle | src/components/Navbar.tsx:112-121 | the shared provider's new state is the event's reaction applied to its old state |
| Navbar.MountAsWritten | src/components/Navbar.tsx:94-96 | the mount effect throws exactly when the context lacks `setModalContainerRef`, and registers the container exactly when it does not throw |
| Navbar.MountGuarded | src/components/Navbar.tsx:94-96 | with the call made only when the member exists: mounting never throws, the container is registered exactly when the context offers the member, and then the mount is the one as written |
| Navbar.MountThrowsUnderProvider | src/components/Navbar.tsx:94-96 | the modal provider hands down no `setModalContainerRef`, so the mount effect as written throws under it; the guarded mount goes through and registers nothing |
| WorkSection.Issued | src/components/WorkSection.tsx:93-229 | the published probe always goes first; the published list query is issued exactly when the probe found rows; the draft list query exactly when only the drafts probe did; never both |
| WorkSection.Outcome | src/components/WorkSection.tsx:93-229 | any error gives the error record; usable drafts give the drafts; published rows give themselves, or the test record when the full list is empty; no data gives the no-data record; never empty |
| WorkSection.OutcomeCases | src/components/WorkSection.tsx:93-229 | each path of the chain with its record (two metrics, one metric, error slug), and the grid's empty notice never shows after a fetch |
| WorkSection.WorkGrid.constructor | src/components/WorkSection.tsx:66-67 | starts with no cases, loading |
| WorkSection.WorkGrid.FetchCaseStudies | src/components/WorkSection.tsx:93-229 | step by step: ends with the chain's outcome, no longer loading, having issued exactly the chain's queries in order |
| WorkSection.WorkGrid.HandleCaseStudyClick | src/components/WorkSection.tsx:234-237 | opens the modal on the card's slug |
| WorkSection.CardChips | src/components/WorkSection.tsx:349-362 | at most the first two tags, each drawn as on the case-study page |
| SitemapXml.Today | src/app/sitemap.xml/route.ts:6 | the date part: the timestamp's text before its first 'T' |
| SitemapXml.Entries | src/app/sitemap.xml/route.ts:9-31 | the five fixed pages with their priorities and frequencies, then one weekly 0.9 entry per slug in order, all dated today |
| SitemapXml.SitemapXml | src/app/sitemap.xml/route.ts:42 | the document starts with the XML declaration and `urlset` opening, and ends with the closing tag |
| SitemapXml.FieldRoundTrip | src/app/sitemap.xml/route.ts:34-37 | a value without '<' reads back from between its tags |
| SitemapXml.EntryRoundTripWith | src/app/sitemap.xml/route.ts:32-39 | one `<url>` element reads back as its entry, leaving what follows |
| SitemapXml.UrlsRoundTripWith | src/app/sitemap.xml/route.ts:31-40 | joined elements read back as the entries, in order |
| SitemapXml.UrlsRoundTrip | src/app/sitemap.xml/route.ts:31-40 | the route's element run reads back as its entries |
| SitemapXml.EntriesPlain | src/app/sitemap.xml/route.ts:9-29 | no entry value contains '<' when the timestamp and the slugs contain none |
| SitemapXml.SitemapRoundTrip | src/app/sitemap.xml/route.ts:31-42 | the whole document reads back as exactly its entries, in order |
| Sitemap.BaseUrl | src/app/sitemap.ts:5 | the configured site URL when truthy, else `https://airstudio.design`; never empty |
| Sitemap.SitemapRoutes | src/app/sitemap.ts:11-40 | 3 + n routes: home (weekly, 1), work (weekly, 0.8), footer (monthly, 0.6); then each case under `/case-study/` (monthly, 0.7), in order; all share the base and the one clock reading |
| Sitemap.CaseUrlsDistinct | src/app/sitemap.ts:33-38 | distinct slugs get distinct URLs |
| Sitemap.SitemapsDisagree | src/app/sitemap.ts:33-38 | without a configured URL, every case URL here differs from the XML route's URL for the same case |
| CaseStudySchema.TagValues | sanity/schemas/caseStudy.ts:29-36 | the six stored tag values, in list order |
| CaseStudySchema.TagOptionsMatchLibrary | sanity/schemas/caseStudy.ts:21-41 | the schema's tag values are the library's six tags in the same order, each shown with the library's title |
| CaseStudySchema.Valid | sanity/schemas/caseStudy.ts:9-366 | a valid document has a non-empty slug and title, and at most six tags, each one of the site's known tags |
| CaseStudySchema.GenerateSlug | sanity/schemas/caseStudy.ts:9-18 | the generated slug is a prefix of the candidate, at most 96 long, and the whole candidate when it fits |
| CaseStudySchema.GenerateSlugIdempotent | sanity/schemas/caseStudy.ts:13-16 | generating from a generated slug changes nothing |
| CaseStudySchema.ValidTagsStyled | sanity/schemas/caseStudy.ts:21-41 | every tag of a valid document is a known tag, drawn on the page with its own colour and title, never the grey fallback |
| CaseStudySchema.ValidBlocksModalKinds | sanity/schemas/caseStudy.ts:128-366 | the blocks a valid document can hold render in the modal only as metrics, prompt, quote, testimonial, text or image |
| CaseStudySchema.SchemaAdmitsImageWithoutAsset | sanity/schemas/caseStudy.ts:336-364 | a valid document may hold an image block with no asset, on which both renderers as written throw |
| CaseStudySchema.ValidBlocksPageCrash | sanity/schemas/caseStudy.ts:312-330 | on a block of a valid document the page as written throws only for an image without an asset: a valid text section's text is plain text |
| CaseStudySchema.MetricsPreview | sanity/schemas/caseStudy.ts:179-185 | title or "Metrics"; with a list the subtitle is its count followed by " metrics", and the count parses back; without one it is "No metrics" |
| CaseStudySchema.PromptPreview | sanity/schemas/caseStudy.ts:212-218 | title or "Prompt"; the subtitle is the text |
| CaseStudySchema.AttributedSubtitle | sanity/schemas/caseStudy.ts:259 | with an author: the text (or "undefined"), then " - " and the author; without one: the text as it is |
| CaseStudySchema.QuotePreview | sanity/schemas/caseStudy.ts:256-262 | title or "Quote"; the attributed subtitle |
| CaseStudySchema.TestimonialPreview | sanity/schemas/caseStudy.ts:300-306 | title or "Testimonial"; the attributed subtitle |
| CaseStudySchema.QuoteTestimonialPreviewsAgree | sanity/schemas/caseStudy.ts:256-306 | the two kinds give the same subtitle, and the same title exactly when the editor set one |
| CaseStudySchema.AuthorWithoutText | sanity/schemas/caseStudy.ts:259 | an author with no text gives "undefined - author" |
| CaseStudySchema.BlockPreview | sanity/schemas/caseStudy.ts:128-366 | each of the six kinds previews by its own rule; a text section by its heading and its plain text (no subtitle without text), an image by its alt text with no subtitle |
| CaseStudySchema.CalloutPreviewsTitled | sanity/schemas/caseStudy.ts:179-305 | every callout's preview has a non-empty title |
| LoomVideoSchema.Scheme | sanity/schemas/loomVideo.ts:24-26 | the text before the first ':', when there is one |
| LoomVideoSchema.UrlSchemes | sanity/schemas/loomVideo.ts:21-28 | `http:` and `https:` URLs pass; `ftp:` and scheme-less URLs do not |
| LoomVideoSchema.Valid | sanity/schemas/loomVideo.ts:9-56 | a valid video has a non-empty title and a Loom URL that starts with `http:` or `https:` |
| LoomVideoSchema.NewLoomVideo | sanity/schemas/loomVideo.ts:63-69 | a new document starts active and does not yet satisfy the required fields |
| LoomVideoSchema.LoomPreview | sanity/schemas/loomVideo.ts:72-82 | the preview is the title and the description; a valid video's preview always has a title |
| LoomVideoSchema.CompareText | sanity/schemas/loomVideo.ts:91 | title comparison: equal strings tie, and the empty string sorts before any other |
| LoomVideoSchema.CompareTextLexicographic | sanity/schemas/loomVideo.ts:91 | ascending lexicographic order: a proper prefix sorts first; otherwise the first differing character decides, the smaller first |
| LoomVideoSchema.CompareTextAntisymmetric | sanity/schemas/loomVideo.ts:91 | swapping two titles flips the comparison |
| LoomVideoSchema.CompareTextZero | sanity/schemas/loomVideo.ts:91 | two titles tie exactly when they are equal |
| LoomVideoSchema.CompareTextTransitive | sanity/schemas/loomVideo.ts:91 | title order is transitive |
| LoomVideoSchema.CompareOrder | sanity/schemas/loomVideo.ts:90 | display orders tie exactly when equal |
| LoomVideoSchema.Compare | sanity/schemas/loomVideo.ts:85-94 | the display order decides first, lower first and missing last; only on equal orders does the title decide |
| LoomVideoSchema.CompareAntisymmetric | sanity/schemas/loomVideo.ts:85-94 | swapping two videos flips the comparison |
| LoomVideoSchema.CompareTies | sanity/schemas/loomVideo.ts:85-94 | two videos tie exactly when they share order and title |
| LoomVideoSchema.CompareTransitive | sanity/schemas/loomVideo.ts:85-94 | the ordering is transitive, so it is a total preorder |
| LoomVideoSchema.SortedMeaning | sanity/schemas/loomVideo.ts:85-94 | in a sorted list orders never decrease, unordered videos come last, and equal orders are in title order |

## Left out

- Network and content-store access: every query answer, list and record is an input. `useCaseStudies`/`useCaseStudy` are not part of this model, and neither is the stale-response behaviour of `useCaseStudy`.
- Rendering: markup, styles, images, animation, the portable-text library, cover videos and the Footer clock.
- Timers, DOM and browser state: the resize listener behind `isLargeScreen`, the loading screen's interval, image preloading and performance observers.
- `ModalContext.ModalProvider.ToggleModal`: modelled as reading the current flag. React's stale-closure and batching behaviour for several toggles inside one render is not modelled.
- `Sitemap.SitemapRoutes`: one `now` serves every `new Date()` call. Times are whole numbers.
- `SitemapXml.Today`: the clock reading is given as its ISO string. `toISOString` itself is not modelled.
- `LoomVideoSchema.Compare`: a video without an order is placed last, and so is one without a title. Where missing values sort is decided by the content store's query engine, which is not part of this model.
- `LoomVideoSchema.Scheme`: only the scheme before ':' is checked, case-sensitively. Full URL parsing and the lower-casing of the scheme are the schema library's business.
- `CaseStudySchema.GenerateSlug`: takes the already slugified title. The slugify transform of the schema library is not modelled, only the 96-character cut.
- `CaseStudySchema.BlockPreview`: a text section whose text is rich text, which the schema does not admit, previews with no subtitle. How the editor would show such a value is not modelled.
- `CaseStudySchema.Valid` and `LoomVideoSchema.Valid` read "required" as present and non-empty. How the schema library enforces rules, and the editor's UI options (hotspot, rows, media), are not modelled.
- Tag tables are modelled as maps over ordinary strings. JavaScript object-prototype keys (such as "constructor") are not modelled.
- Design-system constants other than those the modelled logic reads (typography, layout helpers, spacing, the Tailwind config) are left out.

## Findings

| source | as written | input that shows it | evidently intended | confidence | as-written member | corrected member |
|---|---|---|---|---|---|---|
| src/components/CaseStudyModal.tsx:464-483, 541-542 | the modal's image block reads `image.asset.url` with no guard | an `imageBlock` without `image`, or with an image whose asset is not uploaded | draw nothing, as the video block does for a missing video | not executed | CaseStudyModal.ModalImageCrash | CaseStudyModal.RenderBlock |
| src/components/CaseStudyModal.tsx:38-77, 531-532 | the modal's metrics block calls `metrics.map` with no guard | a `metricsCallout` with no `metrics` list | draw nothing, as the page does (src/components/CaseStudyPage.tsx:49) | not executed | CaseStudyModal.ModalMetricsCrash | CaseStudyModal.RenderBlock |
| src/components/CaseStudyPage.tsx:564-573 | the page checks `block.image` and then reads `block.image.asset.url` | an `imageBlock` whose image has alt text but no uploaded asset (the schema allows it; see CaseStudySchema.SchemaAdmitsImageWithoutAsset) | draw nothing | not executed | CaseStudyPage.PageImageCrash | CaseStudyPage.RenderPageBlock |
| src/components/Navbar.tsx:13, 94-96 | the navbar's mount effect calls `setModalContainerRef`, which the modal provider never hands down (src/contexts/ModalContext.tsx:33-40) | mounting the navbar under the provider | register the container only when the context offers it | not executed | Navbar.MountAsWritten | Navbar.MountGuarded |
