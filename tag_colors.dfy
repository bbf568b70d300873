/** The tag palette helpers of the design library: a background/text colour
    pair and a readable title for each of the six case-study tags. */
module TagColors {
  import opened DesignTokens

  datatype TagColor = TagColor(background: string, text: string)

  /** The six tag values, in table order. */
  const KnownTags: seq<string> :=
    ["ux-ui-design", "experiment", "motion-design", "full-cycle", "ai", "product-systems"]

  /** `tagColors`: every entry pairs a palette background with black text. */
  const TagColorTable: map<string, TagColor> := map[
    "ux-ui-design" := TagColor(Green, Black),
    "experiment" := TagColor(Dun, Black),
    "motion-design" := TagColor(Blue, Black),
    "full-cycle" := TagColor(Pink, Black),
    "ai" := TagColor(LightGreen, Black),
    "product-systems" := TagColor(Beige, Black)
  ]

  /** The title table inside `getTagTitle`. */
  const TagTitleTable: map<string, string> := map[
    "ux-ui-design" := "UX/UI Design",
    "experiment" := "Experiment",
    "motion-design" := "Motion Design",
    "full-cycle" := "Full Cycle",
    "ai" := "AI",
    "product-systems" := "Product Systems"
  ]

  /** `getTagColors`: the table entry, or grey100 on black for any other tag. */
  function GetTagColors(tag: string): (r: TagColor)
    ensures r.text == Black
    ensures tag in KnownTags ==> r == TagColorTable[tag] && r.background != Grey100
    ensures tag !in KnownTags ==> r.background == Grey100
  {
    if tag in TagColorTable then TagColorTable[tag] else TagColor(Grey100, Black)
  }

  /** `getTagTitle`: the table title for a known tag, the value itself otherwise. */
  function GetTagTitle(tag: string): (r: string)
    ensures tag in KnownTags ==> r == TagTitleTable[tag] && r != tag
    ensures tag !in KnownTags ==> r == tag
  {
    if tag in TagTitleTable then TagTitleTable[tag] else tag
  }

  /** Each known tag has its own colour and its own title: the two tables
      tell the six tags apart. */
  lemma KnownTagsDistinguished(a: string, b: string)
    requires a in KnownTags && b in KnownTags && a != b
    ensures GetTagColors(a).background != GetTagColors(b).background
    ensures GetTagTitle(a) != GetTagTitle(b)
  {
  }
}
