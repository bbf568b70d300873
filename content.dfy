/** The case-study document as the renderers receive it from the content
    store. Every field an editor may leave empty is optional here, because
    the schema marks none of the inner fields as required. */
module Content {
  import opened Wrappers
  import opened RichText

  datatype Metric = Metric(value: string, metricLabel: string)

  /** An uploaded file reference: `asset.url`. */
  datatype Asset = Asset(url: Option<string>)

  /** An image or video field: the asset (maybe missing) and its alt text. */
  datatype Media = Media(asset: Option<Asset>, alt: Option<string>)

  /** One entry of a case study's `content` array, by its `_type`. */
  datatype Block =
    | MetricsCallout(title: Option<string>, metrics: Option<seq<Metric>>)
    | PromptCallout(title: Option<string>, text: Option<string>)
    | QuoteCallout(title: Option<string>, text: Option<string>,
                   author: Option<string>, authorTitle: Option<string>)
    | TestimonialCallout(title: Option<string>, text: Option<string>,
                         author: Option<string>, authorTitle: Option<string>)
    | TextSection(heading: Option<string>, body: Option<TextValue>)
    | ImageBlock(image: Option<Media>)
    | LinkBlock(linkText: Option<string>, url: Option<string>)
    | FactsBlock(client: Option<string>, year: Option<string>, role: Option<string>)
    | LoomBlock(loomUrl: Option<string>)
    | VideoBlock(video: Option<Media>, videoAlt: Option<string>, poster: Option<Media>)
    | UnknownBlock(kind: string)

  datatype LinkField = LinkField(text: Option<string>, url: Option<string>)
  datatype Facts = Facts(client: Option<string>, year: Option<string>, role: Option<string>)

  datatype CaseStudy = CaseStudy(
    id: string,
    title: string,
    slug: string,
    summary: Option<string>,
    tags: Option<seq<string>>,
    link: Option<LinkField>,
    facts: Option<Facts>,
    loomEmbed: Option<string>,
    content: Option<seq<Block>>)

  /** JavaScript truthiness of a text field: an array (even an empty one) is
      truthy, a string only when non-empty. */
  predicate TextTruthy(t: Option<TextValue>) {
    t.Some? && (t.value.Portable? || t.value.s != "")
  }

  /** The URL of a media field's asset, when both are there. */
  function AssetUrl(m: Option<Media>): Option<string> {
    if m.Some? && m.value.asset.Some? then m.value.asset.value.url else None
  }

  /** Where a fact label sits in the fixed order Client, Year, Role. */
  function FactRank(name: string): nat {
    if name == "Client" then 0 else if name == "Year" then 1 else 2
  }

  /** The labelled facts that are present, in the order Client, Year, Role. */
  function FactEntries(client: Option<string>, year: Option<string>, role: Option<string>)
    : (r: seq<(string, string)>)
    ensures |r| <= 3
    ensures r == [] <==> !Truthy(client) && !Truthy(year) && !Truthy(role)
    ensures Truthy(client) ==> r[0] == ("Client", client.value)
    ensures forall i :: 0 <= i < |r| ==>
      (r[i].0 == "Client" && Truthy(client) && r[i].1 == client.value) ||
      (r[i].0 == "Year" && Truthy(year) && r[i].1 == year.value) ||
      (r[i].0 == "Role" && Truthy(role) && r[i].1 == role.value)
    ensures |r| == (if Truthy(client) then 1 else 0) + (if Truthy(year) then 1 else 0)
                   + (if Truthy(role) then 1 else 0)
    ensures Truthy(client) ==> ("Client", client.value) in r
    ensures Truthy(year) ==> ("Year", year.value) in r
    ensures Truthy(role) ==> ("Role", role.value) in r
    ensures forall i, j :: 0 <= i < j < |r| ==> FactRank(r[i].0) < FactRank(r[j].0)
  {
    (if Truthy(client) then [("Client", client.value)] else [])
      + (if Truthy(year) then [("Year", year.value)] else [])
      + (if Truthy(role) then [("Role", role.value)] else [])
  }
}
