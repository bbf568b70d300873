/** The work grid: the fallback chain that fills it from the content store,
    the placeholder records it falls back to, and its cards. */
module WorkSection {
  import opened Wrappers
  import opened Content
  import opened ModalContext
  import CaseStudyPage

  /** A card's record, as the list query projects it. */
  datatype Preview = Preview(
    id: string,
    title: string,
    summary: Option<string>,
    slug: string,
    tags: Option<seq<string>>,
    metrics: Option<seq<Metric>>)

  /** How a query came back: rows, `null`, or a thrown error. */
  datatype Answer = Rows(rows: seq<Preview>) | NullRows | Throws

  /** What each of the four queries would answer if it were issued. */
  datatype Answers = Answers(publishedProbe: Answer, draftProbe: Answer,
                             draftFull: Answer, publishedFull: Answer)

  datatype Query = PublishedProbe | DraftProbe | DraftFull | PublishedFull

  /** `x && x.length > 0` on a probe's answer. */
  predicate NonEmpty(a: Answer) {
    a.Rows? && |a.rows| > 0
  }

  /** Published rows exist but the full query found none. */
  const TestPlaceholder := Preview(
    "test-case", "Test Case Study",
    Some("This is a test case study to verify the system works"),
    "test-case", Some(["ux-ui-design", "experiment"]),
    Some([Metric("+30%", "Retention"), Metric("2x", "Engagement")]))

  /** Neither published nor usable draft rows exist. */
  const NoDataPlaceholder := Preview(
    "test-case", "Test Case Study (No CMS Data)",
    Some("This is a test case study - no data found in CMS"),
    "test-case", Some(["ux-ui-design"]),
    Some([Metric("+30%", "Retention")]))

  /** Something threw along the way. */
  const ErrorPlaceholder := Preview(
    "test-case-error", "Test Case Study (Error)",
    Some("This is a test case study - error occurred while fetching from CMS"),
    "test-case-error", Some(["ux-ui-design"]),
    Some([Metric("+30%", "Retention")]))

  /** The chain goes to the drafts: the published probe found nothing. */
  predicate TriesDrafts(a: Answers) {
    !a.publishedProbe.Throws? && !NonEmpty(a.publishedProbe)
  }

  /** The draft full query is issued: drafts were tried and the probe found some. */
  predicate FetchesDrafts(a: Answers) {
    TriesDrafts(a) && NonEmpty(a.draftProbe)
  }

  /** The draft list is taken and the routine stops. */
  predicate UsesDrafts(a: Answers) {
    FetchesDrafts(a) && a.draftFull.Rows? && |a.draftFull.rows| > 0
  }

  /** The published full query is issued. */
  predicate FetchesPublished(a: Answers) {
    NonEmpty(a.publishedProbe)
  }

  /** Some step throws: a query throws, or a full query answers `null` and
      its `length` is read. */
  predicate Fails(a: Answers) {
    a.publishedProbe.Throws? ||
    (TriesDrafts(a) && a.draftProbe.Throws?) ||
    (FetchesDrafts(a) && !a.draftFull.Rows?) ||
    (FetchesPublished(a) && !a.publishedFull.Rows?)
  }

  /** The queries issued, in order. */
  function Issued(a: Answers): (r: seq<Query>)
    ensures |r| >= 1 && r[0] == PublishedProbe
    ensures PublishedFull in r <==> FetchesPublished(a)
    ensures DraftFull in r <==> FetchesDrafts(a)
    ensures UsesDrafts(a) ==> PublishedFull !in r
  {
    if TriesDrafts(a) then
      [PublishedProbe, DraftProbe] + (if NonEmpty(a.draftProbe) then [DraftFull] else [])
    else if FetchesPublished(a) then [PublishedProbe, PublishedFull]
    else [PublishedProbe]
  }

  /** The list the grid ends up with, as a decision table. */
  function Outcome(a: Answers): (r: seq<Preview>)
    ensures |r| >= 1
    ensures Fails(a) ==> r == [ErrorPlaceholder]
    ensures !Fails(a) && UsesDrafts(a) ==> r == a.draftFull.rows
    ensures !Fails(a) && FetchesPublished(a) && |a.publishedFull.rows| > 0 ==> r == a.publishedFull.rows
    ensures !Fails(a) && FetchesPublished(a) && |a.publishedFull.rows| == 0 ==> r == [TestPlaceholder]
    ensures !Fails(a) && !UsesDrafts(a) && !FetchesPublished(a) ==> r == [NoDataPlaceholder]
  {
    if Fails(a) then [ErrorPlaceholder]
    else if UsesDrafts(a) then a.draftFull.rows
    else if FetchesPublished(a) then
      (if |a.publishedFull.rows| == 0 then [TestPlaceholder] else a.publishedFull.rows)
    else [NoDataPlaceholder]
  }

  /** The grid's "No case studies found" notice. */
  predicate EmptyStateShown(list: seq<Preview>, loading: bool) {
    |list| == 0 && !loading
  }

  /** Every path of the chain: the published rows win when there are some,
      the drafts are used only when nothing is published, an empty published
      list gives the two-metric test record, no data at all gives the
      one-metric record, and any error gives the error record; the grid is
      then never empty. */
  lemma OutcomeCases(a: Answers)
    ensures NonEmpty(a.publishedProbe) && NonEmpty(a.publishedFull) ==> Outcome(a) == a.publishedFull.rows
    ensures NonEmpty(a.publishedProbe) && a.publishedFull == Rows([]) ==>
      Outcome(a) == [TestPlaceholder] && |TestPlaceholder.metrics.value| == 2
    ensures a.publishedProbe in {NullRows, Rows([])} && NonEmpty(a.draftProbe) && NonEmpty(a.draftFull) ==>
      Outcome(a) == a.draftFull.rows && Issued(a) == [PublishedProbe, DraftProbe, DraftFull]
    ensures a.publishedProbe in {NullRows, Rows([])} && a.draftProbe in {NullRows, Rows([])} ==>
      Outcome(a) == [NoDataPlaceholder] && |NoDataPlaceholder.metrics.value| == 1
    ensures a.publishedProbe in {NullRows, Rows([])} && NonEmpty(a.draftProbe) && a.draftFull == Rows([]) ==>
      Outcome(a) == [NoDataPlaceholder]
    ensures a.publishedProbe == Throws ==> Outcome(a) == [ErrorPlaceholder] && Outcome(a)[0].slug == "test-case-error"
    ensures !EmptyStateShown(Outcome(a), false)
  {
  }

  /** `WorkSection`'s two state variables and its fetch routine. */
  class WorkGrid {
    var caseStudies: seq<Preview>
    var loading: bool

    constructor()
      ensures caseStudies == [] && loading
    {
      caseStudies := [];
      loading := true;
    }

    /** `fetchCaseStudies`, step by step: each query's answer is read from
        `answers` when the routine reaches it; the issued queries are
        returned in order. */
    method FetchCaseStudies(answers: Answers) returns (issued: seq<Query>)
      modifies this
      ensures caseStudies == Outcome(answers)
      ensures !loading
      ensures issued == Issued(answers)
      ensures !EmptyStateShown(caseStudies, loading)
    {
      issued := [PublishedProbe];
      var testData := answers.publishedProbe;
      if testData.Throws? {
        caseStudies := [ErrorPlaceholder];
        loading := false;
        return;
      }
      if !NonEmpty(testData) {
        issued := issued + [DraftProbe];
        var draftTestData := answers.draftProbe;
        if draftTestData.Throws? {
          caseStudies := [ErrorPlaceholder];
          loading := false;
          return;
        }
        if NonEmpty(draftTestData) {
          issued := issued + [DraftFull];
          var data := answers.draftFull;
          if !data.Rows? {
            caseStudies := [ErrorPlaceholder];
            loading := false;
            return;
          }
          if |data.rows| > 0 {
            caseStudies := data.rows;
            loading := false;
            return;
          }
        }
      }
      if NonEmpty(testData) {
        issued := issued + [PublishedFull];
        var data := answers.publishedFull;
        if !data.Rows? {
          caseStudies := [ErrorPlaceholder];
        } else if |data.rows| == 0 {
          caseStudies := [TestPlaceholder];
        } else {
          caseStudies := data.rows;
        }
      } else {
        caseStudies := [NoDataPlaceholder];
      }
      loading := false;
    }

    /** `handleCaseStudyClick`: open the modal on the card's slug. */
    method HandleCaseStudyClick(modal: ModalProvider, card: Preview)
      modifies modal
      ensures modal.State() == ModalState(true, Some(card.slug))
    {
      modal.OpenCaseModal(card.slug);
    }
  }

  /** The chips over a card's cover: at most the first two tags, each drawn
      as on the case-study page (WorkSection's tag chip has the same tables
      and fallbacks). */
  function CardChips(card: Preview): (r: seq<CaseStudyPage.Chip>)
    ensures card.tags.None? ==> r == []
    ensures card.tags.Some? ==> |r| == if |card.tags.value| < 2 then |card.tags.value| else 2
    ensures forall i :: 0 <= i < |r| ==> r[i] == CaseStudyPage.TagChip(card.tags.value[i])
  {
    if card.tags.None? then []
    else
      var shown := card.tags.value[..if |card.tags.value| < 2 then |card.tags.value| else 2];
      seq(|shown|, i requires 0 <= i < |shown| => CaseStudyPage.TagChip(shown[i]))
  }
}
