/** The navigation bar and the slide-in panel it owns: which case study the
    panel shows, which notice takes priority, and how keys and clicks drive
    the shared modal state. */
module Navbar {
  import opened Wrappers
  import opened RichText
  import opened Content
  import opened ModalContext
  import opened CaseStudyModal

  /** The built-in case study with one block of each callout kind. */
  const TestCaseStudy := CaseStudy(
    "test-case",
    "Test Case Study",
    "test-case",
    Some("This is a comprehensive test case study to verify all content types render correctly."),
    Some(["ux-ui-design", "experiment", "ai"]),
    Some(LinkField(Some("View Live Project"), Some("https://example.com"))),
    Some(Facts(Some("Test Client"), Some("2024"), Some("Lead Designer"))),
    None,
    Some([
      MetricsCallout(Some("Key Results"), Some([
        Metric("+30%", "User Retention"),
        Metric("2x", "Engagement"),
        Metric("50%", "Task Completion")])),
      TextSection(Some("Project Overview"), Some(Portable([
        Block(None, Some([Span(
          "This project aimed to redesign the user experience for a complex dashboard application. "
          + "Through user research and iterative design, we created a more intuitive and efficient interface.",
          None)]))]))),
      PromptCallout(Some("Design Challenge"), Some(
        "How might we simplify complex data visualization while maintaining the depth of "
        + "information users need to make informed decisions?")),
      QuoteCallout(Some("User Feedback"), Some(
        "The new interface is so much cleaner and easier to use. I can find what I need in half the time."),
        Some("Sarah Johnson"), Some("Product Manager")),
      TestimonialCallout(Some("Client Testimonial"), Some(
        "The team delivered exceptional results that exceeded our expectations. "
        + "The new design has significantly improved our user satisfaction scores."),
        Some("Mike Chen"), Some("CEO, Test Company"))
    ]))

  /** `displayCaseStudy`: the fetched case when there is one; otherwise the
      test case for the slug 'test-case', else the first listed case, else
      the test case. */
  function DisplayCaseStudy(selected: Option<CaseStudy>, selectedSlug: Option<string>,
                            listed: seq<CaseStudy>): (r: Option<CaseStudy>)
    ensures r.Some?
    ensures selected.Some? ==> r == selected
    ensures selected.None? && selectedSlug == Some("test-case") ==> r == Some(TestCaseStudy)
    ensures selected.None? && selectedSlug != Some("test-case") && |listed| > 0 ==> r == Some(listed[0])
    ensures selected.None? && selectedSlug != Some("test-case") && |listed| == 0 ==> r == Some(TestCaseStudy)
  {
    if selected.Some? then selected
    else if selectedSlug == Some("test-case") then Some(TestCaseStudy)
    else if |listed| > 0 then Some(listed[0])
    else Some(TestCaseStudy)
  }

  /** What the panel shows. */
  datatype Panel = LoadingNotice | ErrorNotice | StudyPanel(doc: ModalDoc) | NoStudiesNotice

  /** The panel's branch order: loading, then a (truthy) error, then the
      displayed case, then the "no cases yet" notice. */
  function PanelBody(loading: bool, error: Option<string>, display: Option<CaseStudy>): (r: Panel)
    ensures loading ==> r == LoadingNotice
    ensures !loading && Truthy(error) ==> r == ErrorNotice
    ensures !loading && !Truthy(error) && display.Some? ==> r == StudyPanel(RenderCaseStudy(display.value))
    ensures r == NoStudiesNotice <==> !loading && !Truthy(error) && display.None?
  {
    if loading then LoadingNotice
    else if Truthy(error) then ErrorNotice
    else if display.Some? then StudyPanel(RenderCaseStudy(display.value))
    else NoStudiesNotice
  }

  /** The "no cases yet" notice can never be reached: the displayed case is
      never missing. */
  lemma NoStudiesUnreachable(loading: bool, error: Option<string>, selected: Option<CaseStudy>,
                             selectedSlug: Option<string>, listed: seq<CaseStudy>)
    ensures PanelBody(loading, error, DisplayCaseStudy(selected, selectedSlug, listed)) != NoStudiesNotice
  {
  }

  /** The test case fills the panel with its five blocks, all of which draw
      something, starting with its three metrics. */
  lemma TestCaseRenders()
    ensures var doc := RenderCaseStudy(TestCaseStudy);
      !doc.noContent && |doc.blocks| == 5 &&
      (forall i :: 0 <= i < 5 ==> doc.blocks[i].Some?) &&
      doc.blocks[0] == Some(MetricsView(TestCaseStudy.content.value[0].metrics.value))
  {
    var doc := RenderCaseStudy(TestCaseStudy);
    var bs := TestCaseStudy.content.value;
    assert TextTruthy(bs[1].body);
    assert forall i :: 0 <= i < 5 ==> !RendersNothing(bs[i]);
  }

  /** Something the user does to the bar or the panel. */
  datatype NavEvent =
    | KeyDown(key: string)
    | LetsTalkClick
    | CloseButtonClick
    | BackdropClick
    | PanelClick
    | ContentClick

  /** The callback an event reaches, if any. "Let's talk" exists only while
      the panel is closed and the close button only while it is open; the
      Escape key, the backdrop and the panel act only while it is open; a
      click inside the content stops before it reaches the panel. */
  function Reaction(isOpen: bool, e: NavEvent): (r: Option<Action>)
    ensures r.Some? ==> r.value == Toggle
    ensures !isOpen ==> (r.Some? <==> e == LetsTalkClick)
    ensures isOpen ==> (r.Some? <==> e != LetsTalkClick && e != ContentClick && (e.KeyDown? ==> e.key == "Escape"))
  {
    match e
    case KeyDown(key) => if key == "Escape" && isOpen then Some(Toggle) else None
    case LetsTalkClick => if !isOpen then Some(Toggle) else None
    case CloseButtonClick => if isOpen then Some(Toggle) else None
    case BackdropClick => if isOpen then Some(Toggle) else None
    case PanelClick => if isOpen then Some(Toggle) else None
    case ContentClick => None
  }

  /** The state after an event. */
  function React(s: ModalState, e: NavEvent): (r: ModalState)
    ensures r.selectedCaseSlug == s.selectedCaseSlug
    ensures r.isModalOpen != s.isModalOpen <==> Reaction(s.isModalOpen, e).Some?
  {
    var a := Reaction(s.isModalOpen, e);
    if a.Some? then Step(s, a.value) else s
  }

  /** While the panel is open, every event either closes it or changes
      nothing, and never changes the selected case; while it is closed,
      only "Let's talk" opens it. */
  lemma EventsOnlyClose(s: ModalState, e: NavEvent)
    ensures React(s, e).selectedCaseSlug == s.selectedCaseSlug
    ensures s.isModalOpen ==> React(s, e) == s || !React(s, e).isModalOpen
    ensures !s.isModalOpen ==> (React(s, e).isModalOpen <==> e == LetsTalkClick)
    ensures s.isModalOpen && e == KeyDown("Escape") ==> React(s, e) == s.(isModalOpen := false)
    ensures e == ContentClick ==> React(s, e) == s
  {
  }

  /** The bar as a component: its handlers act on the shared provider. */
  class NavbarHandlers {
    const modal: ModalProvider

    constructor(modal: ModalProvider)
      ensures this.modal == modal
    {
      this.modal := modal;
    }

    /** `handleEscapeKey` and the click handlers: toggle when the guard holds. */
    method Handle(e: NavEvent)
      modifies modal
      ensures modal.State() == React(old(modal.State()), e)
    {
      var a := Reaction(modal.isModalOpen, e);
      if a.Some? {
        modal.ToggleModal();
      }
    }
  }

  /** Mounting the bar: whether the effect that registers the panel
      container throws, and whether the container reached the modal context
      through `setModalContainerRef`. */
  datatype Mount = Mount(throws: bool, registered: bool)

  /** As written: the effect calls the member whether or not the context
      has it, so it registers the container when the member is there and
      calls `undefined` (and throws) when it is not. */
  function MountAsWritten(provided: set<string>): (r: Mount)
    ensures r.throws <==> "setModalContainerRef" !in provided
    ensures r.registered <==> !r.throws
  {
    if "setModalContainerRef" in provided then Mount(false, true) else Mount(true, false)
  }

  /** With the call made only when the context offers the member: mounting
      never throws, the container is registered exactly when it can be, and
      wherever the member exists the bar mounts as written. */
  function MountGuarded(provided: set<string>): (r: Mount)
    ensures !r.throws
    ensures r.registered <==> "setModalContainerRef" in provided
    ensures "setModalContainerRef" in provided ==> r == MountAsWritten(provided)
  {
    Mount(false, "setModalContainerRef" in provided)
  }

  /** The modal provider hands down no `setModalContainerRef`, so the bar's
      mount effect throws under it; the guarded mount goes through and
      registers nothing. */
  lemma MountThrowsUnderProvider()
    ensures MountAsWritten(ProvidedMembers).throws
    ensures MountGuarded(ProvidedMembers) == Mount(false, false)
  {
  }
}
