/** The modal state shared by the navigation bar, the work grid and the case
    study modal: whether the panel is open and which case study it shows. */
module ModalContext {
  import opened Wrappers

  /** A snapshot of the provider's two state variables. */
  datatype ModalState = ModalState(isModalOpen: bool, selectedCaseSlug: Option<string>)

  /** Both `useState` initial values: closed, no case selected. */
  const Initial := ModalState(false, None)

  /** The four callbacks the provider hands out. */
  datatype Action = Open | Close | Toggle | OpenCase(slug: string)

  /** The effect of one callback on a snapshot: only closing and opening a
      case touch the selection; closing resets everything. */
  function Step(s: ModalState, a: Action): (r: ModalState)
    ensures a.Open? || a.Toggle? ==> r.selectedCaseSlug == s.selectedCaseSlug
    ensures a.Close? ==> r == Initial
    ensures a.OpenCase? ==> r.isModalOpen && r.selectedCaseSlug == Some(a.slug)
    ensures a.Open? ==> r.isModalOpen
    ensures a.Toggle? ==> r.isModalOpen != s.isModalOpen
  {
    match a
    case Open => s.(isModalOpen := true)
    case Close => ModalState(false, None)
    case Toggle => s.(isModalOpen := !s.isModalOpen)
    case OpenCase(slug) => ModalState(true, Some(slug))
  }

  /** The callbacks applied one after another, each seeing the state the
      previous one left. */
  function Run(s: ModalState, acts: seq<Action>): (r: ModalState)
    ensures (forall i :: 0 <= i < |acts| ==> acts[i].Open? || acts[i].Toggle?) ==>
      r.selectedCaseSlug == s.selectedCaseSlug
    ensures |acts| > 0 && acts[|acts| - 1].Close? ==> r == Initial
    ensures |acts| > 0 && acts[|acts| - 1].OpenCase? ==>
      r == ModalState(true, Some(acts[|acts| - 1].slug))
    decreases |acts|
  {
    if |acts| == 0 then s else Run(Step(s, acts[0]), acts[1..])
  }

  lemma {:induction false} RunAppend(s: ModalState, acts: seq<Action>, a: Action)
    ensures Run(s, acts + [a]) == Step(Run(s, acts), a)
    decreases |acts|
  {
    if |acts| == 0 {
      assert acts + [a] == [a];
      assert [a][1..] == [];
    } else {
      assert (acts + [a])[0] == acts[0];
      assert (acts + [a])[1..] == acts[1..] + [a];
      RunAppend(Step(s, acts[0]), acts[1..], a);
    }
  }

  /** Which case is selected, read from the latest action backwards: the
      latest `openCaseModal` unless a `closeModal` came after it; opening and
      toggling never touch the selection. */
  function SelectedAfter(initial: Option<string>, acts: seq<Action>): Option<string>
    decreases |acts|
  {
    if |acts| == 0 then initial
    else match acts[|acts| - 1]
      case Close => None
      case OpenCase(slug) => Some(slug)
      case _ => SelectedAfter(initial, acts[..|acts| - 1])
  }

  /** Whether the panel is open, read backwards the same way: an open or a
      case open opens it, a close closes it, a toggle flips what came before. */
  function OpenAfter(initial: bool, acts: seq<Action>): bool
    decreases |acts|
  {
    if |acts| == 0 then initial
    else match acts[|acts| - 1]
      case Close => false
      case Toggle => !OpenAfter(initial, acts[..|acts| - 1])
      case _ => true
  }

  /** Running the callbacks agrees with both backward readings. */
  lemma {:induction false} RunMeaning(s: ModalState, acts: seq<Action>)
    ensures Run(s, acts).isModalOpen == OpenAfter(s.isModalOpen, acts)
    ensures Run(s, acts).selectedCaseSlug == SelectedAfter(s.selectedCaseSlug, acts)
    decreases |acts|
  {
    if |acts| > 0 {
      var init := acts[..|acts| - 1];
      var a := acts[|acts| - 1];
      assert acts == init + [a];
      RunMeaning(s, init);
      RunAppend(s, init, a);
    }
  }

  /** `toggleModal` neither clears nor sets the selection, so a case closed
      by toggling is still selected when the panel is opened again. */
  lemma StaleSelectionReopens(slug: string)
    ensures Run(Initial, [OpenCase(slug), Toggle]) == ModalState(false, Some(slug))
    ensures Run(Initial, [OpenCase(slug), Toggle, Open]) == ModalState(true, Some(slug))
    ensures Run(Initial, [OpenCase(slug), Close, Open]) == ModalState(true, None)
  {
    var acts := [OpenCase(slug), Toggle, Open];
    RunMeaning(Initial, acts);
    assert acts[..2] == [OpenCase(slug), Toggle];
    assert acts[..2][..1] == [OpenCase(slug)];
    RunMeaning(Initial, acts[..2]);
    var closing := [OpenCase(slug), Close, Open];
    RunMeaning(Initial, closing);
    assert closing[..2] == [OpenCase(slug), Close];
  }

  /** Two toggles in a row leave the state as it was. */
  lemma ToggleTwice(s: ModalState)
    ensures Run(s, [Toggle, Toggle]) == s
  {
    assert [Toggle, Toggle][1..] == [Toggle];
    assert [Toggle][1..] == [];
  }

  /** `ModalProvider`: the provider's state variables as fields, one method
      per callback. */
  class ModalProvider {
    var isModalOpen: bool
    var selectedCaseSlug: Option<string>

    function State(): ModalState
      reads this
    {
      ModalState(isModalOpen, selectedCaseSlug)
    }

    constructor()
      ensures State() == Initial
    {
      isModalOpen := false;
      selectedCaseSlug := None;
    }

    method OpenModal()
      modifies this
      ensures State() == Step(old(State()), Open)
      ensures isModalOpen && selectedCaseSlug == old(selectedCaseSlug)
    {
      isModalOpen := true;
    }

    method CloseModal()
      modifies this
      ensures State() == Step(old(State()), Close)
      ensures !isModalOpen && selectedCaseSlug == None
    {
      isModalOpen := false;
      selectedCaseSlug := None;
    }

    method ToggleModal()
      modifies this
      ensures State() == Step(old(State()), Toggle)
      ensures isModalOpen == !old(isModalOpen) && selectedCaseSlug == old(selectedCaseSlug)
    {
      isModalOpen := !isModalOpen;
    }

    method OpenCaseModal(slug: string)
      modifies this
      ensures State() == Step(old(State()), OpenCase(slug))
      ensures isModalOpen && selectedCaseSlug == Some(slug)
    {
      selectedCaseSlug := Some(slug);
      isModalOpen := true;
    }
  }

  /** The names of the members of the value the provider hands down. */
  const ProvidedMembers: set<string> :=
    {"isModalOpen", "selectedCaseSlug", "openModal", "closeModal", "toggleModal", "openCaseModal"}

  const UseModalError := "useModal must be used within a ModalProvider"

  /** `useModal`: the nearest provider's state, or the error it throws when
      no provider encloses the caller. */
  function UseModal(provided: Option<ModalState>): (r: Result<ModalState, string>)
    ensures r.Success? <==> provided.Some?
    ensures r.Success? ==> r.value == provided.value
    ensures r.Failure? ==> r.error == UseModalError
  {
    if provided.None? then Failure(UseModalError) else Success(provided.value)
  }
}
