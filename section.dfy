/** One form section: a text field with a validity check and a consent box
    (`SectionState`, `SectionEvent`, `sectionFSM`, `SectionViewModelState`,
    `SectionViewModel`).

    The text handler classifies the new text into an event, the consent
    handler turns the box into an event, and the section machine decides the
    new mode. Entering `Invalid` or `Incomplete` clears the consent box. */
module SectionComponent {
  import opened Fsm
  import opened ViewModel

  datatype SectionState = Incomplete | Complete | Valid | Invalid

  datatype SectionEvent = NoInput | ValidInput | InvalidInput | ConsentGiven | NoConsent

  /** `sectionFSM`, block by block as its definition declares it. */
  const SectionBlocks: seq<Block<SectionState, SectionEvent>> := [
    From(Incomplete, [GoesTo(ValidInput, Valid), GoesTo(InvalidInput, Invalid)]),
    From(Complete, [GoesTo(NoConsent, Valid), GoesTo(InvalidInput, Invalid), GoesTo(NoInput, Incomplete)]),
    From(Valid, [GoesTo(InvalidInput, Invalid), GoesTo(NoInput, Incomplete), GoesTo(ConsentGiven, Complete)]),
    From(Invalid, [GoesTo(ValidInput, Valid), GoesTo(NoInput, Incomplete)])
  ]

  /** The table that definition builds, written out row by row. */
  const SectionFsm: Table<SectionState, SectionEvent> := map[
    Incomplete := map[ValidInput := Valid, InvalidInput := Invalid],
    Complete := map[NoConsent := Valid, InvalidInput := Invalid, NoInput := Incomplete],
    Valid := map[InvalidInput := Invalid, NoInput := Incomplete, ConsentGiven := Complete],
    Invalid := map[ValidInput := Valid, NoInput := Incomplete]]

  /** The section machine written out pair by pair, as a reference. */
  function SectionNext(s: SectionState, e: SectionEvent): Option<SectionState>
  {
    match (s, e)
    case (Incomplete, ValidInput) => Some(Valid)
    case (Incomplete, InvalidInput) => Some(Invalid)
    case (Complete, NoConsent) => Some(Valid)
    case (Complete, InvalidInput) => Some(Invalid)
    case (Complete, NoInput) => Some(Incomplete)
    case (Valid, InvalidInput) => Some(Invalid)
    case (Valid, NoInput) => Some(Incomplete)
    case (Valid, ConsentGiven) => Some(Complete)
    case (Invalid, ValidInput) => Some(Valid)
    case (Invalid, NoInput) => Some(Incomplete)
    case _ => None
  }

  /** The table agrees with the reference on every pair. */
  lemma SectionFsmLookup(s: SectionState, e: SectionEvent)
    ensures Lookup(SectionFsm, s, e) == SectionNext(s, e)
  {
  }

  /** The `fsm { ... }` definition declares what the reference says. */
  lemma SectionDeclared(s: SectionState, e: SectionEvent)
    ensures Declared(SectionBlocks, s, e) == SectionNext(s, e)
  {
  }

  /** The `fsm { ... }` definition builds exactly that table. */
  lemma SectionFsmBuilt()
    ensures Build(SectionBlocks) == SectionFsm
  {
    forall s | s in SectionFsm ensures SectionFsm[s] != map[] {
      var e :| SectionNext(s, e).Some?;
      SectionFsmLookup(s, e);
    }
    forall s, e ensures Lookup(SectionFsm, s, e) == Declared(SectionBlocks, s, e) {
      SectionFsmLookup(s, e);
      SectionDeclared(s, e);
    }
    BuildEquals(SectionBlocks, SectionFsm);
  }

  /** The ten transitions of the section machine. */
  const SectionTransitions: set<(SectionState, SectionEvent, SectionState)> := {
    (Incomplete, ValidInput, Valid), (Incomplete, InvalidInput, Invalid),
    (Complete, NoConsent, Valid), (Complete, InvalidInput, Invalid), (Complete, NoInput, Incomplete),
    (Valid, InvalidInput, Invalid), (Valid, NoInput, Incomplete), (Valid, ConsentGiven, Complete),
    (Invalid, ValidInput, Valid), (Invalid, NoInput, Incomplete)
  }

  lemma TransitionsOfSectionNext(t: Table<SectionState, SectionEvent>)
    requires forall s, e :: Lookup(t, s, e) == SectionNext(s, e)
    ensures Transitions(t) == SectionTransitions
  {
    forall x | x in Transitions(t) ensures x in SectionTransitions {
      TransitionsLookup(t, x.0, x.1, x.2);
    }
    forall x | x in SectionTransitions ensures x in Transitions(t) {
      TransitionsLookup(t, x.0, x.1, x.2);
    }
  }

  /** The section machine holds exactly the transitions its definition
      lists; for instance `Incomplete` has none on `NoInput`, `ConsentGiven`
      or `NoConsent`. */
  lemma SectionFsmTransitions()
    ensures Transitions(SectionFsm) == SectionTransitions
  {
    forall s, e ensures Lookup(SectionFsm, s, e) == SectionNext(s, e) {
      SectionFsmLookup(s, e);
    }
    TransitionsOfSectionNext(SectionFsm);
  }

  lemma SectionTransitionsCount()
    ensures |SectionTransitions| == 10
  {
  }

  /** ... and there are ten of them. */
  lemma SectionFsmSize()
    ensures |Transitions(SectionFsm)| == 10
  {
    SectionFsmTransitions();
    SectionTransitionsCount();
  }

  /** `Complete` is entered only from `Valid` on `ConsentGiven`. */
  lemma CompleteOnlyFromValid(s: SectionState, e: SectionEvent)
    ensures Lookup(SectionFsm, s, e) == Some(Complete) <==> s == Valid && e == ConsentGiven
  {
    SectionFsmLookup(s, e);
  }

  /** `SectionViewModelState`: the snapshot of one section. */
  datatype SectionViewModelState = SectionViewModelState(text: string, consent: bool, state: SectionState)

  /** The default snapshot: no text, no consent, `Incomplete`. */
  const DefaultSectionState := SectionViewModelState("", false, Incomplete)

  /** `withState`: a copy with another mode. */
  function WithState(r: SectionViewModelState, newState: SectionState): SectionViewModelState
  {
    r.(state := newState)
  }

  /** The lens the section view model is built with. */
  function SectionMode(): FsmMode<SectionState, SectionViewModelState>
  {
    FsmMode((r: SectionViewModelState) => r.state, WithState)
  }

  /** Writing a mode through the lens changes the mode alone, and reading it
      back gives the mode written. */
  lemma SectionModeLaws(r: SectionViewModelState, m: SectionState)
    ensures LawfulMode(SectionMode())
    ensures SectionMode().setValue(r, m).text == r.text
    ensures SectionMode().setValue(r, m).consent == r.consent
    ensures SectionMode().getValue(SectionMode().setValue(r, m)) == m
  {
  }

  /** The effect of `onChangeState`: entering `Invalid` or `Incomplete`
      clears the consent box. */
  function OnChangeStateEffect(r: SectionViewModelState, edge: Edge<SectionState, SectionEvent>): SectionViewModelState
  {
    if edge.to == Invalid || edge.to == Incomplete then r.(consent := false) else r
  }

  /** `processEvent` on a section, including its hook. */
  function SectionDispatch(r: SectionViewModelState, event: SectionEvent): SectionViewModelState
  {
    match Accepted(SectionFsm, r.state, event)
    case None => r
    case Some(edge) => OnChangeStateEffect(Dispatch(SectionFsm, SectionMode(), r, event), edge)
  }

  /** A section event leaves the text alone, moves the mode along the table,
      and ends with the consent box cleared whenever it entered `Invalid` or
      `Incomplete`. */
  lemma SectionDispatchEffect(r: SectionViewModelState, event: SectionEvent)
    ensures SectionDispatch(r, event).text == r.text
    ensures SectionDispatch(r, event).state ==
      match SectionNext(r.state, event) case Some(next) => next case None => r.state
    ensures SectionDispatch(r, event).consent ==
      if SectionNext(r.state, event).Some? && SectionNext(r.state, event).value != r.state
         && SectionNext(r.state, event).value in {Invalid, Incomplete}
      then false else r.consent
  {
    SectionFsmLookup(r.state, event);
  }

  /** The event `handleTextChange` derives from the new text, with the
      pattern match given as `validInput`. */
  function ClassifyText(text: string, validInput: string -> bool): SectionEvent
  {
    if |text| == 0 then NoInput
    else if validInput(text) then ValidInput
    else InvalidInput
  }

  /** The event `handleConsentChange` derives from the box. */
  function ClassifyConsent(checked: bool): SectionEvent
  {
    if checked then ConsentGiven else NoConsent
  }

  /** `handleTextChange`: store the text, then dispatch its event. */
  function TextChange(r: SectionViewModelState, text: string, validInput: string -> bool): SectionViewModelState
  {
    SectionDispatch(r.(text := text), ClassifyText(text, validInput))
  }

  /** `handleConsentChange`: store the box, then dispatch its event. */
  function ConsentChange(r: SectionViewModelState, checked: bool): SectionViewModelState
  {
    SectionDispatch(r.(consent := checked), ClassifyConsent(checked))
  }

  /** What a text change does, whatever the section's mode: empty text makes
      the section `Incomplete`, matching text `Valid` (a `Complete` section
      stays `Complete`), any other text `Invalid`; the consent box is cleared
      whenever the mode moved into `Invalid` or `Incomplete`. */
  lemma TextChangeEffect(r: SectionViewModelState, text: string, validInput: string -> bool)
    ensures TextChange(r, text, validInput).text == text
    ensures TextChange(r, text, validInput).state ==
      if |text| == 0 then Incomplete
      else if validInput(text) then (if r.state == Complete then Complete else Valid)
      else Invalid
    ensures TextChange(r, text, validInput).consent ==
      if TextChange(r, text, validInput).state != r.state
         && TextChange(r, text, validInput).state in {Invalid, Incomplete}
      then false else r.consent
  {
    SectionDispatchEffect(r.(text := text), ClassifyText(text, validInput));
  }

  /** What a consent change does: the box ends as given; ticking it moves
      `Valid` to `Complete`, clearing it moves `Complete` back to `Valid`, and
      every other mode stays. */
  lemma ConsentChangeEffect(r: SectionViewModelState, checked: bool)
    ensures ConsentChange(r, checked).text == r.text
    ensures ConsentChange(r, checked).consent == checked
    ensures ConsentChange(r, checked).state ==
      if checked && r.state == Valid then Complete
      else if !checked && r.state == Complete then Valid
      else r.state
  {
    SectionDispatchEffect(r.(consent := checked), ClassifyConsent(checked));
  }

  /** A `Complete` section has its consent box ticked. */
  ghost predicate ConsentInvariant(r: SectionViewModelState)
  {
    r.state == Complete ==> r.consent
  }

  /** The handlers that change a section from outside. */
  datatype SectionInput = TextInput(text: string) | ConsentInput(checked: bool) | ResetInput

  function Apply(r: SectionViewModelState, input: SectionInput, validInput: string -> bool): SectionViewModelState
  {
    match input
    case TextInput(text) => TextChange(r, text, validInput)
    case ConsentInput(checked) => ConsentChange(r, checked)
    case ResetInput => DefaultSectionState
  }

  function Run(r: SectionViewModelState, inputs: seq<SectionInput>, validInput: string -> bool): SectionViewModelState
    decreases |inputs|
  {
    if inputs == [] then r else Run(Apply(r, inputs[0], validInput), inputs[1..], validInput)
  }

  /** Every handler keeps a `Complete` section's consent ticked. */
  lemma ApplyKeepsConsentInvariant(r: SectionViewModelState, input: SectionInput, validInput: string -> bool)
    requires ConsentInvariant(r)
    ensures ConsentInvariant(Apply(r, input, validInput))
  {
    match input
    case TextInput(text) => TextChangeEffect(r, text, validInput);
    case ConsentInput(checked) => ConsentChangeEffect(r, checked);
    case ResetInput =>
  }

  /** From the default snapshot, any sequence of handler calls and resets
      leaves a `Complete` section with its consent ticked. */
  lemma {:induction false} RunKeepsConsentInvariant(r: SectionViewModelState, inputs: seq<SectionInput>, validInput: string -> bool)
    requires ConsentInvariant(r)
    ensures ConsentInvariant(Run(r, inputs, validInput))
    decreases |inputs|
  {
    if inputs != [] {
      ApplyKeepsConsentInvariant(r, inputs[0], validInput);
      RunKeepsConsentInvariant(Apply(r, inputs[0], validInput), inputs[1..], validInput);
    }
  }

  lemma CompleteImpliesConsent(inputs: seq<SectionInput>, validInput: string -> bool)
    ensures Run(DefaultSectionState, inputs, validInput).state == Complete ==>
            Run(DefaultSectionState, inputs, validInput).consent
  {
    RunKeepsConsentInvariant(DefaultSectionState, inputs, validInput);
  }

  /** `SectionViewModel`: a section container with its `onChangeState` hook.
      `changes` records every call of the hook, in order. */
  class SectionViewModel {
    const vm: FsmViewModel<SectionState, SectionEvent, SectionViewModelState>
    /** The match against `validInputPattern`. */
    const validInput: string -> bool
    ghost var changes: seq<Edge<SectionState, SectionEvent>>

    ghost predicate Valid()
    {
      vm.fsm == SectionFsm && vm.mode == SectionMode()
    }

    constructor (initialState: SectionViewModelState, validInput: string -> bool)
      ensures Valid() && fresh(vm)
      ensures vm.state == initialState && this.validInput == validInput && changes == []
    {
      vm := new FsmViewModel(initialState, SectionFsm, SectionMode());
      this.validInput := validInput;
      changes := [];
    }

    /** `onChangeState(from, to, cause)`: runs after the new mode is committed. */
    method OnChangeState(from: SectionState, to: SectionState, cause: SectionEvent)
      requires Valid() && vm.state.state == to
      modifies this, vm
      ensures changes == old(changes) + [Edge(from, to, cause)]
      ensures vm.state == OnChangeStateEffect(old(vm.state), Edge(from, to, cause))
    {
      changes := changes + [Edge(from, to, cause)];
      if to == Invalid || to == Incomplete {
        vm.SetState((r: SectionViewModelState) => r.(consent := false));
      }
    }

    /** `processEvent(event)`: the hook runs once, with the accepted edge,
        exactly when the table accepts a transition to another mode. */
    method ProcessEvent(event: SectionEvent)
      requires Valid()
      modifies this, vm
      ensures vm.state == SectionDispatch(old(vm.state), event)
      ensures changes == old(changes) + HookCalls(Accepted(SectionFsm, old(vm.state).state, event))
    {
      var change := vm.ProcessEvent(event);
      if change.Some? {
        OnChangeState(change.value.from, change.value.to, change.value.cause);
      }
    }

    /** `handleTextChange(text)`. */
    method HandleTextChange(text: string)
      requires Valid()
      modifies this, vm
      ensures vm.state == TextChange(old(vm.state), text, validInput)
      ensures changes == old(changes) +
        HookCalls(Accepted(SectionFsm, old(vm.state).state, ClassifyText(text, validInput)))
      ensures ConsentInvariant(old(vm.state)) ==> ConsentInvariant(vm.state)
    {
      vm.SetState((r: SectionViewModelState) => r.(text := text));
      ProcessEvent(ClassifyText(text, validInput));
      if ConsentInvariant(old(vm.state)) {
        ApplyKeepsConsentInvariant(old(vm.state), TextInput(text), validInput);
      }
    }

    /** `handleConsentChange(checked)`. */
    method HandleConsentChange(checked: bool)
      requires Valid()
      modifies this, vm
      ensures vm.state == ConsentChange(old(vm.state), checked)
      ensures changes == old(changes) +
        HookCalls(Accepted(SectionFsm, old(vm.state).state, ClassifyConsent(checked)))
      ensures ConsentInvariant(old(vm.state)) ==> ConsentInvariant(vm.state)
    {
      vm.SetState((r: SectionViewModelState) => r.(consent := checked));
      ProcessEvent(ClassifyConsent(checked));
      if ConsentInvariant(old(vm.state)) {
        ApplyKeepsConsentInvariant(old(vm.state), ConsentInput(checked), validInput);
      }
    }

    /** `reset()`: back to the default snapshot, without an event or a hook. */
    method Reset()
      modifies vm
      ensures vm.state == DefaultSectionState
    {
      vm.SetState((r: SectionViewModelState) => r.(text := "", consent := false, state := Incomplete));
    }
  }
}
