/** The form: a parent machine driven by the modes of its sections
    (`FormState`, `FormEvent`, `formFSM`, `FormViewModelState`,
    `FormViewModel`).

    The form becomes ready when every section is `Complete` and falls back
    when one is not. Submitting moves it to `Submitting`; the later
    `Submitted` event brings it back to `NotReady`, and that edge resets every
    section to its default snapshot. */
module FormComponent {
  import opened Fsm
  import opened ViewModel
  import Sec = SectionComponent

  datatype FormState = ReadyToSubmit | Submitting | NotReady

  datatype FormEvent = AllSectionsCompleted | HasUncompletedSections | SubmitInitiated | Submitted

  /** `formFSM`, block by block as its definition declares it. */
  const FormBlocks: seq<Block<FormState, FormEvent>> := [
    From(NotReady, [GoesTo(AllSectionsCompleted, ReadyToSubmit)]),
    From(ReadyToSubmit, [GoesTo(SubmitInitiated, Submitting), GoesTo(HasUncompletedSections, NotReady)]),
    From(Submitting, [GoesTo(Submitted, NotReady)])
  ]

  /** The table that definition builds, written out row by row. */
  const FormFsm: Table<FormState, FormEvent> := map[
    NotReady := map[AllSectionsCompleted := ReadyToSubmit],
    ReadyToSubmit := map[SubmitInitiated := Submitting, HasUncompletedSections := NotReady],
    Submitting := map[Submitted := NotReady]]

  /** The form machine written out pair by pair, as a reference. */
  function FormNext(s: FormState, e: FormEvent): Option<FormState>
  {
    match (s, e)
    case (NotReady, AllSectionsCompleted) => Some(ReadyToSubmit)
    case (ReadyToSubmit, SubmitInitiated) => Some(Submitting)
    case (ReadyToSubmit, HasUncompletedSections) => Some(NotReady)
    case (Submitting, Submitted) => Some(NotReady)
    case _ => None
  }

  /** The table agrees with the reference on every pair. */
  lemma FormFsmLookup(s: FormState, e: FormEvent)
    ensures Lookup(FormFsm, s, e) == FormNext(s, e)
  {
  }

  /** The `fsm { ... }` definition declares what the reference says. */
  lemma FormDeclared(s: FormState, e: FormEvent)
    ensures Declared(FormBlocks, s, e) == FormNext(s, e)
  {
  }

  /** The `fsm { ... }` definition builds exactly that table. */
  lemma FormFsmBuilt()
    ensures Build(FormBlocks) == FormFsm
  {
    forall s | s in FormFsm ensures FormFsm[s] != map[] {
      var e :| FormNext(s, e).Some?;
      FormFsmLookup(s, e);
    }
    forall s, e ensures Lookup(FormFsm, s, e) == Declared(FormBlocks, s, e) {
      FormFsmLookup(s, e);
      FormDeclared(s, e);
    }
    BuildEquals(FormBlocks, FormFsm);
  }

  /** The four transitions of the form machine. */
  const FormTransitions: set<(FormState, FormEvent, FormState)> := {
    (NotReady, AllSectionsCompleted, ReadyToSubmit),
    (ReadyToSubmit, SubmitInitiated, Submitting),
    (ReadyToSubmit, HasUncompletedSections, NotReady),
    (Submitting, Submitted, NotReady)
  }

  lemma TransitionsOfFormNext(t: Table<FormState, FormEvent>)
    requires forall s, e :: Lookup(t, s, e) == FormNext(s, e)
    ensures Transitions(t) == FormTransitions
  {
    forall x | x in Transitions(t) ensures x in FormTransitions {
      TransitionsLookup(t, x.0, x.1, x.2);
    }
    forall x | x in FormTransitions ensures x in Transitions(t) {
      TransitionsLookup(t, x.0, x.1, x.2);
    }
  }

  /** The form machine holds exactly the transitions its definition lists. */
  lemma FormFsmTransitions()
    ensures Transitions(FormFsm) == FormTransitions
  {
    forall s, e ensures Lookup(FormFsm, s, e) == FormNext(s, e) {
      FormFsmLookup(s, e);
    }
    TransitionsOfFormNext(FormFsm);
  }

  lemma FormTransitionsCount()
    ensures |FormTransitions| == 4
  {
  }

  /** ... and there are four of them. */
  lemma FormFsmSize()
    ensures |Transitions(FormFsm)| == 4
  {
    FormFsmTransitions();
    FormTransitionsCount();
  }

  /** While `Submitting`, only `Submitted` is accepted; the events derived
      from the sections are ignored. */
  lemma SubmittingLeavesOnlyOnSubmitted(e: FormEvent)
    ensures Accepted(FormFsm, Submitting, e).Some? <==> e == Submitted
  {
    FormFsmLookup(Submitting, e);
  }

  /** `FormViewModelState`: the snapshot of the form. */
  datatype FormViewModelState = FormViewModelState(signature: string, state: FormState)

  /** The default snapshot: no signature, `NotReady`. */
  const DefaultFormState := FormViewModelState("", NotReady)

  /** `withState`: a copy with another mode. */
  function WithState(r: FormViewModelState, newState: FormState): FormViewModelState
  {
    r.(state := newState)
  }

  /** The lens the form view model is built with. */
  function FormMode(): FsmMode<FormState, FormViewModelState>
  {
    FsmMode((r: FormViewModelState) => r.state, WithState)
  }

  /** Writing a mode through the lens keeps the signature, and reading it
      back gives the mode written. */
  lemma FormModeLaws(r: FormViewModelState, m: FormState)
    ensures LawfulMode(FormMode())
    ensures FormMode().setValue(r, m).signature == r.signature
    ensures FormMode().getValue(FormMode().setValue(r, m)) == m
  {
  }

  /** "Submit" is enabled exactly in `ReadyToSubmit`. */
  predicate SubmitEnabled(r: FormViewModelState)
  {
    r.state == ReadyToSubmit
  }

  /** The event the form derives from its sections' snapshots. */
  function DerivedEvent(sections: seq<Sec.SectionViewModelState>): FormEvent
  {
    if forall i :: 0 <= i < |sections| ==> sections[i].state == Sec.Complete
    then AllSectionsCompleted else HasUncompletedSections
  }

  /** The form and its sections, seen together. */
  datatype FormSnapshot = FormSnapshot(form: FormViewModelState, sections: seq<Sec.SectionViewModelState>)

  /** Every section back to its default snapshot. */
  function ResetAll(sections: seq<Sec.SectionViewModelState>): seq<Sec.SectionViewModelState>
  {
    seq(|sections|, _ => Sec.DefaultSectionState)
  }

  /** The effect of `onChangeState`: the edge `Submitting -> NotReady` means
      the form was submitted, and every section is reset. */
  function OnChangeStateEffect(sections: seq<Sec.SectionViewModelState>, edge: Edge<FormState, FormEvent>): seq<Sec.SectionViewModelState>
  {
    if edge.from == Submitting && edge.to == NotReady then ResetAll(sections) else sections
  }

  /** `processEvent` on the form, including its hook. */
  function FormDispatch(f: FormSnapshot, event: FormEvent): FormSnapshot
  {
    match Accepted(FormFsm, f.form.state, event)
    case None => f
    case Some(edge) => FormSnapshot(Dispatch(FormFsm, FormMode(), f.form, event), OnChangeStateEffect(f.sections, edge))
  }

  /** A form event keeps the signature, moves the mode along the table, and
      resets the sections exactly on `Submitted` from `Submitting`. */
  lemma FormDispatchEffect(f: FormSnapshot, event: FormEvent)
    ensures FormDispatch(f, event).form.signature == f.form.signature
    ensures FormDispatch(f, event).form.state ==
      match FormNext(f.form.state, event) case Some(next) => next case None => f.form.state
    ensures FormDispatch(f, event).sections ==
      if f.form.state == Submitting && event == Submitted then ResetAll(f.sections) else f.sections
  {
    FormFsmLookup(f.form.state, event);
  }

  /** One emission of the combined section states, dispatched into the form. */
  function SyncStep(f: FormSnapshot): FormSnapshot
  {
    FormDispatch(f, DerivedEvent(f.sections))
  }

  /** What a sync does: a `NotReady` form whose sections are all `Complete`
      becomes ready, a ready form with an unfinished section falls back to
      `NotReady`, and nothing else changes. */
  lemma SyncStepEffect(f: FormSnapshot)
    ensures SyncStep(f).sections == f.sections
    ensures SyncStep(f).form.signature == f.form.signature
    ensures SyncStep(f).form.state ==
      var all := forall i :: 0 <= i < |f.sections| ==> f.sections[i].state == Sec.Complete;
      if f.form.state == NotReady && all then ReadyToSubmit
      else if f.form.state == ReadyToSubmit && !all then NotReady
      else f.form.state
  {
    FormDispatchEffect(f, DerivedEvent(f.sections));
  }

  /** `handleSubmit`: `SubmitInitiated`, then (after the delay) `Submitted`. */
  function SubmitSequence(f: FormSnapshot): FormSnapshot
  {
    FormDispatch(FormDispatch(f, SubmitInitiated), Submitted)
  }

  /** Submitting a `NotReady` form changes nothing; from `ReadyToSubmit` (or
      while `Submitting`) it ends `NotReady` with every section reset. */
  lemma SubmitSequenceEffect(f: FormSnapshot)
    ensures SubmitSequence(f) ==
      if f.form.state == NotReady then f
      else FormSnapshot(f.form.(state := NotReady), ResetAll(f.sections))
  {
    FormDispatchEffect(f, SubmitInitiated);
    FormDispatchEffect(FormDispatch(f, SubmitInitiated), Submitted);
  }

  /** The hook calls `handleSubmit` makes from mode `s`: the edge accepted on
      `SubmitInitiated`, then the one accepted on `Submitted` from the mode
      the first event left behind. */
  function SubmitHookCalls(s: FormState): seq<Edge<FormState, FormEvent>>
  {
    var first := Accepted(FormFsm, s, SubmitInitiated);
    var mid := if first.Some? then first.value.to else s;
    HookCalls(first) + HookCalls(Accepted(FormFsm, mid, Submitted))
  }

  /** Submitting a ready form calls the hook twice, first into `Submitting`
      and then back to `NotReady`; a form that is not ready calls it never,
      and one already submitting calls it once, on the way out. */
  lemma SubmitHookCallsEffect(s: FormState)
    ensures SubmitHookCalls(s) ==
      match s
      case NotReady => []
      case ReadyToSubmit => [Edge(ReadyToSubmit, Submitting, SubmitInitiated), Edge(Submitting, NotReady, Submitted)]
      case Submitting => [Edge(Submitting, NotReady, Submitted)]
  {
    FormFsmLookup(s, SubmitInitiated);
    FormFsmLookup(Submitting, Submitted);
    FormFsmLookup(s, Submitted);
  }

  /** The first event a new form sees: two `Incomplete` sections derive
      `HasUncompletedSections`, which has no transition from `NotReady`. As
      written, `processEvent` commits an absent mode; with the absence check
      the form stays as it is. */
  lemma StartupEventAsWritten()
    ensures DerivedEvent([Sec.DefaultSectionState, Sec.DefaultSectionState]) == HasUncompletedSections
    ensures ProcessEventAsWritten(FormFsm, NotReady, HasUncompletedSections) == Commits(None)
    ensures var f := FormSnapshot(DefaultFormState, [Sec.DefaultSectionState, Sec.DefaultSectionState]);
      SyncStep(f) == f
  {
    FormFsmLookup(NotReady, HasUncompletedSections);
    var sections := [Sec.DefaultSectionState, Sec.DefaultSectionState];
    assert sections[0].state == Sec.Incomplete;
  }

  /** `FormViewModel`: the form container, its two sections and its
      `onChangeState` hook. `changes` records every call of the hook. */
  class FormViewModel {
    const vm: FsmViewModel<FormState, FormEvent, FormViewModelState>
    const userInfoViewModel: Sec.SectionViewModel
    const paymentDetailsViewModel: Sec.SectionViewModel
    /** `sectionViewModels`: the sections the form combines. */
    const sectionViewModels: seq<Sec.SectionViewModel>
    ghost var changes: seq<Edge<FormState, FormEvent>>

    ghost predicate Valid()
    {
      && vm.fsm == FormFsm && vm.mode == FormMode()
      && sectionViewModels == [userInfoViewModel, paymentDetailsViewModel]
    }

    /** The section containers whose snapshots the form may change. */
    ghost function SectionVms(): set<object>
    {
      {userInfoViewModel.vm, paymentDetailsViewModel.vm}
    }

    /** The snapshots of `sectionViewModels`, in order. */
    ghost function SectionStates(): seq<Sec.SectionViewModelState>
      reads SectionVms()
    {
      [userInfoViewModel.vm.state, paymentDetailsViewModel.vm.state]
    }

    ghost function Snapshot(): FormSnapshot
      reads vm, SectionVms()
    {
      FormSnapshot(vm.state, SectionStates())
    }

    constructor (initialState: FormViewModelState, userInfo: Sec.SectionViewModel, paymentDetails: Sec.SectionViewModel)
      ensures Valid() && fresh(vm)
      ensures userInfoViewModel == userInfo && paymentDetailsViewModel == paymentDetails
      ensures vm.state == initialState && changes == []
    {
      vm := new FsmViewModel(initialState, FormFsm, FormMode());
      userInfoViewModel := userInfo;
      paymentDetailsViewModel := paymentDetails;
      sectionViewModels := [userInfo, paymentDetails];
      changes := [];
    }

    /** `onChangeState(from, to, cause)`: runs after the new mode is
        committed; resets every section on `Submitting -> NotReady`. */
    method OnChangeState(from: FormState, to: FormState, cause: FormEvent)
      requires Valid() && vm.state.state == to
      modifies this, SectionVms()
      ensures changes == old(changes) + [Edge(from, to, cause)]
      ensures SectionStates() == OnChangeStateEffect(old(SectionStates()), Edge(from, to, cause))
    {
      changes := changes + [Edge(from, to, cause)];
      if from == Submitting && to == NotReady {
        ResetSections();
      }
    }

    /** `sectionViewModels.forEach { it.reset() }`. */
    method ResetSections()
      requires Valid()
      modifies SectionVms()
      ensures SectionStates() == ResetAll(old(SectionStates()))
    {
      var i := 0;
      while i < |sectionViewModels|
        invariant 0 <= i <= |sectionViewModels|
        invariant forall j :: 0 <= j < i ==> sectionViewModels[j].vm.state == Sec.DefaultSectionState
      {
        sectionViewModels[i].Reset();
        i := i + 1;
      }
      assert sectionViewModels[0].vm.state == sectionViewModels[1].vm.state == Sec.DefaultSectionState;
      assert ResetAll(old(SectionStates())) == [Sec.DefaultSectionState, Sec.DefaultSectionState];
    }

    /** `processEvent(event)`: the hook runs once, with the accepted edge,
        exactly when the table accepts a transition to another mode. */
    method ProcessEvent(event: FormEvent)
      requires Valid()
      modifies this, vm, SectionVms()
      ensures Snapshot() == FormDispatch(old(Snapshot()), event)
      ensures changes == old(changes) + HookCalls(Accepted(FormFsm, old(vm.state).state, event))
    {
      var change := vm.ProcessEvent(event);
      if change.Some? {
        OnChangeState(change.value.from, change.value.to, change.value.cause);
      }
    }

    /** The combination of the sections' latest snapshots: `AllSectionsCompleted`
        when every section is `Complete`, `HasUncompletedSections` otherwise. */
    method DerivedSectionEvent() returns (event: FormEvent)
      requires Valid()
      ensures event == AllSectionsCompleted <==>
        forall i :: 0 <= i < |sectionViewModels| ==> sectionViewModels[i].vm.state.state == Sec.Complete
      ensures event == AllSectionsCompleted || event == HasUncompletedSections
      ensures event == DerivedEvent(SectionStates())
    {
      var all := true;
      for i := 0 to |sectionViewModels|
        invariant all <==> forall j :: 0 <= j < i ==> sectionViewModels[j].vm.state.state == Sec.Complete
      {
        if sectionViewModels[i].vm.state.state != Sec.Complete {
          all := false;
        }
      }
      event := if all then AllSectionsCompleted else HasUncompletedSections;
      assert SectionStates()[0] == sectionViewModels[0].vm.state;
      assert SectionStates()[1] == sectionViewModels[1].vm.state;
    }

    /** One emission of the combined section flows, dispatched into the form. */
    method Sync()
      requires Valid()
      modifies this, vm, SectionVms()
      ensures Snapshot() == SyncStep(old(Snapshot()))
      ensures changes == old(changes) +
        HookCalls(Accepted(FormFsm, old(vm.state).state, DerivedEvent(old(SectionStates()))))
    {
      var event := DerivedSectionEvent();
      ProcessEvent(event);
    }

    /** `handleSubmit()`: `SubmitInitiated` now, `Submitted` once the delay is
        over. */
    method HandleSubmit()
      requires Valid()
      modifies this, vm, SectionVms()
      ensures Snapshot() == SubmitSequence(old(Snapshot()))
      ensures changes == old(changes) + SubmitHookCalls(old(vm.state).state)
    {
      ProcessEvent(SubmitInitiated);
      ProcessEvent(Submitted);
    }
  }

  /** Valid text followed by a ticked box completes a fresh section. */
  lemma FilledSection(text: string, validInput: string -> bool)
    requires |text| > 0 && validInput(text)
    ensures Sec.TextChange(Sec.DefaultSectionState, text, validInput).state == Sec.Valid
    ensures Sec.ConsentChange(Sec.TextChange(Sec.DefaultSectionState, text, validInput), true).state == Sec.Complete
  {
    Sec.TextChangeEffect(Sec.DefaultSectionState, text, validInput);
    Sec.ConsentChangeEffect(Sec.TextChange(Sec.DefaultSectionState, text, validInput), true);
  }

  /** A sync of a form with two sections, in terms of the two snapshots. */
  lemma SyncPair(form: FormViewModelState, a: Sec.SectionViewModelState, b: Sec.SectionViewModelState)
    ensures SyncStep(FormSnapshot(form, [a, b])) == FormSnapshot(form.(state :=
      var all := a.state == Sec.Complete && b.state == Sec.Complete;
      if form.state == NotReady && all then ReadyToSubmit
      else if form.state == ReadyToSubmit && !all then NotReady
      else form.state), [a, b])
  {
    var f := FormSnapshot(form, [a, b]);
    SyncStepEffect(f);
    assert f.sections[0] == a && f.sections[1] == b;
  }

  /** The snapshots of the life of a form with two sections, one step at a
      time: filling in the first section leaves a new form `NotReady`,
      filling in both makes it ready, and submitting passes through
      `Submitting` back to the default snapshots. */
  lemma LifeOfAForm(name: string, nameOk: string -> bool, card: string, cardOk: string -> bool)
    requires |name| > 0 && nameOk(name) && |card| > 0 && cardOk(card)
    ensures var d := Sec.DefaultSectionState;
      var a := Sec.ConsentChange(Sec.TextChange(d, name, nameOk), true);
      var b := Sec.ConsentChange(Sec.TextChange(d, card, cardOk), true);
      var ready := FormSnapshot(DefaultFormState.(state := ReadyToSubmit), [a, b]);
      && SyncStep(FormSnapshot(DefaultFormState, [d, d])) == FormSnapshot(DefaultFormState, [d, d])
      && SyncStep(FormSnapshot(DefaultFormState, [a, d])) == FormSnapshot(DefaultFormState, [a, d])
      && SyncStep(FormSnapshot(DefaultFormState, [a, b])) == ready
      && FormDispatch(ready, SubmitInitiated).form == DefaultFormState.(state := Submitting)
      && SubmitSequence(ready) == FormSnapshot(DefaultFormState, [d, d])
  {
    var d := Sec.DefaultSectionState;
    var a := Sec.ConsentChange(Sec.TextChange(d, name, nameOk), true);
    var b := Sec.ConsentChange(Sec.TextChange(d, card, cardOk), true);
    FilledSection(name, nameOk);
    FilledSection(card, cardOk);
    SyncPair(DefaultFormState, d, d);
    SyncPair(DefaultFormState, a, d);
    SyncPair(DefaultFormState, a, b);
    var ready := FormSnapshot(DefaultFormState.(state := ReadyToSubmit), [a, b]);
    FormDispatchEffect(ready, SubmitInitiated);
    SubmitSequenceEffect(ready);
    assert ResetAll([a, b]) == [d, d];
  }

  /** Two fresh sections and a new form over them: a sync leaves the new
      form `NotReady`, and so does a sync once the first section is filled
      in; with valid text and consent in both, a sync makes it
      `ReadyToSubmit`. */
  method FillBoth(name: string, nameOk: string -> bool, card: string, cardOk: string -> bool)
    returns (form: FormViewModel, start: FormState)
    requires |name| > 0 && nameOk(name) && |card| > 0 && cardOk(card)
    ensures fresh(form) && fresh(form.vm) && form.Valid()
    ensures fresh(form.userInfoViewModel.vm) && fresh(form.paymentDetailsViewModel.vm)
    ensures start == NotReady
    ensures form.vm.state == DefaultFormState.(state := ReadyToSubmit)
  {
    var userInfo := new Sec.SectionViewModel(Sec.DefaultSectionState, nameOk);
    var paymentDetails := new Sec.SectionViewModel(Sec.DefaultSectionState, cardOk);
    form := new FormViewModel(DefaultFormState, userInfo, paymentDetails);
    form.Sync();
    start := form.vm.state.state;

    userInfo.HandleTextChange(name);
    userInfo.HandleConsentChange(true);
    form.Sync();

    paymentDetails.HandleTextChange(card);
    paymentDetails.HandleConsentChange(true);
    form.Sync();
    LifeOfAForm(name, nameOk, card, cardOk);
  }

  /** The whole life of a form, on the view models: `FillBoth` makes it
      ready; submitting shows `Submitting` (with "Submit" disabled) and ends
      `NotReady` with both sections back to their default snapshots. */
  method FillAndSubmit(name: string, nameOk: string -> bool, card: string, cardOk: string -> bool)
    returns (start: FormState, ready: FormState, submitting: FormViewModelState, final: FormViewModelState,
             sections: seq<Sec.SectionViewModelState>)
    requires |name| > 0 && nameOk(name) && |card| > 0 && cardOk(card)
    ensures start == NotReady && ready == ReadyToSubmit
    ensures submitting.state == Submitting && !SubmitEnabled(submitting)
    ensures final == DefaultFormState
    ensures sections == [Sec.DefaultSectionState, Sec.DefaultSectionState]
  {
    var form;
    form, start := FillBoth(name, nameOk, card, cardOk);
    ready := form.vm.state.state;
    ghost var f := form.Snapshot();
    SubmitSequenceEffect(f);
    FormDispatchEffect(f, SubmitInitiated);
    form.ProcessEvent(SubmitInitiated);
    submitting := form.vm.state;
    form.ProcessEvent(Submitted);
    final := form.vm.state;
    sections := [form.userInfoViewModel.vm.state, form.paymentDetailsViewModel.vm.state];
    assert ResetAll(f.sections) == [Sec.DefaultSectionState, Sec.DefaultSectionState];
  }
}
