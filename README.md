# compose-fsm-demo: the state-machine core, in Dafny

This project models the core of *compose-fsm-demo*, a demo of a small generic
finite-state-machine engine with two machines built on it.

- **Transition table** (`Fsm`, `fsm.dfy`). A table maps a state to a map
  from event to target state. The builder (`from(state) { event goesTo
  target }`) fills the table in place, and a repeated (state, event) pair
  overwrites the earlier target. `nextState` is a partial lookup. The class
  `FSM` keeps the mutable table. The pure functions `Declare`, `DeclareAll`
  and `Build` specify its builder methods.
- **State container** (`ViewModel`, `view_model.dfy`). A container holds one
  snapshot record. The machine's current state, its *mode*, is one field of
  that record, read and written through a lens (`FsmMode`). `SetState`
  applies an update function. `ProcessEvent` looks up the (mode, event) pair.
  It does nothing when there is no target or when the target is the current
  mode. Otherwise it commits the new mode and reports the accepted edge
  (from, to, cause), so that the owner's hook runs right after.
- **Section machine** (`SectionComponent`, `section.dfy`). This is a text
  field with a validity check plus a consent box. It has 4 states, 5 events
  and 10 transitions. Its hook clears the box whenever the mode moves into
  `Invalid` or `Incomplete`.
- **Form machine** (`FormComponent`, `form.dfy`). This machine has 3 states,
  4 events and 4 transitions, and its input is derived from the sections'
  modes. All sections `Complete` gives `AllSectionsCompleted`; anything else
  gives `HasUncompletedSections`. Submitting goes through `Submitting` and
  back to `NotReady`, and that edge resets every section.

The view-model classes are imperative. They have `modifies` frames, and
their contracts tie each new snapshot to a pure function of the old one
(`SectionDispatch`, `TextChange`, `ConsentChange`, `FormDispatch`,
`SyncStep`, `SubmitSequence`). Lemmas then prove what the design promises
about those functions. Each subclass's ghost `changes` log records every
call of its hook, so the contracts can say that the hook ran exactly once,
with exactly the accepted edge.

## Model

| member | source | states |
|---|---|---|
| Fsm.FSM.constructor | app/src/main/java/com/example/androidtest/core/Fsm.kt:3-4 | a new machine has an empty table |
| Fsm.FSM.GoesTo | app/src/main/java/com/example/androidtest/core/Fsm.kt:6-9 | the row of the source state is created if missing, then the target is written for the event |
| Fsm.FSM.From | app/src/main/java/com/example/androidtest/core/Fsm.kt:12-14 | the loop over a block's rules leaves the table as `DeclareAll` of the old table |
| Fsm.NewFsm | app/src/main/java/com/example/androidtest/core/Fsm.kt:19 | `fsm { blocks }` gives a fresh machine whose table is `Build(blocks)`, each block applied in order |
| Fsm.Lookup | app/src/main/java/com/example/androidtest/core/Fsm.kt:16 | the lookup behind `nextState`: the target declared for the state and event, or absent when the state has no row or the row has no entry for the event |
| Fsm.Declare | app/src/main/java/com/example/androidtest/core/Fsm.kt:7-9 | `event goesTo to` as a value: the row of the source state is created empty when missing, then the event's target is written into it, replacing any earlier one |
| Fsm.DeclareAll | app/src/main/java/com/example/androidtest/core/Fsm.kt:12-14 | `from(state) { rules }` as a value: the block's rules declared one after the other from that state |
| Fsm.DeclareBlocks | app/src/main/java/com/example/androidtest/core/Fsm.kt:19 | the `from` blocks of a definition applied in order onto a table |
| Fsm.Build | app/src/main/java/com/example/androidtest/core/Fsm.kt:19 | `fsm { blocks }` as a value: the blocks applied in order, starting from the empty table |
| Fsm.FSM.NextState | app/src/main/java/com/example/androidtest/core/Fsm.kt:16 | `nextState(current, event)`: `Lookup` on the machine's table, which reads and does not change it |
| Fsm.EmptyLookup | app/src/main/java/com/example/androidtest/core/Fsm.kt:4-16 | a fresh table answers absent for every pair |
| Fsm.DeclareLookup | app/src/main/java/com/example/androidtest/core/Fsm.kt:7-16 | after `e goesTo b` in `from(a)`, `nextState(a, e)` is `b`, and every other pair keeps its previous answer |
| Fsm.LastWriteWins | app/src/main/java/com/example/androidtest/core/Fsm.kt:8 | declaring the same pair twice is the same as declaring only the last target |
| Fsm.DeclareAllLookup | app/src/main/java/com/example/androidtest/core/Fsm.kt:6-13 | a `from(a)` block changes only pairs whose source is `a`; for each event the block's last rule wins |
| Fsm.DeclareBlocksLookup | app/src/main/java/com/example/androidtest/core/Fsm.kt:12-19 | applying blocks onto a table: a pair the blocks declare answers what the blocks declare last, any other pair keeps its old answer |
| Fsm.BuildLookup | app/src/main/java/com/example/androidtest/core/Fsm.kt:16-19 | a built table answers exactly the definition's last declaration for a pair, and absent for pairs never declared |
| Fsm.BuildNoEmptyRows | app/src/main/java/com/example/androidtest/core/Fsm.kt:8-13 | a row appears only through `goesTo`, so a built table has no empty rows |
| Fsm.TransitionsLookup | app/src/main/java/com/example/androidtest/core/Fsm.kt:4-16 | a triple (s, e, t) is in the table exactly when `nextState(s, e)` is `t` |
| Fsm.BuildEquals | app/src/main/java/com/example/androidtest/core/Fsm.kt:4-19 | a definition builds a given table when that table has no empty rows and agrees with the definition on every lookup |
| Fsm.LookupExtensional | app/src/main/java/com/example/androidtest/core/Fsm.kt:4-16 | two tables without empty rows that agree on every lookup are equal |
| ViewModel.Accepted | app/src/main/java/com/example/androidtest/core/FsmViewModel.kt:40-47 | a transition is accepted exactly when the table has a target that differs from the current mode, and the accepted edge is (current, target, event) |
| ViewModel.Dispatch | app/src/main/java/com/example/androidtest/core/FsmViewModel.kt:40-46 | the snapshot `processEvent` commits: the mode is set to the target of the accepted edge, and the snapshot is unchanged when there is no edge |
| ViewModel.HookCalls | app/src/main/java/com/example/androidtest/core/FsmViewModel.kt:46-47 | the hook calls one `processEvent` makes: the accepted edge once, or nothing |
| ViewModel.ProcessEventAsWritten | app/src/main/java/com/example/androidtest/core/FsmViewModel.kt:42-46 | the code as written: return when the nullable lookup equals the current mode, otherwise commit that lookup, absent or not |
| ViewModel.DispatchNoOp | app/src/main/java/com/example/androidtest/core/FsmViewModel.kt:40-46 | with an absent target or a self-loop, the snapshot is unchanged and no edge is reported, so the hook is not called |
| ViewModel.DispatchMode | app/src/main/java/com/example/androidtest/core/FsmViewModel.kt:40-47 | under a lawful lens, the mode afterwards is the table's target when there is one and the old mode otherwise |
| ViewModel.AsWrittenCommitsAbsentMode | app/src/main/java/com/example/androidtest/core/FsmViewModel.kt:42-46 | as written, every event without a transition gets past the check and commits an absent mode |
| ViewModel.AcceptedCorrectsAsWritten | app/src/main/java/com/example/androidtest/core/FsmViewModel.kt:42-46 | the corrected step agrees with the written code wherever the latter commits a real state, and makes each absent commit a no-op |
| ViewModel.FsmViewModel.constructor | app/src/main/java/com/example/androidtest/core/FsmViewModel.kt:24-29 | the container holds the table, the lens and the initial snapshot |
| ViewModel.FsmViewModel.SetState | app/src/main/java/com/example/androidtest/core/FsmViewModel.kt:35-37 | the new snapshot is exactly `update(old snapshot)` |
| ViewModel.FsmViewModel.ProcessEvent | app/src/main/java/com/example/androidtest/core/FsmViewModel.kt:39-47 | reports the accepted edge or none; on an accepted edge the snapshot becomes `setMode(old, target)`, otherwise it is unchanged |
| SectionComponent.SectionFsmLookup | app/src/main/java/com/example/androidtest/SectionComponent.kt:31-53 | the section table answers each pair as the reference `SectionNext` does |
| SectionComponent.SectionNext | app/src/main/java/com/example/androidtest/SectionComponent.kt:31-53 | the section definition pair by pair: the target of each of the ten declared transitions, and absent for every other pair |
| SectionComponent.SectionFsmBuilt | app/src/main/java/com/example/androidtest/SectionComponent.kt:31-53 | the `fsm { ... }` definition builds exactly the section table |
| SectionComponent.SectionFsmTransitions | app/src/main/java/com/example/androidtest/SectionComponent.kt:31-53 | the table holds exactly the ten listed transitions; for example `Incomplete` has none on `NoInput`, `ConsentGiven` or `NoConsent` |
| SectionComponent.SectionFsmSize | app/src/main/java/com/example/androidtest/SectionComponent.kt:31-53 | the section table has exactly 10 transitions |
| SectionComponent.CompleteOnlyFromValid | app/src/main/java/com/example/androidtest/SectionComponent.kt:43-46 | `Complete` is a target only from `Valid` on `ConsentGiven` |
| SectionComponent.SectionModeLaws | app/src/main/java/com/example/androidtest/SectionComponent.kt:62-70 | `withState(m)` keeps text and consent, and the mode read back is `m` |
| SectionComponent.WithState | app/src/main/java/com/example/androidtest/SectionComponent.kt:62 | `withState`: the record with its mode replaced and text and consent kept |
| SectionComponent.SectionMode | app/src/main/java/com/example/androidtest/SectionComponent.kt:70 | the lens the section passes to its container: it reads `state` and writes it through `WithState` |
| SectionComponent.OnChangeStateEffect | app/src/main/java/com/example/androidtest/SectionComponent.kt:75-76 | the hook's effect on the record: consent is cleared when the edge enters `Invalid` or `Incomplete`, and the record is kept otherwise |
| SectionComponent.SectionDispatch | app/src/main/java/com/example/androidtest/SectionComponent.kt:72-77 | one `processEvent` on a section: the committed snapshot followed by the hook's effect for the accepted edge, or the record unchanged when there is no edge |
| SectionComponent.ClassifyText | app/src/main/java/com/example/androidtest/SectionComponent.kt:81-87 | the event for new text: `NoInput` when it is empty, `ValidInput` when it matches the pattern, `InvalidInput` otherwise |
| SectionComponent.ClassifyConsent | app/src/main/java/com/example/androidtest/SectionComponent.kt:92 | the event for the box: `ConsentGiven` when ticked, `NoConsent` when cleared |
| SectionComponent.TextChange | app/src/main/java/com/example/androidtest/SectionComponent.kt:79-88 | `handleTextChange` on values: the text is stored, then the text's event is dispatched |
| SectionComponent.ConsentChange | app/src/main/java/com/example/androidtest/SectionComponent.kt:90-93 | `handleConsentChange` on values: the box is stored, then the box's event is dispatched |
| SectionComponent.SectionDispatchEffect | app/src/main/java/com/example/androidtest/SectionComponent.kt:72-77 | a section event keeps the text and moves the mode along the table; consent is cleared exactly when the mode moved into `Invalid` or `Incomplete` |
| SectionComponent.TextChangeEffect | app/src/main/java/com/example/androidtest/SectionComponent.kt:79-88 | the text is stored; empty text makes the section `Incomplete`, matching text makes it `Valid` (a `Complete` section stays `Complete`), other text makes it `Invalid` |
| SectionComponent.ConsentChangeEffect | app/src/main/java/com/example/androidtest/SectionComponent.kt:90-93 | the box is stored; ticking moves `Valid` to `Complete`, clearing moves `Complete` back to `Valid`, every other mode stays |
| SectionComponent.ApplyKeepsConsentInvariant | app/src/main/java/com/example/androidtest/SectionComponent.kt:72-97 | each handler and `reset` preserves "`Complete` implies consent" |
| SectionComponent.Apply | app/src/main/java/com/example/androidtest/SectionComponent.kt:79-97 | one user input on a section: a text change, a box change or a reset |
| SectionComponent.Run | app/src/main/java/com/example/androidtest/SectionComponent.kt:79-97 | a sequence of user inputs applied in order |
| SectionComponent.RunKeepsConsentInvariant | app/src/main/java/com/example/androidtest/SectionComponent.kt:72-97 | any sequence of handlers and resets preserves "`Complete` implies consent" |
| SectionComponent.CompleteImpliesConsent | app/src/main/java/com/example/androidtest/SectionComponent.kt:55-97 | from the default record, a section that ends `Complete` has its box ticked, whatever the inputs |
| SectionComponent.SectionViewModel.constructor | app/src/main/java/com/example/androidtest/SectionComponent.kt:64-71 | a section holds its initial record, the section table, the lens and its validity check |
| SectionComponent.SectionViewModel.OnChangeState | app/src/main/java/com/example/androidtest/SectionComponent.kt:72-77 | the hook is logged and clears consent on entering `Invalid` or `Incomplete` |
| SectionComponent.SectionViewModel.ProcessEvent | app/src/main/java/com/example/androidtest/core/FsmViewModel.kt:39-47 | the section record becomes `SectionDispatch(old, event)`, and the hook is logged once with the accepted edge, or not at all |
| SectionComponent.SectionViewModel.HandleTextChange | app/src/main/java/com/example/androidtest/SectionComponent.kt:79-88 | the record becomes `TextChange(old, text)`, the hook is logged once with the edge the table accepts on the text's event (`ClassifyText`), or not at all, and the consent invariant is kept |
| SectionComponent.SectionViewModel.HandleConsentChange | app/src/main/java/com/example/androidtest/SectionComponent.kt:90-93 | the record becomes `ConsentChange(old, checked)`, the hook is logged once with the edge the table accepts on the box's event (`ClassifyConsent`), or not at all, and the consent invariant is kept |
| SectionComponent.SectionViewModel.Reset | app/src/main/java/com/example/androidtest/SectionComponent.kt:95-97 | the record becomes `("", false, Incomplete)`, the default record |
| FormComponent.FormFsmLookup | app/src/main/java/com/example/androidtest/FormComponent.kt:49-62 | the form table answers each pair as the reference `FormNext` does |
| FormComponent.FormNext | app/src/main/java/com/example/androidtest/FormComponent.kt:49-62 | the form definition pair by pair: the target of each of the four declared transitions, and absent for every other pair |
| FormComponent.FormFsmBuilt | app/src/main/java/com/example/androidtest/FormComponent.kt:49-62 | the `fsm { ... }` definition builds exactly the form table |
| FormComponent.FormFsmTransitions | app/src/main/java/com/example/androidtest/FormComponent.kt:49-62 | the table holds exactly the four listed transitions |
| FormComponent.FormFsmSize | app/src/main/java/com/example/androidtest/FormComponent.kt:49-62 | the form table has exactly 4 transitions |
| FormComponent.SubmittingLeavesOnlyOnSubmitted | app/src/main/java/com/example/androidtest/FormComponent.kt:59-61 | while `Submitting`, only `Submitted` is accepted, so the section-derived events are ignored |
| FormComponent.FormModeLaws | app/src/main/java/com/example/androidtest/FormComponent.kt:70-81 | `withState(m)` keeps the signature, and the mode read back is `m` |
| FormComponent.WithState | app/src/main/java/com/example/androidtest/FormComponent.kt:70 | `withState`: the record with its mode replaced and the signature kept |
| FormComponent.FormMode | app/src/main/java/com/example/androidtest/FormComponent.kt:81 | the lens the form passes to its container: it reads `state` and writes it through `WithState` |
| FormComponent.SubmitEnabled | app/src/main/java/com/example/androidtest/FormComponent.kt:161 | the Submit button is enabled exactly when the form is `ReadyToSubmit` |
| FormComponent.DerivedEvent | app/src/main/java/com/example/androidtest/FormComponent.kt:88-90 | the combined event of the sections: `AllSectionsCompleted` when every section is `Complete`, `HasUncompletedSections` otherwise |
| FormComponent.ResetAll | app/src/main/java/com/example/androidtest/FormComponent.kt:101 | every section back to its default record, as `forEach { it.reset() }` does |
| FormComponent.OnChangeStateEffect | app/src/main/java/com/example/androidtest/FormComponent.kt:100-102 | the hook's effect on the sections: all are reset on `Submitting -> NotReady`, and they are kept otherwise |
| FormComponent.FormDispatch | app/src/main/java/com/example/androidtest/FormComponent.kt:96-103 | one `processEvent` on the form: the committed form record followed by the hook's effect on the sections, or nothing changed when there is no edge |
| FormComponent.SyncStep | app/src/main/java/com/example/androidtest/FormComponent.kt:87-92 | one emission of the combined sections: the derived event dispatched into the form |
| FormComponent.SubmitSequence | app/src/main/java/com/example/androidtest/FormComponent.kt:105-112 | `handleSubmit` on values: `SubmitInitiated` dispatched, then `Submitted` |
| FormComponent.SubmitHookCalls | app/src/main/java/com/example/androidtest/FormComponent.kt:105-112 | the hook calls of a submit: the edge accepted on `SubmitInitiated`, then the one accepted on `Submitted` from the mode the first event left |
| FormComponent.FormDispatchEffect | app/src/main/java/com/example/androidtest/FormComponent.kt:96-103 | a form event keeps the signature and moves the mode along the table; the sections are reset exactly on `Submitted` from `Submitting` and untouched otherwise |
| FormComponent.SyncStepEffect | app/src/main/java/com/example/androidtest/FormComponent.kt:87-92 | a sync makes a `NotReady` form ready when all sections are `Complete`, sends a ready form back to `NotReady` when one is not, and changes nothing else |
| FormComponent.SubmitSequenceEffect | app/src/main/java/com/example/androidtest/FormComponent.kt:105-112 | submit from `NotReady` changes nothing; from `ReadyToSubmit` it ends `NotReady` with every section reset |
| FormComponent.StartupEventAsWritten | app/src/main/java/com/example/androidtest/core/FsmViewModel.kt:42-46 | a new form derives `HasUncompletedSections` first; the written code would commit an absent mode, the corrected model leaves the form as it is |
| FormComponent.LifeOfAForm | app/src/main/java/com/example/androidtest/FormComponent.kt:87-112 | filling in one section leaves a new form `NotReady`; filling in both makes it ready; submit passes through `Submitting` and ends at the default records |
| FormComponent.FormViewModel.constructor | app/src/main/java/com/example/androidtest/FormComponent.kt:73-83 | the form holds its initial record, the form table, the lens and its two sections in order |
| FormComponent.FormViewModel.OnChangeState | app/src/main/java/com/example/androidtest/FormComponent.kt:96-103 | the hook is logged, and the sections are reset exactly on `Submitting -> NotReady` |
| FormComponent.FormViewModel.ResetSections | app/src/main/java/com/example/androidtest/FormComponent.kt:101 | the loop over the sections resets every one of them |
| FormComponent.FormViewModel.ProcessEvent | app/src/main/java/com/example/androidtest/core/FsmViewModel.kt:39-47 | the form and its sections become `FormDispatch(old, event)`, and the hook is logged once with the accepted edge, or not at all |
| FormComponent.FormViewModel.DerivedSectionEvent | app/src/main/java/com/example/androidtest/FormComponent.kt:88-91 | the derived event is `AllSectionsCompleted` exactly when every section is `Complete`, and `HasUncompletedSections` otherwise |
| FormComponent.FormViewModel.Sync | app/src/main/java/com/example/androidtest/FormComponent.kt:85-93 | one emission of the combined sections is dispatched: the snapshot becomes `SyncStep(old)`, and the hook is logged once with the edge accepted on the sections' derived event, or not at all |
| FormComponent.FormViewModel.HandleSubmit | app/src/main/java/com/example/androidtest/FormComponent.kt:105-112 | `SubmitInitiated` and then `Submitted` are dispatched: the snapshot becomes `SubmitSequence(old)`, and the hook log grows by `SubmitHookCalls` of the old mode |
| FormComponent.SubmitHookCallsEffect | app/src/main/java/com/example/androidtest/FormComponent.kt:105-112 | submitting a ready form calls the hook twice (`ReadyToSubmit -> Submitting`, then `Submitting -> NotReady`); a form that is not ready calls it never, and one already submitting calls it once |
| FormComponent.FillBoth | app/src/main/java/com/example/androidtest/FormComponent.kt:73-93 | a new form over two fresh sections starts `NotReady` and becomes `ReadyToSubmit` once both sections have valid text and consent |
| FormComponent.FillAndSubmit | app/src/main/java/com/example/androidtest/FormComponent.kt:105-112 | the ready form shows `Submitting` with "Submit" disabled, then ends with the default form record and both sections at their default records |

## Left out

- Compose UI (the composables, previews, overlay and button) is not modelled. The one exception is the rule that "Submit" is enabled exactly in `ReadyToSubmit` (`FormComponent.SubmitEnabled`).
- Coroutines and timing (`viewModelScope.launch`, `delay(2000)`) are not modelled. The delayed `Submitted` is a second call made straight after `SubmitInitiated`, so nothing can happen in between.
- Reactive streams are not modelled: `MutableStateFlow`/`StateFlow`, and `flatMapLatest`/`combine`/`collect` with their switch-to-latest and conflation behaviour. One emission of the combined section records is the explicit `Sync()`.
- FormComponent.FillBoth: syncs once after each section is completely filled in, not after every single handler call. The skipped syncs are those `SyncStepEffect` shows to be no-ops on a `NotReady` form with an unfinished section.
- Regular-expression matching is not modelled. Each section takes a `validInput: string -> bool` in place of its pattern, and the two pattern strings are left out.
- Reflection is not modelled: the `KProperty1` getter in `fsmMode`. The lens is a pair of functions: a field read and `withState`.
- The `ViewModel` lifecycle and the `@Immutable` annotations are not modelled; they carry no behaviour.
- Kotlin inheritance and the overridden hook are modelled by composition. Each section or form object holds an `FsmViewModel` container. The container's `ProcessEvent` returns the accepted edge, and the owner runs its own `OnChangeState` with it straight away. This is the same order as the source: commit first, then the hook.
- The containers hold the built table as a value, not a reference to the `FSM` object. `FSM.NextState` is exactly `Lookup` on that table, and the source never changes a table after `fsm { ... }` returns.
- The two tables are written out as map literals. `SectionFsmBuilt` and `FormFsmBuilt` prove that the `fsm { ... }` definitions build exactly these literals.
- `sectionViewModels` is a `MutableStateFlow` of a list in the source, but it is never reassigned. It is modelled as a constant sequence of the two sections.
- The subclasses use `fsmState(...)`, `onChangeState` and `stateFlow`, while the base class declares `fsmMode`, `onModeChange` and `state`. Each pair is treated as one name.
- Default constructor arguments are explicit. For `FormViewModel` these are the record and the two default sections. For `SectionViewModel` (SectionComponent.kt:65-66) they are the record and the pattern `^[a-zA-Z]+$`, which becomes the `validInput` predicate. The default records are `DefaultSectionState` and `DefaultFormState`.

## Findings

| source | as written | input that shows it | evidently intended | confidence | as-written member | corrected member |
|---|---|---|---|---|---|---|
| app/src/main/java/com/example/androidtest/core/FsmViewModel.kt:42-46 | `nextState` may return null. Line 43 compares it with the current mode, and lines 46-47 then commit it and call the hook without a null check. Kotlin's type checker would also reject passing the nullable value to `setMode`. | A new form (`NotReady`) over two fresh sections first derives `HasUncompletedSections`. `NotReady` has no transition on that event, so the written code commits an absent mode. | An event without a transition is a no-op: no change and no hook call. | not executed | FormComponent.StartupEventAsWritten | ViewModel.DispatchNoOp |
