/** The state container that couples a machine to an application snapshot
    (`FsmMode`, `fsmMode`, `FsmViewModel`).

    A container holds one snapshot. The machine's current state, its "mode",
    is one field of the snapshot, reached through a get/set pair. Domain code
    changes the snapshot with `SetState`; only `ProcessEvent` moves the mode,
    and only along a declared transition to a different state. */
module ViewModel {
  import opened Fsm

  /** `FsmMode`: reads the mode out of a snapshot and writes one into it. */
  datatype FsmMode<!S, !St> = FsmMode(getValue: St -> S, setValue: (St, S) -> St)

  /** Reading back a mode that was just written gives that mode. */
  ghost predicate LawfulMode<S(!new), St(!new)>(mode: FsmMode<S, St>)
  {
    forall st: St, m: S :: mode.getValue(mode.setValue(st, m)) == m
  }

  /** An accepted transition, as passed to the hook `onModeChange(from, to, cause)`. */
  datatype Edge<S, E> = Edge(from: S, to: S, cause: E)

  /** The transition `processEvent` accepts from `current` on `event`: there
      is one exactly when the table declares a target and that target differs
      from `current`; an absent target and a self-loop are both ignored. */
  function Accepted<S(==), E(==)>(t: Table<S, E>, current: S, event: E): (r: Option<Edge<S, E>>)
    ensures r.Some? <==> Lookup(t, current, event).Some? && Lookup(t, current, event).value != current
    ensures r.Some? ==> r.value == Edge(current, Lookup(t, current, event).value, event)
  {
    match Lookup(t, current, event)
    case None => None
    case Some(next) => if next == current then None else Some(Edge(current, next, event))
  }

  /** The hook calls one `processEvent` makes: the accepted edge, or none. */
  function HookCalls<S, E>(change: Option<Edge<S, E>>): seq<Edge<S, E>>
  {
    match change
    case Some(edge) => [edge]
    case None => []
  }

  /** The snapshot `processEvent` commits, before any hook runs. */
  function Dispatch<S(==), E(==), St>(t: Table<S, E>, mode: FsmMode<S, St>, st: St, event: E): St
  {
    match Accepted(t, mode.getValue(st), event)
    case None => st
    case Some(edge) => mode.setValue(st, edge.to)
  }

  /** With an absent target or a self-loop, `processEvent` changes nothing. */
  lemma DispatchNoOp<S, E, St>(t: Table<S, E>, mode: FsmMode<S, St>, st: St, event: E)
    requires Lookup(t, mode.getValue(st), event) in {None, Some(mode.getValue(st))}
    ensures Dispatch(t, mode, st, event) == st
    ensures Accepted(t, mode.getValue(st), event) == None
  {
  }

  /** The mode after `processEvent` is the declared target when there is one,
      and the old mode otherwise. */
  lemma DispatchMode<S(!new), E, St(!new)>(t: Table<S, E>, mode: FsmMode<S, St>, st: St, event: E)
    requires LawfulMode(mode)
    ensures mode.getValue(Dispatch(t, mode, st, event)) ==
      match Lookup(t, mode.getValue(st), event)
      case Some(next) => next
      case None => mode.getValue(st)
  {
  }

  /** What lines 42-46 of `processEvent` do as written: the nullable result of
      `nextState` is compared with the current mode and, when it differs, is
      committed without a null check. */
  datatype AsWrittenStep<S> = Returns | Commits(nextMode: Option<S>)

  function ProcessEventAsWritten<S(==), E(==)>(t: Table<S, E>, current: S, event: E): AsWrittenStep<S>
  {
    var nextMode := Lookup(t, current, event);
    if nextMode == Some(current) then Returns else Commits(nextMode)
  }

  /** As written, every event without a transition commits an absent mode. */
  lemma AsWrittenCommitsAbsentMode<S, E>(t: Table<S, E>, current: S, event: E)
    requires Lookup(t, current, event) == None
    ensures ProcessEventAsWritten(t, current, event) == Commits(None)
  {
  }

  /** `Accepted` agrees with the code as written wherever the latter commits
      a real state, and turns each of its absent commits into "no transition". */
  lemma AcceptedCorrectsAsWritten<S, E>(t: Table<S, E>, current: S, event: E)
    ensures match ProcessEventAsWritten(t, current, event)
      case Returns => Accepted(t, current, event) == None
      case Commits(None) => Accepted(t, current, event) == None
      case Commits(Some(next)) => Accepted(t, current, event) == Some(Edge(current, next, event))
  {
  }

  /** `FsmViewModel`: one snapshot, the table that drives its mode, and the
      lens to the mode. The hook `onModeChange` is run by the owner of the
      container (`SectionViewModel`, `FormViewModel`) right after
      `ProcessEvent` reports the accepted edge; the default hook does nothing,
      which is the container used alone. */
  class FsmViewModel<S(==), E(==), St> {
    const fsm: Table<S, E>
    const mode: FsmMode<S, St>
    var state: St

    constructor (initialState: St, fsm: Table<S, E>, mode: FsmMode<S, St>)
      ensures this.fsm == fsm && this.mode == mode
      ensures state == initialState
    {
      this.fsm := fsm;
      this.mode := mode;
      state := initialState;
    }

    /** `setState(update)`: the new snapshot is `update` of the old one. */
    method SetState(update: St -> St)
      modifies this
      ensures state == update(old(state))
    {
      state := update(state);
    }

    /** `processEvent(event)`: commits the accepted transition, if any, and
        returns it so that the hook can run with exactly (from, to, cause). */
    method ProcessEvent(event: E) returns (change: Option<Edge<S, E>>)
      modifies this
      ensures change == Accepted(fsm, mode.getValue(old(state)), event)
      ensures state == Dispatch(fsm, mode, old(state), event)
      ensures change.Some? ==> state == mode.setValue(old(state), change.value.to)
      ensures change.None? ==> state == old(state)
    {
      var currentMode := mode.getValue(state);
      var nextMode := Lookup(fsm, currentMode, event);
      if nextMode.None? || nextMode.value == currentMode {
        return None;
      }
      var target := nextMode.value;
      SetState(st => mode.setValue(st, target));
      change := Some(Edge(currentMode, target, event));
    }
  }
}
