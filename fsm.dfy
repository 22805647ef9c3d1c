/** Deterministic transition tables and the builder that fills them in
    (`FSM`, `StateTransitionBuilder.goesTo`, `from`, `nextState`, `fsm`).

    A table maps a source state to the transitions declared from it, each
    transition being an event and its target state. The builder overwrites an
    earlier target when the same (state, event) pair is declared again. */
module Fsm {

  datatype Option<T> = None | Some(value: T)

  /** The `transitions` map of an `FSM`: source state -> (event -> target). */
  type Table<S(==), E(==)> = map<S, map<E, S>>

  /** The lookup behind `nextState`: the declared target, or absent. */
  function Lookup<S(==), E(==)>(t: Table<S, E>, current: S, event: E): Option<S>
  {
    if current in t && event in t[current] then Some(t[current][event]) else None
  }

  /** `event goesTo to` inside `from(from) { ... }`: the row of `from` is
      created when missing (`getOrPut`) and the target is written into it. */
  function Declare<S(==), E(==)>(t: Table<S, E>, from: S, event: E, to: S): Table<S, E>
  {
    var row := if from in t then t[from] else map[];
    t[from := row[event := to]]
  }

  /** One line `event goesTo target` of a `from` block. */
  datatype Rule<E, S> = GoesTo(event: E, target: S)

  /** One block `from(state) { rules }` of an `fsm { ... }` definition. */
  datatype Block<S, E> = From(state: S, rules: seq<Rule<E, S>>)

  /** The rules of one `from` block applied in order. */
  function DeclareAll<S(==), E(==)>(t: Table<S, E>, from: S, rules: seq<Rule<E, S>>): Table<S, E>
    decreases |rules|
  {
    if rules == [] then t
    else DeclareAll(Declare(t, from, rules[0].event, rules[0].target), from, rules[1..])
  }

  /** The blocks of an `fsm { ... }` definition applied in order onto `t`. */
  function DeclareBlocks<S(==), E(==)>(t: Table<S, E>, blocks: seq<Block<S, E>>): Table<S, E>
    decreases |blocks|
  {
    if blocks == [] then t
    else DeclareBlocks(DeclareAll(t, blocks[0].state, blocks[0].rules), blocks[1..])
  }

  /** The table an `fsm { ... }` definition builds, starting from the empty map. */
  function Build<S(==), E(==)>(blocks: seq<Block<S, E>>): Table<S, E>
  {
    DeclareBlocks(map[], blocks)
  }

  /** Reference reading of a block: the target of the LAST rule on `event`. */
  function LastTarget<S, E(==)>(rules: seq<Rule<E, S>>, event: E): Option<S>
  {
    if rules == [] then None
    else match LastTarget(rules[1..], event)
      case Some(later) => Some(later)
      case None => if rules[0].event == event then Some(rules[0].target) else None
  }

  /** Reference reading of a definition: the target of the last rule on
      `event` inside the last block from `state` that has one. */
  function Declared<S(==), E(==)>(blocks: seq<Block<S, E>>, state: S, event: E): Option<S>
  {
    if blocks == [] then None
    else match Declared(blocks[1..], state, event)
      case Some(later) => Some(later)
      case None => if blocks[0].state == state then LastTarget(blocks[0].rules, event) else None
  }

  /** The set of (source, event, target) triples a table holds. */
  function Transitions<S(==), E(==)>(t: Table<S, E>): set<(S, E, S)>
  {
    set s, e | s in t && e in t[s] :: (s, e, t[s][e])
  }

  lemma TransitionsLookup<S, E>(t: Table<S, E>, s: S, e: E, to: S)
    ensures (s, e, to) in Transitions(t) <==> Lookup(t, s, e) == Some(to)
  {
    if Lookup(t, s, e) == Some(to) {
      assert (s, e, t[s][e]) in Transitions(t);
    }
  }

  /** A freshly created `FSM` answers absent for every pair. */
  lemma EmptyLookup<S, E>(s: S, e: E)
    ensures Lookup<S, E>(map[], s, e) == None
  {
  }

  /** After `event goesTo to` from `from`, the pair maps to `to`; every other
      pair keeps its previous answer. */
  lemma DeclareLookup<S, E>(t: Table<S, E>, from: S, event: E, to: S, s: S, e: E)
    ensures Lookup(Declare(t, from, event, to), s, e) ==
      if s == from && e == event then Some(to) else Lookup(t, s, e)
  {
  }

  /** Declaring the same pair twice keeps only the last target. */
  lemma LastWriteWins<S, E>(t: Table<S, E>, from: S, event: E, to1: S, to2: S)
    ensures Declare(Declare(t, from, event, to1), from, event, to2) == Declare(t, from, event, to2)
  {
    var row := if from in t then t[from] else map[];
    assert row[event := to1][event := to2] == row[event := to2];
  }

  /** A `from(from) { ... }` block only adds transitions whose source is
      `from`, and for each event the last rule in the block wins. */
  lemma {:induction false} DeclareAllLookup<S, E>(t: Table<S, E>, from: S, rules: seq<Rule<E, S>>, s: S, e: E)
    ensures Lookup(DeclareAll(t, from, rules), s, e) ==
      if s == from && LastTarget(rules, e).Some? then LastTarget(rules, e) else Lookup(t, s, e)
    decreases |rules|
  {
    if rules != [] {
      var t1 := Declare(t, from, rules[0].event, rules[0].target);
      DeclareAllLookup(t1, from, rules[1..], s, e);
      DeclareLookup(t, from, rules[0].event, rules[0].target, s, e);
    }
  }

  lemma {:induction false} DeclareBlocksLookup<S, E>(t: Table<S, E>, blocks: seq<Block<S, E>>, s: S, e: E)
    ensures Lookup(DeclareBlocks(t, blocks), s, e) ==
      if Declared(blocks, s, e).Some? then Declared(blocks, s, e) else Lookup(t, s, e)
    decreases |blocks|
  {
    if blocks != [] {
      var t1 := DeclareAll(t, blocks[0].state, blocks[0].rules);
      DeclareBlocksLookup(t1, blocks[1..], s, e);
      DeclareAllLookup(t, blocks[0].state, blocks[0].rules, s, e);
    }
  }

  /** The built table answers exactly what the definition declares last, and
      absent for every pair the definition never mentions. */
  lemma BuildLookup<S, E>(blocks: seq<Block<S, E>>, s: S, e: E)
    ensures Lookup(Build(blocks), s, e) == Declared(blocks, s, e)
  {
    DeclareBlocksLookup(map[], blocks, s, e);
  }

  /** A row exists only once a transition has been declared from it. */
  ghost predicate NoEmptyRows<S, E>(t: Table<S, E>)
  {
    forall s :: s in t ==> t[s] != map[]
  }

  lemma DeclareNoEmptyRows<S, E>(t: Table<S, E>, from: S, event: E, to: S)
    requires NoEmptyRows(t)
    ensures NoEmptyRows(Declare(t, from, event, to))
  {
    var row := if from in t then t[from] else map[];
    assert event in row[event := to];
  }

  lemma {:induction false} DeclareAllNoEmptyRows<S, E>(t: Table<S, E>, from: S, rules: seq<Rule<E, S>>)
    requires NoEmptyRows(t)
    ensures NoEmptyRows(DeclareAll(t, from, rules))
    decreases |rules|
  {
    if rules != [] {
      DeclareNoEmptyRows(t, from, rules[0].event, rules[0].target);
      DeclareAllNoEmptyRows(Declare(t, from, rules[0].event, rules[0].target), from, rules[1..]);
    }
  }

  lemma {:induction false} DeclareBlocksNoEmptyRows<S, E>(t: Table<S, E>, blocks: seq<Block<S, E>>)
    requires NoEmptyRows(t)
    ensures NoEmptyRows(DeclareBlocks(t, blocks))
    decreases |blocks|
  {
    if blocks != [] {
      DeclareAllNoEmptyRows(t, blocks[0].state, blocks[0].rules);
      DeclareBlocksNoEmptyRows(DeclareAll(t, blocks[0].state, blocks[0].rules), blocks[1..]);
    }
  }

  /** A built table never holds a row without transitions (a `from` block
      with no rules adds nothing). */
  lemma BuildNoEmptyRows<S, E>(blocks: seq<Block<S, E>>)
    ensures NoEmptyRows(Build(blocks))
  {
    DeclareBlocksNoEmptyRows(map[], blocks);
  }

  /** A definition builds `t` when `t` has no empty rows and answers every
      lookup as the definition declares. */
  lemma BuildEquals<S, E>(blocks: seq<Block<S, E>>, t: Table<S, E>)
    requires NoEmptyRows(t)
    requires forall s, e :: Lookup(t, s, e) == Declared(blocks, s, e)
    ensures Build(blocks) == t
  {
    forall s, e ensures Lookup(Build(blocks), s, e) == Lookup(t, s, e) {
      BuildLookup(blocks, s, e);
    }
    BuildNoEmptyRows(blocks);
    LookupExtensional(Build(blocks), t);
  }

  /** Two tables without empty rows that answer every lookup alike are equal. */
  lemma LookupExtensional<S, E>(t1: Table<S, E>, t2: Table<S, E>)
    requires NoEmptyRows(t1) && NoEmptyRows(t2)
    requires forall s, e :: Lookup(t1, s, e) == Lookup(t2, s, e)
    ensures t1 == t2
  {
    forall s | s in t1 ensures s in t2 {
      var e :| e in t1[s];
      assert Lookup(t1, s, e).Some?;
    }
    forall s | s in t2 ensures s in t1 {
      var e :| e in t2[s];
      assert Lookup(t2, s, e).Some?;
    }
    forall s | s in t1 ensures t1[s] == t2[s] {
      forall e ensures e in t1[s] <==> e in t2[s] {
        assert Lookup(t1, s, e) == Lookup(t2, s, e);
      }
      forall e | e in t1[s] ensures t1[s][e] == t2[s][e] {
        assert Lookup(t1, s, e) == Lookup(t2, s, e);
      }
    }
  }

  /** `FSM`: the table filled in place by the builder. */
  class FSM<S(==), E(==)> {
    var transitions: Table<S, E>

    /** A new machine has no transitions. */
    constructor ()
      ensures transitions == map[]
    {
      transitions := map[];
    }

    /** `event goesTo toState` inside `from(fromState) { ... }`. */
    method GoesTo(fromState: S, event: E, toState: S)
      modifies this
      ensures transitions == Declare(old(transitions), fromState, event, toState)
    {
      var row := if fromState in transitions then transitions[fromState] else map[];
      transitions := transitions[fromState := row[event := toState]];
    }

    /** `from(state) { rules }`: the rules of the block, one after the other. */
    method From(state: S, rules: seq<Rule<E, S>>)
      modifies this
      ensures transitions == DeclareAll(old(transitions), state, rules)
    {
      for i := 0 to |rules|
        invariant DeclareAll(transitions, state, rules[i..]) == DeclareAll(old(transitions), state, rules)
      {
        assert rules[i..][1..] == rules[i + 1..];
        GoesTo(state, rules[i].event, rules[i].target);
      }
      assert rules[|rules|..] == [];
    }

    /** `nextState`: a lookup that leaves the table as it is. */
    function NextState(current: S, event: E): Option<S>
      reads this
    {
      Lookup(transitions, current, event)
    }
  }

  /** `fsm { blocks }`: a fresh machine with every block applied in order. */
  method NewFsm<S(==), E(==)>(blocks: seq<Block<S, E>>) returns (f: FSM<S, E>)
    ensures fresh(f)
    ensures f.transitions == Build(blocks)
  {
    f := new FSM();
    for i := 0 to |blocks|
      invariant DeclareBlocks(f.transitions, blocks[i..]) == Build(blocks)
    {
      assert blocks[i..][1..] == blocks[i + 1..];
      f.From(blocks[i].state, blocks[i].rules);
    }
    assert blocks[|blocks|..] == [];
  }
}
