/** The three reference environments the learning agent is run against. Each
    answers an experiment with a result; two of them keep state between calls.
    `EnvState` and `Respond` are their value-level model, which the classes
    are proved to follow. */
module Environments {
  import opened Ideal

  /** Stateless: E1 yields R1, anything else yields R2. */
  function Environment10(experiment: Symbol): (result: Symbol)
    ensures result == R1 <==> experiment == E1
    ensures result == R1 || result == R2
  {
    DistinctSymbols();
    if experiment == E1 then R1 else R2
  }

  /** The windowed environment's answer once its clock reads `clock`. */
  function WindowedResult(clock: int, t1: int, t2: int, experiment: Symbol): (result: Symbol)
    ensures result == R1 || result == R2
    ensures result == R1 <==>
              || (experiment == E1 && (clock <= t1 || clock > t2))
              || (experiment == E2 && t1 < clock <= t2)
  {
    DistinctSymbols();
    if clock <= t1 || clock > t2 then Environment10(experiment)
    else if experiment == E2 then R1
    else R2
  }

  /** The state of an environment, as a value. */
  datatype EnvState =
    | FixedState
    | AlternatingState(previous: Symbol)
    | WindowedState(clock: int, t1: int, t2: int)

  /** One call of an environment: its next state and the result it returns. */
  function Respond(s: EnvState, experiment: Symbol): (r: (EnvState, Symbol))
    ensures r.1 == R1 || r.1 == R2
    ensures s.FixedState? ==> r.0 == s
    ensures s.AlternatingState? ==> r.0 == AlternatingState(experiment)
    ensures s.WindowedState? ==> r.0 == s.(clock := s.clock + 1)
  {
    match s
    case FixedState => (FixedState, Environment10(experiment))
    case AlternatingState(previous) =>
      (AlternatingState(experiment), if experiment == previous then R1 else R2)
    case WindowedState(clock, t1, t2) =>
      (WindowedState(clock + 1, t1, t2), WindowedResult(clock + 1, t1, t2, experiment))
  }

  /** Every environment answers R1 or R2, and whether it answers R1 is decided
      by its own rule: the fixed mapping, repetition of the previous
      experiment, or the fixed mapping with E1 and E2 swapped inside the window
      (t1, t2] of its incremented clock. */
  lemma RespondResult(s: EnvState, experiment: Symbol)
    ensures var (next, result) := Respond(s, experiment);
      && (result == R1 || result == R2)
      && (s.FixedState? ==> next == s && (result == R1 <==> experiment == E1))
      && (s.AlternatingState? ==>
            next == AlternatingState(experiment) && (result == R1 <==> experiment == s.previous))
      && (s.WindowedState? ==>
            && next == s.(clock := s.clock + 1)
            && (result == R1 <==>
                  || (experiment == E1 && (next.clock <= s.t1 || next.clock > s.t2))
                  || (experiment == E2 && s.t1 < next.clock <= s.t2)))
  {
    DistinctSymbols();
  }

  /** Outside its window the windowed environment is the fixed mapping; inside
      it, the fixed mapping with E1 and E2 exchanged. */
  lemma WindowedIsFixedOrSwapped(clock: int, t1: int, t2: int, experiment: Symbol)
    requires experiment == E1 || experiment == E2
    ensures clock <= t1 || clock > t2 ==>
              WindowedResult(clock, t1, t2, experiment) == Environment10(experiment)
    ensures t1 < clock <= t2 ==>
              WindowedResult(clock, t1, t2, experiment) ==
                Environment10(if experiment == E1 then E2 else E1)
  {
    DistinctSymbols();
  }

  /** An environment whose answer depends on whether the experiment repeats
      the one it was last asked about. */
  class Environment30 {
    var previous: Symbol

    constructor ()
      ensures previous == E2
    {
      previous := E2;
    }

    method Call(experiment: Symbol) returns (result: Symbol)
      modifies this
      ensures result == R1 <==> experiment == old(previous)
      ensures result == R1 || result == R2
      ensures previous == experiment
      ensures (AlternatingState(previous), result) ==
                Respond(AlternatingState(old(previous)), experiment)
    {
      DistinctSymbols();
      result := if experiment == previous then R1 else R2;
      previous := experiment;
    }
  }

  /** An environment with a turn clock whose mapping is swapped while the
      clock is inside (t1, t2]. */
  class Environment31 {
    var clock: int
    const t1: int
    const t2: int

    constructor (t1: int := 8, t2: int := 15)
      ensures clock == 0 && this.t1 == t1 && this.t2 == t2
    {
      clock := 0;
      this.t1 := t1;
      this.t2 := t2;
    }

    method Call(experiment: Symbol) returns (result: Symbol)
      modifies this
      ensures clock == old(clock) + 1
      ensures result == WindowedResult(clock, t1, t2, experiment)
      ensures (WindowedState(clock, t1, t2), result) ==
                Respond(WindowedState(old(clock), t1, t2), experiment)
    {
      clock := clock + 1;
      if clock <= t1 || clock > t2 {
        result := if experiment == E1 then R1 else R2;
      } else {
        result := if experiment == E2 then R1 else R2;
      }
    }
  }

  /** The environment an agent is wired to: one of the three variants. */
  datatype Environment =
    | Stateless
    | Alternating(alternating: Environment30)
    | Windowed(windowed: Environment31)

  /** The objects a call of `env` may change. */
  ghost function Footprint(env: Environment): set<object>
  {
    match env
    case Stateless => {}
    case Alternating(a) => {a}
    case Windowed(w) => {w}
  }

  /** The present state of `env`, as a value. */
  ghost function Snapshot(env: Environment): EnvState
    reads Footprint(env)
  {
    match env
    case Stateless => FixedState
    case Alternating(a) => AlternatingState(a.previous)
    case Windowed(w) => WindowedState(w.clock, w.t1, w.t2)
  }

  /** The state of an environment depends only on its footprint. */
  twostate lemma SnapshotFramed(env: Environment)
    requires unchanged(Footprint(env))
    ensures Snapshot(env) == old(Snapshot(env))
  {
  }

  /** Asks `env` for the result of `experiment`. */
  method Ask(env: Environment, experiment: Symbol) returns (result: Symbol)
    modifies Footprint(env)
    ensures (Snapshot(env), result) == Respond(old(Snapshot(env)), experiment)
  {
    match env
    case Stateless =>
      result := Environment10(experiment);
    case Alternating(a) =>
      result := a.Call(experiment);
    case Windowed(w) =>
      result := w.Call(experiment);
  }

  /** The alternation-sensitive environment, started as its constructor
      leaves it, answers E1 with R2 and then a repeated E1 with R1. */
  lemma AlternatingScenario()
    ensures Respond(AlternatingState(E2), E1) == (AlternatingState(E1), R2)
    ensures Respond(AlternatingState(E1), E1) == (AlternatingState(E1), R1)
  {
    DistinctSymbols();
  }

  /** With the default window (8, 15], the tenth call (clock 10) swaps the
      mapping: E1 yields R2 and E2 yields R1. */
  lemma WindowedScenario()
    ensures Respond(WindowedState(9, 8, 15), E1).1 == R2
    ensures Respond(WindowedState(9, 8, 15), E2).1 == R1
  {
    DistinctSymbols();
  }
}
