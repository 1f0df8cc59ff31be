/** The earlier, non-learning agent of agent02_1.py: while pleased it repeats
    its experiment; otherwise it moves on to the next experiment of a cyclic
    list. Its environment is built into the turn loop: E1 yields R1,
    anything else R2.

    The cyclic iterator is modelled by an index `cursor` into the list of
    experiments: the position the iterator yields next. */
module Agent02 {
  import opened Ideal
  import Environments

  /** The turn loop assigns results by the stateless environment's mapping. */
  function ResultOf(experiment: Symbol): (r: Symbol)
  {
    Environments.Environment10(experiment)
  }

  /** The default configuration. */
  const DefaultInteractions: seq<Interaction> := [Interaction(E1, R1, -1), Interaction(E2, R2, 1)]

  /** What changes between turns: the current experiment, the iterator's
      position and the mood. */
  datatype AgentState = AgentState(current: Symbol, cursor: nat, mood: Mood)

  /** How a run ended: all turns done, or stopped at turn `turn` because the
      table has no interaction for the pair. */
  datatype Outcome =
    | Completed
    | Unmodelled(turn: nat, experiment: Symbol, result: Symbol)

  datatype RunResult = RunResult(outcome: Outcome, state: AgentState)

  /** The experiment `experiment()` returns in state `s`, and the state it
      leaves: pleased, it repeats the current experiment; otherwise it takes
      the iterator's next element, which becomes the current experiment. */
  function Advance(cycle: seq<Symbol>, s: AgentState): (r: (Symbol, AgentState))
    requires s.cursor < |cycle|
    ensures r.1.cursor < |cycle| && r.1.mood == s.mood && r.1.current == r.0
  {
    if s.mood == Pleased then (s.current, s)
    else (cycle[s.cursor], AgentState(cycle[s.cursor], (s.cursor + 1) % |cycle|, s.mood))
  }

  /** Starting one past the first element, `k` steps of the iterator yield
      the elements at (k + 1) mod n, wrapping around. */
  lemma {:induction false} CycleFromSecond(cycle: seq<Symbol>, k: nat)
    requires |cycle| > 0
    ensures var s := Advanced(cycle, AgentState(cycle[0], 1 % |cycle|, Pained), k);
            s.cursor == (k + 1) % |cycle|
            && (k > 0 ==> s.current == cycle[k % |cycle|])
  {
    var n := |cycle|;
    if k > 0 {
      CycleFromSecond(cycle, k - 1);
      var s := Advanced(cycle, AgentState(cycle[0], 1 % n, Pained), k - 1);
      assert s.cursor == k % n;
      assert ((k % n) + 1) % n == (k + 1) % n by {
        ModSucc(k, n);
      }
    }
  }

  lemma MulAtLeast(d: int, n: int)
    requires d >= 1 && n > 0
    ensures d * n >= n
  {
  }

  /** Euclidean division leaves a unique remainder. */
  lemma ModUnique(a: int, n: int, q: int, r: int)
    requires n > 0 && 0 <= r < n && a == q * n + r
    ensures a % n == r
  {
    var q', r' := a / n, a % n;
    assert a == q' * n + r';
    assert (q - q') * n == r' - r;
    if q > q' {
      MulAtLeast(q - q', n);
      assert false;
    }
    if q < q' {
      MulAtLeast(q' - q, n);
      assert false;
    }
  }

  /** Stepping a position mod n is stepping the count mod n. */
  lemma ModSucc(k: nat, n: nat)
    requires n > 0
    ensures ((k % n) + 1) % n == (k + 1) % n
  {
    var q, r := k / n, k % n;
    assert k == q * n + r;
    if r + 1 < n {
      ModUnique(k + 1, n, q, r + 1);
      ModUnique(r + 1, n, 0, r + 1);
    } else {
      ModUnique(k + 1, n, q + 1, 0);
      ModUnique(r + 1, n, 1, 0);
    }
  }

  /** The state after `k` calls of `experiment()` while not pleased. */
  ghost function Advanced(cycle: seq<Symbol>, s: AgentState, k: nat): (r: AgentState)
    requires s.cursor < |cycle|
    ensures r.cursor < |cycle| && r.mood == s.mood
  {
    if k == 0 then s else Advance(cycle, Advanced(cycle, s, k - 1)).1
  }

  /** One turn: take the experiment, assign its result, look the pair up, and
      set the mood from the enacted interaction. */
  function Step(cycle: seq<Symbol>, table: Table, s: AgentState, turn: nat): (r: RunResult)
    requires s.cursor < |cycle|
    ensures r.state.cursor < |cycle|
    ensures var e := r.state.current;
      && (r.outcome.Unmodelled? ==> r.outcome == Unmodelled(turn, e, ResultOf(e)) && (e, ResultOf(e)) !in table)
      && (r.outcome.Completed? ==>
            && (e, ResultOf(e)) in table
            && r.state.mood == MoodAfter(table[(e, ResultOf(e))])
            && (r.state.mood == Pleased <==> table[(e, ResultOf(e))].valence >= 0))
    ensures var (x, s') := Advance(cycle, s);
      && r.state.(mood := s'.mood) == s'
      && (r.outcome.Completed? <==> (x, ResultOf(x)) in table)
      && (!r.outcome.Completed? ==> r.state == s')
  {
    var (experiment, s') := Advance(cycle, s);
    var result := ResultOf(experiment);
    if (experiment, result) !in table then RunResult(Unmodelled(turn, experiment, result), s')
    else RunResult(Completed, s'.(mood := MoodAfter(table[(experiment, result)])))
  }

  /** `turns` turns from state `s`; the first failing turn ends the run. */
  function Runs(cycle: seq<Symbol>, table: Table, s: AgentState, turns: nat): (r: RunResult)
    requires s.cursor < |cycle|
    ensures r.state.cursor < |cycle|
    ensures turns > 0 && r.outcome.Completed? ==>
              var e := r.state.current;
              && (e, ResultOf(e)) in table
              && r.state.mood == MoodAfter(table[(e, ResultOf(e))])
              && (r.state.mood == Pleased <==> table[(e, ResultOf(e))].valence >= 0)
    ensures !r.outcome.Completed? ==> r.outcome.turn < turns
    decreases turns
  {
    if turns == 0 then RunResult(Completed, s)
    else
      var before := Runs(cycle, table, s, turns - 1);
      if !before.outcome.Completed? then before
      else Step(cycle, table, before.state, turns - 1)
  }

  /** A completed prefix of a run is followed by one more turn. */
  lemma RunsNext(cycle: seq<Symbol>, table: Table, s: AgentState, n: nat)
    requires s.cursor < |cycle|
    requires Runs(cycle, table, s, n).outcome.Completed?
    ensures Runs(cycle, table, s, n + 1) == Step(cycle, table, Runs(cycle, table, s, n).state, n)
  {
  }

  /** Once a run has stopped, further turns change nothing. */
  lemma {:induction false} RunsStopped(cycle: seq<Symbol>, table: Table, s: AgentState, m: nat, n: nat)
    requires s.cursor < |cycle|
    requires m <= n && !Runs(cycle, table, s, m).outcome.Completed?
    ensures Runs(cycle, table, s, n) == Runs(cycle, table, s, m)
    decreases n
  {
    if m < n {
      RunsStopped(cycle, table, s, m, n - 1);
    }
  }

  /** The table of the default configuration. */
  lemma DefaultTable()
    ensures BuildTable(DefaultInteractions) ==
              map[(E1, R1) := Interaction(E1, R1, -1), (E2, R2) := Interaction(E2, R2, 1)]
  {
    var d := DefaultInteractions;
    assert d[..1][..0] == [];
    assert d[..1] == d[..|d| - 1];
    assert BuildTable(d[..1]) == map[(E1, R1) := Interaction(E1, R1, -1)];
  }

  /** The default agent: the first turn repeats E1, enacts (E1, R1, -1) and is
      pained; the second switches to E2, enacts (E2, R2, 1) and is pleased;
      every later turn repeats E2 and stays pleased. */
  lemma {:induction false} DefaultRun(turns: nat)
    requires turns >= 1
    ensures var cycle := ExperimentsIn(DefaultInteractions);
            var table := BuildTable(DefaultInteractions);
            Runs(cycle, table, AgentState(E1, 1, Pleased), turns) ==
              if turns == 1 then RunResult(Completed, AgentState(E1, 1, Pained))
              else RunResult(Completed, AgentState(E2, 0, Pleased))
  {
    DistinctSymbols();
    var cycle := ExperimentsIn(DefaultInteractions);
    var table := BuildTable(DefaultInteractions);
    assert cycle == [E1, E2];
    DefaultTable();
    var start := AgentState(E1, 1, Pleased);
    assert Runs(cycle, table, start, 0) == RunResult(Completed, start);
    if turns > 1 {
      DefaultRun(turns - 1);
    }
  }

  class Agent {
    /** The experiment last returned by `Experiment`. */
    var current: Symbol
    /** The interactions by (experiment, result); never changed. */
    const interactions: Table
    var mood: Mood
    /** The experiments the iterator cycles through. */
    const cycle: seq<Symbol>
    /** The position of `cycle` the iterator yields next. */
    var cursor: nat
    /** How many times the iterator has been advanced since construction. */
    ghost var advances: nat

    ghost function State(): AgentState
      reads this
    {
      AgentState(current, cursor, mood)
    }

    /** The iterator started one past the first element and has moved
        `advances` times since. */
    ghost predicate Valid()
      reads this
    {
      |cycle| > 0 && cursor == (advances + 1) % |cycle|
    }

    /** An agent configured with `interactions`, or with the default ones when
        none are given. */
    constructor (interactions: seq<Interaction> := [])
      ensures var given := if interactions == [] then DefaultInteractions else interactions;
        && current == given[0].experiment
        && this.interactions == BuildTable(given)
        && cycle == ExperimentsIn(given)
        && mood == Pleased
        && cursor == 1 % |cycle|
        && advances == 0
      ensures Valid()
    {
      var given := if interactions == [] then DefaultInteractions else interactions;
      current := given[0].experiment;
      this.interactions := BuildTable(given);
      mood := Pleased;
      cycle := ExperimentsIn(given);
      cursor := 1 % |given|;
      advances := 0;
    }

    /** The next experiment to try. */
    method Experiment() returns (r: Symbol)
      requires Valid()
      modifies this
      ensures Valid()
      ensures (r, State()) == Advance(cycle, old(State()))
      ensures old(mood) == Pleased ==>
                r == old(current) && cursor == old(cursor) && advances == old(advances)
      ensures old(mood) != Pleased ==>
                r == cycle[(old(advances) + 1) % |cycle|] && current == r && advances == old(advances) + 1
    {
      if mood == Pleased {
        return current;
      }
      var experiment := cycle[cursor];
      cursor := (cursor + 1) % |cycle|;
      advances := advances + 1;
      ModSucc(advances, |cycle|);
      current := experiment;
      return experiment;
    }

    /** Runs the agent for `turns` turns, stopping at the first turn whose
        pair has no interaction. */
    method Run(turns: nat := 7) returns (outcome: Outcome)
      requires Valid()
      modifies this
      ensures Valid()
      ensures RunResult(outcome, State()) == Runs(cycle, interactions, old(State()), turns)
    {
      ghost var s0 := State();
      outcome := Completed;
      var turn := 0;
      while turn < turns && outcome.Completed?
        invariant turn <= turns
        invariant Valid()
        invariant Runs(cycle, interactions, s0, turn) == RunResult(outcome, State())
      {
        var experiment := Experiment();
        var result := ResultOf(experiment);
        if (experiment, result) !in interactions {
          outcome := Unmodelled(turn, experiment, result);
        } else {
          var enacted := interactions[(experiment, result)];
          mood := MoodAfter(enacted);
        }
        turn := turn + 1;
      }
      if !outcome.Completed? {
        RunsStopped(cycle, interactions, s0, turn, turns);
      }
    }
  }
}
