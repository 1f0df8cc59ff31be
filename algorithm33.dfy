/** The learning agent of algorithm33_1.py. It records which interactions
    followed which ("composite interactions"), ranks what it has seen by
    valence, and picks its next experiment from that record, its last
    interaction and its mood.

    The value-level model comes first: the agent's mutable state as a value
    (`AgentState`), the selection rules (`Alternative`, `Selected`, `Chosen`),
    learning (`Inserted`, `Learned`) and whole turns (`Turn`, `Runs`). The
    class `Agent` then holds that state in fields and its methods are proved to
    follow the model. */
module Algorithm33 {
  import opened Ideal
  import opened Environments

  /** The default configuration. */
  const DefaultInteractions: seq<Interaction> :=
    [Interaction(E1, R1, -1), Interaction(E1, R2, 1), Interaction(E2, R1, -1), Interaction(E2, R2, 1)]

  /** For each context interaction, the interactions seen to follow it. */
  type Composites = map<Interaction, seq<Interaction>>

  /** What changes between turns: the composites, the last enacted
      interaction (None before the first turn) and the mood. */
  datatype AgentState = AgentState(composites: Composites, context: Option<Interaction>, mood: Mood)

  // ---------------------------------------------------------------------
  // Invariants
  // ---------------------------------------------------------------------

  /** Sorted by valence, highest first. */
  ghost predicate SortedByValence(l: seq<Interaction>)
  {
    forall j, k :: 0 <= j < k < |l| ==> l[j].valence >= l[k].valence
  }

  ghost predicate NoDuplicates(l: seq<Interaction>)
  {
    forall j, k :: 0 <= j < k < |l| ==> l[j] != l[k]
  }

  /** The configuration is usable: there is a known experiment, and every
      interaction of the table is filed under its own pair and uses a known
      experiment. */
  ghost predicate WellFormed(xs: seq<Symbol>, table: Table)
  {
    && |xs| > 0
    && forall k :: k in table ==> Key(table[k]) == k && table[k].experiment in xs
  }

  /** A list of anticipations as learning keeps it: non-empty, sorted,
      without duplicates, made of interactions of the table. */
  ghost predicate GoodAnticipations(table: Table, l: seq<Interaction>)
  {
    && l != []
    && SortedByValence(l)
    && NoDuplicates(l)
    && forall x :: x in l ==> x in table.Values
  }

  /** What every turn preserves: the context and every composite key are
      interactions of the table, and every stored list is good. */
  ghost predicate Invariant(table: Table, s: AgentState)
  {
    && (s.context.Some? ==> s.context.value in table.Values)
    && forall c :: c in s.composites ==> c in table.Values && GoodAnticipations(table, s.composites[c])
  }

  lemma ValuesAreKnown(xs: seq<Symbol>, table: Table, x: Interaction)
    requires WellFormed(xs, table)
    requires x in table.Values
    ensures x.experiment in xs && Key(x) in table && table[Key(x)] == x
  {
    var k :| k in table && table[k] == x;
  }

  // ---------------------------------------------------------------------
  // Choosing an experiment
  // ---------------------------------------------------------------------

  /** The first of `xs` not in `excluded`, or `fallback` if there is none. */
  function Alternative(xs: seq<Symbol>, excluded: set<Symbol>, fallback: Option<Symbol>): (r: Option<Symbol>)
    ensures r == fallback || (r.Some? && r.value in xs && r.value !in excluded)
    decreases |xs|
  {
    if xs == [] then fallback
    else if xs[0] !in excluded then Some(xs[0])
    else Alternative(xs[1..], excluded, fallback)
  }

  /** `Alternative` scans in list order: it yields the first experiment not
      excluded, and the fallback exactly when every experiment is excluded. */
  lemma {:induction false} AlternativeIsFirstOutside(xs: seq<Symbol>, excluded: set<Symbol>, fallback: Option<Symbol>)
    ensures (forall e :: e in xs ==> e in excluded) ==> Alternative(xs, excluded, fallback) == fallback
    ensures (exists e :: e in xs && e !in excluded) ==>
              exists k :: && 0 <= k < |xs|
                          && xs[k] !in excluded
                          && (forall j :: 0 <= j < k ==> xs[j] in excluded)
                          && Alternative(xs, excluded, fallback) == Some(xs[k])
    decreases |xs|
  {
    if xs != [] {
      AlternativeIsFirstOutside(xs[1..], excluded, fallback);
      if xs[0] in excluded {
        if forall e :: e in xs ==> e in excluded {
        } else {
          var e :| e in xs && e !in excluded;
          assert e in xs[1..];
          var k :| && 0 <= k < |xs[1..]|
                   && xs[1..][k] !in excluded
                   && (forall j :: 0 <= j < k ==> xs[1..][j] in excluded)
                   && Alternative(xs[1..], excluded, fallback) == Some(xs[1..][k]);
          assert forall j :: 0 <= j < k + 1 ==> xs[j] in excluded by {
            forall j | 0 <= j < k + 1 ensures xs[j] in excluded {
              if j > 0 { assert xs[j] == xs[1..][j - 1]; }
            }
          }
          assert xs[k + 1] == xs[1..][k];
        }
      } else {
        assert xs[0] !in excluded;
      }
    }
  }

  /** The experiments used by a list of anticipations. */
  function ExperimentsOf(anticipations: seq<Interaction>): (es: set<Symbol>)
    ensures forall a :: a in anticipations ==> a.experiment in es
    ensures forall e :: e in es ==> exists a :: a in anticipations && a.experiment == e
  {
    set a | a in anticipations :: a.experiment
  }

  /** The selection rule over a non-empty, best-first list of anticipations. */
  function Selected(xs: seq<Symbol>, anticipations: seq<Interaction>): (r: Symbol)
    requires anticipations != []
    ensures anticipations[0].valence > 0 ==> r == anticipations[0].experiment
    ensures r != anticipations[0].experiment ==> r in xs && r !in ExperimentsOf(anticipations)
  {
    var best := anticipations[0];
    if best.valence > 0 then best.experiment
    else Alternative(xs, ExperimentsOf(anticipations), Some(best.experiment)).value
  }

  /** The selection rule pursues the best anticipation when it is positive;
      otherwise it explores the first known experiment that no anticipation
      uses, and repeats the best one only if there is no such experiment. */
  lemma SelectedSpec(xs: seq<Symbol>, anticipations: seq<Interaction>)
    requires anticipations != []
    ensures var best := anticipations[0];
            var r := Selected(xs, anticipations);
      && (best.valence > 0 ==> r == best.experiment)
      && (best.valence <= 0 && (exists e :: e in xs && e !in ExperimentsOf(anticipations)) ==>
            exists k :: && 0 <= k < |xs| && r == xs[k]
                        && (forall a :: a in anticipations ==> a.experiment != r)
                        && (forall j :: 0 <= j < k ==> xs[j] in ExperimentsOf(anticipations)))
      && (best.valence <= 0 && (forall e :: e in xs ==> e in ExperimentsOf(anticipations)) ==>
            r == best.experiment)
  {
    var best := anticipations[0];
    AlternativeIsFirstOutside(xs, ExperimentsOf(anticipations), Some(best.experiment));
  }

  /** Looking only at the head is enough: in a list sorted best-first, the
      head is positive exactly when some anticipation is. */
  lemma {:induction false} HeadDecidesPositive(anticipations: seq<Interaction>)
    requires anticipations != [] && SortedByValence(anticipations)
    ensures anticipations[0].valence > 0 <==> exists a :: a in anticipations && a.valence > 0
    ensures forall a :: a in anticipations ==> a.valence <= anticipations[0].valence
  {
    forall a | a in anticipations ensures a.valence <= anticipations[0].valence {
      var k :| 0 <= k < |anticipations| && anticipations[k] == a;
      if k > 0 { assert anticipations[0].valence >= anticipations[k].valence; }
    }
  }

  /** The anticipations recorded for the present context, if any. */
  function Anticipations(s: AgentState): (r: Option<seq<Interaction>>)
    ensures r.Some? <==> s.context.Some? && s.context.value in s.composites
    ensures r.Some? ==> r.value == s.composites[s.context.value]
  {
    if s.context.Some? && s.context.value in s.composites then Some(s.composites[s.context.value])
    else None
  }

  /** The experiment the agent chooses in state `s`; None is the Python None
      that `another` returns when every known experiment is excluded. */
  function Chosen(xs: seq<Symbol>, s: AgentState): (r: Option<Symbol>)
    requires |xs| > 0
    requires forall c :: c in s.composites ==> s.composites[c] != []
    ensures s.context.None? ==> r == Some(xs[0])
    ensures r.None? ==> s.context.Some? && s.mood != Pleased
    ensures r.Some? ==>
              || r.value in xs
              || (s.context.Some? && r.value == s.context.value.experiment)
              || (Anticipations(s).Some? && r.value == Anticipations(s).value[0].experiment)
    ensures Anticipations(s).Some? ==> r == Some(Selected(xs, Anticipations(s).value))
    ensures Anticipations(s).None? && s.context.Some? && s.mood == Pleased ==>
              r == Some(s.context.value.experiment)
    ensures Anticipations(s).None? && s.context.Some? && s.mood != Pleased ==>
              r == Alternative(xs, {s.context.value.experiment}, None)
  {
    match Anticipations(s)
    case Some(anticipations) => Some(Selected(xs, anticipations))
    case None =>
      if s.context.None? then Some(xs[0])
      else if s.mood == Pleased then Some(s.context.value.experiment)
      else Alternative(xs, {s.context.value.experiment}, None)
  }

  /** The chosen experiment is always a known one. */
  lemma ChosenIsKnown(xs: seq<Symbol>, table: Table, s: AgentState)
    requires WellFormed(xs, table) && Invariant(table, s)
    ensures Chosen(xs, s).Some? ==> Chosen(xs, s).value in xs
  {
    match Anticipations(s)
    case Some(anticipations) =>
      var best := anticipations[0];
      assert best in anticipations;
      ValuesAreKnown(xs, table, best);
    case None =>
      if s.context.Some? {
        ValuesAreKnown(xs, table, s.context.value);
      }
  }

  /** The agent has no experiment to offer exactly when it has nothing
      anticipated, is not pleased, and every known experiment is the one it
      just performed. */
  lemma ChosenNoneIff(xs: seq<Symbol>, s: AgentState)
    requires |xs| > 0
    requires forall c :: c in s.composites ==> s.composites[c] != []
    ensures Chosen(xs, s).None? <==>
              && s.context.Some? && s.context.value !in s.composites && s.mood != Pleased
              && forall e :: e in xs ==> e == s.context.value.experiment
  {
    if s.context.Some? && s.context.value !in s.composites && s.mood != Pleased {
      AlternativeIsFirstOutside(xs, {s.context.value.experiment}, None);
    }
  }

  // ---------------------------------------------------------------------
  // Learning
  // ---------------------------------------------------------------------

  /** `l` with `i` added and the list re-sorted best-first; the sort is stable,
      so `i` lands after every element of equal or higher valence. */
  function Inserted(l: seq<Interaction>, i: Interaction): (r: seq<Interaction>)
    ensures |r| == |l| + 1
    ensures multiset(r) == multiset(l) + multiset{i}
    decreases |l|
  {
    if l == [] then [i]
    else if l[0].valence >= i.valence then
      assert l == [l[0]] + l[1..];
      [l[0]] + Inserted(l[1..], i)
    else [i] + l
  }

  lemma SortedTail(l: seq<Interaction>)
    requires l != [] && SortedByValence(l)
    ensures SortedByValence(l[1..])
  {
    var t := l[1..];
    forall j, k | 0 <= j < k < |t| ensures t[j].valence >= t[k].valence {
      assert t[j] == l[j + 1] && t[k] == l[k + 1];
    }
  }

  /** Putting the head back in front of a split tail splits the whole list. */
  lemma ConsSplit(l: seq<Interaction>, i: Interaction, q: nat)
    requires l != [] && q <= |l| - 1
    ensures [l[0]] + (l[1..][..q] + [i] + l[1..][q..]) == l[..q + 1] + [i] + l[q + 1..]
  {
    assert [l[0]] + l[1..][..q] == l[..q + 1];
    assert l[1..][q..] == l[q + 1..];
  }

  /** In a sorted list, inserting is stable sorting of `l + [i]`: `i` goes in
      at position `p`, just after the elements whose valence is at least its
      own, and the elements of `l` keep their order around it. */
  lemma {:induction false} InsertedSplit(l: seq<Interaction>, i: Interaction) returns (p: nat)
    requires SortedByValence(l)
    ensures p <= |l|
    ensures Inserted(l, i) == l[..p] + [i] + l[p..]
    ensures forall j :: 0 <= j < p ==> l[j].valence >= i.valence
    ensures forall j :: p <= j < |l| ==> l[j].valence < i.valence
    decreases |l|
  {
    if l == [] {
      p := 0;
    } else if l[0].valence >= i.valence {
      var t := l[1..];
      SortedTail(l);
      var q := InsertedSplit(t, i);
      p := q + 1;
      ConsSplit(l, i, q);
      forall j | 0 <= j < p ensures l[j].valence >= i.valence {
        if j > 0 { assert l[j] == t[j - 1]; }
      }
      forall j | p <= j < |l| ensures l[j].valence < i.valence {
        assert l[j] == t[j - 1];
      }
    } else {
      p := 0;
      assert l[..0] == [] && l[0..] == l;
      forall j | 0 <= j < |l| ensures l[j].valence < i.valence {
        if j > 0 { assert l[0].valence >= l[j].valence; }
      }
    }
  }

  lemma {:induction false} InsertedSorted(l: seq<Interaction>, i: Interaction)
    requires SortedByValence(l)
    ensures SortedByValence(Inserted(l, i))
  {
    var p := InsertedSplit(l, i);
    var r := Inserted(l, i);
    assert forall m :: 0 <= m < p ==> r[m] == l[m];
    assert r[p] == i;
    assert forall m :: p < m < |r| ==> r[m] == l[m - 1];
    forall j, k | 0 <= j < k < |r| ensures r[j].valence >= r[k].valence {
      if k < p {
        assert r[j] == l[j] && r[k] == l[k];
      } else if k == p {
        assert r[j] == l[j];
      } else if j < p {
        assert r[j] == l[j] && r[k] == l[k - 1];
      } else if j == p {
        assert r[k] == l[k - 1];
      } else {
        assert r[j] == l[j - 1] && r[k] == l[k - 1];
      }
    }
  }

  lemma {:induction false} InsertedNoDuplicates(l: seq<Interaction>, i: Interaction)
    requires NoDuplicates(l) && i !in l
    ensures NoDuplicates(Inserted(l, i))
  {
    var r := Inserted(l, i);
    forall j, k | 0 <= j < k < |r| ensures r[j] != r[k] {
      if r[j] == r[k] {
        assert multiset(r)[r[j]] >= 2 by {
          assert r == r[..k] + r[k..];
          assert r[j] in r[..k] && r[k] in r[k..];
          assert multiset(r) == multiset(r[..k]) + multiset(r[k..]);
        }
        MultiplicityAtMostOne(l, i, r[j]);
        assert false;
      }
    }
  }

  /** In a list without duplicates every element occurs once, and `i`, absent
      from `l`, occurs once in `l + [i]`. */
  lemma MultiplicityAtMostOne(l: seq<Interaction>, i: Interaction, x: Interaction)
    requires NoDuplicates(l) && i !in l
    ensures (multiset(l) + multiset{i})[x] <= 1
  {
    CountAtMostOne(l, x);
  }

  lemma {:induction false} CountAtMostOne(l: seq<Interaction>, x: Interaction)
    requires NoDuplicates(l)
    ensures multiset(l)[x] <= 1
    ensures x !in l ==> multiset(l)[x] == 0
    decreases |l|
  {
    if l != [] {
      var rest := l[1..];
      assert l == [l[0]] + rest;
      assert NoDuplicates(rest) by {
        forall j, k | 0 <= j < k < |rest| ensures rest[j] != rest[k] {
          assert rest[j] == l[j + 1] && rest[k] == l[k + 1];
        }
      }
      CountAtMostOne(rest, x);
      if x == l[0] {
        assert x !in rest by {
          forall k | 0 <= k < |rest| ensures rest[k] != x {
            assert rest[k] == l[k + 1];
          }
        }
      }
    }
  }

  /** The composites after enacting `enacted` in `context`. */
  function Learned(composites: Composites, context: Option<Interaction>, enacted: Interaction): (r: Composites)
    ensures context.None? ==> r == composites
    ensures context.Some? ==> r.Keys == composites.Keys + {context.value}
    ensures context.Some? ==> enacted in r[context.value]
    ensures forall k :: k in composites && Some(k) != context ==> r[k] == composites[k]
  {
    match context
    case None => composites
    case Some(c) =>
      var anticipated := if c in composites then composites[c] else [];
      if enacted in anticipated then composites
      else
        var l := Inserted(anticipated, enacted);
        assert enacted in multiset(l);
        composites[c := l]
  }

  /** After learning in context `c`, the list for `c` holds `enacted` and
      exactly what it held before, and it stays sorted and free of
      duplicates; every other key keeps its list. */
  lemma LearnedRecords(composites: Composites, c: Interaction, enacted: Interaction)
    requires c in composites ==> SortedByValence(composites[c]) && NoDuplicates(composites[c])
    ensures var after := Learned(composites, Some(c), enacted);
      && c in after
      && after.Keys == composites.Keys + {c}
      && (forall x :: x in after[c] <==> x == enacted || (c in composites && x in composites[c]))
      && SortedByValence(after[c])
      && NoDuplicates(after[c])
      && (forall k :: k in composites && k != c ==> after[k] == composites[k])
  {
    var anticipated := if c in composites then composites[c] else [];
    if enacted !in anticipated {
      InsertedSorted(anticipated, enacted);
      InsertedNoDuplicates(anticipated, enacted);
      var r := Inserted(anticipated, enacted);
      forall x ensures x in r <==> x == enacted || x in anticipated {
        assert x in r <==> x in multiset(r);
        assert x in anticipated <==> x in multiset(anticipated);
      }
    }
  }

  /** Learning an interaction already recorded for the context changes
      nothing; in particular learning the same step twice is learning it once. */
  lemma LearnedIdempotent(composites: Composites, c: Interaction, enacted: Interaction)
    requires c in composites ==> SortedByValence(composites[c]) && NoDuplicates(composites[c])
    ensures c in composites && enacted in composites[c] ==> Learned(composites, Some(c), enacted) == composites
    ensures var once := Learned(composites, Some(c), enacted);
            Learned(once, Some(c), enacted) == once
  {
    LearnedRecords(composites, c, enacted);
  }

  /** Learning a table interaction keeps the invariant. */
  lemma LearnedKeepsInvariant(table: Table, s: AgentState, enacted: Interaction, mood: Mood)
    requires Invariant(table, s) && enacted in table.Values
    ensures Invariant(table, AgentState(Learned(s.composites, s.context, enacted), Some(enacted), mood))
  {
    if s.context.Some? {
      var c := s.context.value;
      LearnedRecords(s.composites, c, enacted);
    }
  }

  // ---------------------------------------------------------------------
  // Turns
  // ---------------------------------------------------------------------

  /** How a run ended: all turns done, or stopped at turn `turn` because no
      experiment was left to try, or because the environment answered with a
      result the table has no interaction for. */
  datatype Outcome =
    | Completed
    | NoExperiment(turn: nat)
    | Unmodelled(turn: nat, experiment: Symbol, result: Symbol)

  datatype RunResult = RunResult(outcome: Outcome, agent: AgentState, env: EnvState)

  /** One turn: choose, ask the environment, look the pair up, learn, and set
      the mood. */
  function Turn(xs: seq<Symbol>, table: Table, a: AgentState, e: EnvState, turn: nat): (r: RunResult)
    requires WellFormed(xs, table) && Invariant(table, a)
    ensures Invariant(table, r.agent)
    ensures !r.outcome.Completed? ==> r.agent == a
    ensures r.outcome.Unmodelled? ==> (r.outcome.experiment, r.outcome.result) !in table
    ensures r.outcome.Completed? ==>
              && r.agent.context.Some?
              && Key(r.agent.context.value) in table
              && r.agent.composites == Learned(a.composites, a.context, r.agent.context.value)
              && (r.agent.mood == Pleased <==> r.agent.context.value.valence >= 0)
    ensures r.outcome.NoExperiment? <==> Chosen(xs, a).None?
    ensures r.outcome.NoExperiment? ==> r == RunResult(NoExperiment(turn), a, e)
    ensures Chosen(xs, a).Some? ==>
              var x := Chosen(xs, a).value;
              var (e', result) := Respond(e, x);
              && r.env == e'
              && (r.outcome.Completed? <==> (x, result) in table)
              && (r.outcome.Unmodelled? ==> r.outcome == Unmodelled(turn, x, result))
              && (r.outcome.Completed? ==> r.agent.context == Some(table[(x, result)]))
  {
    match Chosen(xs, a)
    case None => RunResult(NoExperiment(turn), a, e)
    case Some(experiment) =>
      var (e', result) := Respond(e, experiment);
      if (experiment, result) !in table then RunResult(Unmodelled(turn, experiment, result), a, e')
      else
        var enacted := table[(experiment, result)];
        LearnedKeepsInvariant(table, a, enacted, MoodAfter(enacted));
        RunResult(Completed, AgentState(Learned(a.composites, a.context, enacted), Some(enacted), MoodAfter(enacted)), e')
  }

  /** The three ways a turn can go. */
  lemma TurnCases(xs: seq<Symbol>, table: Table, a: AgentState, e: EnvState, turn: nat)
    requires WellFormed(xs, table) && Invariant(table, a)
    ensures Chosen(xs, a).None? ==> Turn(xs, table, a, e, turn) == RunResult(NoExperiment(turn), a, e)
    ensures Chosen(xs, a).Some? ==>
              var x := Chosen(xs, a).value;
              var (e', result) := Respond(e, x);
              Turn(xs, table, a, e, turn) ==
                if (x, result) !in table then RunResult(Unmodelled(turn, x, result), a, e')
                else
                  var enacted := table[(x, result)];
                  RunResult(Completed, AgentState(Learned(a.composites, a.context, enacted), Some(enacted), MoodAfter(enacted)), e')
  {
  }

  /** `turns` turns from agent state `a` and environment state `e`; the
      first failing turn ends the run. */
  function Runs(xs: seq<Symbol>, table: Table, a: AgentState, e: EnvState, turns: nat): (r: RunResult)
    requires WellFormed(xs, table) && Invariant(table, a)
    ensures Invariant(table, r.agent)
    ensures turns > 0 && r.outcome.Completed? ==>
              r.agent.context.Some? && (r.agent.mood == Pleased <==> r.agent.context.value.valence >= 0)
    ensures !r.outcome.Completed? ==> r.outcome.turn < turns
    decreases turns
  {
    if turns == 0 then RunResult(Completed, a, e)
    else
      var before := Runs(xs, table, a, e, turns - 1);
      if !before.outcome.Completed? then before
      else Turn(xs, table, before.agent, before.env, turns - 1)
  }

  /** A completed prefix of a run is followed by one more turn. */
  lemma RunsNext(xs: seq<Symbol>, table: Table, a: AgentState, e: EnvState, n: nat)
    requires WellFormed(xs, table) && Invariant(table, a)
    requires Runs(xs, table, a, e, n).outcome.Completed?
    ensures var before := Runs(xs, table, a, e, n);
            Runs(xs, table, a, e, n + 1) == Turn(xs, table, before.agent, before.env, n)
  {
  }

  /** Once a run has stopped, further turns change nothing. */
  lemma {:induction false} RunsStopped(xs: seq<Symbol>, table: Table, a: AgentState, e: EnvState, m: nat, n: nat)
    requires WellFormed(xs, table) && Invariant(table, a)
    requires m <= n && !Runs(xs, table, a, e, m).outcome.Completed?
    ensures Runs(xs, table, a, e, n) == Runs(xs, table, a, e, m)
    decreases n
  {
    if m < n {
      RunsStopped(xs, table, a, e, m, n - 1);
    }
  }

  /** The table of the default configuration. */
  lemma DefaultTable()
    ensures BuildTable(DefaultInteractions) ==
              map[(E1, R1) := Interaction(E1, R1, -1), (E1, R2) := Interaction(E1, R2, 1),
                  (E2, R1) := Interaction(E2, R1, -1), (E2, R2) := Interaction(E2, R2, 1)]
  {
    var d := DefaultInteractions;
    assert d[..0] == [];
    assert d[..1][..0] == d[..0];
    assert d[..2][..1] == d[..1];
    assert d[..3][..2] == d[..2];
    assert d[..3] == d[..|d| - 1];
    assert BuildTable(d[..1]) == map[(E1, R1) := Interaction(E1, R1, -1)];
    assert BuildTable(d[..2]) == map[(E1, R1) := Interaction(E1, R1, -1), (E1, R2) := Interaction(E1, R2, 1)];
  }

  /** The known experiments and the table of the default configuration. */
  lemma DefaultConfiguration()
    ensures ExperimentsIn(DefaultInteractions) == [E1, E1, E2, E2]
    ensures WellFormed(ExperimentsIn(DefaultInteractions), BuildTable(DefaultInteractions))
    ensures var table := BuildTable(DefaultInteractions);
            && (E1, R1) in table && table[(E1, R1)] == Interaction(E1, R1, -1)
            && (E2, R2) in table && table[(E2, R2)] == Interaction(E2, R2, 1)
  {
    DefaultTable();
    assert ExperimentsIn(DefaultInteractions) == [E1, E1, E2, E2];
  }

  /** The default agent's first turn against the stateless environment. */
  lemma DefaultFirstTurn()
    ensures var xs := ExperimentsIn(DefaultInteractions);
            var table := BuildTable(DefaultInteractions);
            var start := AgentState(map[], None, Pleased);
            && WellFormed(xs, table)
            && Invariant(table, start)
            && Turn(xs, table, start, FixedState, 0) ==
                 RunResult(Completed, AgentState(map[], Some(Interaction(E1, R1, -1)), Pained), FixedState)
  {
    DefaultConfiguration();
    var xs := ExperimentsIn(DefaultInteractions);
    var table := BuildTable(DefaultInteractions);
    var start := AgentState(map[], None, Pleased);
    assert Chosen(xs, start) == Some(E1);
    assert Respond(FixedState, E1) == (FixedState, R1);
    TurnCases(xs, table, start, FixedState, 0);
  }

  /** Pained after E1, the default agent switches to the first other
      experiment, E2. */
  lemma DefaultAlternative()
    ensures Alternative(ExperimentsIn(DefaultInteractions), {E1}, None) == Some(E2)
  {
    DistinctSymbols();
    DefaultConfiguration();
    var xs := ExperimentsIn(DefaultInteractions);
    assert xs[1..] == [E1, E2, E2];
    assert xs[1..][1..] == [E2, E2];
    assert Alternative(xs[1..][1..], {E1}, None) == Some(E2);
  }

  /** The default agent's second turn, pained after enacting (E1, R1, -1). */
  lemma DefaultSecondTurn()
    ensures var xs := ExperimentsIn(DefaultInteractions);
            var table := BuildTable(DefaultInteractions);
            var one := AgentState(map[], Some(Interaction(E1, R1, -1)), Pained);
            && WellFormed(xs, table)
            && Invariant(table, one)
            && Turn(xs, table, one, FixedState, 1) ==
                 RunResult(Completed,
                           AgentState(map[Interaction(E1, R1, -1) := [Interaction(E2, R2, 1)]],
                                      Some(Interaction(E2, R2, 1)), Pleased),
                           FixedState)
  {
    DefaultConfiguration();
    DefaultAlternative();
    var xs := ExperimentsIn(DefaultInteractions);
    var table := BuildTable(DefaultInteractions);
    var one := AgentState(map[], Some(Interaction(E1, R1, -1)), Pained);
    assert Chosen(xs, one) == Some(E2);
    assert Respond(FixedState, E2) == (FixedState, R2);
    assert Inserted([], Interaction(E2, R2, 1)) == [Interaction(E2, R2, 1)];
    assert Learned(map[], one.context, Interaction(E2, R2, 1)) ==
             map[Interaction(E1, R1, -1) := [Interaction(E2, R2, 1)]];
    TurnCases(xs, table, one, FixedState, 1);
  }

  /** The default agent against the stateless environment: the first turn
      tries E1, enacts (E1, R1, -1) and is pained; the second avoids E1,
      enacts (E2, R2, 1), is pleased, and records that (E2, R2, 1) followed
      (E1, R1, -1). */
  lemma DefaultScenario()
    ensures WellFormed(ExperimentsIn(DefaultInteractions), BuildTable(DefaultInteractions))
    ensures var xs := ExperimentsIn(DefaultInteractions);
            var table := BuildTable(DefaultInteractions);
            var start := AgentState(map[], None, Pleased);
      && Runs(xs, table, start, FixedState, 1) ==
           RunResult(Completed, AgentState(map[], Some(Interaction(E1, R1, -1)), Pained), FixedState)
      && Runs(xs, table, start, FixedState, 2) ==
           RunResult(Completed,
                     AgentState(map[Interaction(E1, R1, -1) := [Interaction(E2, R2, 1)]],
                                Some(Interaction(E2, R2, 1)), Pleased),
                     FixedState)
  {
    DefaultFirstTurn();
    DefaultSecondTurn();
    var xs := ExperimentsIn(DefaultInteractions);
    var table := BuildTable(DefaultInteractions);
    var start := AgentState(map[], None, Pleased);
    RunsNext(xs, table, start, FixedState, 0);
    RunsNext(xs, table, start, FixedState, 1);
  }

  // ---------------------------------------------------------------------
  // The agent
  // ---------------------------------------------------------------------

  class Agent {
    /** The known experiments, in configuration order. */
    const experiments: seq<Symbol>
    /** The primitive interactions by (experiment, result); never changed. */
    const primitives: Table
    const environment: Environment
    var composites: Composites
    var context: Option<Interaction>
    var mood: Mood

    ghost function State(): AgentState
      reads this
    {
      AgentState(composites, context, mood)
    }

    ghost predicate Valid()
      reads this
    {
      WellFormed(experiments, primitives) && Invariant(primitives, State())
    }

    /** An agent wired to `environment` and configured with `interactions`,
        or with the default ones when none are given. */
    constructor (environment: Environment, interactions: seq<Interaction> := [])
      ensures var given := if interactions == [] then DefaultInteractions else interactions;
              experiments == ExperimentsIn(given) && primitives == BuildTable(given)
      ensures this.environment == environment
      ensures State() == AgentState(map[], None, Pleased)
      ensures Valid()
    {
      var given := if interactions == [] then DefaultInteractions else interactions;
      experiments := ExperimentsIn(given);
      this.environment := environment;
      primitives := BuildTable(given);
      composites := map[];
      context := None;
      mood := Pleased;
      new;
      forall k | k in primitives ensures primitives[k].experiment in experiments {
        var j :| 0 <= j < |given| && given[j] == primitives[k];
        assert experiments[j] == primitives[k].experiment;
      }
    }

    /** The anticipations recorded for the present context, or None. */
    function Anticipate(): (r: Option<seq<Interaction>>)
      reads this
      ensures r == Anticipations(State())
      ensures Valid() && r.Some? ==> r.value != [] && SortedByValence(r.value)
    {
      if context.Some? && context.value in composites then Some(composites[context.value]) else None
    }

    /** The first known experiment not in `excluded`, or `fallback`. */
    method Another(excluded: set<Symbol>, fallback: Option<Symbol> := None) returns (r: Option<Symbol>)
      ensures r == Alternative(experiments, excluded, fallback)
    {
      for k := 0 to |experiments|
        invariant Alternative(experiments, excluded, fallback) == Alternative(experiments[k..], excluded, fallback)
      {
        assert experiments[k..][1..] == experiments[k + 1..];
        if experiments[k] !in excluded {
          return Some(experiments[k]);
        }
      }
      return fallback;
    }

    /** The experiment to perform given a non-empty best-first list. */
    method Select(anticipations: seq<Interaction>) returns (r: Symbol)
      requires anticipations != []
      ensures r == Selected(experiments, anticipations)
    {
      var anticipated := anticipations[0];
      if anticipated.valence > 0 {
        return anticipated.experiment;
      }
      var e := Another(ExperimentsOf(anticipations), Some(anticipated.experiment));
      return e.value;
    }

    /** The next experiment to perform. */
    method Experiment() returns (r: Option<Symbol>)
      requires Valid()
      ensures r == Chosen(experiments, State())
      ensures r.Some? ==> r.value in experiments
      ensures context.None? ==> r == Some(experiments[0])
    {
      ChosenIsKnown(experiments, primitives, State());
      var anticipations := Anticipate();
      if anticipations.Some? {
        var e := Select(anticipations.value);
        r := Some(e);
      } else if context.None? {
        r := Some(experiments[0]);
      } else if mood == Pleased {
        r := Some(context.value.experiment);
      } else {
        r := Another({context.value.experiment});
      }
    }

    /** Advances the context to `enacted` and records `enacted` after the
        previous context. */
    method Learn(enacted: Interaction)
      modifies this
      ensures context == Some(enacted) && mood == old(mood)
      ensures composites == Learned(old(composites), old(context), enacted)
      ensures old(context).None? ==> composites == old(composites)
      ensures old(Valid()) && enacted in primitives.Values ==> Valid()
    {
      ghost var before := State();
      var previous := context;
      context := Some(enacted);
      if previous.None? {
        return;
      }
      var c := previous.value;
      var anticipated := if c in composites then composites[c] else [];
      if enacted !in anticipated {
        composites := composites[c := Inserted(anticipated, enacted)];
      }
      if old(Valid()) && enacted in primitives.Values {
        LearnedKeepsInvariant(primitives, before, enacted, mood);
      }
    }

    /** One iteration of the turn loop: choose an experiment, ask the
        environment, look the pair up, learn, and set the mood. */
    method Step(turn: nat) returns (outcome: Outcome)
      requires Valid()
      modifies this, Footprint(environment)
      ensures Valid()
      ensures RunResult(outcome, State(), Snapshot(environment)) ==
                Turn(experiments, primitives, old(State()), old(Snapshot(environment)), turn)
    {
      ghost var a, e := State(), Snapshot(environment);
      TurnCases(experiments, primitives, a, e, turn);
      label chosen:
      var experiment := Experiment();
      SnapshotFramed@chosen(environment);
      if experiment.None? {
        return NoExperiment(turn);
      }
      var result := Ask(environment, experiment.value);
      assert State() == a;
      if (experiment.value, result) !in primitives {
        return Unmodelled(turn, experiment.value, result);
      }
      var enacted := primitives[(experiment.value, result)];
      ghost var e' := Snapshot(environment);
      label learning:
      Learn(enacted);
      mood := MoodAfter(enacted);
      SnapshotFramed@learning(environment);
      outcome := Completed;
    }

    /** Runs the agent for `turns` turns against its environment, stopping at
        the first turn that fails. */
    method Run(turns: nat := 10) returns (outcome: Outcome)
      requires Valid()
      modifies this, Footprint(environment)
      ensures Valid()
      ensures RunResult(outcome, State(), Snapshot(environment)) ==
                Runs(experiments, primitives, old(State()), old(Snapshot(environment)), turns)
    {
      ghost var a0, e0 := State(), Snapshot(environment);
      outcome := Completed;
      var turn := 0;
      while turn < turns && outcome.Completed?
        invariant turn <= turns
        invariant Valid()
        invariant Runs(experiments, primitives, a0, e0, turn) == RunResult(outcome, State(), Snapshot(environment))
      {
        RunsNext(experiments, primitives, a0, e0, turn);
        outcome := Step(turn);
        turn := turn + 1;
      }
      if !outcome.Completed? {
        RunsStopped(experiments, primitives, a0, e0, turn, turns);
      }
    }
  }
}
