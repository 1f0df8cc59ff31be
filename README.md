# IDEAL MOOC agents in Dafny

This project models two small agents from the IDEAL MOOC exercises, together
with the environments they are run against. It proves properties of each.

- **The learning agent** (`algorithm33_1.py`, module `Algorithm33`). The agent
  has a fixed table of primitive interactions, indexed by (experiment, result).
  It also keeps a table of *composite* interactions: for each context
  interaction, the interactions seen to follow it, best valence first. It
  tracks the last enacted interaction (its *context*) and a mood. Each turn it
  chooses an experiment, asks the environment for the result, and looks up the
  enacted interaction. It then learns the step from the old context to the
  new interaction and takes on a mood from that interaction's valence.
- **The three environments** of the same file (module `Environments`):
  - `Environment10` is a fixed mapping.
  - `Environment30` answers R1 exactly when the experiment repeats the
    previous one.
  - `Environment31` has a clock and swaps E1 and E2 while the clock lies in
    the window (t1, t2].
- **The earlier non-learning agent** (`agent02_1.py`, module `Agent02`). While
  pleased it repeats its experiment. Otherwise it takes the next element of a
  cyclic list of experiments. That list starts one past its first element.
- Module `Ideal` holds what both programs share: the symbols E1, E2, R1, R2,
  the moods, the `Interaction` record and the construction of the
  interaction table.

Each stateful part has two forms. The first is value-level: the agent's
mutable state as a datatype, with pure functions for one turn (`Turn`,
`Step`) and for a whole run (`Runs`). The second is a `class` whose fields
are updated in place, as in the programs. Each method's `ensures` ties its
new state to the value-level functions. The properties are proved about
those functions as lemmas and preserved invariants: sortedness, no
duplicates, non-empty lists, the chosen experiment being known, and
stable insertion.

Two behaviours of the code are kept as written:
- The known-experiment list keeps duplicates (`algorithm33_1.py:80`).
- When the agent is pained and every known experiment equals the context's
  experiment, `experiment()` yields Python `None`. It does not repeat the
  context's experiment: `another` is called without a fallback at
  `algorithm33_1.py:129`. `Chosen` returns `None` in that case, and the run
  stops with `NoExperiment`.

## Model

| member | source | states |
|---|---|---|
| `Ideal.ExperimentsIn` | algorithm33_1.py:80 | one known experiment per configured interaction, in configuration order, duplicates kept |
| `Ideal.BuildTable` | algorithm33_1.py:82 | every entry of the table is filed under its own (experiment, result) pair and is one of the configured interactions |
| `Ideal.BuildTableKeys` | algorithm33_1.py:82 | a pair is a key of the table exactly when some configured interaction carries it |
| `Ideal.BuildTableLastWins` | algorithm33_1.py:82 | when pairs repeat, the table holds the last configured interaction for that pair |
| `Ideal.MoodAfter` | algorithm33_1.py:164 | the mood after enacting is Pleased exactly when the valence is at least 0; it is never Bored |
| `Environments.Environment10` | algorithm33_1.py:34-38 | the stateless environment answers R1 exactly when the experiment is E1, otherwise R2; `agent02_1.py:80` assigns results by the same mapping, so `Agent02.ResultOf` delegates to it |
| `Environments.WindowedResult` | algorithm33_1.py:62-65 | R1 exactly for E1 with the clock outside (t1, t2], or E2 with it inside; otherwise R2 |
| `Environments.Respond` | algorithm33_1.py:34-65 | a call answers R1 or R2. The fixed environment's state never changes; the alternating one's becomes the experiment; the windowed one's clock goes up by one and its window stays |
| `Environments.RespondResult` | algorithm33_1.py:34-65 | every environment answers R1 or R2. Fixed: R1 iff the experiment is E1. Alternating: R1 iff it equals the previous experiment, which is then replaced. Windowed: the clock goes up first; R1 iff (E1 and clock outside (t1, t2]) or (E2 and clock inside) |
| `Environments.WindowedIsFixedOrSwapped` | algorithm33_1.py:60-65 | outside its window the windowed environment is the fixed mapping; inside, the fixed mapping with E1 and E2 swapped |
| `Environments.Environment30.constructor` | algorithm33_1.py:45-46 | `previous` starts at E2 |
| `Environments.Environment30.Call` | algorithm33_1.py:48-51 | returns R1 iff the experiment equals the old `previous`, then sets `previous` to the experiment |
| `Environments.Environment31.constructor` | algorithm33_1.py:55-58 | the clock starts at 0; the window defaults to t1 = 8, t2 = 15 |
| `Environments.Environment31.Call` | algorithm33_1.py:60-65 | increments the clock first, then answers by the windowed mapping at the new clock |
| `Environments.Ask` | algorithm33_1.py:156 | calling an environment changes only that environment's state, and as `Respond` says |
| `Environments.AlternatingScenario` | algorithm33_1.py:45-51 | a fresh alternating environment answers E1 with R2, then a repeated E1 with R1 |
| `Environments.WindowedScenario` | algorithm33_1.py:55-65 | with the default window, the 10th call answers E1 with R2 and E2 with R1 |
| `Algorithm33.Alternative` | algorithm33_1.py:94-102 | the result is the fallback or a known experiment outside the excluded set; with a present fallback it is never None |
| `Algorithm33.AlternativeIsFirstOutside` | algorithm33_1.py:98-102 | returns the first known experiment, in list order, not in the excluded set; returns the fallback exactly when all of them are excluded |
| `Algorithm33.Anticipations` | algorithm33_1.py:87-92 | a list exactly when the context is set and has an entry in the composites, and then that entry |
| `Algorithm33.ExperimentsOf` | algorithm33_1.py:116 | exactly the experiments used by the anticipations |
| `Algorithm33.Selected` | algorithm33_1.py:104-116 | a positive head is pursued; any other choice is a known experiment no anticipation uses |
| `Algorithm33.SelectedSpec` | algorithm33_1.py:112-116 | a positive head is pursued. Otherwise the result is the first known experiment that no anticipation uses; if there is none, the head's experiment |
| `Algorithm33.HeadDecidesPositive` | algorithm33_1.py:112-113 | in a list sorted best-first, the head is positive iff some anticipation is, and no anticipation beats the head |
| `Algorithm33.Chosen` | algorithm33_1.py:118-129 | the four-way dispatch. With recorded anticipations it chooses `Selected` of them. Otherwise: with no context, the first known experiment; Pleased, the context's experiment again; not Pleased, `Alternative` of the known experiments excluding the context's, with no fallback. None only when the context is set and the mood is not Pleased |
| `Algorithm33.ChosenIsKnown` | algorithm33_1.py:118-129 | under the invariant, any experiment `experiment()` chooses is a known experiment |
| `Algorithm33.ChosenNoneIff` | algorithm33_1.py:121-129 | `experiment()` yields None exactly when no anticipation exists, the context is set, the mood is not Pleased and every known experiment equals the context's experiment |
| `Algorithm33.Inserted` | algorithm33_1.py:141-143 | the list after insertion is one longer and is a permutation of the old list plus the new interaction |
| `Algorithm33.InsertedSplit` | algorithm33_1.py:141-143 | in a sorted list, insertion equals stable sorting: the new interaction goes after every element of equal or higher valence and before every lower one; the others keep their order |
| `Algorithm33.InsertedSorted` | algorithm33_1.py:143 | insertion into a list sorted best-first keeps it sorted |
| `Algorithm33.InsertedNoDuplicates` | algorithm33_1.py:141-142 | inserting an absent interaction into a duplicate-free list keeps it duplicate-free |
| `Algorithm33.Learned` | algorithm33_1.py:131-143 | with no context nothing changes. Otherwise the context becomes a key, its list holds the enacted interaction, and every other key keeps its list |
| `Algorithm33.LearnedRecords` | algorithm33_1.py:135-143 | after learning in context c, the list for c holds the enacted interaction plus what it held before, is sorted and duplicate-free, and no other key's list changes |
| `Algorithm33.LearnedIdempotent` | algorithm33_1.py:141 | learning an interaction already recorded for the context changes nothing; learning the same step twice equals learning it once |
| `Algorithm33.LearnedKeepsInvariant` | algorithm33_1.py:131-143 | learning a table interaction keeps the invariant: context and keys are table interactions; every list is non-empty, sorted, duplicate-free and made of table interactions |
| `Algorithm33.Turn` | algorithm33_1.py:155-165 | the turn performs the chosen experiment and moves the environment as `Respond` says. It stops with `NoExperiment` exactly when nothing is chosen. It completes exactly when the (experiment, answer) pair is in the table, and then enacts that pair's interaction; otherwise it reports that pair as `Unmodelled`. A failing turn leaves the agent unchanged. A completed one learns the step, with mood Pleased iff the valence is at least 0. The invariant is kept |
| `Algorithm33.TurnCases` | algorithm33_1.py:155-165 | a turn is, case by case, no experiment; the environment's answer with an unmodelled pair; or learning the pair's interaction and taking on its mood |
| `Algorithm33.Runs` | algorithm33_1.py:154-166 | every run keeps the invariant. After a completed run of at least one turn, the mood is Pleased iff the last enacted valence is at least 0. A failure is reported at one of the run's turns |
| `Algorithm33.RunsNext` | algorithm33_1.py:154 | a run of n + 1 turns is a completed run of n turns followed by one `Turn` |
| `Algorithm33.RunsStopped` | algorithm33_1.py:159 | once a lookup fails the run is over: further turns change nothing |
| `Algorithm33.DefaultTable` | algorithm33_1.py:77-82 | the table of the default configuration, four entries |
| `Algorithm33.DefaultConfiguration` | algorithm33_1.py:77-82 | the default known experiments are E1, E1, E2, E2; the default table is well formed and holds (E1,R1,-1) and (E2,R2,1) |
| `Algorithm33.DefaultFirstTurn` | algorithm33_1.py:124-125 | the fresh default agent tries E1 against `Environment10`, enacts (E1,R1,-1) and is Pained |
| `Algorithm33.DefaultAlternative` | algorithm33_1.py:98-102 | with the default experiments, the first one other than E1 is E2 |
| `Algorithm33.DefaultSecondTurn` | algorithm33_1.py:128-143 | pained after (E1,R1,-1), the default agent tries E2, enacts (E2,R2,1), records it after (E1,R1,-1) and is Pleased |
| `Algorithm33.DefaultScenario` | algorithm33_1.py:121-165 | the default agent against `Environment10`. Turn 1 tries E1, enacts (E1,R1,-1) and is Pained. Turn 2 tries E2, enacts (E2,R2,1), is Pleased and records (E2,R2,1) after (E1,R1,-1) |
| `Algorithm33.Agent.constructor` | algorithm33_1.py:71-85 | the default interactions are used when none are given. Experiments and primitives come from the interactions; composites start empty, context None, mood Pleased. The invariant holds |
| `Algorithm33.Agent.Anticipate` | algorithm33_1.py:87-92 | the recorded list for the context, or None; under the invariant a returned list is non-empty and sorted, so `anticipations[0]` is safe |
| `Algorithm33.Agent.Another` | algorithm33_1.py:94-102 | the search loop returns what `Alternative` specifies: the first known experiment outside the set, else the fallback |
| `Algorithm33.Agent.Select` | algorithm33_1.py:104-116 | returns what the selection rule `Selected` specifies |
| `Algorithm33.Agent.Experiment` | algorithm33_1.py:118-129 | returns the four-way dispatch `Chosen`; the result is a known experiment; on the first turn it is the first known experiment |
| `Algorithm33.Agent.Learn` | algorithm33_1.py:131-144 | the context becomes the enacted interaction. Composites become `Learned` of the old ones, and stay unchanged on the first call. The mood is untouched. A table interaction keeps the invariant |
| `Algorithm33.Agent.Step` | algorithm33_1.py:155-165 | one iteration of the turn loop changes agent and environment exactly as `Turn` says and keeps the invariant |
| `Algorithm33.Agent.Run` | algorithm33_1.py:146-166 | the agent and environment after the run, and how it ended, are those of `Runs`; the invariant holds; primitives and known experiments are constants |
| `Agent02.Advance` | agent02_1.py:60-70 | `experiment()` leaves the mood alone, makes the returned experiment current, and keeps the iterator position in range |
| `Agent02.CycleFromSecond` | agent02_1.py:57-58 | from one past the first element, k advances put the iterator at (k+1) mod n, and the k-th returns element k mod n |
| `Agent02.Step` | agent02_1.py:79-85 | the experiment and iterator position are those `experiment()` produces (`Advance`). The turn completes exactly when that experiment and its result form a key of the table. It then takes on `MoodAfter` of that interaction: Pleased if its valence is at least 0, otherwise Pained. If the pair is not a key, it reports it as `Unmodelled` and leaves the mood alone |
| `Agent02.Runs` | agent02_1.py:78-85 | every run keeps the iterator position in range. After a completed run of at least one turn, the current pair is in the table and the mood is `MoodAfter` of its interaction: Pleased if the valence is at least 0, otherwise Pained. A failure is reported at one of the run's turns |
| `Agent02.RunsNext` | agent02_1.py:78 | a run of n + 1 turns is a completed run of n turns followed by one `Step` |
| `Agent02.RunsStopped` | agent02_1.py:83 | once a lookup fails the run is over: further turns change nothing |
| `Agent02.DefaultTable` | agent02_1.py:49-53 | the table of the default configuration, two entries |
| `Agent02.DefaultRun` | agent02_1.py:72-85 | with the defaults, turn 1 repeats E1, enacts (E1,R1,-1) and is Pained. Every later turn is at E2, enacts (E2,R2,1) and is Pleased |
| `Agent02.Agent.constructor` | agent02_1.py:43-58 | the default interactions are used when none are given. The current experiment is the first interaction's, the mood is Pleased, and the iterator starts one past the first element |
| `Agent02.Agent.Experiment` | agent02_1.py:60-70 | when Pleased, returns the current experiment and does not advance. Otherwise, on its k-th such call, returns element (k+1) mod n of the list, stores it as current and advances |
| `Agent02.Agent.Run` | agent02_1.py:72-85 | the state after the run, and how it ended, are those of `Runs`; the iterator invariant holds |

## Left out

- Console output: every `print` in both files, and both `main` functions.
- The bound-method wrapper at `algorithm33_1.py:81`. The agent holds an `Environment` value naming one of the three variants, and `Ask` dispatches to it.
- Python's `KeyError` at `algorithm33_1.py:159` and `agent02_1.py:83`. It is modelled as an `Unmodelled` outcome that ends the run, with the state left as it was when the exception was raised.
- Algorithm33.Turn: when `Chosen` is None it stops with `NoExperiment` without calling the environment; see the `Algorithm33.Agent.Run` line below.
- Algorithm33.Agent.Step: the same early return as `Algorithm33.Turn`, before `Ask` is called; see the next line.
- Algorithm33.Agent.Run: when `experiment()` yields Python `None`, the original calls the environment with `None` and then fails the lookup. The model stops the run with `NoExperiment` without calling the environment. So on that failing turn it does not move `Environment30.previous` or `Environment31.clock`.
- The Python 2 `cmp`-style sort at `algorithm33_1.py:143`. It is modelled as stable insertion by valence (`Inserted`). That equals the library's stable sort of the list plus the new element, because the list is always already sorted (`InsertedSplit`, `LearnedKeepsInvariant`).
- The `Bored` mood. It is declared but never produced, and no transition into it is modelled.
- Dynamic typing: experiments and results are strings and valences are integers. The constructor takes `Interaction` records instead of tuples of any type.
- `Environment31.t1` and `t2` are plain attributes in Python but never reassigned; they are `const` here.
- The `Interaction` class of `agent02_1.py` has identity equality. The model uses the structural record of `algorithm33_1.py`; the agent never compares interactions.
