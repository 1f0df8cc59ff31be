/** Vocabulary shared by both agents of the IDEAL exercises: experiment and
    result symbols, moods, interactions and the interaction table an agent is
    configured with. */
module Ideal {

  /** Experiments and results are plain strings in the original programs. */
  type Symbol = string

  /** Default experiments. */
  const E1: Symbol := "e1"
  const E2: Symbol := "e2"

  /** Default results. */
  const R1: Symbol := "r1"
  const R2: Symbol := "r2"

  datatype Option<T> = None | Some(value: T)

  /** `Bored` is declared by both programs, but no rule ever produces it. */
  datatype Mood = Bored | Pained | Pleased

  /** An experiment, the result it is expected to yield, and how good that is.
      Equality is structural, as for the original named tuple. */
  datatype Interaction = Interaction(experiment: Symbol, result: Symbol, valence: int)

  /** The (experiment, result) pair an interaction is filed under. */
  type Pair = (Symbol, Symbol)

  /** Maps an (experiment, result) pair to the interaction it enacts. */
  type Table = map<Pair, Interaction>

  function Key(i: Interaction): (p: Pair)
  {
    (i.experiment, i.result)
  }

  lemma DistinctSymbols()
    ensures E1 != E2 && R1 != R2
  {
    assert E1[1] != E2[1];
    assert R1[1] != R2[1];
  }

  /** The mood an agent takes on after enacting `enacted`. */
  function MoodAfter(enacted: Interaction): (m: Mood)
    ensures m != Bored
    ensures m == Pleased <==> enacted.valence >= 0
  {
    if enacted.valence >= 0 then Pleased else Pained
  }

  /** The known experiments: the first component of every configured
      interaction, in order, duplicates kept. */
  function ExperimentsIn(interactions: seq<Interaction>): (xs: seq<Symbol>)
    ensures |xs| == |interactions|
    ensures forall k :: 0 <= k < |xs| ==> xs[k] == interactions[k].experiment
  {
    seq(|interactions|, k requires 0 <= k < |interactions| => interactions[k].experiment)
  }

  /** The interaction table built from the configured interactions; when two
      of them share an (experiment, result) pair the later one wins, as when a
      dictionary is built from a sequence of entries. */
  function BuildTable(interactions: seq<Interaction>): (t: Table)
    ensures forall k :: k in t ==> Key(t[k]) == k && t[k] in interactions
    decreases |interactions|
  {
    if interactions == [] then map[]
    else
      var last := interactions[|interactions| - 1];
      BuildTable(interactions[..|interactions| - 1])[Key(last) := last]
  }

  /** A pair is a key of the table exactly when some configured interaction
      carries it. */
  lemma {:induction false} BuildTableKeys(interactions: seq<Interaction>, k: Pair)
    ensures k in BuildTable(interactions) <==>
            exists j :: 0 <= j < |interactions| && Key(interactions[j]) == k
    decreases |interactions|
  {
    if interactions != [] {
      var n := |interactions| - 1;
      var front := interactions[..n];
      BuildTableKeys(front, k);
      if k in BuildTable(front) {
        var j :| 0 <= j < |front| && Key(front[j]) == k;
        assert Key(interactions[j]) == k;
      }
      if j :| 0 <= j < |interactions| && Key(interactions[j]) == k {
        if j < n {
          assert Key(front[j]) == k;
        }
      }
    }
  }

  /** An interaction that no later configured interaction overrides is the
      one the table holds for its pair. */
  lemma {:induction false} BuildTableLastWins(interactions: seq<Interaction>, j: nat)
    requires j < |interactions|
    requires forall m :: j < m < |interactions| ==> Key(interactions[m]) != Key(interactions[j])
    ensures Key(interactions[j]) in BuildTable(interactions)
    ensures BuildTable(interactions)[Key(interactions[j])] == interactions[j]
    decreases |interactions|
  {
    var n := |interactions| - 1;
    var front := interactions[..n];
    var last := interactions[n];
    assert BuildTable(interactions) == BuildTable(front)[Key(last) := last];
    if j < n {
      assert front[j] == interactions[j];
      forall m | j < m < |front|
        ensures Key(front[m]) != Key(front[j])
      {
        assert front[m] == interactions[m];
      }
      BuildTableLastWins(front, j);
      assert Key(last) != Key(interactions[j]);
    }
  }
}
