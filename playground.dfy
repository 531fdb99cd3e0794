/**
 * The playground parameter store (PlaygroundContext.jsx): a map of tuning
 * values that the provider replaces on each single-key update and on a reset
 * to the default table.
 */
module Playground {
  import opened Wrappers
  import opened KeyLists

  /** The table the provider's state starts from. */
  const InitialValues: map<string, real> := map[
    "sunSize" := 4.0, "sunRotationSpeed" := 0.01,
    "mercurySize" := 0.38, "venusSize" := 0.95, "earthSize" := 1.0, "marsSize" := 0.53,
    "jupiterSize" := 2.2, "saturnSize" := 1.8, "uranusSize" := 1.6, "neptuneSize" := 1.5,
    "mercuryOrbit" := 8.0, "venusOrbit" := 13.0, "earthOrbit" := 18.0, "marsOrbit" := 26.0,
    "jupiterOrbit" := 52.0, "saturnOrbit" := 64.0, "uranusOrbit" := 76.0, "neptuneOrbit" := 88.0,
    "mercurySpeed" := 0.02, "venusSpeed" := 0.015, "earthSpeed" := 0.01, "marsSpeed" := 0.008,
    "jupiterSpeed" := 0.005, "saturnSpeed" := 0.004, "uranusSpeed" := 0.003, "neptuneSpeed" := 0.002,
    "mercuryRotation" := 0.004, "venusRotation" := -0.002, "earthRotation" := 0.01,
    "marsRotation" := 0.009, "jupiterRotation" := 0.02, "saturnRotation" := 0.018,
    "uranusRotation" := 0.012, "neptuneRotation" := 0.011,
    "timeScale" := 1.0, "ambientLight" := 0.5, "starfieldDensity" := 1000.0
  ]

  /** The table `resetToDefaults` writes, listed a second time in the source. */
  const ResetValues: map<string, real> := map[
    "sunSize" := 4.0, "sunRotationSpeed" := 0.01,
    "mercurySize" := 0.38, "venusSize" := 0.95, "earthSize" := 1.0, "marsSize" := 0.53,
    "jupiterSize" := 2.2, "saturnSize" := 1.8, "uranusSize" := 1.6, "neptuneSize" := 1.5,
    "mercuryOrbit" := 8.0, "venusOrbit" := 13.0, "earthOrbit" := 18.0, "marsOrbit" := 26.0,
    "jupiterOrbit" := 52.0, "saturnOrbit" := 64.0, "uranusOrbit" := 76.0, "neptuneOrbit" := 88.0,
    "mercurySpeed" := 0.02, "venusSpeed" := 0.015, "earthSpeed" := 0.01, "marsSpeed" := 0.008,
    "jupiterSpeed" := 0.005, "saturnSpeed" := 0.004, "uranusSpeed" := 0.003, "neptuneSpeed" := 0.002,
    "mercuryRotation" := 0.004, "venusRotation" := -0.002, "earthRotation" := 0.01,
    "marsRotation" := 0.009, "jupiterRotation" := 0.02, "saturnRotation" := 0.018,
    "uranusRotation" := 0.012, "neptuneRotation" := 0.011,
    "timeScale" := 1.0, "ambientLight" := 0.5, "starfieldDensity" := 1000.0
  ]

  /** The keys of the default table, in the order the source lists them. */
  const DefaultKeys: seq<string> := [
    "sunSize", "sunRotationSpeed",
    "mercurySize", "venusSize", "earthSize", "marsSize",
    "jupiterSize", "saturnSize", "uranusSize", "neptuneSize",
    "mercuryOrbit", "venusOrbit", "earthOrbit", "marsOrbit",
    "jupiterOrbit", "saturnOrbit", "uranusOrbit", "neptuneOrbit",
    "mercurySpeed", "venusSpeed", "earthSpeed", "marsSpeed",
    "jupiterSpeed", "saturnSpeed", "uranusSpeed", "neptuneSpeed",
    "mercuryRotation", "venusRotation", "earthRotation", "marsRotation",
    "jupiterRotation", "saturnRotation", "uranusRotation", "neptuneRotation",
    "timeScale", "ambientLight", "starfieldDensity"
  ]

  // The 666 pairs of default keys are compared in three batches, which
  // keeps each proof small.

  lemma FirstHalfDistinct()
    ensures |DefaultKeys| == 37
    ensures forall a, b :: 0 <= a < b < 18 ==> DefaultKeys[a] != DefaultKeys[b]
  {
  }

  lemma SecondHalfDistinct()
    ensures |DefaultKeys| == 37
    ensures forall a, b :: 18 <= a < b < 37 ==> DefaultKeys[a] != DefaultKeys[b]
  {
  }

  lemma HalvesDisjoint()
    ensures |DefaultKeys| == 37
    ensures forall a, b :: 0 <= a < 18 <= b < 37 ==> DefaultKeys[a] != DefaultKeys[b]
  {
  }

  /** The list of default keys names 37 keys, none twice. */
  lemma DefaultKeysDistinct()
    ensures |DefaultKeys| == 37 && Distinct(DefaultKeys)
  {
    FirstHalfDistinct();
    SecondHalfDistinct();
    HalvesDisjoint();
  }

  /** The initial table is keyed by exactly the listed keys. */
  lemma InitialKeys()
    ensures InitialValues.Keys == set k | k in DefaultKeys
  {
  }

  /** The initial table has exactly 37 entries. */
  lemma InitialCount()
    ensures |InitialValues| == 37
  {
    InitialKeys();
    DefaultKeysDistinct();
    DistinctKeysCount(DefaultKeys);
    assert |InitialValues| == |InitialValues.Keys|;
  }

  /** The reset table is the same table as the initial one. */
  lemma ResetIsInitial()
    ensures ResetValues == InitialValues
  {
  }

  /** The provider's updater `prev => ({...prev, [key]: value})`: the key is
      set (added when missing) and every other key keeps its value. */
  function Updated(prev: map<string, real>, key: string, value: real): (next: map<string, real>)
    ensures key in next && next[key] == value
    ensures next.Keys == prev.Keys + {key}
    ensures forall k :: k in prev && k != key ==> next[k] == prev[k]
  {
    prev[key := value]
  }

  /** The provider's state: the current `values` table, replaced as a whole by
      each update and by a reset. */
  class PlaygroundStore {
    var values: map<string, real>

    constructor()
      ensures values == InitialValues
    {
      values := InitialValues;
    }

    /** `updateValue(key, value)`. */
    method UpdateValue(key: string, value: real)
      modifies this
      ensures values == Updated(old(values), key, value)
    {
      values := Updated(values, key, value);
    }

    /** `resetToDefaults()`: the whole table, including added keys, is
        replaced by the default table. */
    method ResetToDefaults()
      modifies this
      ensures values == ResetValues
    {
      values := ResetValues;
    }
  }

  /** One call a consumer of the store can make. */
  datatype Action = Update(key: string, value: real) | Reset

  /** The table after one action. */
  function Step(values: map<string, real>, a: Action): map<string, real> {
    match a
    case Update(key, value) => Updated(values, key, value)
    case Reset => ResetValues
  }

  /** The table after a sequence of actions, in order. */
  function Run(values: map<string, real>, actions: seq<Action>): map<string, real>
    decreases |actions|
  {
    if actions == [] then values else Run(Step(values, actions[0]), actions[1..])
  }

  /** Running two sequences one after the other is running their
      concatenation. */
  lemma {:induction false} RunAppend(values: map<string, real>, first: seq<Action>, second: seq<Action>)
    ensures Run(values, first + second) == Run(Run(values, first), second)
    decreases |first|
  {
    if first == [] {
      assert first + second == second;
    } else {
      assert (first + second)[1..] == first[1..] + second;
      RunAppend(Step(values, first[0]), first[1..], second);
    }
  }

  /** Whatever happened before, the table right after a reset is the initial
      table again, so the store behaves from there on as a fresh one. */
  lemma ResetForgetsHistory(values: map<string, real>, before: seq<Action>, after: seq<Action>)
    ensures Run(values, before + [Reset] + after) == Run(InitialValues, after)
  {
    RunAppend(values, before + [Reset], after);
    RunAppend(values, before, [Reset]);
    ResetIsInitial();
  }

  /** Resetting twice is resetting once. */
  lemma ResetIdempotent(values: map<string, real>)
    ensures Step(Step(values, Reset), Reset) == Step(values, Reset)
    ensures Step(values, Reset) == InitialValues
  {
    ResetIsInitial();
  }

  /** No sequence of updates and resets ever loses one of the default keys:
      updates only add keys and a reset restores all of them. */
  lemma {:induction false} DefaultKeysNeverLost(values: map<string, real>, actions: seq<Action>)
    requires InitialValues.Keys <= values.Keys
    ensures InitialValues.Keys <= Run(values, actions).Keys
    decreases |actions|
  {
    if actions != [] {
      ResetIsInitial();
      DefaultKeysNeverLost(Step(values, actions[0]), actions[1..]);
    }
  }

  /** A key that no update in the sequence names, and that no reset touches,
      keeps its value through the whole sequence. */
  lemma {:induction false} UntouchedKeyKeepsValue(values: map<string, real>, actions: seq<Action>, key: string)
    requires key in values
    requires forall i :: 0 <= i < |actions| ==> actions[i].Update? && actions[i].key != key
    ensures key in Run(values, actions) && Run(values, actions)[key] == values[key]
    decreases |actions|
  {
    if actions != [] {
      UntouchedKeyKeepsValue(Step(values, actions[0]), actions[1..], key);
    }
  }

  /** Of two updates of the same key only the later one is seen. */
  lemma LastWriteWins(values: map<string, real>, key: string, first: real, second: real)
    ensures Updated(Updated(values, key, first), key, second) == Updated(values, key, second)
  {
  }

  /** Updates of two different keys may be made in either order. */
  lemma UpdatesOfDistinctKeysCommute(values: map<string, real>, k1: string, v1: real, k2: string, v2: real)
    requires k1 != k2
    ensures Updated(Updated(values, k1, v1), k2, v2) == Updated(Updated(values, k2, v2), k1, v1)
  {
  }

  /** The message `usePlayground` throws outside a provider. */
  const NoProviderMessage: string := "usePlayground must be used within a PlaygroundProvider"

  /** `usePlayground()`: the provider's value when there is one, the error
      otherwise. `None` stands for the context's missing (undefined) value. */
  function UsePlayground<T>(context: Option<T>): (r: Result<T, string>)
    ensures r.Success? <==> context.Some?
    ensures r.Success? ==> r.value == context.value
    ensures r.Failure? ==> r.error == NoProviderMessage
  {
    match context
    case None => Failure(NoProviderMessage)
    case Some(value) => Success(value)
  }
}
