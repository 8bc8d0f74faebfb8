/** The fold at the heart of composeSequenceSync (src/composer/composer.ts):
    scenes are composed one section at a time, and each step sees the
    transition type of the scene before it and the asset ids recorded from
    every earlier scene. The step itself is a parameter here, so the facts
    below hold for any scene builder; the composer instantiates it. */
module SequenceFold {
  import opened Common
  import opened MediaTypes
  import opened ComposerTypes

  /** `scene.transition?.type ?? null` */
  function TransitionKind(t: Option<TransitionSpec>): (r: Option<TransitionType>)
    ensures r.None? <==> t.None?
    ensures r.Some? ==> r.value == t.value.kind
  {
    if t.Some? then Some(t.value.kind) else None
  }

  /** The loop's state: the scenes so far, `prevTransition` and `globalUsedIds`. */
  datatype FoldState = FoldState(scenes: seq<ComposedScene>, prev: Option<TransitionType>, used: set<string>)

  /** The scene of a section, given its index, the previous transition type and the ids used so far. */
  type SceneStep = (ScriptSection, nat, Option<TransitionType>, set<string>) -> ComposedScene

  /** The ids recorded from a scene's elements. */
  type UsedRule = seq<ComposedElement> -> set<string>

  /** The state after the first `n` sections. */
  function Fold(step: SceneStep, usedOf: UsedRule, sections: seq<ScriptSection>, n: nat): FoldState
    requires n <= |sections|
  {
    if n == 0 then FoldState([], None, {})
    else
      var st := Fold(step, usedOf, sections, n - 1);
      var scene := step(sections[n - 1], n - 1, st.prev, st.used);
      FoldState(st.scenes + [scene], TransitionKind(scene.transition), st.used + usedOf(scene.elements))
  }

  /** One scene per section; the carried transition type is the last scene's (none at the start). */
  lemma {:induction false} FoldLength(step: SceneStep, usedOf: UsedRule, sections: seq<ScriptSection>, n: nat)
    requires n <= |sections|
    ensures var st := Fold(step, usedOf, sections, n);
      |st.scenes| == n &&
      (n > 0 ==> st.prev == TransitionKind(st.scenes[n - 1].transition)) &&
      (n == 0 ==> st.prev.None?)
  {
    if n > 0 {
      FoldLength(step, usedOf, sections, n - 1);
    }
  }

  /** Later steps only append: the scenes after `m` sections are a prefix of those after `n`. */
  lemma {:induction false} FoldPrefix(step: SceneStep, usedOf: UsedRule, sections: seq<ScriptSection>, m: nat, n: nat)
    requires m <= n <= |sections|
    ensures |Fold(step, usedOf, sections, n).scenes| == n
    ensures Fold(step, usedOf, sections, m).scenes == Fold(step, usedOf, sections, n).scenes[..m]
    decreases n
  {
    FoldLength(step, usedOf, sections, n);
    if m < n {
      FoldPrefix(step, usedOf, sections, m, n - 1);
      FoldLength(step, usedOf, sections, n - 1);
      var prior := Fold(step, usedOf, sections, n - 1).scenes;
      assert Fold(step, usedOf, sections, n).scenes[..m] == prior[..m];
    }
  }

  /** Scene `i` is the step applied to section `i` and the state reached before it. */
  lemma FoldScene(step: SceneStep, usedOf: UsedRule, sections: seq<ScriptSection>, i: nat, n: nat)
    requires i < n <= |sections|
    ensures var st := Fold(step, usedOf, sections, i);
      |Fold(step, usedOf, sections, n).scenes| == n &&
      Fold(step, usedOf, sections, n).scenes[i] == step(sections[i], i, st.prev, st.used)
  {
    FoldLength(step, usedOf, sections, n);
    FoldPrefix(step, usedOf, sections, i + 1, n);
    FoldLength(step, usedOf, sections, i);
    assert Fold(step, usedOf, sections, i + 1).scenes[i] == Fold(step, usedOf, sections, n).scenes[i];
  }

  /** The transition type carried into section `i` is that of scene `i - 1`, none for the first. */
  lemma FoldPrev(step: SceneStep, usedOf: UsedRule, sections: seq<ScriptSection>, i: nat, n: nat)
    requires i < n <= |sections|
    ensures |Fold(step, usedOf, sections, n).scenes| == n
    ensures Fold(step, usedOf, sections, i).prev ==
              if i == 0 then None else TransitionKind(Fold(step, usedOf, sections, n).scenes[i - 1].transition)
  {
    FoldLength(step, usedOf, sections, i);
    FoldPrefix(step, usedOf, sections, i, n);
    if i > 0 {
      assert Fold(step, usedOf, sections, i).scenes[i - 1] == Fold(step, usedOf, sections, n).scenes[i - 1];
    }
  }

  /** The ids carried into section `n` are exactly those recorded from the scenes before it. */
  lemma {:induction false} FoldUsed(step: SceneStep, usedOf: UsedRule, sections: seq<ScriptSection>, n: nat)
    requires n <= |sections|
    ensures |Fold(step, usedOf, sections, n).scenes| == n
    ensures var st := Fold(step, usedOf, sections, n);
      forall id :: id in st.used <==> exists j :: 0 <= j < n && id in usedOf(st.scenes[j].elements)
  {
    FoldLength(step, usedOf, sections, n);
    if n > 0 {
      FoldUsed(step, usedOf, sections, n - 1);
      var prior := Fold(step, usedOf, sections, n - 1);
      var st := Fold(step, usedOf, sections, n);
      assert st.scenes == prior.scenes + [st.scenes[n - 1]];
      forall id ensures id in st.used <==> exists j :: 0 <= j < n && id in usedOf(st.scenes[j].elements) {
        if id in prior.used {
          var j :| 0 <= j < n - 1 && id in usedOf(prior.scenes[j].elements);
          assert st.scenes[j] == prior.scenes[j];
        }
        if exists j :: 0 <= j < n && id in usedOf(st.scenes[j].elements) {
          var j :| 0 <= j < n && id in usedOf(st.scenes[j].elements);
          if j < n - 1 { assert st.scenes[j] == prior.scenes[j]; }
        }
      }
    }
  }
}
