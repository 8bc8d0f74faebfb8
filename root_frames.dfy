/** The length of the whole video (src/Root.tsx): the scenes' frames added
    up, less the frames where a scene's incoming transition overlaps the
    scene before it. */
module RootFrames {
  import opened Common
  import opened MediaTypes
  import ToSceneSequence

  /** A scene's incoming transition as the renderer reads it; `duration` is optional there. */
  datatype Overlap = Overlap(kind: TransitionType, duration: Option<int>)

  /** The two fields of a renderer scene that the total depends on. */
  datatype SceneTiming = SceneTiming(durationInFrames: int, transition: Option<Overlap>)

  const DefaultOverlap := 15

  /** The timing of a scene the converter produced, whose transitions always carry a duration. */
  function TimingOf(s: ToSceneSequence.Scene): (r: SceneTiming)
    ensures r.durationInFrames == s.durationInFrames
    ensures r.transition.Some? <==> s.transition.Some?
    ensures r.transition.Some? ==> r.transition.value.duration == Some(s.transition.value.duration)
  {
    SceneTiming(s.durationInFrames,
                if s.transition.Some? then Some(Overlap(s.transition.value.kind, Some(s.transition.value.duration)))
                else None)
  }

  /** The frames scene `index` gives back to the one before it: its
      transition's duration (15 when unset), unless it is the first scene or
      has no transition or the `none` transition. */
  function OverlapAt(s: SceneTiming, index: nat): (r: int)
    ensures index == 0 || s.transition.None? || s.transition.value.kind == NoTransition ==> r == 0
    ensures index > 0 && s.transition.Some? && s.transition.value.kind != NoTransition ==>
              r == (if s.transition.value.duration.Some? then s.transition.value.duration.value else DefaultOverlap)
  {
    if index > 0 && s.transition.Some? && s.transition.value.kind != NoTransition then
      (if s.transition.value.duration.Some? then s.transition.value.duration.value else DefaultOverlap)
    else 0
  }

  /** The `reduce` over the scenes in order, starting from 0. */
  function TotalFrames(scenes: seq<SceneTiming>): (r: int)
    ensures scenes == [] ==> r == 0
    decreases |scenes|
  {
    if scenes == [] then 0
    else
      var last := |scenes| - 1;
      TotalFrames(scenes[..last]) + (scenes[last].durationInFrames - OverlapAt(scenes[last], last))
  }

  // ── The reference sums ──

  function SumDurations(scenes: seq<SceneTiming>): int
  {
    if scenes == [] then 0 else scenes[0].durationInFrames + SumDurations(scenes[1..])
  }

  /** The overlaps of `scenes`, whose first element sits at position `from`. */
  function SumOverlaps(scenes: seq<SceneTiming>, from: nat): int
  {
    if scenes == [] then 0 else OverlapAt(scenes[0], from) + SumOverlaps(scenes[1..], from + 1)
  }

  lemma {:induction false} SumsAppend(scenes: seq<SceneTiming>, s: SceneTiming, from: nat)
    ensures SumDurations(scenes + [s]) == SumDurations(scenes) + s.durationInFrames
    ensures SumOverlaps(scenes + [s], from) == SumOverlaps(scenes, from) + OverlapAt(s, from + |scenes|)
  {
    if scenes != [] {
      assert (scenes + [s])[1..] == scenes[1..] + [s];
      SumsAppend(scenes[1..], s, from + 1);
    }
  }

  /** The total is the sum of the scene durations less the sum of the overlaps. */
  lemma {:induction false} TotalFramesIsSumLessOverlaps(scenes: seq<SceneTiming>)
    ensures TotalFrames(scenes) == SumDurations(scenes) - SumOverlaps(scenes, 0)
    decreases |scenes|
  {
    if scenes != [] {
      var last := |scenes| - 1;
      TotalFramesIsSumLessOverlaps(scenes[..last]);
      SumsAppend(scenes[..last], scenes[last], 0);
      assert scenes[..last] + [scenes[last]] == scenes;
    }
  }

  /** The first scene's transition never counts, whatever it is. */
  lemma FirstTransitionIgnored(scenes: seq<SceneTiming>, t: Option<Overlap>)
    requires scenes != []
    ensures TotalFrames([scenes[0].(transition := t)] + scenes[1..]) == TotalFrames(scenes)
  {
    var other := [scenes[0].(transition := t)] + scenes[1..];
    assert other[1..] == scenes[1..];
    TotalFramesIsSumLessOverlaps(scenes);
    TotalFramesIsSumLessOverlaps(other);
  }

  predicate NonNegativeOverlaps(scenes: seq<SceneTiming>)
  {
    forall i :: 0 <= i < |scenes| && scenes[i].transition.Some? && scenes[i].transition.value.duration.Some? ==>
      scenes[i].transition.value.duration.value >= 0
  }

  lemma {:induction false} OverlapsNonNegative(scenes: seq<SceneTiming>, from: nat)
    requires NonNegativeOverlaps(scenes)
    ensures SumOverlaps(scenes, from) >= 0
    decreases |scenes|
  {
    if scenes != [] {
      OverlapsNonNegative(scenes[1..], from + 1);
    }
  }

  /** With no negative transition durations, overlaps only shorten the video. */
  lemma TotalAtMostSum(scenes: seq<SceneTiming>)
    requires NonNegativeOverlaps(scenes)
    ensures TotalFrames(scenes) <= SumDurations(scenes)
  {
    TotalFramesIsSumLessOverlaps(scenes);
    OverlapsNonNegative(scenes, 0);
  }
}
