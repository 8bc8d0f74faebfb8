/** The converter from composed scenes to the renderer's sequence document
    (src/composer/to-scene-sequence.ts): presets and easings are renamed,
    seconds become frames, and every scene and element gets its id. */
module ToSceneSequence {
  import opened Common
  import opened MediaTypes
  import opened ComposerTypes
  import Composer
  import AssetMatcher
  import ElementBuilders

  // ── The renderer's document (src/types/index.ts) ──

  datatype AnimationConfig = AnimationConfig(preset: AnimationPreset, duration: int, easing: Option<EasingName>)

  datatype SceneElement = SceneElement(
    id: string,
    component: string,
    props: ElementProps,
    startFrame: int,
    durationInFrames: Option<int>,
    animation: AnimationConfig,
    containerStyle: Option<Style>)

  datatype TransitionConfig = TransitionConfig(kind: TransitionType, duration: int, color: Option<string>)

  datatype Scene = Scene(
    id: string,
    title: string,
    durationInFrames: int,
    background: BackgroundConfig,
    transition: Option<TransitionConfig>,
    elements: seq<SceneElement>,
    cameraMotion: Option<CameraMotionConfig>)

  datatype SceneSequence = SceneSequence(id: string, title: string, fps: int, width: int, height: int, scenes: seq<Scene>)

  /** `ToSequenceOptions`; a missing optional field is `None`. */
  datatype SequenceOptions = SequenceOptions(id: string, title: string, fps: Option<int>, width: Option<int>, height: Option<int>)

  const DefaultFps := 30
  const DefaultWidth := 1920
  const DefaultHeight := 1080

  /** The style every non-subtitle element is centred with. */
  const CenteredFlex: Style :=
    map["display" := "flex", "justifyContent" := "center", "alignItems" := "center",
        "width" := "100%", "height" := "100%"]

  // ── Presets and easings ──

  /** The serialised name of a renderer preset. */
  function PresetName(p: AnimationPreset): string
  {
    match p
    case ScaleIn => "scale_in"
    case FadeIn => "fade_in"
    case SlideUp => "slide_up"
    case SlideLeft => "slide_left"
    case SlideRight => "slide_right"
    case SlideLeftFar => "slide_left_far"
    case SlideRightFar => "slide_right_far"
    case ExitLeftFar => "exit_left_far"
    case ExitRightFar => "exit_right_far"
    case BounceIn => "bounce_in"
    case PopIn => "pop_in"
    case CircleReveal => "circle_reveal"
    case SpringUp => "spring_up"
    case NoPreset => "none"
  }

  /** The composer's enter-animation names that `ANIMATION_PRESET_MAP` lists. */
  const PresetKeys: seq<string> :=
    ["scale_in", "fade_in", "bounce_in", "slide_in", "slide_up", "draw_line", "count_up", "pop_in", "circle_reveal"]

  /** The renderer presets the converter can produce. */
  predicate IsConvertedPreset(p: AnimationPreset)
  {
    p == ScaleIn || p == FadeIn || p == AnimationPreset.BounceIn || p == AnimationPreset.SlideUp || p == PopIn || p == CircleReveal
  }

  /** `mapPreset`: the table entry, `fade_in` for a name the table lacks. */
  function MapPreset(name: string): (r: AnimationPreset)
    ensures IsConvertedPreset(r)
    ensures name !in PresetKeys ==> r == FadeIn
    ensures name == "slide_in" ==> r == AnimationPreset.SlideUp
    ensures name == "draw_line" || name == "count_up" ==> r == FadeIn
  {
    if name == "scale_in" then ScaleIn
    else if name == "fade_in" then FadeIn
    else if name == "bounce_in" then AnimationPreset.BounceIn
    else if name == "slide_in" then AnimationPreset.SlideUp
    else if name == "slide_up" then AnimationPreset.SlideUp
    else if name == "draw_line" then FadeIn
    else if name == "count_up" then FadeIn
    else if name == "pop_in" then PopIn
    else if name == "circle_reveal" then CircleReveal
    else FadeIn
  }

  /** Every preset the converter produces is kept under its own name, so
      converting an already-converted name changes nothing. */
  lemma MapPresetKeepsOwnNames(p: AnimationPreset)
    requires IsConvertedPreset(p)
    ensures MapPreset(PresetName(p)) == p
  {
  }

  /** The composer's easing constant names that `EASING_MAP` lists. */
  const EasingKeys: seq<string> := ["KURZGESAGT", "BOUNCE_IN", "SNAP", "SMOOTH_OUT"]

  /** `mapEasing`: nothing for a missing or empty name, the table entry, or
      `kurzgesagt` for a name the table lacks. */
  function MapEasing(easing: Option<string>): (r: Option<EasingName>)
    ensures r.None? <==> easing.None? || easing.value == ""
    ensures r.Some? ==> r.value in {Kurzgesagt, EasingName.BounceIn, Snap, SmoothOut}
    ensures easing.Some? && easing.value != "" && easing.value !in EasingKeys ==> r == Some(Kurzgesagt)
  {
    if easing.None? || easing.value == "" then None
    else if easing.value == "KURZGESAGT" then Some(Kurzgesagt)
    else if easing.value == "BOUNCE_IN" then Some(EasingName.BounceIn)
    else if easing.value == "SNAP" then Some(Snap)
    else if easing.value == "SMOOTH_OUT" then Some(SmoothOut)
    else Some(Kurzgesagt)
  }

  // ── Elements ──

  /** `el-${index}-${component.toLowerCase()}` */
  function ElementId(index: nat, component: string): (r: string)
    ensures |r| == 4 + |NatToString(index)| + |component|
    ensures r[..3] == "el-" && r[3..3 + |NatToString(index)|] == NatToString(index)
  {
    "el-" + NatToString(index) + "-" + LowerCase(component)
  }

  /** `convertElement`: the composed element under its renderer names. */
  function ConvertElement(el: ComposedElement, index: nat): (r: SceneElement)
    ensures r.id == ElementId(index, el.component)
    ensures r.component == el.component && r.props == el.props
    ensures r.startFrame == el.enterAt && r.durationInFrames == el.durationInFrames
    ensures r.animation.preset == MapPreset(el.animation.enter.kind)
    ensures r.animation.duration == el.animation.enter.durationInFrames
    ensures r.animation.easing == MapEasing(el.animation.enter.easing)
    ensures r.containerStyle.None? <==> el.component == "Subtitle"
  {
    SceneElement(
      ElementId(index, el.component), el.component, el.props, el.enterAt, el.durationInFrames,
      AnimationConfig(MapPreset(el.animation.enter.kind), el.animation.enter.durationInFrames,
                      MapEasing(el.animation.enter.easing)),
      if el.component == "Subtitle" then None else Some(CenteredFlex))
  }

  /** The digits of a printed number never contain `-`. */
  lemma DigitsHaveNoDash(s: string, k: int)
    requires AllDigits(s) && 0 <= k < |s|
    ensures s[k] != '-'
  {
    assert IsDigit(s[k]);
  }

  /** Element ids tell element positions apart, whatever the components. */
  lemma ElementIdsDistinct(i: nat, j: nat, a: string, b: string)
    requires i != j
    ensures ElementId(i, a) != ElementId(j, b)
  {
    var di, dj := NatToString(i), NatToString(j);
    var x, y := ElementId(i, a), ElementId(j, b);
    if x == y {
      if |di| < |dj| {
        DigitsHaveNoDash(dj, |di|);
      } else if |dj| < |di| {
        DigitsHaveNoDash(di, |dj|);
      }
      assert di == x[3..3 + |di|] == y[3..3 + |dj|] == dj;
      NatToStringInjective(i, j);
    }
  }

  // ── Scenes ──

  /** `scene-${index + 1}` */
  function SceneId(index: nat): (r: string)
    ensures |r| == 6 + |NatToString(index + 1)|
    ensures r[..6] == "scene-" && r[6..] == NatToString(index + 1)
  {
    "scene-" + NatToString(index + 1)
  }

  lemma SceneIdsDistinct(i: nat, j: nat)
    requires i != j
    ensures SceneId(i) != SceneId(j)
  {
    if SceneId(i) == SceneId(j) {
      assert NatToString(i + 1) == SceneId(i)[6..] == SceneId(j)[6..] == NatToString(j + 1);
      NatToStringInjective(i + 1, j + 1);
    }
  }

  /** The optional `color` spread in only when it is truthy (a non-empty string). */
  function TruthyColor(color: Option<string>): (r: Option<string>)
    ensures r.Some? <==> color.Some? && color.value != ""
    ensures r.Some? ==> r == color
  {
    if color.Some? && color.value != "" then color else None
  }

  function ConvertTransition(t: Option<TransitionSpec>): (r: Option<TransitionConfig>)
    ensures r.Some? <==> t.Some?
    ensures r.Some? ==> r.value.kind == t.value.kind && r.value.duration == t.value.durationInFrames
                        && r.value.color == TruthyColor(t.value.color)
  {
    if t.Some? then Some(TransitionConfig(t.value.kind, t.value.durationInFrames, TruthyColor(t.value.color)))
    else None
  }

  /** The elements converted one by one, each with its position as index. */
  function ConvertElements(els: seq<ComposedElement>): (r: seq<SceneElement>)
    ensures |r| == |els|
    ensures forall i :: 0 <= i < |els| ==> r[i] == ConvertElement(els[i], i)
  {
    seq(|els|, i requires 0 <= i < |els| => ConvertElement(els[i], i))
  }

  /** `convertScene`: only the background's type and colour are carried over. */
  function ConvertScene(composed: ComposedScene, index: nat, durationSec: real, fps: int, title: string): (r: Scene)
    ensures r.id == SceneId(index) && r.title == title
    ensures r.durationInFrames == Composer.Round(durationSec * fps as real)
    ensures r.background == BackgroundConfig(composed.background.kind, composed.background.color, None, None)
    ensures r.transition == ConvertTransition(composed.transition)
    ensures r.elements == ConvertElements(composed.elements)
    ensures r.cameraMotion == composed.cameraMotion
  {
    Scene(SceneId(index), title, Composer.Round(durationSec * fps as real),
          BackgroundConfig(composed.background.kind, composed.background.color, None, None),
          ConvertTransition(composed.transition), ConvertElements(composed.elements), composed.cameraMotion)
  }

  /** `titles[i] ?? \`Scene ${i + 1}\``: a title past the end of the list is the default. */
  function SceneTitle(titles: seq<string>, i: nat): (r: string)
    ensures i < |titles| ==> r == titles[i]
    ensures i >= |titles| ==> r == "Scene " + NatToString(i + 1)
  {
    if i < |titles| then titles[i] else "Scene " + NatToString(i + 1)
  }

  function OptionOr(o: Option<int>, default: int): (r: int)
    ensures o.Some? ==> r == o.value
    ensures o.None? ==> r == default
  {
    if o.Some? then o.value else default
  }

  /** `toSceneSequence`. `durations[i]` is read for every scene. */
  function Convert(composed: seq<ComposedScene>, durations: seq<real>, titles: seq<string>,
                   options: SequenceOptions): (r: SceneSequence)
    requires |durations| >= |composed|
    ensures r.id == options.id && r.title == options.title
    ensures r.fps == OptionOr(options.fps, DefaultFps)
    ensures r.width == OptionOr(options.width, DefaultWidth) && r.height == OptionOr(options.height, DefaultHeight)
    ensures |r.scenes| == |composed|
    ensures forall i :: 0 <= i < |composed| ==>
              r.scenes[i] == ConvertScene(composed[i], i, durations[i], r.fps, SceneTitle(titles, i))
  {
    var fps := OptionOr(options.fps, DefaultFps);
    SceneSequence(options.id, options.title, fps, OptionOr(options.width, DefaultWidth),
                  OptionOr(options.height, DefaultHeight),
                  seq(|composed|, i requires 0 <= i < |composed| =>
                        ConvertScene(composed[i], i, durations[i], fps, SceneTitle(titles, i))))
  }

  // ── Properties of the whole document ──

  /** Scene ids are `scene-1`, `scene-2`, … and pairwise distinct. */
  lemma ConvertSceneIds(composed: seq<ComposedScene>, durations: seq<real>, titles: seq<string>,
                        options: SequenceOptions, i: nat, j: nat)
    requires |durations| >= |composed|
    requires i < |composed| && j < |composed| && i != j
    ensures var r := Convert(composed, durations, titles, options);
      r.scenes[i].id == "scene-" + NatToString(i + 1) && r.scenes[i].id != r.scenes[j].id
  {
    SceneIdsDistinct(i, j);
  }

  /** Within a scene, elements keep count and order, start where they entered,
      have pairwise distinct ids, and only the subtitle goes without a style. */
  lemma ConvertSceneElements(composed: ComposedScene, index: nat, durationSec: real, fps: int, title: string,
                             k: nat, m: nat)
    requires k < |composed.elements| && m < |composed.elements| && k != m
    ensures var es := ConvertScene(composed, index, durationSec, fps, title).elements;
      && |es| == |composed.elements|
      && es[k].component == composed.elements[k].component
      && es[k].startFrame == composed.elements[k].enterAt
      && (es[k].containerStyle.None? <==> composed.elements[k].component == "Subtitle")
      && es[k].id != es[m].id
  {
    ElementIdsDistinct(k, m, composed.elements[k].component, composed.elements[m].component);
  }

  /** The converted elements end with the narration's subtitle, the one
      element without a container style. */
  predicate EndsWithSubtitle(es: seq<SceneElement>, narration: string)
  {
    && |es| >= 1
    && es[|es| - 1].component == "Subtitle"
    && es[|es| - 1].props == SubtitleProps(narration)
    && (forall k :: 0 <= k < |es| ==> (es[k].containerStyle.None? <==> k == |es| - 1))
  }

  /** End to end: converting the composer's output gives one scene per
      section; the last has no transition, and each ends with the section's
      subtitle, the one element without a container style. */
  lemma ConvertComposedSequence(registry: seq<AssetMatcher.AssetEntry>, camera: Composer.CameraRule,
                                sections: seq<ScriptSection>, fps: nat, palette: seq<string>,
                                composed: seq<ComposedScene>, durations: seq<real>,
                                titles: seq<string>, options: SequenceOptions, i: nat)
    requires composed == Composer.ComposeUpTo(registry, camera, sections, fps, palette, |sections|).scenes
    requires |durations| == |sections| && i < |sections|
    ensures var r := Convert(composed, durations, titles, options);
      var es := r.scenes[i].elements;
      && |r.scenes| == |sections|
      && (i == |sections| - 1 ==> r.scenes[i].transition.None?)
      && EndsWithSubtitle(es, sections[i].narration)
  {
    ComposedSubtitleLast(registry, camera, sections, fps, palette, i);
    ConvertedSceneSubtitleLast(composed, durations, titles, options, i, sections[i].narration);
  }

  /** The converter's side of the end-to-end property. */
  lemma ConvertedSceneSubtitleLast(composed: seq<ComposedScene>, durations: seq<real>, titles: seq<string>,
                                   options: SequenceOptions, i: nat, narration: string)
    requires |durations| >= |composed| && i < |composed|
    requires var ce := composed[i].elements;
      |ce| >= 1 && ce[|ce| - 1] == ElementBuilders.SubtitleElement(narration)
      && ElementBuilders.NoSubtitle(ce[..|ce| - 1])
    ensures var r := Convert(composed, durations, titles, options);
      var es := r.scenes[i].elements;
      && (composed[i].transition.None? ==> r.scenes[i].transition.None?)
      && EndsWithSubtitle(es, narration)
  {
    ConvertSubtitleLast(composed[i].elements, narration);
    var r := Convert(composed, durations, titles, options);
    assert r.scenes[i] == ConvertScene(composed[i], i, durations[i], r.fps, SceneTitle(titles, i));
  }

  /** The composer's side of the end-to-end property. */
  lemma ComposedSubtitleLast(registry: seq<AssetMatcher.AssetEntry>, camera: Composer.CameraRule,
                             sections: seq<ScriptSection>, fps: nat, palette: seq<string>, i: nat)
    requires i < |sections|
    ensures var scenes := Composer.ComposeUpTo(registry, camera, sections, fps, palette, |sections|).scenes;
      var ce := scenes[i].elements;
      && |scenes| == |sections|
      && (i == |sections| - 1 ==> scenes[i].transition.None?)
      && |ce| >= 1 && ce[|ce| - 1] == ElementBuilders.SubtitleElement(sections[i].narration)
      && ElementBuilders.NoSubtitle(ce[..|ce| - 1])
  {
    Composer.ComposeSequenceTransitions(registry, camera, sections, fps, palette, i);
    Composer.ComposeSequenceElements(registry, camera, sections, fps, palette, i);
  }

  /** A list that ends with its only subtitle converts to one whose last
      element alone goes without a container style. */
  lemma ConvertSubtitleLast(ce: seq<ComposedElement>, narration: string)
    requires |ce| >= 1 && ce[|ce| - 1] == ElementBuilders.SubtitleElement(narration)
    requires ElementBuilders.NoSubtitle(ce[..|ce| - 1])
    ensures var es := ConvertElements(ce);
      EndsWithSubtitle(es, narration)
  {
    var es := ConvertElements(ce);
    forall k | 0 <= k < |es|
      ensures es[k].containerStyle.None? <==> k == |es| - 1
    {
      if k < |ce| - 1 {
        assert ce[k] == ce[..|ce| - 1][k];
        assert ce[k].component != "Subtitle";
      }
    }
  }
}
