/** The builder's export (builder/src/utils/scene-generator.ts): each scene
    configuration is expanded, through its preset, into a renderer scene with
    the preset's fixed elements, one element per filled slot (or the waves of
    the `accumulate` preset) and the subtitle. */
module SceneGenerator {
  import opened Common
  import opened MediaTypes
  import opened BuilderTypes
  import AssetCatalog

  // ── Output records ──

  /** The element's `props`: a plain record, or the record of a wave
      element, whose `style` is nested. */
  datatype OutProps =
    | Record(values: Props)
    | WaveProps(src: string, loop: bool, speed: real, size: int)

  datatype OutAnimation = OutAnimation(
    preset: AnimationPreset,
    duration: int,
    easing: Option<EasingName>,
    exitPreset: Option<AnimationPreset>,
    exitDuration: Option<int>)

  datatype ElementOutput = ElementOutput(
    id: string,
    component: string,
    props: OutProps,
    animation: Option<OutAnimation>,
    startFrame: Option<int>,
    durationInFrames: Option<int>,
    containerStyle: Option<Style>,
    parallax: Option<Parallax>)

  datatype TransitionOutput = TransitionOutput(kind: TransitionType, duration: int, color: Option<string>)

  datatype SceneOutput = SceneOutput(
    id: string,
    title: string,
    durationInFrames: int,
    background: BackgroundConfig,
    transition: Option<TransitionOutput>,
    elements: seq<ElementOutput>,
    cameraMotion: Option<CameraMotionConfig>)

  datatype SequenceMeta = SequenceMeta(id: string, title: string, fps: int, width: int, height: int)

  datatype SceneSequenceOutput = SceneSequenceOutput(
    id: string, title: string, fps: int, width: int, height: int, scenes: seq<SceneOutput>)

  /** `Math.random()` as a parameter: the draw made for the element of
      scene id, wave and position. */
  type SpeedSource = (string, nat, nat) -> real

  /** A wave element's playback speed from its random draw. */
  function WaveSpeed(draw: real): (r: real)
    ensures 0.0 <= draw < 1.0 ==> 0.85 <= r < 1.2
  {
    0.85 + draw * 0.35
  }

  const AccumulatePreset := "accumulate"
  const SubtitleStart := 10
  const SubtitleFade := 15
  const WaveStagger := 8

  // ── Fixed elements ──

  /** `${config.id}-fixed-${i}` and the fixed element's own fields. */
  function FixedOutput(sceneId: string, fixed: FixedElement, i: nat): (r: ElementOutput)
    ensures r.id == sceneId + "-fixed-" + NatToString(i) && r.component == fixed.component
    ensures r.props == Record(fixed.props) && r.containerStyle == fixed.containerStyle
    ensures r.animation.Some? <==> fixed.animation.Some?
    ensures r.startFrame.None? && r.durationInFrames.None? && r.parallax.None?
  {
    ElementOutput(
      sceneId + "-fixed-" + NatToString(i), fixed.component, Record(fixed.props),
      if fixed.animation.Some? then Some(OutAnimation(fixed.animation.value.preset, fixed.animation.value.duration, None, None, None))
      else None,
      None, None, fixed.containerStyle, None)
  }

  function FixedOutputs(sceneId: string, fixed: seq<FixedElement>): (r: seq<ElementOutput>)
    ensures |r| == |fixed|
    ensures forall i :: 0 <= i < |fixed| ==> r[i] == FixedOutput(sceneId, fixed[i], i)
  {
    seq(|fixed|, i requires 0 <= i < |fixed| => FixedOutput(sceneId, fixed[i], i))
  }

  // ── Slots ──

  /** `config.slotAssignments[key]` when it is truthy: a missing key, `null`
      and the empty string all count as unassigned. */
  function Assigned(assignments: map<string, Option<string>>, key: string): (r: Option<string>)
    ensures r.Some? <==> key in assignments && assignments[key].Some? && assignments[key].value != ""
    ensures r.Some? ==> r.value == assignments[key].value
  {
    if key in assignments && assignments[key].Some? && assignments[key].value != "" then assignments[key] else None
  }

  /** The `src` of a slot's element: the file itself for a static image, the
      animations directory's copy otherwise. */
  function SlotSource(component: string, file: string): (r: string)
    ensures component == "StaticImage" ==> r == file
    ensures component != "StaticImage" ==> r == "animations/" + file
  {
    if component == "StaticImage" then file else "animations/" + file
  }

  /** `{ ...slot.defaultProps, src }` */
  function SlotProps(slot: SlotDefinition, src: string): (r: Props)
    ensures "src" in r && r["src"] == Str(src)
    ensures forall k :: k != "src" ==> (k in r <==> slot.defaultProps.Some? && k in slot.defaultProps.value)
    ensures forall k :: k != "src" && k in r ==> slot.defaultProps.Some? && r[k] == slot.defaultProps.value[k]
  {
    (if slot.defaultProps.Some? then slot.defaultProps.value else map[])["src" := Str(src)]
  }

  function SlotElement(sceneId: string, slot: SlotDefinition, asset: AssetCatalog.AssetEntry): (r: ElementOutput)
    ensures r.id == sceneId + "-" + slot.id && r.component == slot.component
    ensures r.props == Record(SlotProps(slot, SlotSource(slot.component, asset.file)))
    ensures r.containerStyle == Some(slot.position) && r.parallax == slot.parallax
    ensures r.startFrame == slot.defaultStartFrame && r.durationInFrames == slot.defaultDurationInFrames
    ensures var a := slot.defaultAnimation;
      r.animation == Some(OutAnimation(a.preset, a.duration, a.easing, a.exitPreset, a.exitDuration))
  {
    var a := slot.defaultAnimation;
    ElementOutput(
      sceneId + "-" + slot.id, slot.component,
      Record(SlotProps(slot, SlotSource(slot.component, asset.file))),
      Some(OutAnimation(a.preset, a.duration, a.easing, a.exitPreset, a.exitDuration)),
      slot.defaultStartFrame, slot.defaultDurationInFrames, Some(slot.position), slot.parallax)
  }

  /** The element one slot contributes: none when its assignment is falsy or
      names no catalog entry. */
  function SlotOutput(sceneId: string, slot: SlotDefinition, assignments: map<string, Option<string>>,
                      catalog: seq<AssetCatalog.AssetEntry>): (r: seq<ElementOutput>)
    ensures |r| <= 1
    ensures r == [] <==> Assigned(assignments, slot.id).None?
                         || AssetCatalog.FindAsset(catalog, Assigned(assignments, slot.id).value).None?
    ensures r != [] ==> r[0] == SlotElement(sceneId, slot,
                                  AssetCatalog.FindAsset(catalog, Assigned(assignments, slot.id).value).value)
  {
    var assetId := Assigned(assignments, slot.id);
    if assetId.None? then []
    else
      var asset := AssetCatalog.FindAsset(catalog, assetId.value);
      if asset.None? then [] else [SlotElement(sceneId, slot, asset.value)]
  }

  /** The slot elements of `slots`, in slot order. */
  function SlotOutputs(sceneId: string, slots: seq<SlotDefinition>, assignments: map<string, Option<string>>,
                       catalog: seq<AssetCatalog.AssetEntry>): (r: seq<ElementOutput>)
    ensures |r| <= |slots|
    decreases |slots|
  {
    if slots == [] then []
    else
      SlotOutputs(sceneId, slots[..|slots| - 1], assignments, catalog)
        + SlotOutput(sceneId, slots[|slots| - 1], assignments, catalog)
  }

  /** Every slot element is the element of some slot with a catalog asset. */
  lemma {:induction false} SlotOutputsFromSlots(sceneId: string, slots: seq<SlotDefinition>,
                                                assignments: map<string, Option<string>>,
                                                catalog: seq<AssetCatalog.AssetEntry>, e: ElementOutput)
    requires e in SlotOutputs(sceneId, slots, assignments, catalog)
    ensures exists k :: 0 <= k < |slots| && SlotOutput(sceneId, slots[k], assignments, catalog) == [e]
    decreases |slots|
  {
    var n := |slots| - 1;
    var init := SlotOutputs(sceneId, slots[..n], assignments, catalog);
    var last := SlotOutput(sceneId, slots[n], assignments, catalog);
    if e in init {
      SlotOutputsFromSlots(sceneId, slots[..n], assignments, catalog, e);
      var k :| 0 <= k < n && SlotOutput(sceneId, slots[..n][k], assignments, catalog) == [e];
      assert slots[..n][k] == slots[k];
    } else {
      assert e in last;
      assert last == [e];
    }
  }

  // ── The accumulate preset ──

  datatype Wave = Wave(count: nat, startFrame: int, size: int)

  const Waves: seq<Wave> := [Wave(1, 10, 160), Wave(3, 60, 140), Wave(8, 130, 120)]

  /** The `{ top, left }` positions of each wave. */
  const WavePositions: seq<seq<(string, string)>> := [
    [("40%", "47%")],
    [("25%", "30%"), ("25%", "60%"), ("55%", "45%")],
    [("15%", "18%"), ("15%", "45%"), ("15%", "72%"), ("38%", "15%"), ("38%", "72%"),
     ("58%", "22%"), ("58%", "65%"), ("60%", "45%")]
  ]

  /** Each wave has one position per element it announces. */
  lemma WavePositionsMatchCounts()
    ensures |WavePositions| == |Waves|
    ensures forall wi :: 0 <= wi < |Waves| ==> |WavePositions[wi]| == Waves[wi].count
  {
  }

  /** Element `pi` of wave `wi`. */
  function WaveElement(sceneId: string, file: string, wi: nat, pi: nat, speed: SpeedSource): (r: ElementOutput)
    requires wi < |Waves| && pi < |WavePositions[wi]|
    ensures r.id == sceneId + "-w" + NatToString(wi + 1) + "-" + NatToString(pi + 1)
    ensures r.startFrame == Some(Waves[wi].startFrame + WaveStagger * pi)
    ensures r.animation == Some(OutAnimation(ScaleIn, if wi == 2 then 12 else 15, Some(Kurzgesagt), None, None))
    ensures r.props == WaveProps("animations/" + file, true, WaveSpeed(speed(sceneId, wi, pi)), Waves[wi].size)
  {
    var pos := WavePositions[wi][pi];
    ElementOutput(
      sceneId + "-w" + NatToString(wi + 1) + "-" + NatToString(pi + 1), "LottieElement",
      WaveProps("animations/" + file, true, WaveSpeed(speed(sceneId, wi, pi)), Waves[wi].size),
      Some(OutAnimation(ScaleIn, if wi == 2 then 12 else 15, Some(Kurzgesagt), None, None)),
      Some(Waves[wi].startFrame + WaveStagger * pi), None,
      Some(map["position" := "absolute", "top" := pos.0, "left" := pos.1]), None)
  }

  /** The first `count` elements of wave `wi`. */
  function WaveRun(sceneId: string, file: string, wi: nat, count: nat, speed: SpeedSource): (r: seq<ElementOutput>)
    requires wi < |Waves| && count <= |WavePositions[wi]|
    ensures |r| == count
    ensures forall pi :: 0 <= pi < count ==> r[pi] == WaveElement(sceneId, file, wi, pi, speed)
  {
    seq(count, pi requires 0 <= pi < count => WaveElement(sceneId, file, wi, pi, speed))
  }

  /** The elements of the first `waves` waves, wave after wave. */
  function AccumulateUpTo(sceneId: string, file: string, waves: nat, speed: SpeedSource): (r: seq<ElementOutput>)
    requires waves <= |Waves|
  {
    if waves == 0 then []
    else AccumulateUpTo(sceneId, file, waves - 1, speed)
           + WaveRun(sceneId, file, waves - 1, |WavePositions[waves - 1]|, speed)
  }

  function AccumulateElements(sceneId: string, file: string, speed: SpeedSource): seq<ElementOutput>
  {
    AccumulateUpTo(sceneId, file, |Waves|, speed)
  }

  /** `generateAccumulateElements`: the two nested `forEach` loops. */
  method GenerateAccumulateElements(sceneId: string, file: string, speed: SpeedSource)
    returns (elements: seq<ElementOutput>)
    ensures elements == AccumulateElements(sceneId, file, speed)
  {
    elements := [];
    var wi := 0;
    while wi < |Waves|
      invariant 0 <= wi <= |Waves|
      invariant elements == AccumulateUpTo(sceneId, file, wi, speed)
    {
      var pi := 0;
      var positions := WavePositions[wi];
      while pi < |positions|
        invariant 0 <= pi <= |positions|
        invariant elements == AccumulateUpTo(sceneId, file, wi, speed) + WaveRun(sceneId, file, wi, pi, speed)
      {
        elements := elements + [WaveElement(sceneId, file, wi, pi, speed)];
        pi := pi + 1;
        assert WaveRun(sceneId, file, wi, pi, speed)
               == WaveRun(sceneId, file, wi, pi - 1, speed) + [WaveElement(sceneId, file, wi, pi - 1, speed)];
      }
      wi := wi + 1;
    }
  }

  /** The accumulate preset yields 1 + 3 + 8 elements; element `pi` of wave
      `wi` starts `8 * pi` frames after its wave. */
  lemma AccumulateTiming(sceneId: string, file: string, speed: SpeedSource)
    ensures var es := AccumulateElements(sceneId, file, speed);
      && |es| == 12
      && es[0].startFrame == Some(10)
      && (forall pi :: 0 <= pi < 3 ==> es[1 + pi].startFrame == Some(60 + 8 * pi))
      && (forall pi :: 0 <= pi < 8 ==> es[4 + pi].startFrame == Some(130 + 8 * pi))
  {
    var es := AccumulateElements(sceneId, file, speed);
    var w0 := WaveRun(sceneId, file, 0, 1, speed);
    var w1 := WaveRun(sceneId, file, 1, 3, speed);
    var w2 := WaveRun(sceneId, file, 2, 8, speed);
    assert AccumulateUpTo(sceneId, file, 1, speed) == w0;
    assert AccumulateUpTo(sceneId, file, 2, speed) == w0 + w1;
    assert es == (w0 + w1) + w2;
    forall pi | 0 <= pi < 3
      ensures es[1 + pi].startFrame == Some(60 + 8 * pi)
    {
      assert es[1 + pi] == w1[pi];
    }
    forall pi | 0 <= pi < 8
      ensures es[4 + pi].startFrame == Some(130 + 8 * pi)
    {
      assert es[4 + pi] == w2[pi];
    }
  }

  // ── Subtitle and transition ──

  function SubtitleOutput(config: SceneConfig): (r: ElementOutput)
    ensures r.id == config.id + "-subtitle" && r.component == "Subtitle"
    ensures r.props == Record(map["text" := Str(config.subtitle)])
    ensures r.startFrame == Some(SubtitleStart)
  {
    ElementOutput(
      config.id + "-subtitle", "Subtitle", Record(map["text" := Str(config.subtitle)]),
      Some(OutAnimation(FadeIn, SubtitleFade, None, None, None)), Some(SubtitleStart), None, None, None)
  }

  /** The subtitle element, present only for a non-empty subtitle. */
  function SubtitleOutputs(config: SceneConfig): (r: seq<ElementOutput>)
    ensures |r| == (if config.subtitle == "" then 0 else 1)
    ensures r != [] ==> r[0] == SubtitleOutput(config)
  {
    if config.subtitle != "" then [SubtitleOutput(config)] else []
  }

  /** The scene's transition: none for the first scene or the `none` type;
      the colour only when it is a non-empty string. */
  function SceneTransition(config: SceneConfig, index: nat): (r: Option<TransitionOutput>)
    ensures r.Some? <==> index > 0 && config.transitionType != NoTransition
    ensures r.Some? ==> r.value.kind == config.transitionType && r.value.duration == config.transitionDuration
    ensures r.Some? ==> (r.value.color.Some? <==> config.transitionColor.Some? && config.transitionColor.value != "")
    ensures r.Some? && r.value.color.Some? ==> r.value.color == config.transitionColor
  {
    if index > 0 && config.transitionType != NoTransition then
      Some(TransitionOutput(config.transitionType, config.transitionDuration,
                            if config.transitionColor.Some? && config.transitionColor.value != "" then config.transitionColor
                            else None))
    else None
  }

  // ── Scenes ──

  /** The elements that come from the slots: the waves of the `accumulate`
      preset when its `asset` slot names a catalog entry, otherwise one
      element per filled slot. */
  function MiddleElements(config: SceneConfig, preset: PresetMetadata, catalog: seq<AssetCatalog.AssetEntry>,
                          speed: SpeedSource): seq<ElementOutput>
  {
    if config.presetId == AccumulatePreset then
      var assetId := Assigned(config.slotAssignments, "asset");
      var asset := if assetId.Some? then AssetCatalog.FindAsset(catalog, assetId.value) else None;
      if asset.Some? then AccumulateElements(config.id, asset.value.file, speed) else []
    else SlotOutputs(config.id, preset.slots, config.slotAssignments, catalog)
  }

  function SceneElements(config: SceneConfig, preset: PresetMetadata, catalog: seq<AssetCatalog.AssetEntry>,
                         speed: SpeedSource): seq<ElementOutput>
  {
    FixedOutputs(config.id, preset.fixedElements) + MiddleElements(config, preset, catalog, speed)
      + SubtitleOutputs(config)
  }

  function PresetNotFound(presetId: string): string
  {
    "Preset \"" + presetId + "\" not found"
  }

  /** `generateScene`: an unknown preset is an error. */
  function SceneSpec(config: SceneConfig, index: nat, presets: PresetRegistry,
                     catalog: seq<AssetCatalog.AssetEntry>, speed: SpeedSource): (r: Result<SceneOutput, string>)
    ensures r.Err? <==> config.presetId !in presets
    ensures r.Err? ==> r.error == PresetNotFound(config.presetId)
    ensures r.Ok? ==> r.value.id == config.id && r.value.title == config.title
                      && r.value.durationInFrames == config.durationInFrames
                      && r.value.background == presets[config.presetId].defaultBackground
                      && r.value.cameraMotion == presets[config.presetId].defaultCameraMotion
                      && r.value.transition == SceneTransition(config, index)
  {
    if config.presetId !in presets then Err(PresetNotFound(config.presetId))
    else
      var preset := presets[config.presetId];
      Ok(SceneOutput(config.id, config.title, config.durationInFrames, preset.defaultBackground,
                     SceneTransition(config, index), SceneElements(config, preset, catalog, speed),
                     preset.defaultCameraMotion))
  }

  /** The `forEach` of `generateScene` over the preset's fixed elements. */
  method GenerateFixedElements(sceneId: string, fixed: seq<FixedElement>) returns (elements: seq<ElementOutput>)
    ensures elements == FixedOutputs(sceneId, fixed)
  {
    elements := [];
    var i := 0;
    while i < |fixed|
      invariant 0 <= i <= |fixed|
      invariant elements == FixedOutputs(sceneId, fixed[..i])
    {
      elements := elements + [FixedOutput(sceneId, fixed[i], i)];
      i := i + 1;
    }
    assert fixed[..i] == fixed;
  }

  /** The `for … of` loop of `generateScene` over the preset's slots, with
      its two `continue`s. */
  method GenerateSlotElements(sceneId: string, slots: seq<SlotDefinition>,
                              assignments: map<string, Option<string>>, catalog: seq<AssetCatalog.AssetEntry>)
    returns (elements: seq<ElementOutput>)
    ensures elements == SlotOutputs(sceneId, slots, assignments, catalog)
  {
    elements := [];
    var k := 0;
    while k < |slots|
      invariant 0 <= k <= |slots|
      invariant elements == SlotOutputs(sceneId, slots[..k], assignments, catalog)
    {
      var slot := slots[k];
      assert slots[..k + 1][..k] == slots[..k];
      var assetId := Assigned(assignments, slot.id);
      if assetId.Some? {
        var asset := AssetCatalog.FindAsset(catalog, assetId.value);
        if asset.Some? {
          elements := elements + [SlotElement(sceneId, slot, asset.value)];
        }
      }
      k := k + 1;
    }
    assert slots[..k] == slots;
  }

  /** `generateScene`: the fixed elements, then the slot elements, then the
      subtitle. */
  method GenerateScene(config: SceneConfig, index: nat, presets: PresetRegistry,
                       catalog: seq<AssetCatalog.AssetEntry>, speed: SpeedSource)
    returns (r: Result<SceneOutput, string>)
    ensures r == SceneSpec(config, index, presets, catalog, speed)
  {
    if config.presetId !in presets {
      return Err(PresetNotFound(config.presetId));
    }
    var preset := presets[config.presetId];
    var elements := GenerateFixedElements(config.id, preset.fixedElements);
    var middle: seq<ElementOutput> := [];
    if config.presetId == AccumulatePreset {
      var assetId := Assigned(config.slotAssignments, "asset");
      var asset := if assetId.Some? then AssetCatalog.FindAsset(catalog, assetId.value) else None;
      if asset.Some? {
        middle := GenerateAccumulateElements(config.id, asset.value.file, speed);
      }
    } else {
      middle := GenerateSlotElements(config.id, preset.slots, config.slotAssignments, catalog);
    }
    assert middle == MiddleElements(config, preset, catalog, speed);
    elements := elements + middle;
    if config.subtitle != "" {
      elements := elements + [SubtitleOutput(config)];
    }
    assert elements == SceneElements(config, preset, catalog, speed);
    r := Ok(SceneOutput(config.id, config.title, config.durationInFrames, preset.defaultBackground,
                        SceneTransition(config, index), elements, preset.defaultCameraMotion));
  }

  /** The fixed elements come first, in preset order; the subtitle comes
      last exactly when the subtitle text is non-empty. */
  lemma SceneElementOrder(config: SceneConfig, preset: PresetMetadata, catalog: seq<AssetCatalog.AssetEntry>,
                          speed: SpeedSource)
    ensures var es := SceneElements(config, preset, catalog, speed);
      var nf := |preset.fixedElements|;
      && |es| >= nf
      && (forall i :: 0 <= i < nf ==> es[i].id == config.id + "-fixed-" + NatToString(i)
                                      && es[i].component == preset.fixedElements[i].component)
      && (config.subtitle != "" ==> |es| > nf && es[|es| - 1] == SubtitleOutput(config))
      && (config.subtitle == "" ==> es == FixedOutputs(config.id, preset.fixedElements)
                                         + MiddleElements(config, preset, catalog, speed))
  {
    var fixed := FixedOutputs(config.id, preset.fixedElements);
    var middle := MiddleElements(config, preset, catalog, speed);
    var es := SceneElements(config, preset, catalog, speed);
    forall i | 0 <= i < |preset.fixedElements|
      ensures es[i] == fixed[i]
    {
    }
    if config.subtitle == "" {
      assert SubtitleOutputs(config) == [];
    }
  }

  // ── The sequence ──

  /** `generateSceneSequence`: the meta record with every configuration
      expanded; the first unknown preset aborts the export. */
  function GenerateSequence(configs: seq<SceneConfig>, meta: SequenceMeta, presets: PresetRegistry,
                            catalog: seq<AssetCatalog.AssetEntry>, speed: SpeedSource)
    : (r: Result<SceneSequenceOutput, string>)
    ensures r.Ok? <==> forall i :: 0 <= i < |configs| ==> configs[i].presetId in presets
    ensures r.Ok? ==> r.value.id == meta.id && r.value.title == meta.title && r.value.fps == meta.fps
                      && r.value.width == meta.width && r.value.height == meta.height
                      && |r.value.scenes| == |configs|
  {
    if forall i :: 0 <= i < |configs| ==> configs[i].presetId in presets then
      Ok(SceneSequenceOutput(meta.id, meta.title, meta.fps, meta.width, meta.height,
                             seq(|configs|, i requires 0 <= i < |configs| =>
                                   SceneSpec(configs[i], i, presets, catalog, speed).value)))
    else
      var k := FirstUnknown(configs, presets);
      Err(PresetNotFound(configs[k].presetId))
  }

  /** The position of the first configuration whose preset is unknown. */
  function FirstUnknown(configs: seq<SceneConfig>, presets: PresetRegistry): (k: nat)
    requires exists i :: 0 <= i < |configs| && configs[i].presetId !in presets
    ensures k < |configs| && configs[k].presetId !in presets
    ensures forall j :: 0 <= j < k ==> configs[j].presetId in presets
  {
    if configs[0].presetId !in presets then 0
    else
      var i :| 0 <= i < |configs| && configs[i].presetId !in presets;
      assert configs[1..][i - 1] == configs[i];
      1 + FirstUnknown(configs[1..], presets)
  }

  /** Each exported scene is its configuration expanded at its position. */
  lemma GenerateSequenceScenes(configs: seq<SceneConfig>, meta: SequenceMeta, presets: PresetRegistry,
                               catalog: seq<AssetCatalog.AssetEntry>, speed: SpeedSource, i: nat)
    requires i < |configs|
    requires GenerateSequence(configs, meta, presets, catalog, speed).Ok?
    ensures var scenes := GenerateSequence(configs, meta, presets, catalog, speed).value.scenes;
      && Ok(scenes[i]) == SceneSpec(configs[i], i, presets, catalog, speed)
      && scenes[i].id == configs[i].id
      && (scenes[i].transition.Some? <==> i > 0 && configs[i].transitionType != NoTransition)
  {
  }
}
