/** The builder's preset metadata (builder/src/types/preset-meta.ts) and its
    per-scene configuration record (builder/src/utils/scene-generator.ts).
    Fields that only the builder's UI reads (labels, descriptions, icons,
    guides, suggested assets, parallax layer settings) are not part of this
    model. */
module BuilderTypes {
  import opened Common
  import opened MediaTypes

  /** A slot's `parallax` record. */
  datatype Parallax = Parallax(speed: real, direction: Option<string>, range: Option<real>)

  /** A slot's `defaultAnimation` record. */
  datatype SlotAnimation = SlotAnimation(
    preset: AnimationPreset,
    duration: int,
    easing: Option<EasingName>,
    exitPreset: Option<AnimationPreset>,
    exitDuration: Option<int>)

  /** One configurable slot of a preset; `position` is its `containerStyle`. */
  datatype SlotDefinition = SlotDefinition(
    id: string,
    component: string,
    position: Style,
    defaultAssetId: Option<string>,
    defaultAnimation: SlotAnimation,
    defaultStartFrame: Option<int>,
    defaultDurationInFrames: Option<int>,
    defaultProps: Option<Props>,
    parallax: Option<Parallax>)

  datatype FixedAnimation = FixedAnimation(preset: AnimationPreset, duration: int)

  /** A decorative element every scene of the preset carries. */
  datatype FixedElement = FixedElement(
    component: string,
    props: Props,
    containerStyle: Option<Style>,
    animation: Option<FixedAnimation>)

  /** A preset's `defaultTransition`. */
  datatype DefaultTransition = DefaultTransition(kind: TransitionType, duration: Option<int>, color: Option<string>)

  datatype PresetMetadata = PresetMetadata(
    id: string,
    name: string,
    defaultDurationInFrames: int,
    defaultBackground: BackgroundConfig,
    defaultCameraMotion: Option<CameraMotionConfig>,
    defaultTransition: Option<DefaultTransition>,
    fixedElements: seq<FixedElement>,
    slots: seq<SlotDefinition>)

  /** `getPresetById`; the registry itself is a parameter of this model. */
  type PresetRegistry = map<string, PresetMetadata>

  /** A scene as the builder edits it. An entry of `slotAssignments` is
      `None` for an explicit `null`; `labelOverrides` is not read by the
      code modelled here. */
  datatype SceneConfig = SceneConfig(
    id: string,
    presetId: string,
    title: string,
    durationInFrames: int,
    subtitle: string,
    slotAssignments: map<string, Option<string>>,
    transitionType: TransitionType,
    transitionDuration: int,
    transitionColor: Option<string>)
}
