/** The composer's input and output records (src/composer/types.ts), with
    the fields the composer reads or emits that the record types do not
    declare: the section's overrides, an element's `durationInFrames` and a
    scene's `cameraMotion`. */
module ComposerTypes {
  import opened Common
  import opened MediaTypes
  import Rules

  /** Per-section overrides. Every read of them goes through `?.` and `?? []`,
      so a missing record and a missing field are the empty value here. */
  datatype Overrides = Overrides(
    transition: Option<TransitionType>,
    bgAssetIds: seq<string>,
    excludeAssetIds: seq<string>,
    elementEnter: map<int, string>)

  const NoOverrides: Overrides := Overrides(None, [], [], map[])

  /** A script section; `directive` is the directive's `type` (its params are never read). */
  datatype ScriptSection = ScriptSection(
    kind: Rules.SectionType,
    narration: string,
    duration: real,
    directive: Option<string>,
    overrides: Overrides)

  datatype Position = Position(x: int, y: int)

  datatype EnterAnimation = EnterAnimation(kind: string, durationInFrames: int, easing: Option<string>)

  datatype ExitAnimation = ExitAnimation(kind: string, durationInFrames: int)

  datatype ElementAnimation = ElementAnimation(enter: EnterAnimation, exit: Option<ExitAnimation>)

  /** The `props` records the composer builds, one shape per factory. */
  datatype ElementProps =
    | LottieProps(src: string, loop: bool, fitDurationInFrames: int)
    | OverlayProps(src: string, loop: bool, opacity: real, blendMode: string, cover: bool)
    | SubtitleProps(text: string)
    | GradientOrbProps(color: string, size: real, x: real, y: real, opacity: real, blur: real)
    | ParticlesProps(count: real, color: string, size: real, speed: real, shape: string, opacity: real)

  datatype ComposedElement = ComposedElement(
    component: string,
    props: ElementProps,
    position: Position,
    enterAt: int,
    durationInFrames: Option<int>,
    animation: ElementAnimation)

  datatype TransitionSpec = TransitionSpec(kind: TransitionType, durationInFrames: int, color: Option<string>)

  datatype ComposedScene = ComposedScene(
    layout: Rules.LayoutType,
    background: BackgroundConfig,
    elements: seq<ComposedElement>,
    transition: Option<TransitionSpec>,
    cameraMotion: Option<CameraMotionConfig>)
}
