/** The vocabulary shared by the composer, the renderer's sequence document
    and the builder (src/types/index.ts and builder/src/types/preset-meta.ts).
    Where the two files list different members of a union, the larger list is
    used, so that every value either side produces can be represented. */
module MediaTypes {
  import opened Common

  /** `"none"` is `NoTransition`. */
  datatype TransitionType =
    | Fade | WipeLeft | WipeRight | ColorWipe | CircleShrink | CircleWipe
    | ZoomIn | ZoomOut | SlideUp | CrossDissolve | NoTransition

  /** `"none"` is `NoPreset`. */
  datatype AnimationPreset =
    | ScaleIn | FadeIn | SlideUp | SlideLeft | SlideRight | SlideLeftFar | SlideRightFar
    | ExitLeftFar | ExitRightFar | BounceIn | PopIn | CircleReveal | SpringUp | NoPreset

  datatype EasingName = Kurzgesagt | BounceIn | Snap | SmoothOut | DramaticIn | Linear

  datatype BackgroundType = Solid | Gradient | Radial

  datatype BackgroundConfig = BackgroundConfig(
    kind: BackgroundType,
    color: Option<string>,
    colors: Option<(string, string)>,
    angle: Option<real>)

  datatype CameraMotionType = KenBurns | ZoomFocus | Drift

  datatype CameraMotionConfig = CameraMotionConfig(
    kind: CameraMotionType,
    endScale: Option<real>,
    panX: Option<real>,
    panY: Option<real>)

  /** The values that occur in the free-form `props` records. */
  datatype PropValue = Str(s: string) | Num(n: real) | Flag(b: bool)

  type Props = map<string, PropValue>

  /** A CSS style record (`containerStyle`). */
  type Style = map<string, string>
}
