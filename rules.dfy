/** The composer's rule tables (src/composer/rules.ts): transition choice
    with anti-repetition, layout precedence and the duration-to-element-count
    heuristic. Everything here is a pure table lookup or decision. */
module Rules {
  import opened Common
  import opened MediaTypes

  datatype SectionType = Intro | Explain | Chart | Comparison | Callout | Outro

  datatype LayoutType =
    | FullScreen | CenterLayout | SplitLayout | TopBottomLayout | GridLayout | FocusLayout

  /** The section type as the string the script uses. */
  function SectionTypeName(t: SectionType): string
  {
    match t
    case Intro => "intro"
    case Explain => "explain"
    case Chart => "chart"
    case Comparison => "comparison"
    case Callout => "callout"
    case Outro => "outro"
  }

  // ── Transition selection ──

  /** TRANSITION_DEFAULTS: `None` is the table's `null`. */
  function TransitionDefault(t: SectionType): Option<TransitionType>
  {
    match t
    case Intro => None
    case Explain => Some(ColorWipe)
    case Chart => Some(ZoomIn)
    case Comparison => Some(TransitionType.SlideUp)
    case Callout => Some(ZoomIn)
    case Outro => Some(Fade)
  }

  /** COLOR_WIPE_COLORS["default"], the color every color_wipe transition carries. */
  const DefaultWipeColor: string := "#4FC3F7"

  /** COLOR_WIPE_COLORS */
  const ColorWipeColors: map<string, string> := map[
    "profit" := "#81C784",
    "loss" := "#E57373",
    "info" := "#4FC3F7",
    "highlight" := "#FFD54F",
    "default" := "#4FC3F7"]

  lemma DefaultWipeColorInTable()
    ensures "default" in ColorWipeColors && ColorWipeColors["default"] == DefaultWipeColor
  {
  }

  /** The candidates tried, in order, when the default would repeat. */
  const TransitionFallbacks: seq<TransitionType> :=
    [ColorWipe, WipeLeft, Fade, ZoomIn, TransitionType.SlideUp, CrossDissolve]

  /** `candidates.find((t) => t !== prev)`: the first candidate that differs from `prev`. */
  function FirstDifferent(candidates: seq<TransitionType>, prev: Option<TransitionType>): (r: Option<TransitionType>)
    ensures r.Some? ==> Some(r.value) != prev
    ensures r.Some? ==> exists i :: 0 <= i < |candidates| && candidates[i] == r.value &&
                          forall j :: 0 <= j < i ==> Some(candidates[j]) == prev
    ensures r.None? <==> forall i :: 0 <= i < |candidates| ==> Some(candidates[i]) == prev
  {
    if candidates == [] then None
    else if Some(candidates[0]) != prev then Some(candidates[0])
    else
      var r := FirstDifferent(candidates[1..], prev);
      assert r.Some? ==> exists i :: 0 <= i < |candidates| && candidates[i] == r.value &&
                          forall j :: 0 <= j < i ==> Some(candidates[j]) == prev by {
        if r.Some? {
          var i :| 0 <= i < |candidates[1..]| && candidates[1..][i] == r.value &&
                   forall j :: 0 <= j < i ==> Some(candidates[1..][j]) == prev;
          assert candidates[i + 1] == r.value;
          forall j | 0 <= j < i + 1 ensures Some(candidates[j]) == prev {
            if j > 0 { assert candidates[j] == candidates[1..][j - 1]; }
          }
        }
      }
      r
  }

  /** selectTransition: the section type's default, unless it equals the previous
      scene's transition, in which case the first differing fallback. */
  function SelectTransition(sectionType: SectionType, prev: Option<TransitionType>): (r: Option<TransitionType>)
    ensures r.None? <==> TransitionDefault(sectionType).None?
    ensures r.None? <==> sectionType == Intro
    ensures prev.Some? && r.Some? ==> r.value != prev.value
    ensures TransitionDefault(sectionType) != prev ==> r == TransitionDefault(sectionType)
    ensures TransitionDefault(sectionType).Some? && TransitionDefault(sectionType) == prev ==>
              r == Some(if prev == Some(ColorWipe) then WipeLeft else ColorWipe)
  {
    var d := TransitionDefault(sectionType);
    if d.None? then None
    else if d == prev then
      match FirstDifferent(TransitionFallbacks, prev)
      case Some(t) => Some(t)
      case None => Some(Fade)
    else d
  }

  /** The `?? "fade"` branch of selectTransition is never taken: the fallback
      list holds two different transitions, so one of them differs from any `prev`. */
  lemma FallbackAlwaysFound(prev: Option<TransitionType>)
    ensures FirstDifferent(TransitionFallbacks, prev).Some?
  {
    if prev == Some(ColorWipe) {
      assert Some(TransitionFallbacks[1]) != prev;
    } else {
      assert Some(TransitionFallbacks[0]) != prev;
    }
  }

  // ── Layout selection ──

  /** LAYOUT_BY_TYPE */
  function LayoutByType(t: SectionType): LayoutType
  {
    match t
    case Intro => FullScreen
    case Explain => SplitLayout
    case Chart => CenterLayout
    case Comparison => SplitLayout
    case Callout => FocusLayout
    case Outro => FullScreen
  }

  /** LAYOUT_BY_DIRECTIVE, keyed by `@` followed by the directive type;
      `None` for a key the table does not hold. */
  function LayoutByDirective(key: string): Option<LayoutType>
  {
    if key == "@chart" then Some(CenterLayout)
    else if key == "@compare" then Some(SplitLayout)
    else if key == "@timeline" then Some(FullScreen)
    else if key == "@flow" then Some(CenterLayout)
    else None
  }

  /** The directive names an entry of LAYOUT_BY_DIRECTIVE. */
  predicate HasDirectiveLayout(directive: Option<string>)
  {
    directive.Some? && LayoutByDirective("@" + directive.value).Some?
  }

  /** selectLayout: a known directive, then the element count, then the section type. */
  function SelectLayout(sectionType: SectionType, directive: Option<string>, elementCount: Option<real>): (r: LayoutType)
    ensures HasDirectiveLayout(directive) ==> Some(r) == LayoutByDirective("@" + directive.value)
    ensures !HasDirectiveLayout(directive) && elementCount == Some(1.0) ==> r == CenterLayout
    ensures !HasDirectiveLayout(directive) && elementCount == Some(2.0) ==> r == SplitLayout
    ensures !HasDirectiveLayout(directive) && elementCount.Some? && elementCount.value >= 3.0 ==> r == GridLayout
    ensures !HasDirectiveLayout(directive) &&
            (elementCount.None? || (elementCount.value != 1.0 && elementCount.value != 2.0 && elementCount.value < 3.0)) ==>
              r == LayoutByType(sectionType)
  {
    if directive.Some? && directive.value != "" && LayoutByDirective("@" + directive.value).Some? then
      LayoutByDirective("@" + directive.value).value
    else if elementCount.Some? && elementCount.value == 1.0 then CenterLayout
    else if elementCount.Some? && elementCount.value == 2.0 then SplitLayout
    else if elementCount.Some? && elementCount.value >= 3.0 then GridLayout
    else LayoutByType(sectionType)
  }

  /** A directive without a table entry (including the empty one) is ignored. */
  lemma UnknownDirectiveIgnored(sectionType: SectionType, directive: Option<string>, elementCount: Option<real>)
    requires !HasDirectiveLayout(directive)
    ensures SelectLayout(sectionType, directive, elementCount) == SelectLayout(sectionType, None, elementCount)
  {
  }

  /** A count of zero or less is ignored as if no count were given. */
  lemma NonPositiveCountIgnored(sectionType: SectionType, directive: Option<string>, count: real)
    requires count <= 0.0
    ensures SelectLayout(sectionType, directive, Some(count)) == SelectLayout(sectionType, directive, None)
  {
  }

  // ── Element count heuristic ──

  datatype ElementCountBand = ElementCountBand(min: nat, max: nat)

  /** suggestElementCount: <5s gives 1..2, 5..15s gives 2..3, longer gives 3..5. */
  function SuggestElementCount(durationSec: real): (r: ElementCountBand)
    ensures 1 <= r.min <= r.max <= 5
    ensures durationSec < 5.0 ==> r == ElementCountBand(1, 2)
    ensures 5.0 <= durationSec <= 15.0 ==> r == ElementCountBand(2, 3)
    ensures durationSec > 15.0 ==> r == ElementCountBand(3, 5)
  {
    if durationSec < 5.0 then ElementCountBand(1, 2)
    else if durationSec <= 15.0 then ElementCountBand(2, 3)
    else ElementCountBand(3, 5)
  }

  /** A longer narration never suggests fewer elements. */
  lemma SuggestElementCountMonotone(d1: real, d2: real)
    requires d1 <= d2
    ensures SuggestElementCount(d1).min <= SuggestElementCount(d2).min
    ensures SuggestElementCount(d1).max <= SuggestElementCount(d2).max
  {
  }
}
