/** The rule-based composer (src/composer/composer.ts): a fold over the script
    sections that threads the previous scene's transition type and the set of
    asset ids already used, composing one scene per section. */
module Composer {
  import opened Common
  import opened MediaTypes
  import opened Rules
  import opened AssetMatcher
  import opened ComposerTypes
  import opened ElementBuilders
  import opened SequenceFold

  const DefaultFps: nat := 30
  const DefaultPalette: seq<string> := ["#0EA0E4", "#E92F60", "#14D1C8", "#4F28F2"]

  /** `ComposeOptions` without the `mode` switch (only the rule-based mode is modelled). */
  datatype ComposeOptions = ComposeOptions(fps: Option<nat>, colorPalette: Option<seq<string>>)

  /** `selectCameraMotion(type, sceneIndex)`; its definition is not part of this model. */
  type CameraRule = (SectionType, nat) -> Option<CameraMotionConfig>

  /** `Math.round`: the nearest integer, halves rounded up. */
  function Round(x: real): (r: int)
    ensures x - 0.5 < r as real <= x + 0.5
  {
    (x + 0.5).Floor
  }

  // ── Lookups ──

  function SetOf(s: seq<string>): (r: set<string>)
    ensures forall x :: x in r <==> x in s
  {
    set x | x in s
  }

  /** The position of the first occurrence of `x` in `s`. */
  function FirstIndex(s: seq<string>, x: string): (k: nat)
    requires x in s
    ensures k < |s| && s[k] == x
    ensures forall j :: 0 <= j < k ==> s[j] != x
  {
    if s[0] == x then 0
    else
      assert x in s[1..] by { var i :| 0 <= i < |s| && s[i] == x; assert s[1..][i - 1] == x; }
      1 + FirstIndex(s[1..], x)
  }

  /** Appending an element leaves the first occurrences of earlier ones in place. */
  lemma FirstIndexSnoc(s: seq<string>, x: string, y: string)
    requires y in s
    ensures y in s + [x] && FirstIndex(s + [x], y) == FirstIndex(s, y)
  {
    var k1, k2 := FirstIndex(s + [x], y), FirstIndex(s, y);
    assert (s + [x])[k2] == y;
    assert k1 <= k2;
    assert s[k1] == (s + [x])[k1];
  }

  /** `r` lists each id of `ids` once, ordered by first occurrence. */
  ghost predicate IsFirstOccurrences(ids: seq<string>, r: seq<string>)
  {
    && (forall x :: x in r <==> x in ids)
    && (forall i, j :: 0 <= i < j < |r| ==> r[i] != r[j])
    && (forall i, j :: 0 <= i < j < |r| ==> FirstIndex(ids, r[i]) < FirstIndex(ids, r[j]))
  }

  /** One more id at the end: kept out when seen before, appended otherwise. */
  lemma FirstOccurrencesSnoc(init: seq<string>, x: string, d: seq<string>)
    requires IsFirstOccurrences(init, d)
    ensures IsFirstOccurrences(init + [x], if x in d then d else d + [x])
  {
    var ids := init + [x];
    assert forall y :: y in ids <==> y in init || y == x;
    forall y | y in init ensures FirstIndex(ids, y) == FirstIndex(init, y) {
      FirstIndexSnoc(init, x, y);
    }
    if x !in d {
      assert FirstIndex(ids, x) == |init|;
    }
  }

  /** `new Set(ids)` iterated: every id exactly once, in the order of its first
      occurrence in `ids`. */
  function Dedupe(ids: seq<string>): (r: seq<string>)
    ensures forall x :: x in r <==> x in ids
    ensures forall i, j :: 0 <= i < j < |r| ==> r[i] != r[j]
    ensures forall i, j :: 0 <= i < j < |r| ==> FirstIndex(ids, r[i]) < FirstIndex(ids, r[j])
  {
    if ids == [] then []
    else
      var init, x := ids[..|ids| - 1], ids[|ids| - 1];
      var d := Dedupe(init);
      assert ids == init + [x];
      FirstOccurrencesSnoc(init, x, d);
      if x in d then d else d + [x]
  }

  /** `ASSET_REGISTRY.find((a) => a.id === id)` */
  function FindById(registry: seq<AssetEntry>, id: string): (r: Option<AssetEntry>)
    ensures r.None? <==> forall i :: 0 <= i < |registry| ==> registry[i].id != id
    ensures r.Some? ==> exists i :: 0 <= i < |registry| && registry[i] == r.value && r.value.id == id &&
                          forall j :: 0 <= j < i ==> registry[j].id != id
  {
    if registry == [] then None
    else if registry[0].id == id then Some(registry[0])
    else
      var r := FindById(registry[1..], id);
      assert forall i :: 1 <= i < |registry| ==> registry[i] == registry[1..][i - 1];
      assert r.Some? ==> exists i :: 0 <= i < |registry| && registry[i] == r.value && r.value.id == id &&
                          forall j :: 0 <= j < i ==> registry[j].id != id by {
        if r.Some? {
          var i :| 0 <= i < |registry[1..]| && registry[1..][i] == r.value && r.value.id == id &&
                   forall j :: 0 <= j < i ==> registry[1..][j].id != id;
          assert registry[i + 1] == r.value;
        }
      }
      r
  }

  /** ``ASSET_REGISTRY.find((a) => `animations/${a.file}` === src)`` */
  function FindByFile(registry: seq<AssetEntry>, src: string): (r: Option<AssetEntry>)
    ensures r.None? <==> forall i :: 0 <= i < |registry| ==> AnimationsSrc(registry[i].file) != src
    ensures r.Some? ==> exists i :: 0 <= i < |registry| && registry[i] == r.value && AnimationsSrc(r.value.file) == src &&
                          forall j :: 0 <= j < i ==> AnimationsSrc(registry[j].file) != src
  {
    if registry == [] then None
    else if AnimationsSrc(registry[0].file) == src then Some(registry[0])
    else
      var r := FindByFile(registry[1..], src);
      assert forall i :: 1 <= i < |registry| ==> registry[i] == registry[1..][i - 1];
      assert r.Some? ==> exists i :: 0 <= i < |registry| && registry[i] == r.value && AnimationsSrc(r.value.file) == src &&
                          forall j :: 0 <= j < i ==> AnimationsSrc(registry[j].file) != src by {
        if r.Some? {
          var i :| 0 <= i < |registry[1..]| && registry[1..][i] == r.value && AnimationsSrc(r.value.file) == src &&
                   forall j :: 0 <= j < i ==> AnimationsSrc(registry[1..][j].file) != src;
          assert registry[i + 1] == r.value;
        }
      }
      r
  }

  /** The `src` an element carries, when it is a non-empty string (`if (src)`). */
  function SrcOf(e: ComposedElement): Option<string>
  {
    match e.props
    case LottieProps(src, _, _) => if src != "" then Some(src) else None
    case OverlayProps(src, _, _, _, _) => if src != "" then Some(src) else None
    case _ => None
  }

  /** An asset's element refers back to it: the used-id lookup on its `src`
      finds the asset when no other registry entry shares its file. */
  lemma SrcFindsAsset(registry: seq<AssetEntry>, a: AssetEntry, totalFrames: int, enterAt: int,
                      layout: LayoutType, slice: int)
    requires a in registry
    requires forall b :: b in registry && b.file == a.file ==> b == a
    ensures SrcOf(MakeBgElement(a, totalFrames)) == Some(AnimationsSrc(a.file))
    ensures SrcOf(MakeLottieElement(a, enterAt, layout, slice)) == Some(AnimationsSrc(a.file))
    ensures FindByFile(registry, AnimationsSrc(a.file)) == Some(a)
  {
    var r := FindByFile(registry, AnimationsSrc(a.file));
    var i :| 0 <= i < |registry| && registry[i] == a;
    assert AnimationsSrc(r.value.file) == AnimationsSrc(a.file);
    assert r.value.file == AnimationsSrc(r.value.file)[|"animations/"|..];
  }

  // ── Scene mode ──

  datatype SceneMode = StrongBackground | SimpleBackground | CharacterMode

  predicate HasCategory(matches: seq<AssetMatch>, c: Category)
  {
    exists i :: 0 <= i < |matches| && matches[i].asset.category == c
  }

  /** determineSceneMode: a character match wins, then a background override
      or background match, then simple background. */
  function DetermineSceneMode(matches: seq<AssetMatch>, overrides: Overrides): (r: SceneMode)
    ensures r == CharacterMode <==> HasCategory(matches, Category.Character)
    ensures r == StrongBackground <==>
              !HasCategory(matches, Category.Character) &&
              (|overrides.bgAssetIds| > 0 || HasCategory(matches, Category.Background))
    ensures r == SimpleBackground <==>
              !HasCategory(matches, Category.Character) && |overrides.bgAssetIds| == 0 &&
              !HasCategory(matches, Category.Background)
  {
    if HasCategory(matches, Category.Character) then CharacterMode
    else if |overrides.bgAssetIds| > 0 || HasCategory(matches, Category.Background) then StrongBackground
    else SimpleBackground
  }

  function ModeElements(mode: SceneMode, matches: seq<AssetMatch>, totalFrames: int, fps: nat, layout: LayoutType,
                        durationSec: real, overrides: Overrides): seq<ComposedElement>
  {
    match mode
    case StrongBackground => StrongBgElements(matches, totalFrames, fps, layout, overrides)
    case CharacterMode => CharacterElements(matches, totalFrames, fps, layout, overrides)
    case SimpleBackground => SimpleBgElements(matches, totalFrames, fps, layout, durationSec, overrides)
  }

  /** The per-mode cap on what a builder appends: overlays plus 2 foreground
      assets, a character plus 3, or the two decoration layers plus
      `suggestElementCount(duration).max`. */
  lemma ModeElementsBound(mode: SceneMode, matches: seq<AssetMatch>, totalFrames: int, fps: nat, layout: LayoutType,
                          durationSec: real, overrides: Overrides)
    ensures mode == StrongBackground ==>
      |ModeElements(mode, matches, totalFrames, fps, layout, durationSec, overrides)| <=
        |MatchesWhere(matches, IsBackground)| + MaxStrongForeground
    ensures mode == CharacterMode ==>
      |ModeElements(mode, matches, totalFrames, fps, layout, durationSec, overrides)| <= 1 + MaxCharacterForeground
    ensures mode == SimpleBackground ==>
      |ModeElements(mode, matches, totalFrames, fps, layout, durationSec, overrides)| <=
        2 + SuggestElementCount(durationSec).max
  {
    match mode {
      case StrongBackground =>
        BgOverlaysFacts(matches, totalFrames);
        var fgs := MatchesWhere(matches, IsNotBackground);
        ChooseForegroundFacts(fgs, Min(|fgs|, MaxStrongForeground), {});
      case CharacterMode =>
        var fgc := MatchesWhere(matches, IsNotCharacter);
        ChooseForegroundFacts(fgc, Min(|fgc|, MaxCharacterForeground), {});
      case SimpleBackground =>
        var fgp := MatchesWhere(matches, IsSimpleForeground);
        ChooseForegroundFacts(fgp, Min(|fgp|, SuggestElementCount(durationSec).max), {});
    }
  }

  // ── Element list of one section ──

  /** The registry entries named by the background override ids, in order. */
  function OverrideAssets(registry: seq<AssetEntry>, ids: seq<string>): (r: seq<AssetEntry>)
    ensures forall a :: a in r ==> a in registry && a.id in ids
  {
    if ids == [] then []
    else
      var prior := OverrideAssets(registry, ids[..|ids| - 1]);
      var found := FindById(registry, ids[|ids| - 1]);
      prior + (if found.Some? then [found.value] else [])
  }

  function IdsOf(assets: seq<AssetEntry>): (r: set<string>)
    ensures forall a :: a in assets ==> a.id in r
  {
    if assets == [] then {} else IdsOf(assets[..|assets| - 1]) + {assets[|assets| - 1].id}
  }

  function BgElements(assets: seq<AssetEntry>, totalFrames: int): seq<ComposedElement>
  {
    seq(|assets|, k requires 0 <= k < |assets| => MakeBgElement(assets[k], totalFrames))
  }

  /** The ids excluded from matching: used by earlier scenes, excluded by the
      section, or placed as a background override. */
  function ExcludeSet(registry: seq<AssetEntry>, section: ScriptSection, used: set<string>): set<string>
  {
    used + SetOf(section.overrides.excludeAssetIds) +
      IdsOf(OverrideAssets(registry, Dedupe(section.overrides.bgAssetIds)))
  }

  /** The first hinted category that yields a best asset for the section type's name. */
  function FallbackAsset(registry: seq<AssetEntry>, name: string, cats: seq<Category>, excludeIds: set<string>)
    : (r: Option<AssetEntry>)
    ensures r.Some? ==> r.value in registry && r.value.id !in excludeIds && r.value.category in cats
  {
    if cats == [] then None
    else match FindBestAsset(registry, name, Some(cats[0]), excludeIds)
      case Some(a) => Some(a)
      case None => FallbackAsset(registry, name, cats[1..], excludeIds)
  }

  /** The narration matches (at most 10); if there are none, the fallback asset with score 0. */
  function SceneMatches(registry: seq<AssetEntry>, section: ScriptSection, excludeIds: set<string>): seq<AssetMatch>
  {
    var ms := MatchSpec(registry, section.narration, None, Some(10), excludeIds);
    if ms != [] then ms
    else match FallbackAsset(registry, SectionTypeName(section.kind), SectionAssetHints(section.kind), excludeIds)
      case Some(a) => [AssetMatch(a, 0)]
      case None => []
  }

  /** What buildElements returns. */
  function SectionElements(registry: seq<AssetEntry>, section: ScriptSection, layout: LayoutType, fps: nat,
                           totalFrames: int, used: set<string>): seq<ComposedElement>
  {
    var bg := OverrideAssets(registry, Dedupe(section.overrides.bgAssetIds));
    var matches := SceneMatches(registry, section, ExcludeSet(registry, section, used));
    BgElements(bg, totalFrames) +
      ModeElements(DetermineSceneMode(matches, section.overrides), matches, totalFrames, fps, layout,
                   section.duration, section.overrides) +
      [SubtitleElement(section.narration)]
  }

  /** The background-override loop of buildElements. */
  method AppendOverrideBackgrounds(registry: seq<AssetEntry>, section: ScriptSection, totalFrames: int,
                                   excludeIds: set<string>) returns (elements: seq<ComposedElement>, excluded: set<string>)
    ensures elements == BgElements(OverrideAssets(registry, Dedupe(section.overrides.bgAssetIds)), totalFrames)
    ensures excluded == excludeIds + IdsOf(OverrideAssets(registry, Dedupe(section.overrides.bgAssetIds)))
  {
    elements := [];
    excluded := excludeIds;
    var bgAssetIds := Dedupe(section.overrides.bgAssetIds);
    ghost var bg: seq<AssetEntry> := [];
    for i := 0 to |bgAssetIds|
      invariant bg == OverrideAssets(registry, bgAssetIds[..i])
      invariant elements == BgElements(bg, totalFrames)
      invariant excluded == excludeIds + IdsOf(bg)
    {
      OverrideAssetsStep(registry, bgAssetIds, i);
      var asset := FindById(registry, bgAssetIds[i]);
      if asset.Some? {
        BgElementsAppend(bg, asset.value, totalFrames);
        elements := elements + [MakeBgElement(asset.value, totalFrames)];
        excluded := excluded + {bgAssetIds[i]};
        bg := bg + [asset.value];
      }
    }
    assert bgAssetIds[..|bgAssetIds|] == bgAssetIds;
  }

  lemma OverrideAssetsStep(registry: seq<AssetEntry>, ids: seq<string>, i: nat)
    requires i < |ids|
    ensures OverrideAssets(registry, ids[..i + 1]) ==
              OverrideAssets(registry, ids[..i]) +
              (var found := FindById(registry, ids[i]); if found.Some? then [found.value] else [])
  {
    assert ids[..i + 1][..i] == ids[..i];
  }

  lemma BgElementsAppend(assets: seq<AssetEntry>, a: AssetEntry, totalFrames: int)
    ensures BgElements(assets + [a], totalFrames) == BgElements(assets, totalFrames) + [MakeBgElement(a, totalFrames)]
    ensures IdsOf(assets + [a]) == IdsOf(assets) + {a.id}
  {
    assert (assets + [a])[..|assets|] == assets;
  }

  /** The fallback loop of buildElements: the first hinted category with a best asset. */
  method FindFallback(registry: seq<AssetEntry>, section: ScriptSection, excludeIds: set<string>)
    returns (allMatches: seq<AssetMatch>)
    ensures allMatches == match FallbackAsset(registry, SectionTypeName(section.kind), SectionAssetHints(section.kind), excludeIds)
      case Some(a) => [AssetMatch(a, 0)]
      case None => []
  {
    allMatches := [];
    var categories := SectionAssetHints(section.kind);
    var name := SectionTypeName(section.kind);
    for j := 0 to |categories|
      invariant FallbackAsset(registry, name, categories, excludeIds) == FallbackAsset(registry, name, categories[j..], excludeIds)
      invariant allMatches == []
    {
      assert categories[j..][0] == categories[j] && categories[j..][1..] == categories[j + 1..];
      var fallback := FindBestAsset(registry, name, Some(categories[j]), excludeIds);
      if fallback.Some? {
        allMatches := [AssetMatch(fallback.value, 0)];
        return;
      }
    }
  }

  /** buildElements: override backgrounds, narration matches (or the fallback),
      the mode's builder, then the Subtitle. */
  method BuildElements(registry: seq<AssetEntry>, section: ScriptSection, layout: LayoutType, fps: nat,
                       totalFrames: int, globalUsedIds: set<string>) returns (elements: seq<ComposedElement>)
    ensures elements == SectionElements(registry, section, layout, fps, totalFrames, globalUsedIds)
  {
    var overrides := section.overrides;
    var excludeIds := globalUsedIds + SetOf(overrides.excludeAssetIds);
    elements, excludeIds := AppendOverrideBackgrounds(registry, section, totalFrames, excludeIds);
    ghost var bgPart := elements;
    var allMatches := MatchAssets(registry, section.narration, None, Some(10), excludeIds);
    if |allMatches| == 0 {
      allMatches := FindFallback(registry, section, excludeIds);
    }
    assert allMatches == SceneMatches(registry, section, excludeIds);
    var mode := DetermineSceneMode(allMatches, overrides);
    match mode {
      case StrongBackground =>
        elements := BuildStrongBgElements(allMatches, elements, totalFrames, fps, layout, overrides);
      case CharacterMode =>
        elements := BuildCharacterElements(allMatches, elements, totalFrames, fps, layout, overrides);
      case SimpleBackground =>
        elements := BuildSimpleBgElements(allMatches, elements, totalFrames, fps, layout, section.duration, overrides);
    }
    assert elements == bgPart + ModeElements(mode, allMatches, totalFrames, fps, layout, section.duration, overrides);
    elements := elements + [SubtitleElement(section.narration)];
  }

  /** Every asset matched for a section, by narration or by fallback, is in the
      registry and outside the excluded ids. */
  lemma SceneMatchesExcluded(registry: seq<AssetEntry>, section: ScriptSection, excludeIds: set<string>)
    ensures forall m :: m in SceneMatches(registry, section, excludeIds) ==>
              m.asset in registry && m.asset.id !in excludeIds
  {
    MatchSpecMembers(registry, section.narration, None, Some(10), excludeIds);
  }

  lemma {:induction false} BgElementsFacts(assets: seq<AssetEntry>, totalFrames: int)
    ensures NoSubtitle(BgElements(assets, totalFrames))
  {
    forall i | 0 <= i < |assets| ensures BgElements(assets, totalFrames)[i].component != "Subtitle" {
      assert MakeBgElement(assets[i], totalFrames).component == "LottieOverlay";
    }
  }

  /** A section's element list ends with the one Subtitle, entering at frame 0
      with the narration as its text; no other element is a Subtitle. */
  lemma SectionElementsSubtitle(registry: seq<AssetEntry>, section: ScriptSection, layout: LayoutType, fps: nat,
                                totalFrames: int, used: set<string>)
    ensures var es := SectionElements(registry, section, layout, fps, totalFrames, used);
      |es| >= 1 && es[|es| - 1] == SubtitleElement(section.narration) &&
      es[|es| - 1].component == "Subtitle" && es[|es| - 1].enterAt == 0 &&
      es[|es| - 1].props == SubtitleProps(section.narration) &&
      NoSubtitle(es[..|es| - 1])
  {
    var es := SectionElements(registry, section, layout, fps, totalFrames, used);
    var bg := OverrideAssets(registry, Dedupe(section.overrides.bgAssetIds));
    var matches := SceneMatches(registry, section, ExcludeSet(registry, section, used));
    var mode := DetermineSceneMode(matches, section.overrides);
    var body := BgElements(bg, totalFrames) + ModeElements(mode, matches, totalFrames, fps, layout, section.duration, section.overrides);
    BgElementsFacts(bg, totalFrames);
    match mode {
      case StrongBackground => StrongBgNoSubtitle(matches, totalFrames, fps, layout, section.overrides);
      case SimpleBackground => SimpleBgNoSubtitle(matches, totalFrames, fps, layout, section.duration, section.overrides);
      case CharacterMode => CharacterNoSubtitle(matches, totalFrames, fps, layout, section.overrides);
    }
    NoSubtitleAppend(BgElements(bg, totalFrames), ModeElements(mode, matches, totalFrames, fps, layout, section.duration, section.overrides));
    assert es == body + [SubtitleElement(section.narration)];
    assert es[..|es| - 1] == body;
  }

  // ── One scene ──

  /** The transition type of a scene: none for the last scene, else the
      override, else selectTransition (the narration argument is ignored there). */
  function SceneTransitionType(section: ScriptSection, index: nat, total: nat, prev: Option<TransitionType>)
    : (r: Option<TransitionType>)
    ensures index == total - 1 ==> r.None?
    ensures index != total - 1 && section.overrides.transition.Some? ==> r == section.overrides.transition
    ensures index != total - 1 && section.overrides.transition.None? ==> r == SelectTransition(section.kind, prev)
    ensures index != total - 1 && section.overrides.transition.None? && prev.Some? && r.Some? ==> r.value != prev.value
  {
    if index == total - 1 then None
    else if section.overrides.transition.Some? then section.overrides.transition
    else SelectTransition(section.kind, prev)
  }

  /** The transition record: color_wipe lasts 15 frames and carries the default
      wipe color, every other type lasts 12 frames without a color. */
  function TransitionConfig(t: Option<TransitionType>): (r: Option<TransitionSpec>)
    ensures r.None? <==> t.None?
    ensures r.Some? ==> r.value.kind == t.value
    ensures r.Some? && r.value.kind == ColorWipe ==> r.value.durationInFrames == 15 && r.value.color == Some("#4FC3F7")
    ensures r.Some? && r.value.kind != ColorWipe ==> r.value.durationInFrames == 12 && r.value.color.None?
  {
    match t
    case None => None
    case Some(kind) =>
      if kind == ColorWipe then Some(TransitionSpec(kind, 15, Some(DefaultWipeColor)))
      else Some(TransitionSpec(kind, 12, None))
  }

  lemma TransitionKindConfig(t: Option<TransitionType>)
    ensures TransitionKind(TransitionConfig(t)) == t
  {
  }

  /** A scene's layout: its directive, else its section type (no element count is passed). */
  function SceneLayout(section: ScriptSection): LayoutType
  {
    SelectLayout(section.kind, section.directive, None)
  }

  /** `Math.round(section.duration * fps)` */
  function SceneFrames(section: ScriptSection, fps: nat): int
  {
    Round(section.duration * fps as real)
  }

  /** What composeScene returns. */
  function SceneSpec(registry: seq<AssetEntry>, camera: CameraRule, section: ScriptSection, index: nat, total: nat,
                     fps: nat, bgColor: Option<string>, prev: Option<TransitionType>, used: set<string>): ComposedScene
  {
    ComposedScene(
      SceneLayout(section),
      BackgroundConfig(Solid, bgColor, None, None),
      SectionElements(registry, section, SceneLayout(section), fps, SceneFrames(section, fps), used),
      TransitionConfig(SceneTransitionType(section, index, total, prev)),
      camera(section.kind, index))
  }

  method ComposeScene(registry: seq<AssetEntry>, camera: CameraRule, section: ScriptSection, index: nat, total: nat,
                      fps: nat, bgColor: Option<string>, prev: Option<TransitionType>, used: set<string>)
    returns (scene: ComposedScene)
    ensures scene == SceneSpec(registry, camera, section, index, total, fps, bgColor, prev, used)
  {
    var totalFrames := SceneFrames(section, fps);
    var layout := SceneLayout(section);
    var transitionType := SceneTransitionType(section, index, total, prev);
    var cameraMotion := camera(section.kind, index);
    var elements := BuildElements(registry, section, layout, fps, totalFrames, used);
    var transition := TransitionConfig(transitionType);
    scene := ComposedScene(layout, BackgroundConfig(Solid, bgColor, None, None), elements, transition, cameraMotion);
  }

  // ── The fold over the sections ──

  /** `palette[i % palette.length]`; an empty palette gives `undefined`. */
  function PaletteColor(palette: seq<string>, i: nat): (r: Option<string>)
    ensures |palette| > 0 ==> r == Some(palette[i % |palette|])
    ensures |palette| == 0 ==> r.None?
  {
    if |palette| > 0 then Some(palette[i % |palette|]) else None
  }

  /** The ids the fold records from a scene: the registry entries whose file
      is named by an element's `src`. */
  function UsedIdsOf(registry: seq<AssetEntry>, elements: seq<ComposedElement>): set<string>
  {
    if elements == [] then {}
    else
      var e := elements[|elements| - 1];
      UsedIdsOf(registry, elements[..|elements| - 1]) +
        (match SrcOf(e)
           case None => {}
           case Some(src) => match FindByFile(registry, src)
             case None => {}
             case Some(a) => {a.id})
  }

  /** composeScene with the sequence's options and the section's palette colour. */
  function ComposeStep(registry: seq<AssetEntry>, camera: CameraRule, total: nat, fps: nat, palette: seq<string>): SceneStep
  {
    (section: ScriptSection, i: nat, prev: Option<TransitionType>, used: set<string>) =>
      SceneSpec(registry, camera, section, i, total, fps, PaletteColor(palette, i), prev, used)
  }

  function UsedRuleOf(registry: seq<AssetEntry>): UsedRule
  {
    (elements: seq<ComposedElement>) => UsedIdsOf(registry, elements)
  }

  /** The state of composeSequenceSync after its first `n` sections: one scene per section. */
  function ComposeUpTo(registry: seq<AssetEntry>, camera: CameraRule, sections: seq<ScriptSection>, fps: nat,
                       palette: seq<string>, n: nat): (r: FoldState)
    requires n <= |sections|
    ensures |r.scenes| == n
  {
    FoldLength(ComposeStep(registry, camera, |sections|, fps, palette), UsedRuleOf(registry), sections, n);
    Fold(ComposeStep(registry, camera, |sections|, fps, palette), UsedRuleOf(registry), sections, n)
  }

  /** The effective frame rate and palette of the options. */
  function OptionFps(options: ComposeOptions): nat
  {
    if options.fps.Some? then options.fps.value else DefaultFps
  }

  function OptionPalette(options: ComposeOptions): seq<string>
  {
    if options.colorPalette.Some? then options.colorPalette.value else DefaultPalette
  }

  /** composeSequenceSync */
  method ComposeSequence(registry: seq<AssetEntry>, camera: CameraRule, sections: seq<ScriptSection>,
                         options: ComposeOptions) returns (scenes: seq<ComposedScene>)
    ensures scenes == ComposeUpTo(registry, camera, sections, OptionFps(options), OptionPalette(options), |sections|).scenes
  {
    ghost var step := ComposeStep(registry, camera, |sections|, OptionFps(options), OptionPalette(options));
    ghost var usedOf := UsedRuleOf(registry);
    var fps := if options.fps.Some? then options.fps.value else DefaultFps;
    var palette := if options.colorPalette.Some? then options.colorPalette.value else DefaultPalette;
    var prevTransition: Option<TransitionType> := None;
    var globalUsedIds: set<string> := {};
    scenes := [];
    for i := 0 to |sections|
      invariant Fold(step, usedOf, sections, i) == FoldState(scenes, prevTransition, globalUsedIds)
    {
      var scene := ComposeScene(registry, camera, sections[i], i, |sections|, fps, PaletteColor(palette, i),
                                prevTransition, globalUsedIds);
      globalUsedIds := RecordUsedIds(registry, scene.elements, globalUsedIds);
      prevTransition := if scene.transition.Some? then Some(scene.transition.value.kind) else None;
      scenes := scenes + [scene];
    }
  }

  /** The loop that adds the ids of the assets a scene's elements refer to. */
  method RecordUsedIds(registry: seq<AssetEntry>, elements: seq<ComposedElement>, used: set<string>)
    returns (out: set<string>)
    ensures out == used + UsedIdsOf(registry, elements)
  {
    out := used;
    for k := 0 to |elements|
      invariant out == used + UsedIdsOf(registry, elements[..k])
    {
      assert elements[..k + 1][..k] == elements[..k];
      var src := SrcOf(elements[k]);
      if src.Some? {
        var entry := FindByFile(registry, src.value);
        if entry.Some? {
          out := out + {entry.value.id};
        }
      }
    }
    assert elements[..|elements|] == elements;
  }

  // ── Properties of the composed sequence ──

  /** composeSequence: one scene per section; the last scene has no transition
      even with an override; every other scene takes its override, or else
      selectTransition on its type and the previous scene's transition type
      (none before the first scene); transition records follow
      TransitionConfig; backgrounds cycle through the palette. */
  lemma ComposeSequenceTransitions(registry: seq<AssetEntry>, camera: CameraRule, sections: seq<ScriptSection>,
                                   fps: nat, palette: seq<string>, i: nat)
    requires i < |sections|
    ensures var scenes := ComposeUpTo(registry, camera, sections, fps, palette, |sections|).scenes;
      var prev := if i == 0 then None else TransitionKind(scenes[i - 1].transition);
      && |scenes| == |sections|
      && scenes[i].transition == TransitionConfig(SceneTransitionType(sections[i], i, |sections|, prev))
      && (i == |sections| - 1 ==> scenes[i].transition.None?)
      && (i < |sections| - 1 && sections[i].overrides.transition.Some? ==>
            TransitionKind(scenes[i].transition) == sections[i].overrides.transition)
      && (i < |sections| - 1 && sections[i].overrides.transition.None? ==>
            TransitionKind(scenes[i].transition) == SelectTransition(sections[i].kind, prev))
      && scenes[i].background == BackgroundConfig(Solid, PaletteColor(palette, i), None, None)
      && scenes[i].layout == SelectLayout(sections[i].kind, sections[i].directive, None)
  {
    var n := |sections|;
    var step := ComposeStep(registry, camera, n, fps, palette);
    var usedOf := UsedRuleOf(registry);
    var st := Fold(step, usedOf, sections, i);
    FoldScene(step, usedOf, sections, i, n);
    FoldPrev(step, usedOf, sections, i, n);
    var scene := SceneSpec(registry, camera, sections[i], i, n, fps, PaletteColor(palette, i), st.prev, st.used);
    assert scene.transition == TransitionConfig(SceneTransitionType(sections[i], i, n, st.prev));
    TransitionKindConfig(SceneTransitionType(sections[i], i, n, st.prev));
  }

  /** A non-last scene without an override never repeats the transition type of
      the scene before it. */
  lemma NoRepeatedTransition(registry: seq<AssetEntry>, camera: CameraRule, sections: seq<ScriptSection>,
                             fps: nat, palette: seq<string>, i: nat)
    requires 0 < i < |sections| - 1
    requires sections[i].overrides.transition.None?
    ensures var scenes := ComposeUpTo(registry, camera, sections, fps, palette, |sections|).scenes;
      |scenes| == |sections| &&
      (scenes[i - 1].transition.Some? && scenes[i].transition.Some? ==>
         scenes[i].transition.value.kind != scenes[i - 1].transition.value.kind)
  {
    ComposeSequenceTransitions(registry, camera, sections, fps, palette, i);
  }

  /** Every scene's element list ends with its one Subtitle, and the assets
      matched for scene `i` (by narration or by fallback) avoid every id recorded
      from the elements of the scenes before it. */
  lemma ComposeSequenceElements(registry: seq<AssetEntry>, camera: CameraRule, sections: seq<ScriptSection>,
                                fps: nat, palette: seq<string>, i: nat)
    requires i < |sections|
    ensures var scenes := ComposeUpTo(registry, camera, sections, fps, palette, |sections|).scenes;
      var used := ComposeUpTo(registry, camera, sections, fps, palette, i).used;
      var es := scenes[i].elements;
      && |scenes| == |sections|
      && |es| >= 1 && es[|es| - 1] == SubtitleElement(sections[i].narration) && NoSubtitle(es[..|es| - 1])
      && (forall m :: m in SceneMatches(registry, sections[i], ExcludeSet(registry, sections[i], used)) ==>
            forall j :: 0 <= j < i ==> m.asset.id !in UsedIdsOf(registry, scenes[j].elements))
  {
    var n := |sections|;
    var step := ComposeStep(registry, camera, n, fps, palette);
    var usedOf := UsedRuleOf(registry);
    var scenes := Fold(step, usedOf, sections, n).scenes;
    var st := Fold(step, usedOf, sections, i);
    FoldScene(step, usedOf, sections, i, n);
    FoldUsed(step, usedOf, sections, i);
    FoldPrefix(step, usedOf, sections, i, n);
    SectionElementsSubtitle(registry, sections[i], SceneLayout(sections[i]), fps, SceneFrames(sections[i], fps), st.used);
    var excl := ExcludeSet(registry, sections[i], st.used);
    SceneMatchesExcluded(registry, sections[i], excl);
    forall m, j | m in SceneMatches(registry, sections[i], excl) && 0 <= j < i
      ensures m.asset.id !in UsedIdsOf(registry, scenes[j].elements)
    {
      assert scenes[j] == st.scenes[j];
      assert usedOf(st.scenes[j].elements) == UsedIdsOf(registry, scenes[j].elements);
    }
  }
}
