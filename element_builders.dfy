/** The element factories and the three scene-mode builders of
    src/composer/composer.ts. Each builder appends to the scene's element
    list: a mode-specific leading part, then the foreground assets staggered
    over the scene. The foreground loop is the same in all three builders
    and is modelled once, by `PlaceForegroundLoop`. */
module ElementBuilders {
  import opened Common
  import opened MediaTypes
  import Rules
  import opened AssetMatcher
  import opened ComposerTypes

  /** Frames kept free at the end of a scene for the subtitle. */
  const SubtitleBuffer: int := 15

  function Min(a: int, b: int): int { if a <= b then a else b }

  /** `` `animations/${file}` `` */
  function AnimationsSrc(file: string): string { "animations/" + file }

  // ── Element factories ──

  /** makeBgElement: a full-scene, looping, translucent overlay of the asset. */
  function MakeBgElement(asset: AssetEntry, totalFrames: int): (e: ComposedElement)
    ensures e.component == "LottieOverlay" && e.enterAt == 0 && e.durationInFrames == Some(totalFrames)
    ensures e.props.OverlayProps? && e.props.src == AnimationsSrc(asset.file)
  {
    ComposedElement(
      "LottieOverlay",
      OverlayProps(AnimationsSrc(asset.file), true, 0.25, "screen", true),
      Position(960, 540), 0, Some(totalFrames),
      ElementAnimation(EnterAnimation("fade_in", 15, None), None))
  }

  /** makeLottieElement: a centred, non-looping element entering at `enterAt`.
      `durationInFrames` is emitted only when it is non-zero (truthy); `layout`
      is accepted and not used, as in the source. */
  function MakeLottieElement(asset: AssetEntry, enterAt: int, layout: Rules.LayoutType, durationInFrames: int): (e: ComposedElement)
    ensures e.component == "LottieElement" && e.enterAt == enterAt
    ensures e.durationInFrames == (if durationInFrames != 0 then Some(durationInFrames) else None)
    ensures e.props == LottieProps(AnimationsSrc(asset.file), false, durationInFrames)
    ensures e.animation.enter.kind == "scale_in"
  {
    ComposedElement(
      "LottieElement",
      LottieProps(AnimationsSrc(asset.file), false, durationInFrames),
      Position(960, 540), enterAt,
      if durationInFrames != 0 then Some(durationInFrames) else None,
      ElementAnimation(EnterAnimation("scale_in", 12, None), Some(ExitAnimation("fade_out", 9))))
  }

  /** The character of character mode: on the left, for the whole scene. */
  function CharacterElement(asset: AssetEntry, totalFrames: int): ComposedElement
  {
    ComposedElement(
      "LottieElement",
      LottieProps(AnimationsSrc(asset.file), true, totalFrames),
      Position(350, 540), 0, Some(totalFrames),
      ElementAnimation(EnterAnimation("slide_in", 12, None), None))
  }

  const GradientOrb: ComposedElement := ComposedElement(
    "GradientOrb",
    GradientOrbProps("#4FC3F7", 350.0, 70.0, 30.0, 0.12, 70.0),
    Position(960, 540), 0, None,
    ElementAnimation(EnterAnimation("fade_in", 20, None), None))

  const FloatingParticles: ComposedElement := ComposedElement(
    "FloatingParticles",
    ParticlesProps(12.0, "rgba(255,255,255,0.5)", 6.0, 0.8, "dot", 0.18),
    Position(960, 540), 0, None,
    ElementAnimation(EnterAnimation("fade_in", 15, None), None))

  /** The subtitle every scene ends with. */
  function SubtitleElement(narration: string): ComposedElement
  {
    ComposedElement(
      "Subtitle", SubtitleProps(narration), Position(960, 950), 0, None,
      ElementAnimation(EnterAnimation("fade_in", 10, None), None))
  }

  /** `if (enterOverride) el.animation.enter.type = enterOverride`: a present,
      non-empty `elementEnter[k]` replaces the enter type and nothing else. */
  function WithEnterOverride(e: ComposedElement, elementEnter: map<int, string>, k: int): (r: ComposedElement)
    ensures r.animation.enter.(kind := e.animation.enter.kind) == e.animation.enter
    ensures r.animation.(enter := e.animation.enter) == e.animation
    ensures r.(animation := e.animation) == e
    ensures k in elementEnter && elementEnter[k] != "" ==> r.animation.enter.kind == elementEnter[k]
    ensures !(k in elementEnter && elementEnter[k] != "") ==> r == e
  {
    if k in elementEnter && elementEnter[k] != "" then
      e.(animation := e.animation.(enter := e.animation.enter.(kind := elementEnter[k])))
    else e
  }

  // ── Foreground selection and stagger ──

  /** `matches.filter((m) => keep(m.asset.category))` */
  function MatchesWhere(ms: seq<AssetMatch>, keep: Category -> bool): (r: seq<AssetMatch>)
    ensures |r| <= |ms|
    ensures forall m :: m in r <==> m in ms && keep(m.asset.category)
  {
    if ms == [] then []
    else (if keep(ms[0].asset.category) then [ms[0]] else []) + MatchesWhere(ms[1..], keep)
  }

  /** `matches.find((m) => keep(m.asset.category))` */
  function FirstWhere(ms: seq<AssetMatch>, keep: Category -> bool): (r: Option<AssetMatch>)
    ensures r.None? <==> forall i :: 0 <= i < |ms| ==> !keep(ms[i].asset.category)
    ensures r.Some? ==> exists i :: 0 <= i < |ms| && ms[i] == r.value && keep(r.value.asset.category) &&
                          forall j :: 0 <= j < i ==> !keep(ms[j].asset.category)
  {
    if ms == [] then None
    else if keep(ms[0].asset.category) then Some(ms[0])
    else
      var r := FirstWhere(ms[1..], keep);
      assert forall i :: 1 <= i < |ms| ==> ms[i] == ms[1..][i - 1];
      assert r.Some? ==> exists i :: 0 <= i < |ms| && ms[i] == r.value && keep(r.value.asset.category) &&
                          forall j :: 0 <= j < i ==> !keep(ms[j].asset.category) by {
        if r.Some? {
          var i :| 0 <= i < |ms[1..]| && ms[1..][i] == r.value && keep(r.value.asset.category) &&
                   forall j :: 0 <= j < i ==> !keep(ms[1..][j].asset.category);
          assert ms[i + 1] == r.value;
          forall j | 0 <= j < i + 1 ensures !keep(ms[j].asset.category) {
            if j > 0 { assert ms[j] == ms[1..][j - 1]; }
          }
        }
      }
      r
  }

  /** The assets the foreground loop places: matches in order, skipping ids
      already placed (or in `used`), at most `n` of them. */
  function ChooseForeground(fg: seq<AssetMatch>, n: nat, used: set<string>): seq<AssetEntry>
  {
    if fg == [] || n == 0 then []
    else if fg[0].asset.id in used then ChooseForeground(fg[1..], n, used)
    else [fg[0].asset] + ChooseForeground(fg[1..], n - 1, used + {fg[0].asset.id})
  }

  /** At most `n` assets are chosen, with pairwise distinct ids outside `used`,
      each one the asset of a match. */
  lemma {:induction false} ChooseForegroundFacts(fg: seq<AssetMatch>, n: nat, used: set<string>)
    ensures |ChooseForeground(fg, n, used)| <= n
    ensures |ChooseForeground(fg, n, used)| <= |fg|
    ensures forall a :: a in ChooseForeground(fg, n, used) ==> a.id !in used && exists m :: m in fg && m.asset == a
    ensures forall i, j :: 0 <= i < j < |ChooseForeground(fg, n, used)| ==>
              ChooseForeground(fg, n, used)[i].id != ChooseForeground(fg, n, used)[j].id
  {
    if fg != [] && n != 0 {
      var m := fg[0];
      forall x | x in fg[1..] ensures x in fg { }
      if m.asset.id in used {
        ChooseForegroundFacts(fg[1..], n, used);
      } else {
        var rest := ChooseForeground(fg[1..], n - 1, used + {m.asset.id});
        ChooseForegroundFacts(fg[1..], n - 1, used + {m.asset.id});
        var r := [m.asset] + rest;
        assert ChooseForeground(fg, n, used) == r;
        forall i, j | 0 <= i < j < |r| ensures r[i].id != r[j].id {
          if i == 0 { assert r[j] in rest; } else { assert r[i] == rest[i - 1] && r[j] == rest[j - 1]; }
        }
      }
    }
  }

  /** `Math.min(targetSlice, Math.floor(availableFrames / fgCount))`, or 0 when
      nothing is placed (the divisor is positive, so `/` is the floor). */
  function SliceDuration(fgCount: nat, totalFrames: int, fps: nat): int
  {
    if fgCount > 0 then Min(3 * fps, (totalFrames - SubtitleBuffer) / fgCount) else 0
  }

  /** The k-th foreground element: entering at `k * slice`, in the right-hand
      column in character mode, with the caller's enter override applied. */
  function ForegroundElement(asset: AssetEntry, k: nat, slice: int, layout: Rules.LayoutType,
                             elementEnter: map<int, string>, rightColumn: bool): ComposedElement
  {
    var base := MakeLottieElement(asset, k * slice, layout, slice);
    var placed := if rightColumn then base.(position := Position(1200, 450 + k * 120)) else base;
    WithEnterOverride(placed, elementEnter, k)
  }

  function PlaceForeground(chosen: seq<AssetEntry>, slice: int, layout: Rules.LayoutType,
                           elementEnter: map<int, string>, rightColumn: bool): seq<ComposedElement>
  {
    seq(|chosen|, k requires 0 <= k < |chosen| => ForegroundElement(chosen[k], k, slice, layout, elementEnter, rightColumn))
  }

  /** Staggering: the k-th element enters at `k * slice` and is a LottieElement
      carrying the slice as its duration exactly when the slice is non-zero;
      when the scene has at least the 15 subtitle frames and no more than
      `fgCount` elements are placed, every element that carries a duration
      plays within `[0, totalFrames - 15]`. */
  lemma StaggerBounds(chosen: seq<AssetEntry>, fgCount: nat, totalFrames: int, fps: nat, layout: Rules.LayoutType,
                      elementEnter: map<int, string>, rightColumn: bool)
    requires |chosen| <= fgCount
    ensures var slice := SliceDuration(fgCount, totalFrames, fps);
      var es := PlaceForeground(chosen, slice, layout, elementEnter, rightColumn);
      |es| == |chosen| &&
      (forall k :: 0 <= k < |es| ==> es[k].enterAt == k * slice && es[k].component == "LottieElement") &&
      (forall k :: 0 <= k < |es| ==> es[k].durationInFrames == (if slice != 0 then Some(slice) else None)) &&
      (totalFrames >= SubtitleBuffer ==>
         slice >= 0 &&
         forall k :: 0 <= k < |es| && es[k].durationInFrames.Some? ==>
           0 <= es[k].enterAt && es[k].enterAt + es[k].durationInFrames.value <= totalFrames - SubtitleBuffer)
  {
    var slice := SliceDuration(fgCount, totalFrames, fps);
    var es := PlaceForeground(chosen, slice, layout, elementEnter, rightColumn);
    if totalFrames >= SubtitleBuffer && |es| > 0 {
      var avail := totalFrames - SubtitleBuffer;
      assert slice <= avail / fgCount;
      assert fgCount * (avail / fgCount) <= avail;
      forall k | 0 <= k < |es| ensures 0 <= es[k].enterAt && es[k].enterAt + slice <= avail {
        assert 0 <= k * slice by { MulNonNeg(k, slice); }
        assert (k + 1) * slice <= fgCount * slice by { MulMono(k + 1, fgCount, slice); }
        assert fgCount * slice <= fgCount * (avail / fgCount) by { MulMono2(fgCount, slice, avail / fgCount); }
      }
    }
  }

  /** The other side of the bound: when the scene has its 15 subtitle frames
      but fewer than one further frame per slot, the slice is 0 and no placed
      element carries a duration, so each one plays on to the end of the scene,
      subtitle frames included. */
  lemma ZeroSliceHasNoDuration(chosen: seq<AssetEntry>, fgCount: nat, totalFrames: int, fps: nat,
                               layout: Rules.LayoutType, elementEnter: map<int, string>, rightColumn: bool)
    requires 0 < fgCount && SubtitleBuffer <= totalFrames < SubtitleBuffer + fgCount
    ensures SliceDuration(fgCount, totalFrames, fps) == 0
    ensures var es := PlaceForeground(chosen, 0, layout, elementEnter, rightColumn);
      forall k :: 0 <= k < |es| ==> es[k].enterAt == 0 && es[k].durationInFrames.None?
  {
    assert (totalFrames - SubtitleBuffer) / fgCount == 0;
  }

  lemma MulNonNeg(a: nat, b: int)
    requires b >= 0
    ensures a * b >= 0
  {
  }

  lemma MulMono(a: nat, b: nat, c: int)
    requires a <= b && c >= 0
    ensures a * c <= b * c
  {
  }

  lemma MulMono2(a: nat, b: int, c: int)
    requires b <= c
    ensures a * b <= a * c
  {
  }

  /** The foreground loop shared by the three builders: it walks the matches,
      stops after `fgCount` placements, skips ids already placed, and appends
      each placed element. */
  method PlaceForegroundLoop(fg: seq<AssetMatch>, fgCount: nat, elements: seq<ComposedElement>, slice: int,
                             layout: Rules.LayoutType, elementEnter: map<int, string>, rightColumn: bool)
    returns (out: seq<ComposedElement>)
    ensures out == elements + PlaceForeground(ChooseForeground(fg, fgCount, {}), slice, layout, elementEnter, rightColumn)
  {
    out := elements;
    var usedIds: set<string> := {};
    ghost var chosen: seq<AssetEntry> := [];
    var fgIndex: nat := 0;
    ghost var target := ChooseForeground(fg, fgCount, {});
    assert fg[0..] == fg;
    for i := 0 to |fg|
      invariant fgIndex == |chosen| <= fgCount
      invariant chosen + ChooseForeground(fg[i..], fgCount - fgIndex, usedIds) == target
      invariant out == elements + PlaceForeground(chosen, slice, layout, elementEnter, rightColumn)
    {
      if fgIndex >= fgCount {
        assert chosen == target;
        break;
      }
      var m := fg[i];
      ChooseForegroundStep(fg, i, fgCount - fgIndex, usedIds, chosen, target);
      if m.asset.id in usedIds {
        continue;
      }
      usedIds := usedIds + {m.asset.id};
      var el := BuildForegroundElement(m.asset, fgIndex, slice, layout, elementEnter, rightColumn);
      PlaceForegroundAppend(chosen, m.asset, slice, layout, elementEnter, rightColumn);
      out := out + [el];
      chosen := chosen + [m.asset];
      fgIndex := fgIndex + 1;
    }
    assert chosen == target;
  }

  /** The body of the foreground loop: build the element, move it to the
      right-hand column in character mode, then apply the enter override. */
  method BuildForegroundElement(asset: AssetEntry, fgIndex: nat, slice: int, layout: Rules.LayoutType,
                                elementEnter: map<int, string>, rightColumn: bool) returns (el: ComposedElement)
    ensures el == ForegroundElement(asset, fgIndex, slice, layout, elementEnter, rightColumn)
  {
    el := MakeLottieElement(asset, fgIndex * slice, layout, slice);
    if rightColumn {
      el := el.(position := Position(1200, 450 + fgIndex * 120));
    }
    if fgIndex in elementEnter && elementEnter[fgIndex] != "" {
      el := el.(animation := el.animation.(enter := el.animation.enter.(kind := elementEnter[fgIndex])));
    }
  }

  /** One step of the foreground loop on the specification side: a match whose
      id is already placed is skipped, any other is chosen next. */
  lemma ChooseForegroundStep(fg: seq<AssetMatch>, i: nat, n: nat, used: set<string>,
                             chosen: seq<AssetEntry>, target: seq<AssetEntry>)
    requires i < |fg| && n > 0
    requires chosen + ChooseForeground(fg[i..], n, used) == target
    ensures fg[i].asset.id in used ==> chosen + ChooseForeground(fg[i + 1..], n, used) == target
    ensures fg[i].asset.id !in used ==>
              (chosen + [fg[i].asset]) + ChooseForeground(fg[i + 1..], n - 1, used + {fg[i].asset.id}) == target
  {
    assert fg[i..][0] == fg[i] && fg[i..][1..] == fg[i + 1..];
    if fg[i].asset.id !in used {
      var rest := ChooseForeground(fg[i + 1..], n - 1, used + {fg[i].asset.id});
      assert ChooseForeground(fg[i..], n, used) == [fg[i].asset] + rest;
      assert chosen + ([fg[i].asset] + rest) == (chosen + [fg[i].asset]) + rest;
    }
  }

  lemma PlaceForegroundAppend(chosen: seq<AssetEntry>, a: AssetEntry, slice: int, layout: Rules.LayoutType,
                              elementEnter: map<int, string>, rightColumn: bool)
    ensures PlaceForeground(chosen + [a], slice, layout, elementEnter, rightColumn) ==
            PlaceForeground(chosen, slice, layout, elementEnter, rightColumn) +
              [ForegroundElement(a, |chosen|, slice, layout, elementEnter, rightColumn)]
  {
  }

  /** Foreground elements are LottieElements. */
  lemma PlaceForegroundComponents(chosen: seq<AssetEntry>, slice: int, layout: Rules.LayoutType,
                                  elementEnter: map<int, string>, rightColumn: bool)
    ensures forall k :: 0 <= k < |chosen| ==>
      PlaceForeground(chosen, slice, layout, elementEnter, rightColumn)[k].component == "LottieElement"
  {
    forall k | 0 <= k < |chosen|
      ensures PlaceForeground(chosen, slice, layout, elementEnter, rightColumn)[k].component == "LottieElement"
    {
      var e := ForegroundElement(chosen[k], k, slice, layout, elementEnter, rightColumn);
      assert e.component == "LottieElement";
    }
  }

  // ── Mode builders ──

  predicate IsBackground(c: Category) { c == Category.Background }
  predicate IsNotBackground(c: Category) { c != Category.Background }
  predicate IsCharacter(c: Category) { c == Category.Character }
  predicate IsNotCharacter(c: Category) { c != Category.Character }
  /** The foreground categories of simple-background mode. */
  predicate IsSimpleForeground(c: Category) { c == Category.Element || c == Category.Effect || c == Category.Emoji }

  /** The overlays of the background matches, in match order. */
  function BgOverlays(matches: seq<AssetMatch>, totalFrames: int): seq<ComposedElement>
  {
    if matches == [] then []
    else
      var m := matches[|matches| - 1];
      BgOverlays(matches[..|matches| - 1], totalFrames) +
        (if IsBackground(m.asset.category) then [MakeBgElement(m.asset, totalFrames)] else [])
  }

  /** Strong-background mode: at most 2 foreground assets. */
  const MaxStrongForeground: nat := 2
  /** Character mode: at most 3 foreground assets beside the character. */
  const MaxCharacterForeground: nat := 3

  /** What buildStrongBgElements appends. */
  function StrongBgElements(matches: seq<AssetMatch>, totalFrames: int, fps: nat, layout: Rules.LayoutType,
                            overrides: Overrides): seq<ComposedElement>
  {
    var fg := MatchesWhere(matches, IsNotBackground);
    var fgCount := Min(|fg|, MaxStrongForeground);
    BgOverlays(matches, totalFrames) +
      PlaceForeground(ChooseForeground(fg, fgCount, {}), SliceDuration(fgCount, totalFrames, fps),
                      layout, overrides.elementEnter, false)
  }

  /** The first loop of buildStrongBgElements: an overlay per background match. */
  method AppendBgOverlays(matches: seq<AssetMatch>, elements: seq<ComposedElement>, totalFrames: int)
    returns (out: seq<ComposedElement>)
    ensures out == elements + BgOverlays(matches, totalFrames)
  {
    out := elements;
    for i := 0 to |matches|
      invariant out == elements + BgOverlays(matches[..i], totalFrames)
    {
      assert matches[..i + 1][..i] == matches[..i];
      if matches[i].asset.category == Category.Background {
        out := out + [MakeBgElement(matches[i].asset, totalFrames)];
      }
    }
    assert matches[..|matches|] == matches;
  }

  method BuildStrongBgElements(matches: seq<AssetMatch>, elements: seq<ComposedElement>, totalFrames: int, fps: nat,
                               layout: Rules.LayoutType, overrides: Overrides) returns (out: seq<ComposedElement>)
    ensures out == elements + StrongBgElements(matches, totalFrames, fps, layout, overrides)
  {
    out := AppendBgOverlays(matches, elements, totalFrames);
    var fgMatches := MatchesWhere(matches, IsNotBackground);
    var fgCount := Min(|fgMatches|, MaxStrongForeground);
    var sliceDuration := if fgCount > 0 then Min(3 * fps, (totalFrames - SubtitleBuffer) / fgCount) else 0;
    out := PlaceForegroundLoop(fgMatches, fgCount, out, sliceDuration, layout, overrides.elementEnter, false);
    ghost var placed := PlaceForeground(ChooseForeground(fgMatches, fgCount, {}), sliceDuration, layout, overrides.elementEnter, false);
    assert StrongBgElements(matches, totalFrames, fps, layout, overrides) == BgOverlays(matches, totalFrames) + placed;
    ConcatAssoc(elements, BgOverlays(matches, totalFrames), placed);
  }

  /** What buildSimpleBgElements appends: the two decoration layers, then up to
      `suggestElementCount(durationSec).max` element/effect/emoji assets. */
  function SimpleBgElements(matches: seq<AssetMatch>, totalFrames: int, fps: nat, layout: Rules.LayoutType,
                            durationSec: real, overrides: Overrides): seq<ComposedElement>
  {
    var fg := MatchesWhere(matches, IsSimpleForeground);
    var fgCount := Min(|fg|, Rules.SuggestElementCount(durationSec).max);
    [GradientOrb, FloatingParticles] +
      PlaceForeground(ChooseForeground(fg, fgCount, {}), SliceDuration(fgCount, totalFrames, fps),
                      layout, overrides.elementEnter, false)
  }

  method BuildSimpleBgElements(matches: seq<AssetMatch>, elements: seq<ComposedElement>, totalFrames: int, fps: nat,
                               layout: Rules.LayoutType, durationSec: real, overrides: Overrides)
    returns (out: seq<ComposedElement>)
    ensures out == elements + SimpleBgElements(matches, totalFrames, fps, layout, durationSec, overrides)
  {
    var max := Rules.SuggestElementCount(durationSec).max;
    out := elements + [GradientOrb];
    out := out + [FloatingParticles];
    var fgMatches := MatchesWhere(matches, IsSimpleForeground);
    var fgCount := Min(|fgMatches|, max);
    var sliceDuration := if fgCount > 0 then Min(3 * fps, (totalFrames - SubtitleBuffer) / fgCount) else 0;
    out := PlaceForegroundLoop(fgMatches, fgCount, out, sliceDuration, layout, overrides.elementEnter, false);
  }

  /** The character element of the first character match, if any. */
  function CharacterLead(matches: seq<AssetMatch>, totalFrames: int): seq<ComposedElement>
  {
    match FirstWhere(matches, IsCharacter)
    case Some(c) => [CharacterElement(c.asset, totalFrames)]
    case None => []
  }

  /** What buildCharacterElements appends: the first character match on the
      left, then up to 3 other assets in the right-hand column. */
  function CharacterElements(matches: seq<AssetMatch>, totalFrames: int, fps: nat, layout: Rules.LayoutType,
                             overrides: Overrides): seq<ComposedElement>
  {
    var fg := MatchesWhere(matches, IsNotCharacter);
    var fgCount := Min(|fg|, MaxCharacterForeground);
    CharacterLead(matches, totalFrames) + PlaceForeground(ChooseForeground(fg, fgCount, {}), SliceDuration(fgCount, totalFrames, fps),
                           layout, overrides.elementEnter, true)
  }

  method BuildCharacterElements(matches: seq<AssetMatch>, elements: seq<ComposedElement>, totalFrames: int, fps: nat,
                                layout: Rules.LayoutType, overrides: Overrides) returns (out: seq<ComposedElement>)
    ensures out == elements + CharacterElements(matches, totalFrames, fps, layout, overrides)
  {
    out := elements;
    var charMatch := FirstWhere(matches, IsCharacter);
    if charMatch.Some? {
      out := out + [CharacterElement(charMatch.value.asset, totalFrames)];
    }
    assert out == elements + CharacterLead(matches, totalFrames);
    ghost var lead := out;
    var fgMatches := MatchesWhere(matches, IsNotCharacter);
    var fgCount := Min(|fgMatches|, MaxCharacterForeground);
    var sliceDuration := if fgCount > 0 then Min(3 * fps, (totalFrames - SubtitleBuffer) / fgCount) else 0;
    out := PlaceForegroundLoop(fgMatches, fgCount, out, sliceDuration, layout, overrides.elementEnter, true);
    ghost var placed := PlaceForeground(ChooseForeground(fgMatches, fgCount, {}), sliceDuration, layout, overrides.elementEnter, true);
    assert CharacterElements(matches, totalFrames, fps, layout, overrides) == CharacterLead(matches, totalFrames) + placed;
    ConcatAssoc(elements, CharacterLead(matches, totalFrames), placed);
  }

  // ── Properties of the builders ──

  predicate NoSubtitle(es: seq<ComposedElement>)
  {
    forall i :: 0 <= i < |es| ==> es[i].component != "Subtitle"
  }

  lemma {:induction false} BgOverlaysFacts(matches: seq<AssetMatch>, totalFrames: int)
    ensures |BgOverlays(matches, totalFrames)| == |MatchesWhere(matches, IsBackground)|
    ensures forall i :: 0 <= i < |BgOverlays(matches, totalFrames)| ==>
              BgOverlays(matches, totalFrames)[i].component == "LottieOverlay"
  {
    if matches != [] {
      var init := matches[..|matches| - 1];
      var m := matches[|matches| - 1];
      BgOverlaysFacts(init, totalFrames);
      MatchesWhereLast(init, m, IsBackground);
      assert init + [m] == matches;
      var prior := BgOverlays(init, totalFrames);
      var tail: seq<ComposedElement> := if IsBackground(m.asset.category) then [MakeBgElement(m.asset, totalFrames)] else [];
      assert BgOverlays(matches, totalFrames) == prior + tail;
      forall i | 0 <= i < |prior + tail| ensures (prior + tail)[i].component == "LottieOverlay" {
        if i >= |prior| { assert (prior + tail)[i] == MakeBgElement(m.asset, totalFrames); }
      }
    }
  }

  /** Filtering a list with one more match at the end. */
  lemma MatchesWhereLast(init: seq<AssetMatch>, m: AssetMatch, keep: Category -> bool)
    ensures MatchesWhere(init + [m], keep) == MatchesWhere(init, keep) + (if keep(m.asset.category) then [m] else [])
  {
    MatchesWhereAppend(init, [m], keep);
    assert [m][1..] == [];
  }

  lemma {:induction false} MatchesWhereAppend(a: seq<AssetMatch>, b: seq<AssetMatch>, keep: Category -> bool)
    ensures MatchesWhere(a + b, keep) == MatchesWhere(a, keep) + MatchesWhere(b, keep)
  {
    if a == [] {
      assert a + b == b;
    } else {
      assert (a + b)[0] == a[0] && (a + b)[1..] == a[1..] + b;
      MatchesWhereAppend(a[1..], b, keep);
      var h := if keep(a[0].asset.category) then [a[0]] else [];
      assert MatchesWhere(a + b, keep) == h + MatchesWhere(a[1..] + b, keep);
      assert MatchesWhere(a, keep) == h + MatchesWhere(a[1..], keep);
    }
  }

  /** Strong-background mode emits overlays and foreground Lotties, no Subtitle. */
  lemma StrongBgNoSubtitle(matches: seq<AssetMatch>, totalFrames: int, fps: nat, layout: Rules.LayoutType,
                           overrides: Overrides)
    ensures NoSubtitle(StrongBgElements(matches, totalFrames, fps, layout, overrides))
  {
    BgOverlaysFacts(matches, totalFrames);
    var fgs := MatchesWhere(matches, IsNotBackground);
    var ns := Min(|fgs|, MaxStrongForeground);
    var ps := PlaceForeground(ChooseForeground(fgs, ns, {}), SliceDuration(ns, totalFrames, fps), layout, overrides.elementEnter, false);
    PlaceForegroundComponents(ChooseForeground(fgs, ns, {}), SliceDuration(ns, totalFrames, fps), layout, overrides.elementEnter, false);
    NoSubtitleAppend(BgOverlays(matches, totalFrames), ps);
  }

  /** Simple-background mode starts with GradientOrb then FloatingParticles and
      emits no Subtitle. */
  lemma SimpleBgNoSubtitle(matches: seq<AssetMatch>, totalFrames: int, fps: nat, layout: Rules.LayoutType,
                           durationSec: real, overrides: Overrides)
    ensures NoSubtitle(SimpleBgElements(matches, totalFrames, fps, layout, durationSec, overrides))
    ensures SimpleBgElements(matches, totalFrames, fps, layout, durationSec, overrides)[..2] == [GradientOrb, FloatingParticles]
  {
    var fgp := MatchesWhere(matches, IsSimpleForeground);
    var np := Min(|fgp|, Rules.SuggestElementCount(durationSec).max);
    var pp := PlaceForeground(ChooseForeground(fgp, np, {}), SliceDuration(np, totalFrames, fps), layout, overrides.elementEnter, false);
    PlaceForegroundComponents(ChooseForeground(fgp, np, {}), SliceDuration(np, totalFrames, fps), layout, overrides.elementEnter, false);
    NoSubtitleAppend([GradientOrb, FloatingParticles], pp);
  }

  /** Character mode emits the character and foreground Lotties, no Subtitle. */
  lemma CharacterNoSubtitle(matches: seq<AssetMatch>, totalFrames: int, fps: nat, layout: Rules.LayoutType,
                            overrides: Overrides)
    ensures NoSubtitle(CharacterElements(matches, totalFrames, fps, layout, overrides))
  {
    var fgc := MatchesWhere(matches, IsNotCharacter);
    var nc := Min(|fgc|, MaxCharacterForeground);
    var pc := PlaceForeground(ChooseForeground(fgc, nc, {}), SliceDuration(nc, totalFrames, fps), layout, overrides.elementEnter, true);
    PlaceForegroundComponents(ChooseForeground(fgc, nc, {}), SliceDuration(nc, totalFrames, fps), layout, overrides.elementEnter, true);
    NoSubtitleAppend(CharacterLead(matches, totalFrames), pc);
  }

  lemma NoSubtitleAppend(a: seq<ComposedElement>, b: seq<ComposedElement>)
    requires NoSubtitle(a) && NoSubtitle(b)
    ensures NoSubtitle(a + b)
  {
  }
}
