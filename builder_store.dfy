/** The builder's editing state (builder/src/state/builder-store.ts): the
    list of scene configurations, the selected scene, the active slot, the
    sequence title and the module-level scene counter that numbers new
    scenes. Persistence (localStorage, the project endpoints) is outside
    this model; a loaded project arrives as a parameter. */
module BuilderStore {
  import opened Common
  import opened MediaTypes
  import opened BuilderTypes
  import AssetCatalog
  import SceneGenerator

  const DefaultTitle := "내 영상"
  const ExportId := "builder-output"
  const ProjectType := "scene-builder-project"
  const ScenePrefix := "scene-"
  const DefaultTransitionDuration := 15

  function Min(a: int, b: int): int { if a <= b then a else b }

  // ── New scenes ──

  /** `slotAssignments[slot.id] = slot.defaultAssetId ?? null` for each slot
      in turn; a later slot with the same id overwrites an earlier one. */
  function DefaultAssignments(slots: seq<SlotDefinition>): (m: map<string, Option<string>>)
    decreases |slots|
  {
    if slots == [] then map[]
    else DefaultAssignments(slots[..|slots| - 1])[slots[|slots| - 1].id := slots[|slots| - 1].defaultAssetId]
  }

  /** Every slot has an entry, and nothing else has one. */
  lemma {:induction false} DefaultAssignmentsKeys(slots: seq<SlotDefinition>, key: string)
    ensures key in DefaultAssignments(slots) <==> exists i :: 0 <= i < |slots| && slots[i].id == key
    decreases |slots|
  {
    if slots != [] {
      var n := |slots| - 1;
      DefaultAssignmentsKeys(slots[..n], key);
      if key in DefaultAssignments(slots[..n]) {
        var i :| 0 <= i < n && slots[..n][i].id == key;
        assert slots[i].id == key;
      }
      if exists i :: 0 <= i < |slots| && slots[i].id == key {
        var i :| 0 <= i < |slots| && slots[i].id == key;
        if i < n {
          assert slots[..n][i].id == key;
        }
      }
    }
  }

  /** A slot's entry is its default asset, or `null`, unless a later slot
      reuses its id. */
  lemma {:induction false} DefaultAssignmentsValue(slots: seq<SlotDefinition>, i: nat)
    requires i < |slots|
    requires forall j :: i < j < |slots| ==> slots[j].id != slots[i].id
    ensures slots[i].id in DefaultAssignments(slots)
    ensures DefaultAssignments(slots)[slots[i].id] == slots[i].defaultAssetId
    decreases |slots|
  {
    var n := |slots| - 1;
    if i < n {
      forall j | i < j < n
        ensures slots[..n][j].id != slots[..n][i].id
      {
      }
      DefaultAssignmentsValue(slots[..n], i);
      assert slots[..n][i] == slots[i];
    }
  }

  /** The `for … of` loop of `createDefaultSceneConfig`. */
  method BuildDefaultAssignments(slots: seq<SlotDefinition>) returns (m: map<string, Option<string>>)
    ensures m == DefaultAssignments(slots)
  {
    m := map[];
    var k := 0;
    while k < |slots|
      invariant 0 <= k <= |slots|
      invariant m == DefaultAssignments(slots[..k])
    {
      assert slots[..k + 1][..k] == slots[..k];
      m := m[slots[k].id := slots[k].defaultAssetId];
      k := k + 1;
    }
    assert slots[..k] == slots;
  }

  /** The configuration `createDefaultSceneConfig` builds for the `number`-th
      scene: named after the preset, with the preset's length and default
      transition (`fade` for 15 frames when the preset has none). */
  function DefaultSceneConfig(preset: PresetMetadata, presetId: string, number: nat): (r: SceneConfig)
    ensures r.id == ScenePrefix + NatToString(number) && r.presetId == presetId
    ensures r.title == preset.name + " 장면" && r.subtitle == ""
    ensures r.durationInFrames == preset.defaultDurationInFrames
    ensures r.slotAssignments == DefaultAssignments(preset.slots)
    ensures preset.defaultTransition.None? ==>
              r.transitionType == Fade && r.transitionDuration == DefaultTransitionDuration && r.transitionColor.None?
    ensures preset.defaultTransition.Some? ==>
              r.transitionType == preset.defaultTransition.value.kind
              && r.transitionColor == preset.defaultTransition.value.color
              && r.transitionDuration == (if preset.defaultTransition.value.duration.Some?
                                          then preset.defaultTransition.value.duration.value
                                          else DefaultTransitionDuration)
  {
    var t := preset.defaultTransition;
    SceneConfig(
      ScenePrefix + NatToString(number), presetId, preset.name + " 장면", preset.defaultDurationInFrames, "",
      DefaultAssignments(preset.slots),
      if t.Some? then t.value.kind else Fade,
      if t.Some? && t.value.duration.Some? then t.value.duration.value else DefaultTransitionDuration,
      if t.Some? then t.value.color else None)
  }

  function UnknownPreset(presetId: string): string
  {
    "Unknown preset: " + presetId
  }

  // ── Removing and moving ──

  /** `scenes.filter((_, i) => i !== index)` */
  function RemoveAt<T>(s: seq<T>, index: int): (r: seq<T>)
    ensures |r| == if 0 <= index < |s| then |s| - 1 else |s|
  {
    if 0 <= index < |s| then s[..index] + s[index + 1..] else s
  }

  /** Exactly element `index` goes; the others keep their order. */
  lemma RemoveAtElements<T>(s: seq<T>, index: int)
    requires 0 <= index < |s|
    ensures forall j :: 0 <= j < index ==> RemoveAt(s, index)[j] == s[j]
    ensures forall j :: index <= j < |s| - 1 ==> RemoveAt(s, index)[j] == s[j + 1]
    ensures multiset(RemoveAt(s, index)) + multiset{s[index]} == multiset(s)
  {
    assert s == s[..index] + [s[index]] + s[index + 1..];
  }

  /** The selection after `removeScene(index)`, given the new length. */
  function SelectionAfterRemove(selected: Option<int>, index: int, newLength: nat): (r: Option<int>)
    ensures selected.None? ==> r.None?
    ensures selected.Some? && selected.value < index ==> r == selected
    ensures selected.Some? && selected.value > index ==> r == Some(selected.value - 1)
    ensures selected == Some(index) ==> r == (if newLength > 0 then Some(Min(index, newLength - 1)) else None)
  {
    match selected
    case None => None
    case Some(v) =>
      if v == index then (if newLength > 0 then Some(Min(index, newLength - 1)) else None)
      else if v > index then Some(v - 1)
      else selected
  }

  predicate InBounds(selected: Option<int>, length: nat)
  {
    selected.None? || 0 <= selected.value < length
  }

  /** An in-bounds selection stays in bounds, and a selection other than the
      removed scene still shows the same scene. */
  lemma RemoveKeepsSelection<T>(s: seq<T>, selected: Option<int>, index: int)
    requires 0 <= index && InBounds(selected, |s|)
    ensures var r := RemoveAt(s, index);
      var after := SelectionAfterRemove(selected, index, |r|);
      && InBounds(after, |r|)
      && (selected.Some? && selected.value != index ==> after.Some? && r[after.value] == s[selected.value])
  {
    if index < |s| {
      RemoveAtElements(s, index);
    }
  }

  /** `Array.prototype.splice` for a non-negative start: `deleteCount`
      elements from `start` (both clamped to the array) give way to `items`. */
  function Splice<T>(s: seq<T>, start: nat, deleteCount: nat, items: seq<T>): (r: seq<T>)
    ensures var st := Min(start, |s|); var en := Min(st + deleteCount, |s|);
      && |r| == |s| - (en - st) + |items|
      && r[..st] == s[..st] && r[st..st + |items|] == items && r[st + |items|..] == s[en..]
  {
    var st := Min(start, |s|);
    var en := Min(st + deleteCount, |s|);
    s[..st] + items + s[en..]
  }

  /** `moveScene`: the scene at `from` is spliced out and re-inserted at `to`. */
  function MoveScenes<T>(s: seq<T>, from: nat, to: nat): seq<T>
    requires from < |s|
  {
    Splice(Splice(s, from, 1, []), to, 0, [s[from]])
  }

  /** Moving keeps the length and the multiset of scenes, lands the moved
      scene at `to` (the end when `to` is past it), and leaves the others in
      their order. */
  lemma MoveScenesPermutes<T>(s: seq<T>, from: nat, to: nat)
    requires from < |s|
    ensures var r := MoveScenes(s, from, to);
      && |r| == |s|
      && multiset(r) == multiset(s)
      && r[Min(to, |s| - 1)] == s[from]
      && RemoveAt(r, Min(to, |s| - 1)) == RemoveAt(s, from)
  {
    var rest := s[..from] + s[from + 1..];
    assert Splice(s, from, 1, []) == rest;
    var p := Min(to, |rest|);
    var r := MoveScenes(s, from, to);
    assert r == rest[..p] + [s[from]] + rest[p..];
    assert rest[..p] + rest[p..] == rest;
    RemoveAtElements(s, from);
    RemoveAtElements(r, p);
    calc {
      multiset(r);
      multiset(rest[..p]) + multiset{s[from]} + multiset(rest[p..]);
      multiset(rest) + multiset{s[from]};
      multiset(s);
    }
  }

  // ── Counter recovery ──

  /** `parseInt` skips leading white space. */
  function SkipSpaces(s: string): (r: string)
    ensures |r| <= |s| && r == s[|s| - |r|..]
    ensures r != [] ==> !IsJsSpace(r[0])
    ensures forall i :: 0 <= i < |s| - |r| ==> IsJsSpace(s[i])
  {
    if s != [] && IsJsSpace(s[0]) then SkipSpaces(s[1..]) else s
  }

  /** The length of the run of decimal digits that starts `s`. */
  function LeadingDigits(s: string): (n: nat)
    ensures n <= |s| && AllDigits(s[..n])
    ensures n < |s| ==> !IsDigit(s[n])
  {
    if s != [] && IsDigit(s[0]) then
      var n := 1 + LeadingDigits(s[1..]);
      assert s[..n] == [s[0]] + s[1..][..n - 1];
      n
    else 0
  }

  /** `parseInt(s, 10)`: white space, an optional sign, then the longest run
      of digits; `NaN` (here `None`) when there is no digit. */
  function ParseInt(s: string): Option<int>
  {
    ParseSigned(SkipSpaces(s))
  }

  /** An optional sign, then the digits. */
  function ParseSigned(t: string): (r: Option<int>)
    ensures t != [] && t[0] == '-' && ParseDigits(t[1..]).Some? ==> r == Some(-ParseDigits(t[1..]).value)
    ensures t != [] && t[0] == '-' && ParseDigits(t[1..]).None? ==> r.None?
    ensures t != [] && t[0] == '+' ==> r == ParseDigits(t[1..])
    ensures t == [] || (t[0] != '-' && t[0] != '+') ==> r == ParseDigits(t)
  {
    if t != [] && t[0] == '-' then
      (var d := ParseDigits(t[1..]); if d.None? then None else Some(-d.value))
    else if t != [] && t[0] == '+' then ParseDigits(t[1..])
    else ParseDigits(t)
  }

  /** The value of the leading run of digits, `None` when there is none. */
  function ParseDigits(body: string): (r: Option<int>)
    ensures r.None? <==> LeadingDigits(body) == 0
    ensures r.Some? ==> r.value == DigitsValue(body[..LeadingDigits(body)])
  {
    var n := LeadingDigits(body);
    if n == 0 then None else Some(DigitsValue(body[..n]))
  }

  /** The position of the first occurrence of `pat` in `s`. */
  function IndexOf(s: string, pat: string): (r: Option<nat>)
    ensures r.Some? ==> OccursAt(s, pat, r.value)
    ensures r.Some? ==> forall j :: 0 <= j < r.value ==> !OccursAt(s, pat, j)
    ensures r.None? ==> forall j :: !OccursAt(s, pat, j)
    decreases |s|
  {
    if |s| < |pat| then None
    else if s[..|pat|] == pat then Some(0)
    else
      var rest := IndexOf(s[1..], pat);
      forall j | 1 <= j
        ensures OccursAt(s, pat, j) <==> OccursAt(s[1..], pat, j - 1)
      {
        if 1 <= j <= |s| - |pat| {
          TailSlice(s, j, j + |pat|);
        }
      }
      assert !OccursAt(s, pat, 0);
      if rest.Some? then Some(rest.value + 1) else None
  }

  lemma TailSlice(s: string, a: nat, b: nat)
    requires 1 <= a <= b <= |s|
    ensures s[1..][a - 1..b - 1] == s[a..b]
  {
  }

  /** `s.replace(pat, rep)` with a string pattern: the first occurrence of `pat`
      (the one `IndexOf` finds) becomes `rep`, the text before it and after it is
      kept, and without an occurrence nothing changes. */
  function ReplaceFirst(s: string, pat: string, rep: string): (r: string)
    ensures IndexOf(s, pat).None? ==> r == s
    ensures IndexOf(s, pat).Some? ==>
      var i := IndexOf(s, pat).value;
      i + |pat| <= |s| && |r| == |s| - |pat| + |rep| &&
      r[..i] == s[..i] && r[i..i + |rep|] == rep && r[i + |rep|..] == s[i + |pat|..]
  {
    match IndexOf(s, pat)
    case None => s
    case Some(i) => s[..i] + rep + s[i + |pat|..]
  }

  /** `parseInt(id.replace("scene-", ""), 10)` */
  function SceneNumber(id: string): Option<int>
  {
    ParseInt(ReplaceFirst(id, ScenePrefix, ""))
  }

  lemma LeadingDigitsOfDigits(s: string)
    requires AllDigits(s)
    ensures LeadingDigits(s) == |s|
  {
  }

  lemma ParseIntOfDigits(s: string)
    requires s != [] && AllDigits(s)
    ensures ParseInt(s) == Some(DigitsValue(s))
  {
    assert SkipSpaces(s) == s;
    LeadingDigitsOfDigits(s);
    assert s[..|s|] == s;
    assert ParseDigits(s) == Some(DigitsValue(s));
  }

  /** The ids the store hands out read back as their number. */
  lemma SceneNumberOfId(n: nat)
    ensures SceneNumber(ScenePrefix + NatToString(n)) == Some(n)
  {
    var id := ScenePrefix + NatToString(n);
    assert id[..|ScenePrefix|] == ScenePrefix;
    assert IndexOf(id, ScenePrefix) == Some(0);
    assert ReplaceFirst(id, ScenePrefix, "") == NatToString(n);
    ParseIntOfDigits(NatToString(n));
    NatToStringValue(n);
  }

  /** A `reduce` that starts from 0 and takes `Math.max` with every number
      `number` reads off an element, skipping the elements it reads none from. */
  function MaxNumber<T>(xs: seq<T>, number: T -> Option<int>): (r: int)
    ensures r >= 0
    decreases |xs|
  {
    if xs == [] then 0
    else
      var m := MaxNumber(xs[..|xs| - 1], number);
      var k := number(xs[|xs| - 1]);
      if k.None? || k.value <= m then m else k.value
  }

  /** The maximum is at least every number, and is 0 or one of them. */
  lemma {:induction false} MaxNumberBounds<T>(xs: seq<T>, number: T -> Option<int>)
    ensures forall i :: 0 <= i < |xs| && number(xs[i]).Some? ==> number(xs[i]).value <= MaxNumber(xs, number)
    ensures MaxNumber(xs, number) == 0
            || exists i :: 0 <= i < |xs| && number(xs[i]) == Some(MaxNumber(xs, number))
    decreases |xs|
  {
    if xs != [] {
      var n := |xs| - 1;
      var init := xs[..n];
      MaxNumberBounds(init, number);
      forall i | 0 <= i < n
        ensures xs[i] == init[i]
      {
      }
    }
  }

  /** The `reduce` of `loadProject`: the largest scene number, at least 0. */
  function MaxSceneNumber(scenes: seq<SceneConfig>): int
  {
    MaxNumber(scenes, (s: SceneConfig) => SceneNumber(s.id))
  }

  /** After a load, the next scene the store adds gets an id no loaded scene
      has. */
  lemma NextIdIsFresh(scenes: seq<SceneConfig>, preset: PresetMetadata, presetId: string)
    ensures forall i :: 0 <= i < |scenes| ==>
              scenes[i].id != DefaultSceneConfig(preset, presetId, MaxSceneNumber(scenes) + 1).id
  {
    MaxNumberBounds(scenes, (s: SceneConfig) => SceneNumber(s.id));
    SceneNumberOfId(MaxSceneNumber(scenes) + 1);
  }

  /** A project file as `loadProject` receives it. */
  datatype ProjectFile = ProjectFile(kind: string, version: int, sequenceTitle: string, scenes: seq<SceneConfig>)

  predicate IsProject(data: ProjectFile)
  {
    data.kind == ProjectType && data.version == 1
  }

  // ── The store ──

  class Store {
    var sequenceTitle: string
    var scenes: seq<SceneConfig>
    var selectedSceneIndex: Option<int>
    var activeSlotId: Option<string>
    /** The module-level `sceneCounter`. */
    var sceneCounter: nat
    const presets: PresetRegistry
    const fps: int := 30
    const width: int := 1920
    const height: int := 1080

    /** The store as created when nothing was saved before. */
    constructor (presets: PresetRegistry)
      ensures this.presets == presets
      ensures sequenceTitle == DefaultTitle && scenes == [] && sceneCounter == 0
      ensures selectedSceneIndex.None? && activeSlotId.None?
    {
      this.presets := presets;
      sequenceTitle := DefaultTitle;
      scenes := [];
      selectedSceneIndex := None;
      activeSlotId := None;
      sceneCounter := 0;
    }

    method SetSequenceTitle(title: string)
      modifies this
      ensures sequenceTitle == title
      ensures scenes == old(scenes) && sceneCounter == old(sceneCounter)
      ensures selectedSceneIndex == old(selectedSceneIndex) && activeSlotId == old(activeSlotId)
    {
      sequenceTitle := title;
    }

    /** `createDefaultSceneConfig`: the counter moves on only when the preset
        exists. */
    method CreateDefaultSceneConfig(presetId: string) returns (r: Result<SceneConfig, string>)
      modifies this
      ensures r.Err? <==> presetId !in presets
      ensures r.Err? ==> r.error == UnknownPreset(presetId) && sceneCounter == old(sceneCounter)
      ensures r.Ok? ==> sceneCounter == old(sceneCounter) + 1
                        && r.value == DefaultSceneConfig(presets[presetId], presetId, sceneCounter)
      ensures sequenceTitle == old(sequenceTitle) && scenes == old(scenes)
      ensures selectedSceneIndex == old(selectedSceneIndex) && activeSlotId == old(activeSlotId)
    {
      if presetId !in presets {
        return Err(UnknownPreset(presetId));
      }
      var preset := presets[presetId];
      sceneCounter := sceneCounter + 1;
      var assignments := BuildDefaultAssignments(preset.slots);
      var t := preset.defaultTransition;
      r := Ok(SceneConfig(
        ScenePrefix + NatToString(sceneCounter), presetId, preset.name + " 장면",
        preset.defaultDurationInFrames, "", assignments,
        if t.Some? then t.value.kind else Fade,
        if t.Some? && t.value.duration.Some? then t.value.duration.value else DefaultTransitionDuration,
        if t.Some? then t.value.color else None));
    }

    /** `addScene`: the new scene is appended and selected; an unknown
        preset leaves everything as it was. */
    method AddScene(presetId: string) returns (error: Option<string>)
      modifies this
      ensures error.Some? <==> presetId !in presets
      ensures error.Some? ==> error.value == UnknownPreset(presetId)
                              && scenes == old(scenes) && sceneCounter == old(sceneCounter)
                              && selectedSceneIndex == old(selectedSceneIndex) && activeSlotId == old(activeSlotId)
      ensures error.None? ==>
                sceneCounter == old(sceneCounter) + 1
                && scenes == old(scenes) + [DefaultSceneConfig(presets[presetId], presetId, sceneCounter)]
                && selectedSceneIndex == Some(|scenes| - 1) && activeSlotId.None?
      ensures sequenceTitle == old(sequenceTitle)
    {
      var config := CreateDefaultSceneConfig(presetId);
      if config.Err? {
        return Some(config.error);
      }
      scenes := scenes + [config.value];
      selectedSceneIndex := Some(|scenes| - 1);
      activeSlotId := None;
      error := None;
    }

    method RemoveScene(index: int)
      modifies this
      ensures scenes == RemoveAt(old(scenes), index)
      ensures selectedSceneIndex == SelectionAfterRemove(old(selectedSceneIndex), index, |scenes|)
      ensures activeSlotId.None?
      ensures sequenceTitle == old(sequenceTitle) && sceneCounter == old(sceneCounter)
    {
      scenes := RemoveAt(scenes, index);
      selectedSceneIndex := SelectionAfterRemove(selectedSceneIndex, index, |scenes|);
      activeSlotId := None;
    }

    /** `moveScene`; the active slot is left alone. */
    method MoveScene(from: nat, to: nat)
      requires from < |scenes|
      modifies this
      ensures scenes == MoveScenes(old(scenes), from, to)
      ensures selectedSceneIndex == Some(to)
      ensures activeSlotId == old(activeSlotId)
      ensures sequenceTitle == old(sequenceTitle) && sceneCounter == old(sceneCounter)
    {
      var item := scenes[from];
      var rest := Splice(scenes, from, 1, []);
      scenes := Splice(rest, to, 0, [item]);
      selectedSceneIndex := Some(to);
    }

    method SelectScene(index: Option<int>)
      modifies this
      ensures selectedSceneIndex == index && activeSlotId.None?
      ensures scenes == old(scenes) && sequenceTitle == old(sequenceTitle) && sceneCounter == old(sceneCounter)
    {
      selectedSceneIndex := index;
      activeSlotId := None;
    }

    method UpdateSceneTitle(index: nat, title: string)
      requires index < |scenes|
      modifies this
      ensures scenes == old(scenes)[index := old(scenes)[index].(title := title)]
      ensures selectedSceneIndex == old(selectedSceneIndex) && activeSlotId == old(activeSlotId)
      ensures sequenceTitle == old(sequenceTitle) && sceneCounter == old(sceneCounter)
    {
      scenes := scenes[index := scenes[index].(title := title)];
    }

    method UpdateSceneDuration(index: nat, frames: int)
      requires index < |scenes|
      modifies this
      ensures scenes == old(scenes)[index := old(scenes)[index].(durationInFrames := frames)]
      ensures selectedSceneIndex == old(selectedSceneIndex) && activeSlotId == old(activeSlotId)
      ensures sequenceTitle == old(sequenceTitle) && sceneCounter == old(sceneCounter)
    {
      scenes := scenes[index := scenes[index].(durationInFrames := frames)];
    }

    method UpdateSceneSubtitle(index: nat, text: string)
      requires index < |scenes|
      modifies this
      ensures scenes == old(scenes)[index := old(scenes)[index].(subtitle := text)]
      ensures selectedSceneIndex == old(selectedSceneIndex) && activeSlotId == old(activeSlotId)
      ensures sequenceTitle == old(sequenceTitle) && sceneCounter == old(sceneCounter)
    {
      scenes := scenes[index := scenes[index].(subtitle := text)];
    }

    /** `assignAsset`: one slot of one scene; `None` is an explicit `null`. */
    method AssignAsset(sceneIndex: nat, slotId: string, assetId: Option<string>)
      requires sceneIndex < |scenes|
      modifies this
      ensures |scenes| == |old(scenes)|
      ensures forall j :: 0 <= j < |scenes| && j != sceneIndex ==> scenes[j] == old(scenes)[j]
      ensures scenes[sceneIndex] == old(scenes)[sceneIndex].(slotAssignments := old(scenes)[sceneIndex].slotAssignments[slotId := assetId])
      ensures activeSlotId.None? && selectedSceneIndex == old(selectedSceneIndex)
      ensures sequenceTitle == old(sequenceTitle) && sceneCounter == old(sceneCounter)
    {
      var s := scenes[sceneIndex];
      scenes := scenes[sceneIndex := s.(slotAssignments := s.slotAssignments[slotId := assetId])];
      activeSlotId := None;
    }

    method SetActiveSlot(slotId: Option<string>)
      modifies this
      ensures activeSlotId == slotId
      ensures scenes == old(scenes) && selectedSceneIndex == old(selectedSceneIndex)
      ensures sequenceTitle == old(sequenceTitle) && sceneCounter == old(sceneCounter)
    {
      activeSlotId := slotId;
    }

    /** `updateTransition`: a missing duration keeps the old one, while the
        colour is always overwritten, possibly with nothing. */
    method UpdateTransition(sceneIndex: nat, kind: TransitionType, duration: Option<int>, color: Option<string>)
      requires sceneIndex < |scenes|
      modifies this
      ensures |scenes| == |old(scenes)|
      ensures forall j :: 0 <= j < |scenes| && j != sceneIndex ==> scenes[j] == old(scenes)[j]
      ensures scenes[sceneIndex].transitionType == kind && scenes[sceneIndex].transitionColor == color
      ensures scenes[sceneIndex].transitionDuration
                == if duration.Some? then duration.value else old(scenes)[sceneIndex].transitionDuration
      ensures scenes[sceneIndex].(transitionType := old(scenes)[sceneIndex].transitionType,
                                  transitionDuration := old(scenes)[sceneIndex].transitionDuration,
                                  transitionColor := old(scenes)[sceneIndex].transitionColor)
              == old(scenes)[sceneIndex]
      ensures selectedSceneIndex == old(selectedSceneIndex) && activeSlotId == old(activeSlotId)
      ensures sequenceTitle == old(sequenceTitle) && sceneCounter == old(sceneCounter)
    {
      var s := scenes[sceneIndex];
      scenes := scenes[sceneIndex := s.(transitionType := kind,
                                        transitionDuration := if duration.Some? then duration.value else s.transitionDuration,
                                        transitionColor := color)];
    }

    /** `exportSequence`, with the asset catalog and the random draws as
        parameters. */
    function ExportSequence(catalog: seq<AssetCatalog.AssetEntry>, speed: SceneGenerator.SpeedSource)
      : (r: Result<SceneGenerator.SceneSequenceOutput, string>)
      reads this
      ensures r.Ok? <==> forall i :: 0 <= i < |scenes| ==> scenes[i].presetId in presets
      ensures r.Ok? ==> r.value.id == ExportId && r.value.title == sequenceTitle
                        && r.value.fps == fps && r.value.width == width && r.value.height == height
                        && |r.value.scenes| == |scenes|
    {
      SceneGenerator.GenerateSequence(scenes, SceneGenerator.SequenceMeta(ExportId, sequenceTitle, fps, width, height),
                                      presets, catalog, speed)
    }

    /** `loadProject`: `None` stands for a failed request; a file of the
        wrong type or version is ignored. */
    method LoadProject(data: Option<ProjectFile>) returns (loaded: bool)
      modifies this
      ensures loaded <==> data.Some? && IsProject(data.value)
      ensures !loaded ==> scenes == old(scenes) && sequenceTitle == old(sequenceTitle)
                          && sceneCounter == old(sceneCounter)
                          && selectedSceneIndex == old(selectedSceneIndex) && activeSlotId == old(activeSlotId)
      ensures loaded ==> scenes == data.value.scenes && sequenceTitle == data.value.sequenceTitle
                         && sceneCounter == MaxSceneNumber(data.value.scenes)
                         && selectedSceneIndex.None? && activeSlotId.None?
    {
      if data.None? || !IsProject(data.value) {
        return false;
      }
      sceneCounter := MaxSceneNumber(data.value.scenes);
      sequenceTitle := data.value.sequenceTitle;
      scenes := data.value.scenes;
      selectedSceneIndex := None;
      activeSlotId := None;
      loaded := true;
    }

    method Reset()
      modifies this
      ensures sequenceTitle == DefaultTitle && scenes == [] && sceneCounter == 0
      ensures selectedSceneIndex.None? && activeSlotId.None?
    {
      sequenceTitle := DefaultTitle;
      scenes := [];
      selectedSceneIndex := None;
      activeSlotId := None;
      sceneCounter := 0;
    }
  }
}
