# Finance animation engine: composer and scene builder, in Dafny

This project models the deterministic core of a finance explainer-video engine.
The engine has two halves.

**The rule-based scene composer** (`src/composer/`) turns a script into scenes.
The script is a list of sections, each with a type, a narration, a duration and
optional overrides.
- `rules.ts` picks a transition, a layout and an element count for each section.
- `asset-matcher.ts` scores the animation assets of a fixed registry against the
  narration's keywords. Korean tags weigh 2 and others 1. Results are ranked by a
  stable descending sort.
- `composer.ts` folds over the sections. It carries the previous scene's transition
  and the ids of the assets already used. For each section it builds the elements:
  override backgrounds first, then the narration matches or a fallback asset, then
  the elements of one of three scene modes, and the subtitle last.
- `to-scene-sequence.ts` converts the composed scenes into the renderer's sequence
  document.
- `src/Root.tsx` computes the video's total length: the scene durations less the
  frames each transition overlaps.

**The scene builder** (`builder/`) is an editor.
- `builder-store.ts` is a store of scene configurations. It adds, removes, moves,
  edits, exports, loads and resets them, and keeps a scene counter that issues
  `scene-N` ids.
- `scene-generator.ts` expands each configuration into renderer elements. These are
  the preset's fixed elements, the assigned slots (or the 12-element "accumulate"
  waves), and the subtitle.
- `asset-catalog.ts` is the catalog of animation assets, which a directory scan
  extends.
- `vite.config.ts` is the development server's API. It sanitises project file
  names, lists projects newest first, and scans the animations directory, deriving
  each asset's id and tags from its file name.

Modules follow the source files:
- `rules.dfy`, `asset_matcher.dfy`, `sorting.dfy`, `composer_types.dfy`,
  `element_builders.dfy`, `sequence_fold.dfy` and `composer.dfy` model the composer.
- `to_scene_sequence.dfy` models the converter and `root_frames.dfy` the total.
- `builder_types.dfy`, `scene_generator.dfy`, `builder_store.dfy`,
  `asset_catalog.dfy` and `builder_api.dfy` model the builder.
- `media_types.dfy` holds the shared vocabulary and `common.dfy` the helpers
  (Option/Result, decimal printing, ASCII lower-casing, substring search).

Pure code is modelled as functions. Each loop of the source is a method whose
postcondition ties its result to a specification function, and lemmas prove
properties of those functions. The builder store and the asset catalog update
their state in place, so each is a class whose fields the methods reassign.

## Model

| member | source | states |
|---|---|---|
| Rules.DefaultWipeColorInTable | src/composer/rules.ts:15-21 | the color-wipe colour table's `default` entry is the colour the composer attaches to color_wipe transitions |
| Rules.FirstDifferent | src/composer/rules.ts:43 | the `find` over the fallbacks: the result differs from the previous transition and no earlier candidate does; nothing exactly when every candidate equals it |
| Rules.SelectTransition | src/composer/rules.ts:26-47 | no transition exactly for the intro type; the result never equals a previous transition; the type's default is kept when it differs from the previous one, otherwise the first differing fallback (color_wipe, or wipe_left after a color_wipe) |
| Rules.FallbackAlwaysFound | src/composer/rules.ts:35-43 | the fallback list always holds a transition different from the previous one, so the `?? "fade"` default is never reached |
| Rules.SelectLayout | src/composer/rules.ts:67-85 | a directive with a table entry wins; otherwise an element count of 1, 2 or at least 3 gives center, split or grid; otherwise the section type's layout |
| Rules.UnknownDirectiveIgnored | src/composer/rules.ts:73-75 | a directive that is empty or has no table entry gives the same layout as no directive |
| Rules.NonPositiveCountIgnored | src/composer/rules.ts:78-84 | an element count of zero or less gives the same layout as no count |
| Rules.SuggestElementCount | src/composer/rules.ts:122-129 | under 5 seconds 1-2 elements, 5 to 15 seconds 2-3, longer 3-5 |
| Rules.SuggestElementCountMonotone | src/composer/rules.ts:122-129 | a longer section never gets a smaller suggested minimum or maximum |
| AssetMatcher.SectionAssetHints | src/composer/asset-matcher.ts:160-167 | every section type hints at least two categories, in table order |
| AssetMatcher.ScorePositive | src/composer/asset-matcher.ts:125-131 | an asset scores above zero exactly when one of its lower-cased tags occurs in the lower-cased narration |
| AssetMatcher.ScoreBound | src/composer/asset-matcher.ts:125-131 | each tag adds at most 2 points |
| AssetMatcher.MatchAssets | src/composer/asset-matcher.ts:108-139 | the registry loop with category and exclusion filters computes exactly the ranked, truncated match list |
| AssetMatcher.CandidatesMembers | src/composer/asset-matcher.ts:121-136 | a match is pushed exactly for a registry asset that passes both filters and scores above zero, with that score |
| AssetMatcher.MatchSpecMembers | src/composer/asset-matcher.ts:108-139 | every returned match comes from the registry, is not excluded, has the requested category and a positive score equal to its tag sum |
| AssetMatcher.MatchSpecOrder | src/composer/asset-matcher.ts:138 | the result is sorted by descending score and is a prefix of the full ranking, of at most `maxResults` (default 5) entries; the ranking permutes the candidates and keeps equal scores in registry order |
| AssetMatcher.MatchSpecEmpty | src/composer/asset-matcher.ts:133-138 | with a positive limit, nothing is returned exactly when no qualifying asset has a tag in the narration |
| AssetMatcher.EmptyNarrationMatchesNothing | src/composer/asset-matcher.ts:125-131 | an empty narration matches nothing when no tag is empty |
| AssetMatcher.FindBestAsset | src/composer/asset-matcher.ts:144-155 | null exactly when no qualifying asset scores; otherwise a qualifying registry asset with a positive score, the first candidate with the highest score |
| AssetMatcher.BestIsRankedHead | src/composer/asset-matcher.ts:138 | the head of the stable ranking is the first candidate with the best score |
| Sorting.SortDescFacts | src/composer/asset-matcher.ts:138 | the insertion sort behind `sort((a, b) => b.score - a.score)` yields a descending, permuted list that keeps each score group in its original order |
| Sorting.SortedUnique | src/composer/asset-matcher.ts:138 | two descending lists with the same score groups are equal, so the stable order is determined |
| Composer.Round | src/composer/composer.ts:116 | `Math.round`: the result lies within half a frame of the input, halves rounding up |
| Composer.Dedupe | src/composer/composer.ts:199-200 | iterating `new Set(ids)`: exactly the same ids, each once, ordered by the position of their first occurrence |
| Composer.FindById | src/composer/composer.ts:201 | `find` by id: nothing exactly when no entry has the id; otherwise the first entry with it |
| Composer.FindByFile | src/composer/composer.ts:92 | `find` by `animations/` path: nothing exactly when no entry's path matches; otherwise the first registry entry with that path |
| Composer.SrcFindsAsset | src/composer/composer.ts:89-95 | the `src` of an overlay or Lottie element built from an asset leads the used-id lookup back to that asset, when the registry's files are distinct |
| Composer.DetermineSceneMode | src/composer/composer.ts:168-180 | character mode exactly when a character matched; strong background exactly when no character did and there is a background override or a background match; simple background otherwise |
| Composer.ModeElementsBound | src/composer/composer.ts:268-279 | the per-mode cap: overlays plus 2 foreground assets, a character plus 3, or two decoration layers plus the suggested maximum |
| Composer.OverrideAssets | src/composer/composer.ts:199-206 | the override background assets are registry entries named by override ids |
| Composer.FallbackAsset | src/composer/composer.ts:214-224 | a fallback asset is a registry entry of a hinted category that is not excluded |
| Composer.AppendOverrideBackgrounds | src/composer/composer.ts:199-206 | the override loop appends one overlay per known, de-duplicated id, in order, and adds those ids to the exclusions |
| Composer.FindFallback | src/composer/composer.ts:215-224 | the fallback loop returns the first hinted category's best asset with score 0, or nothing |
| Composer.BuildElements | src/composer/composer.ts:182-255 | buildElements produces the specified list: override backgrounds, then the mode's elements for the matches or the fallback, then the subtitle |
| Composer.SceneMatchesExcluded | src/composer/composer.ts:192-224 | every asset matched for a section, by narration or by fallback, is in the registry and outside the excluded ids |
| Composer.SectionElementsSubtitle | src/composer/composer.ts:243-252 | a section's elements end with its one Subtitle, which enters at frame 0 and carries the narration; no earlier element is a Subtitle |
| Composer.SceneTransitionType | src/composer/composer.ts:125-129 | none for the last scene; otherwise the override, else selectTransition, which never repeats the previous type |
| Composer.TransitionConfig | src/composer/composer.ts:137-146 | color_wipe lasts 15 frames and carries the default wipe colour; any other type (`none` included) lasts 12 frames with no colour; no transition (null) gives no record |
| Composer.TransitionKindConfig | src/composer/composer.ts:97 | the type read back from a transition record is the type it was built from |
| Composer.ComposeScene | src/composer/composer.ts:111-155 | composeScene yields the specified scene: layout, solid background in the given colour, elements, transition record and camera motion |
| Composer.PaletteColor | src/composer/composer.ts:84 | `palette[i % palette.length]`, undefined for an empty palette |
| Composer.ComposeUpTo | src/composer/composer.ts:75-99 | after n sections the fold holds n scenes |
| Composer.ComposeSequence | src/composer/composer.ts:69-100 | composeSequenceSync's loop computes the fold's scenes, with the default frame rate 30 and the default palette |
| Composer.RecordUsedIds | src/composer/composer.ts:89-95 | the used-id loop adds exactly the ids of the registry entries that the elements' `src` paths name |
| Composer.ComposeSequenceTransitions | src/composer/composer.ts:75-99 | one scene per section; the last scene has no transition even with an override; other scenes take the override, else selectTransition on the previous scene's type; backgrounds cycle through the palette |
| Composer.NoRepeatedTransition | src/composer/composer.ts:97 | a non-last scene without an override never repeats the transition type of the scene before it |
| Composer.ComposeSequenceElements | src/composer/composer.ts:76-95 | every scene ends with its one Subtitle, and the assets matched for a scene avoid every id recorded from earlier scenes |
| SequenceFold.TransitionKind | src/composer/composer.ts:97 | `scene.transition?.type ?? null`: none exactly for no transition, else its type |
| SequenceFold.FoldLength | src/composer/composer.ts:78-99 | the fold yields one scene per section, and the carried type is the last scene's |
| SequenceFold.FoldPrefix | src/composer/composer.ts:78-99 | later sections only append scenes |
| SequenceFold.FoldScene | src/composer/composer.ts:79-86 | scene i is the step applied to section i and the state reached before it |
| SequenceFold.FoldPrev | src/composer/composer.ts:75 | the type carried into section i is scene i-1's, none for the first |
| SequenceFold.FoldUsed | src/composer/composer.ts:76 | the ids carried into section n are exactly those recorded from the earlier scenes |
| ElementBuilders.MakeBgElement | src/composer/composer.ts:443-463 | a full-scene LottieOverlay of the asset's `animations/` path, entering at 0 |
| ElementBuilders.MakeLottieElement | src/composer/composer.ts:465-492 | a non-looping LottieElement entering at `enterAt` with a scale_in entrance; a duration only when it is non-zero |
| ElementBuilders.WithEnterOverride | src/composer/composer.ts:298-299 | a non-empty override replaces only the entrance type; a missing or empty one changes nothing |
| ElementBuilders.MatchesWhere | src/composer/composer.ts:278 | `filter` by category: exactly the matches whose category passes, no more than the input |
| ElementBuilders.FirstWhere | src/composer/composer.ts:392 | `find` by category: nothing exactly when no match passes; otherwise the first that does |
| ElementBuilders.ChooseForegroundFacts | src/composer/composer.ts:288-303 | the foreground loop places at most `fgCount` assets, with pairwise distinct ids, each from a match |
| ElementBuilders.StaggerBounds | src/composer/composer.ts:279-295 | the k-th foreground element enters at k times the slice and carries the slice as its duration exactly when the slice is non-zero; when the scene keeps its 15 subtitle frames, every element with a duration ends before them |
| ElementBuilders.ZeroSliceHasNoDuration | src/composer/composer.ts:279-295 | when fewer than `fgCount` frames remain beyond the 15 subtitle frames, the slice is 0 and every placed element enters at 0 with no duration |
| ElementBuilders.PlaceForegroundLoop | src/composer/composer.ts:288-303 | the loop with `break`, `continue` and the used-id set appends exactly the specified elements |
| ElementBuilders.BuildForegroundElement | src/composer/composer.ts:428-436 | the loop body: a Lottie element, moved to the right-hand column in character mode, with the entrance override applied |
| ElementBuilders.AppendBgOverlays | src/composer/composer.ts:271-275 | one overlay per background match, in match order |
| ElementBuilders.BgOverlaysFacts | src/composer/composer.ts:271-275 | as many overlays as background matches, all LottieOverlays |
| ElementBuilders.BuildStrongBgElements | src/composer/composer.ts:260-304 | buildStrongBgElements appends the overlays and at most 2 foreground elements |
| ElementBuilders.BuildSimpleBgElements | src/composer/composer.ts:309-376 | buildSimpleBgElements appends the two decoration layers and up to the suggested maximum of effect, element or emoji assets |
| ElementBuilders.BuildCharacterElements | src/composer/composer.ts:381-439 | buildCharacterElements appends the first character match and up to 3 other assets |
| ElementBuilders.StrongBgNoSubtitle | src/composer/composer.ts:260-304 | strong-background mode adds no Subtitle |
| ElementBuilders.SimpleBgNoSubtitle | src/composer/composer.ts:321-345 | simple-background mode starts with GradientOrb then FloatingParticles and adds no Subtitle |
| ElementBuilders.CharacterNoSubtitle | src/composer/composer.ts:381-439 | character mode adds no Subtitle |
| ToSceneSequence.MapPreset | src/composer/to-scene-sequence.ts:15-36 | a name missing from the table gives fade_in; slide_in gives slide_up; draw_line and count_up give fade_in |
| ToSceneSequence.MapPresetKeepsOwnNames | src/composer/to-scene-sequence.ts:15-25 | every preset the converter can produce maps to itself |
| ToSceneSequence.MapEasing | src/composer/to-scene-sequence.ts:27-41 | nothing exactly for a missing or empty easing; an unknown name gives kurzgesagt |
| ToSceneSequence.ConvertElement | src/composer/to-scene-sequence.ts:43-66 | the element keeps component, props, start and duration; its animation is the mapped entrance; only the Subtitle has no container style |
| ToSceneSequence.ElementIdsDistinct | src/composer/to-scene-sequence.ts:45 | `el-{index}-{component}` ids differ for different indices, whatever the components |
| ToSceneSequence.SceneIdsDistinct | src/composer/to-scene-sequence.ts:78 | `scene-{index+1}` ids differ for different indices |
| ToSceneSequence.TruthyColor | src/composer/to-scene-sequence.ts:92-94 | the colour is spread in exactly when it is a non-empty string |
| ToSceneSequence.ConvertTransition | src/composer/to-scene-sequence.ts:88-96 | a transition exactly when the composed scene has one, with its type and duration |
| ToSceneSequence.ConvertElements | src/composer/to-scene-sequence.ts:85 | elements converted one by one with their positions as indices |
| ToSceneSequence.ConvertScene | src/composer/to-scene-sequence.ts:68-103 | id, title, rounded duration, background type and colour, transition, elements and camera motion of a scene |
| ToSceneSequence.SceneTitle | src/composer/to-scene-sequence.ts:128 | the given title, or `Scene {i+1}` past the end of the list |
| ToSceneSequence.Convert | src/composer/to-scene-sequence.ts:113-131 | id and title copied; fps 30, width 1920 and height 1080 by default; scene i is section i converted |
| ToSceneSequence.ConvertSceneIds | src/composer/to-scene-sequence.ts:127-129 | scene ids are `scene-1`, `scene-2`, … and pairwise distinct |
| ToSceneSequence.ConvertSceneElements | src/composer/to-scene-sequence.ts:85 | elements keep count, order and start frames, have distinct ids, and only the Subtitle goes without a style |
| ToSceneSequence.ConvertComposedSequence | src/composer/to-scene-sequence.ts:113-131 | converting the composer's output gives one scene per section; the last has no transition; each ends with its section's subtitle, the one element without a style |
| ToSceneSequence.ConvertSubtitleLast | src/composer/to-scene-sequence.ts:55-64 | a list ending with its only Subtitle converts to one whose last element alone has no style |
| RootFrames.TimingOf | src/composer/to-scene-sequence.ts:88-96 | a converted scene's transition always has a duration |
| RootFrames.OverlapAt | src/Root.tsx:15-17 | the first scene and scenes with no or a `none` transition overlap nothing; others overlap their duration, 15 when it is unset |
| RootFrames.TotalFramesIsSumLessOverlaps | src/Root.tsx:12-19 | the total is the sum of the durations less the sum of the overlaps |
| RootFrames.FirstTransitionIgnored | src/Root.tsx:15 | the first scene's transition never changes the total |
| RootFrames.TotalAtMostSum | src/Root.tsx:12-19 | with no negative transition durations, the total is at most the sum of the durations |
| SceneGenerator.WaveSpeed | builder/src/utils/scene-generator.ts:83 | a random draw in [0, 1) gives a speed in [0.85, 1.2) |
| SceneGenerator.FixedOutput | builder/src/utils/scene-generator.ts:113-123 | id `{scene}-fixed-{i}`, the element's component, props and style; an animation exactly when the preset gives one |
| SceneGenerator.Assigned | builder/src/utils/scene-generator.ts:134-135 | an asset id exactly when the slot's assignment is a non-empty string |
| SceneGenerator.SlotSource | builder/src/utils/scene-generator.ts:139-141 | StaticImage uses the bare file, others the `animations/` path |
| SceneGenerator.SlotProps | builder/src/utils/scene-generator.ts:146-149 | `src` is the given source; every other key is present exactly when the slot's default props have it, with the same value |
| SceneGenerator.SlotElement | builder/src/utils/scene-generator.ts:143-161 | id `{scene}-{slot}`, the slot's component, style, timing, animation and parallax |
| SceneGenerator.SlotOutput | builder/src/utils/scene-generator.ts:133-162 | a slot yields an element exactly when it is assigned an id the catalog knows |
| SceneGenerator.SlotOutputsFromSlots | builder/src/utils/scene-generator.ts:133-162 | every slot element comes from one of the preset's slots |
| SceneGenerator.WavePositionsMatchCounts | builder/src/utils/scene-generator.ts:56-73 | the position table holds 1, 3 and 8 positions, the wave counts |
| SceneGenerator.WaveElement | builder/src/utils/scene-generator.ts:77-89 | id `{scene}-w{wi+1}-{pi+1}`, start 8 frames per position after the wave, animation length 12 for the last wave and 15 otherwise |
| SceneGenerator.GenerateAccumulateElements | builder/src/utils/scene-generator.ts:50-94 | the nested wave loops produce exactly the specified elements |
| SceneGenerator.AccumulateTiming | builder/src/utils/scene-generator.ts:56-91 | 12 elements, starting at frame 10, then 60, 68, 76, then 130 + 8k |
| SceneGenerator.SubtitleOutput | builder/src/utils/scene-generator.ts:166-174 | id `{scene}-subtitle`, a Subtitle carrying the text, starting at frame 10 |
| SceneGenerator.SubtitleOutputs | builder/src/utils/scene-generator.ts:166 | a subtitle element exactly when the text is non-empty |
| SceneGenerator.SceneTransition | builder/src/utils/scene-generator.ts:185-191 | a transition exactly after the first scene with a type other than none; the colour only when non-empty |
| SceneGenerator.SceneSpec | builder/src/utils/scene-generator.ts:106-198 | an error exactly for an unknown preset; otherwise the config's id, title and duration, the preset's background and camera, and the scene transition |
| SceneGenerator.GenerateFixedElements | builder/src/utils/scene-generator.ts:113-123 | the fixed-element loop produces the specified outputs |
| SceneGenerator.GenerateSlotElements | builder/src/utils/scene-generator.ts:133-162 | the slot loop with its two `continue`s produces the specified outputs |
| SceneGenerator.GenerateScene | builder/src/utils/scene-generator.ts:106-198 | generateScene computes the specified scene or error |
| SceneGenerator.SceneElementOrder | builder/src/utils/scene-generator.ts:110-174 | fixed elements first in preset order; the subtitle last exactly when the text is non-empty |
| SceneGenerator.GenerateSequence | builder/src/utils/scene-generator.ts:96-104 | success exactly when every preset is known; the metadata is copied and there is one scene per configuration |
| SceneGenerator.GenerateSequenceScenes | builder/src/utils/scene-generator.ts:102 | scene i is configuration i expanded at position i |
| BuilderStore.DefaultAssignmentsKeys | builder/src/state/builder-store.ts:107-110 | the default assignments have a key exactly for each slot id |
| BuilderStore.DefaultAssignmentsValue | builder/src/state/builder-store.ts:109 | a slot's key holds its default asset id, or null, unless a later slot has the same id |
| BuilderStore.BuildDefaultAssignments | builder/src/state/builder-store.ts:107-110 | the slot loop builds the specified map |
| BuilderStore.DefaultSceneConfig | builder/src/state/builder-store.ts:112-122 | id `scene-N`, the title `{preset name} 장면`, the default duration, an empty subtitle; the transition type, duration and colour default to fade, 15 and none |
| BuilderStore.RemoveAtElements | builder/src/state/builder-store.ts:154 | removing an index keeps the earlier scenes, shifts the later ones down and drops exactly one element |
| BuilderStore.SelectionAfterRemove | builder/src/state/builder-store.ts:155-159 | a selection before the removed index stays, one after it moves down, the removed one moves to the nearest remaining scene or none |
| BuilderStore.RemoveKeepsSelection | builder/src/state/builder-store.ts:152-162 | a selection within bounds stays within bounds after a removal |
| BuilderStore.Splice | builder/src/state/builder-store.ts:166-168 | `splice` with clamped start and count: prefix, inserted items, suffix |
| BuilderStore.MoveScenesPermutes | builder/src/state/builder-store.ts:164-171 | moving keeps the length and the multiset, puts the moved scene at the clamped target, and leaves the others in order |
| BuilderStore.SkipSpaces | builder/src/state/builder-store.ts:286 | `parseInt` skips exactly the leading ECMAScript white space |
| BuilderStore.ParseSigned | builder/src/state/builder-store.ts:286 | an optional sign before the digits; a `-` with no digit after it gives NaN |
| BuilderStore.ParseDigits | builder/src/state/builder-store.ts:286-287 | NaN exactly when no digit leads; otherwise the value of the leading digit run |
| BuilderStore.IndexOf | builder/src/state/builder-store.ts:286 | the first occurrence of the pattern, or none when it never occurs |
| BuilderStore.ReplaceFirst | builder/src/state/builder-store.ts:286 | `replace` with a string pattern: the first occurrence becomes the replacement, the text before and after it is kept, and nothing changes when there is none |
| BuilderStore.ParseIntOfDigits | builder/src/state/builder-store.ts:286 | a digit string parses to its value |
| BuilderStore.SceneNumberOfId | builder/src/state/builder-store.ts:113 | the number read back from `scene-N` is N |
| BuilderStore.MaxNumberBounds | builder/src/state/builder-store.ts:285-288 | the reduce's result is at least every parsed number, and is 0 or one of them |
| BuilderStore.NextIdIsFresh | builder/src/state/builder-store.ts:285-289 | after a load, the next scene id differs from every loaded id |
| BuilderStore.Store.constructor | builder/src/state/builder-store.ts:128-137 | the initial state with nothing restored: title `내 영상`, no scenes, no selection, counter 0 |
| BuilderStore.Store.SetSequenceTitle | builder/src/state/builder-store.ts:139-142 | only the title changes |
| BuilderStore.Store.CreateDefaultSceneConfig | builder/src/state/builder-store.ts:101-123 | an error exactly for an unknown preset, with the counter unchanged; otherwise the counter moves on by one and numbers the new configuration |
| BuilderStore.Store.AddScene | builder/src/state/builder-store.ts:144-150 | the new scene is appended and selected and the active slot cleared; an unknown preset changes nothing |
| BuilderStore.Store.RemoveScene | builder/src/state/builder-store.ts:152-162 | the scene is removed, the selection adjusted and the active slot cleared |
| BuilderStore.Store.MoveScene | builder/src/state/builder-store.ts:164-171 | the scenes are moved by the two splices and the target is selected |
| BuilderStore.Store.SelectScene | builder/src/state/builder-store.ts:173 | the selection is set and the active slot cleared |
| BuilderStore.Store.UpdateSceneTitle | builder/src/state/builder-store.ts:175-181 | only that scene's title changes |
| BuilderStore.Store.UpdateSceneDuration | builder/src/state/builder-store.ts:183-189 | only that scene's duration changes |
| BuilderStore.Store.UpdateSceneSubtitle | builder/src/state/builder-store.ts:191-197 | only that scene's subtitle changes |
| BuilderStore.Store.AssignAsset | builder/src/state/builder-store.ts:199-208 | only that slot of that scene changes, and the active slot is cleared |
| BuilderStore.Store.SetActiveSlot | builder/src/state/builder-store.ts:210 | only the active slot changes |
| BuilderStore.Store.UpdateTransition | builder/src/state/builder-store.ts:212-223 | type and colour are overwritten, a missing duration keeps the old one, and nothing else changes |
| BuilderStore.Store.ExportSequence | builder/src/state/builder-store.ts:225-234 | success exactly when every scene's preset is known, with id `builder-output`, the title, 30 fps, 1920 by 1080 and one scene per configuration |
| BuilderStore.Store.LoadProject | builder/src/state/builder-store.ts:279-298 | a file of the right type and version replaces title and scenes, clears the selection and sets the counter to the largest scene number; anything else changes nothing |
| BuilderStore.Store.Reset | builder/src/state/builder-store.ts:309-318 | back to the initial state with counter 0 |
| AssetCatalog.StaticIdsDistinct | builder/src/data/asset-catalog.ts:11-68 | no two entries of the starting catalog share an id |
| AssetCatalog.FindAsset | builder/src/data/asset-catalog.ts:74-76 | nothing exactly when no entry has the id; otherwise the first entry with it |
| AssetCatalog.AssetsOfCategory | builder/src/data/asset-catalog.ts:70-72 | exactly the entries of the category |
| AssetCatalog.AssetsOfCategoryAppend | builder/src/data/asset-catalog.ts:70-72 | the filter keeps catalog order |
| AssetCatalog.FindAssetAppend | builder/src/data/asset-catalog.ts:85 | appending entries never changes what an existing id finds |
| AssetCatalog.NewEntries | builder/src/data/asset-catalog.ts:82-83 | exactly the scanned entries whose file is not yet in the catalog |
| AssetCatalog.RefreshIdempotent | builder/src/data/asset-catalog.ts:79-88 | a second refresh with the same scan adds nothing |
| AssetCatalog.Catalog.GetAssetById | builder/src/data/asset-catalog.ts:74-76 | the lookup over the current entries |
| AssetCatalog.Catalog.GetAssetsByCategory | builder/src/data/asset-catalog.ts:70-72 | the filter over the current entries |
| AssetCatalog.Catalog.Refresh | builder/src/data/asset-catalog.ts:82-87 | new entries are appended after the existing ones and counted; no new entry leaves the catalog as it was |
| BuilderApi.Sanitize | builder/vite.config.ts:64 | each character outside `[a-zA-Z0-9가-힣_-]` becomes `_`, length kept |
| BuilderApi.SanitizedIsSafe | builder/vite.config.ts:64-65 | a sanitised name holds only safe characters, so no `/` or `.` |
| BuilderApi.SanitizeIdempotent | builder/vite.config.ts:64 | sanitising twice is sanitising once |
| BuilderApi.SaveName | builder/vite.config.ts:63 | a missing or empty name becomes `untitled` |
| BuilderApi.StripJson | builder/vite.config.ts:50 | only a trailing `.json` is removed |
| BuilderApi.LoadFile | builder/vite.config.ts:76-82 | an error exactly for a missing or empty name |
| BuilderApi.DeleteFile | builder/vite.config.ts:116-129 | an error exactly for a missing name |
| BuilderApi.SavedProjectRoundTrip | builder/vite.config.ts:45-129 | the name a project is listed under loads and deletes the file that was saved, and so does the name it was saved under |
| BuilderApi.ProjectListOrder | builder/vite.config.ts:45-52 | the list is newest first, a permutation of the `.json` listings, with equal times in directory order |
| BuilderApi.JsonListings | builder/vite.config.ts:47-50 | every `.json` file is listed, under its name without the extension and with its time |
| BuilderApi.JsonListingsFromFiles | builder/vite.config.ts:47-50 | every listing comes from a `.json` file |
| BuilderApi.CollapseRuns | builder/vite.config.ts:101 | the result holds only `a-z`, `0-9` and `_`, with no `__`, is empty only for an empty text, and keeps a leading letter or digit |
| BuilderApi.CollapseRunsKeepsIdChars | builder/vite.config.ts:101 | the letters and digits of the text survive, in order |
| BuilderApi.CollapseRunsOfIdText | builder/vite.config.ts:101 | a text of letters and digits only is unchanged |
| BuilderApi.CollapseRunsSnoc | builder/vite.config.ts:101 | read left to right, a letter or digit is copied and a run of other characters adds exactly one `_` where it starts; with the empty case this determines the result |
| BuilderApi.TrimUnderscores | builder/vite.config.ts:102 | at most one `_` removed at each end, the rest kept |
| BuilderApi.DeriveIdShape | builder/vite.config.ts:99-102 | a derived id holds only `a-z`, `0-9` and `_`, with no `__` and no `_` at either end |
| BuilderApi.WordLength | builder/vite.config.ts:104 | a word runs up to the first white space, `_` or `-` |
| BuilderApi.SplitWords | builder/vite.config.ts:104 | at least one piece, and no piece contains a separator |
| BuilderApi.SplitWordsJoin | builder/vite.config.ts:104 | the pieces put back together are the name with its separators removed |
| BuilderApi.SplitWordsSnoc | builder/vite.config.ts:104 | read left to right, a non-separator extends the last piece and a separator run starts exactly one new piece; the empty name gives one empty piece; this determines the result |
| BuilderApi.TagsShape | builder/vite.config.ts:105-106 | tags are longer than one character, lower-case and free of separators |
| BuilderApi.DeriveTagsShape | builder/vite.config.ts:103-106 | every derived tag has that shape |
| BuilderApi.ScannedEntryFields | builder/vite.config.ts:98-107 | the entry's file is `category/filename`, its name the file name without `.json`, its id and tags derived from the name |
| BuilderApi.ScannedEntryWellFormed | builder/vite.config.ts:98-107 | every entry built from a `.json` file is well formed |
| BuilderApi.JsonFiles | builder/vite.config.ts:96 | exactly the `.json` files are kept |
| BuilderApi.ScanDirectory | builder/vite.config.ts:96-108 | the per-directory loop produces one entry per `.json` file, in order |
| BuilderApi.ScanAssets | builder/vite.config.ts:89-113 | the category loop skips missing directories and concatenates the entries in category order |
| BuilderApi.ScanUpToSource | builder/vite.config.ts:93-108 | every scanned entry comes from a `.json` file of an existing category directory |
| BuilderApi.ScanFindsEveryJsonFile | builder/vite.config.ts:93-108 | every `.json` file of every existing category directory yields its entry |
| BuilderApi.ScannedEntryShape | builder/vite.config.ts:93-108 | every scanned entry comes from a `.json` file of an existing category directory and is well formed: file `category/filename`, id and tags of the derived shape |

## Left out

- The LLM-assisted composition (`composeSequenceWithLLM`), the prompt builder (`generateLLMPrompt`, `generateAllLLMPrompts`) and the `mode: "llm"` branch of `composeSequence` are not modelled. They produce prompts or call a remote model.
- The rendering layer (React/Remotion components, transitions, animations), the builder's UI components and fonts are out of scope. They only display.
- `selectCameraMotion` is a function parameter of the composer. Its rules are not part of this model; the composer only passes its result through.
- File system, `fetch`, `localStorage` and HTTP request/response handling are left out. A failed `fetch` of a project is `None` for `Store.LoadProject`; a directory listing is a map from directory name to file names; a modification time is an integer.
- `Math.random` in the accumulate waves is a parameter `speed` (a draw per scene, wave and position); `SceneGenerator.WaveSpeed` bounds the speed for draws in [0, 1).
- `BuilderStore.Store.constructor` models the state with nothing restored. Restoring title, scenes and counter from `localStorage` (`sceneCounter ?? scenes.length`) is not modelled.
- `saveProject`, `refreshProjects`, `deleteProject`, `exportJSON` and `getProjectJSON` are not modelled. They serialise with `JSON.stringify` and send requests. The server side of save, load, list and delete is modelled in `BuilderApi`, without the file contents.
- The `/api/save` endpoint of the development server (writing a sequence file) is not modelled. It only writes a request body to disk.
- `refreshCatalog` fetches the scan over HTTP. `AssetCatalog.Catalog.Refresh` takes the scanned entries as a parameter.
- Lower-casing (`toLowerCase`) is modelled for ASCII letters only. Unicode case folding is left out; Korean text has no case.
- Strings are sequences of Unicode scalar values, while JavaScript strings and regular expressions work on UTF-16 code units. The two differ only for characters outside the Basic Multilingual Plane.
- Table lookups with keys such as `__proto__` or `constructor` that hit `Object.prototype` in JavaScript are not modelled. Every lookup sees only the table's own entries.
- Durations and `Math.round` use exact reals. Floating-point rounding is left out.
- The frame rate `fps` is a natural number in `Composer.ComposeOptions` and an integer in `ToSceneSequence.SequenceOptions`. JavaScript accepts any number, e.g. 29.97. A fractional rate, and the fractional stagger slice (`3 * fps`), `enterAt` frames and scene durations it produces, are not modelled.
- ToSceneSequence.Convert: requires at least one duration per composed scene. With a shorter list, JavaScript reads `undefined` for the missing duration, and that scene's `durationInFrames` becomes NaN.
- `BuilderStore.ParseDigits`: the value of a long digit run is exact. JavaScript's `parseInt` loses precision beyond 2^53.
- `BuilderStore.Store.MoveScene` requires `from` to be a valid index. In JavaScript an out-of-range `from` would insert `undefined` into the list.
- `BuilderStore.Store.UpdateSceneTitle`, `UpdateSceneDuration`, `UpdateSceneSubtitle`, `AssignAsset` and `UpdateTransition` require an index within the scene list. In JavaScript an out-of-range index would store a partial scene object.
- `BuilderStore.RemoveKeepsSelection` requires a non-negative index. A negative index can leave the selection at -1 in both the source and the model.
- `SceneGenerator.GenerateSequence` reports the first unknown preset. Beyond the error's message, nothing about the exception (which scene threw it, or the partial work) is modelled.
- `generateAccumulateElements` receives the preset but never reads it, so the model has no such parameter.
- StaggerBounds: bounds only the elements that carry a duration. When 15 <= totalFrames < 15 + fgCount the slice is 0, `makeLottieElement` then omits `durationInFrames`, and each element plays on through the subtitle frames (ZeroSliceHasNoDuration); the model keeps that behaviour as written.
