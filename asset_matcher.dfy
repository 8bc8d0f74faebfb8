/** Keyword asset matching (src/composer/asset-matcher.ts): every registry
    entry that passes the category and exclusion filters is scored by the tags
    that occur in the lower-cased narration, zero scores are dropped, the rest
    are stably sorted by descending score and truncated. */
module AssetMatcher {
  import opened Common
  import Sorting
  import Rules

  /** The registry's own categories (icon, chart, effect, character,
      decoration) together with the ones the composer's builders test for
      (background, element, emoji). */
  datatype Category = Icon | Chart | Effect | Character | Decoration | Background | Element | Emoji

  datatype AssetEntry = AssetEntry(id: string, file: string, tags: seq<string>, category: Category)

  datatype AssetMatch = AssetMatch(asset: AssetEntry, score: nat)

  /** ASSET_REGISTRY */
  const AssetRegistry: seq<AssetEntry> := [
    AssetEntry("coins_drop", "Coins drop.json",
      ["돈", "코인", "투자", "원금", "금액", "자산", "money", "coin", "invest"], Icon),
    AssetEntry("coin_3d", "Fake 3D vector coin.json",
      ["코인", "동전", "원", "화폐", "coin", "currency"], Icon),
    AssetEntry("growth_chart", "Growth Chart.json",
      ["성장", "그래프", "차트", "상승", "증가", "복리", "growth", "chart", "compound"], Chart),
    AssetEntry("financial_graph", "Financial Graph Loader.json",
      ["그래프", "차트", "데이터", "통계", "graph", "chart", "data", "finance"], Chart),
    AssetEntry("graph_loader", "graph loader.json",
      ["그래프", "로딩", "차트", "graph", "loader"], Chart),
    AssetEntry("money_transfer", "Money Transfer.json",
      ["송금", "이체", "돈", "이동", "전송", "transfer", "money", "payment"], Icon),
    AssetEntry("money_icon", "Money.json",
      ["돈", "지폐", "현금", "수익", "이자", "money", "cash", "profit", "interest"], Icon),
    AssetEntry("conversation", "Conversation Two Friend & Get Idea.json",
      ["대화", "아이디어", "설명", "사람", "토론", "idea", "explain", "talk", "person"], Character),
    AssetEntry("lightbulb", "lightbulb.json",
      ["아이디어", "인사이트", "핵심", "팁", "깨달음", "idea", "insight", "tip", "lightbulb"], Icon),
    AssetEntry("confetti", "confetti.json",
      ["축하", "완료", "엔딩", "마무리", "celebration", "ending", "outro", "congrats"], Effect),
    AssetEntry("gold_sparkle", "gold-sparkle.json",
      ["반짝", "효과", "금", "sparkle", "gold", "effect", "shine"], Decoration),
    AssetEntry("arrows", "Arrows.json",
      ["방향", "화살표", "증가", "감소", "변화", "arrow", "direction", "change"], Icon),
    AssetEntry("analysis", "Analysis.json",
      ["분석", "비교", "검토", "리서치", "analysis", "compare", "research"], Icon)
  ]

  /** SECTION_ASSET_HINTS: the categories tried, in order, when nothing matches. */
  function SectionAssetHints(t: Rules.SectionType): (r: seq<Category>)
    ensures |r| >= 2
  {
    match t
    case Intro => [Icon, Decoration, Effect]
    case Explain => [Character, Icon]
    case Chart => [Category.Chart, Icon]
    case Comparison => [Icon, Category.Chart]
    case Callout => [Icon, Decoration]
    case Outro => [Effect, Decoration]
  }

  // ── Scoring ──

  /** `/[ㄱ-힝]/`: Hangul jamo through Hangul syllables. */
  predicate IsHangulChar(c: char) { '\U{3131}' <= c <= '\U{D79D}' }

  predicate HasHangul(tag: string) { exists i :: 0 <= i < |tag| && IsHangulChar(tag[i]) }

  /** A tag written in Hangul weighs 2, any other tag 1. */
  function TagWeight(tag: string): nat
  {
    if HasHangul(tag) then 2 else 1
  }

  /** The points one tag earns against the already lower-cased narration. */
  function TagPoints(text: string, tag: string): nat
  {
    if Contains(text, LowerCase(tag)) then TagWeight(tag) else 0
  }

  /** The score of a tag list: the sum of the points of its tags. */
  function Score(text: string, tags: seq<string>): nat
  {
    if tags == [] then 0 else Score(text, tags[..|tags| - 1]) + TagPoints(text, tags[|tags| - 1])
  }

  /** An asset scores exactly when one of its tags occurs in the narration. */
  lemma {:induction false} ScorePositive(text: string, tags: seq<string>)
    ensures Score(text, tags) > 0 <==> exists i :: 0 <= i < |tags| && Contains(text, LowerCase(tags[i]))
  {
    if tags != [] {
      var init := tags[..|tags| - 1];
      ScorePositive(text, init);
      if exists i :: 0 <= i < |init| && Contains(text, LowerCase(init[i])) {
        var i :| 0 <= i < |init| && Contains(text, LowerCase(init[i]));
        assert tags[i] == init[i];
      }
      if exists i :: 0 <= i < |tags| && Contains(text, LowerCase(tags[i])) {
        var i :| 0 <= i < |tags| && Contains(text, LowerCase(tags[i]));
        if i < |init| { assert init[i] == tags[i]; }
      }
    }
  }

  /** Each tag adds at most 2 points. */
  lemma {:induction false} ScoreBound(text: string, tags: seq<string>)
    ensures Score(text, tags) <= 2 * |tags|
  {
    if tags != [] { ScoreBound(text, tags[..|tags| - 1]); }
  }

  // ── Filtering, ranking, truncation ──

  /** The category filter (when given) and the exclusion list both let the asset through. */
  predicate Qualifies(a: AssetEntry, category: Option<Category>, excludeIds: set<string>)
  {
    (category.None? || a.category == category.value) && a.id !in excludeIds
  }

  /** The `results` array before sorting: qualifying assets with a positive
      score, in registry order. */
  function Candidates(registry: seq<AssetEntry>, text: string, category: Option<Category>,
                      excludeIds: set<string>): seq<AssetMatch>
  {
    if registry == [] then []
    else
      var a := registry[|registry| - 1];
      var score := Score(text, a.tags);
      Candidates(registry[..|registry| - 1], text, category, excludeIds) +
        (if Qualifies(a, category, excludeIds) && score > 0 then [AssetMatch(a, score)] else [])
  }

  function ScoreOf(m: AssetMatch): int { m.score }

  /** All qualifying assets that score, best first, ties in registry order. */
  function Ranked(registry: seq<AssetEntry>, narration: string, category: Option<Category>,
                  excludeIds: set<string>): seq<AssetMatch>
  {
    Sorting.SortDesc(Candidates(registry, LowerCase(narration), category, excludeIds), ScoreOf)
  }

  /** What matchAssets returns; `maxResults` defaults to 5. */
  function MatchSpec(registry: seq<AssetEntry>, narration: string, category: Option<Category>,
                     maxResults: Option<int>, excludeIds: set<string>): seq<AssetMatch>
  {
    SliceTo(Ranked(registry, narration, category, excludeIds),
            if maxResults.Some? then maxResults.value else 5)
  }

  /** matchAssets: the loop over the registry that scores each asset. */
  method MatchAssets(registry: seq<AssetEntry>, narration: string, category: Option<Category>,
                     maxResults: Option<int>, excludeIds: set<string>) returns (r: seq<AssetMatch>)
    ensures r == MatchSpec(registry, narration, category, maxResults, excludeIds)
  {
    var text := LowerCase(narration);
    var max := if maxResults.Some? then maxResults.value else 5;
    var results: seq<AssetMatch> := [];
    for i := 0 to |registry|
      invariant results == Candidates(registry[..i], text, category, excludeIds)
    {
      var asset := registry[i];
      assert registry[..i + 1][..i] == registry[..i];
      if category.Some? && asset.category != category.value {
        continue;
      }
      if asset.id in excludeIds {
        continue;
      }
      var score := 0;
      for j := 0 to |asset.tags|
        invariant score == Score(text, asset.tags[..j])
      {
        assert asset.tags[..j + 1][..j] == asset.tags[..j];
        if Contains(text, LowerCase(asset.tags[j])) {
          score := score + (if HasHangul(asset.tags[j]) then 2 else 1);
        }
      }
      assert asset.tags[..|asset.tags|] == asset.tags;
      if score > 0 {
        results := results + [AssetMatch(asset, score)];
      }
    }
    assert registry[..|registry|] == registry;
    r := SliceTo(Sorting.SortDesc(results, ScoreOf), max);
  }

  // ── Properties of the matcher ──

  /** Membership in the candidate list, both directions. */
  lemma {:induction false} CandidatesMembers(registry: seq<AssetEntry>, text: string,
                                             category: Option<Category>, excludeIds: set<string>)
    ensures forall m :: m in Candidates(registry, text, category, excludeIds) <==>
      (m.asset in registry && Qualifies(m.asset, category, excludeIds) &&
       m.score == Score(text, m.asset.tags) && m.score > 0)
  {
    if registry != [] {
      var init := registry[..|registry| - 1];
      CandidatesMembers(init, text, category, excludeIds);
      assert registry == init + [registry[|registry| - 1]];
      forall a | a in registry ensures a in init || a == registry[|registry| - 1] {
      }
    }
  }

  /** Every returned match qualifies, has a positive score equal to the tag sum,
      and comes from the registry. */
  lemma MatchSpecMembers(registry: seq<AssetEntry>, narration: string, category: Option<Category>,
                         maxResults: Option<int>, excludeIds: set<string>)
    ensures forall m :: m in MatchSpec(registry, narration, category, maxResults, excludeIds) ==>
      m.asset in registry && m.score > 0 &&
      m.score == Score(LowerCase(narration), m.asset.tags) &&
      m.asset.id !in excludeIds &&
      (category.Some? ==> m.asset.category == category.value)
  {
    var c := Candidates(registry, LowerCase(narration), category, excludeIds);
    CandidatesMembers(registry, LowerCase(narration), category, excludeIds);
    Sorting.SortDescFacts(c, ScoreOf);
    var ranked := Sorting.SortDesc(c, ScoreOf);
    forall m | m in MatchSpec(registry, narration, category, maxResults, excludeIds)
      ensures m in c
    {
      assert m in ranked;
      assert m in multiset(ranked);
    }
  }

  /** The result is sorted by descending score, is a prefix of the full ranking
      and holds at most `maxResults` (default 5) entries. The full ranking is a
      permutation of the registry-ordered candidates that keeps, for every score,
      the candidates with that score in registry order. */
  lemma MatchSpecOrder(registry: seq<AssetEntry>, narration: string, category: Option<Category>,
                       maxResults: Option<int>, excludeIds: set<string>)
    ensures var r := MatchSpec(registry, narration, category, maxResults, excludeIds);
      var ranked := Ranked(registry, narration, category, excludeIds);
      var c := Candidates(registry, LowerCase(narration), category, excludeIds);
      && Sorting.SortedDesc(r, ScoreOf)
      && r <= ranked
      && (maxResults.None? ==> |r| <= 5)
      && (maxResults.Some? && maxResults.value >= 0 ==> |r| <= maxResults.value)
      && multiset(ranked) == multiset(c)
      && (forall k :: Sorting.WithKey(ranked, ScoreOf, k) == Sorting.WithKey(c, ScoreOf, k))
  {
    var c := Candidates(registry, LowerCase(narration), category, excludeIds);
    Sorting.SortDescFacts(c, ScoreOf);
  }

  /** Nothing is returned exactly when no qualifying asset has a tag in the narration
      (for a positive limit). */
  lemma {:induction false} MatchSpecEmpty(registry: seq<AssetEntry>, narration: string, category: Option<Category>,
                                          maxResults: Option<int>, excludeIds: set<string>)
    requires maxResults.None? || maxResults.value > 0
    ensures MatchSpec(registry, narration, category, maxResults, excludeIds) == [] <==>
      forall a :: a in registry && Qualifies(a, category, excludeIds) ==> Score(LowerCase(narration), a.tags) == 0
  {
    var text := LowerCase(narration);
    var c := Candidates(registry, text, category, excludeIds);
    CandidatesMembers(registry, text, category, excludeIds);
    var ranked := Sorting.SortDesc(c, ScoreOf);
    if c != [] {
      // insertion always yields a non-empty list
      assert ranked == Sorting.InsertDesc(c[0], Sorting.SortDesc(c[1..], ScoreOf), ScoreOf);
      assert ranked != [];
      assert c[0] in c;
    } else {
      assert ranked == [];
      forall a | a in registry && Qualifies(a, category, excludeIds)
        ensures Score(text, a.tags) == 0
      {
        assert AssetMatch(a, Score(text, a.tags)) !in c;
      }
    }
  }

  /** An empty narration matches nothing when no tag is empty. */
  lemma EmptyNarrationMatchesNothing(registry: seq<AssetEntry>, category: Option<Category>,
                                     maxResults: Option<int>, excludeIds: set<string>)
    requires forall a, i :: a in registry && 0 <= i < |a.tags| ==> a.tags[i] != ""
    ensures MatchSpec(registry, "", category, maxResults, excludeIds) == []
  {
    forall a | a in registry && Qualifies(a, category, excludeIds)
      ensures Score(LowerCase(""), a.tags) == 0
    {
      ScorePositive("", a.tags);
      forall i | 0 <= i < |a.tags| ensures !Contains("", LowerCase(a.tags[i])) {
        EmptyTextContainsOnlyEmpty(LowerCase(a.tags[i]));
      }
    }
    // with a limit of one nothing is returned, so the whole ranking is empty
    MatchSpecEmpty(registry, "", category, Some(1), excludeIds);
    assert Ranked(registry, "", category, excludeIds) == [];
  }

  // ── Best asset ──

  /** `i` is the first position of `s` holding a largest score. */
  predicate IsFirstBest(s: seq<AssetMatch>, i: int)
  {
    0 <= i < |s| &&
    (forall j :: 0 <= j < |s| ==> s[j].score <= s[i].score) &&
    (forall j :: 0 <= j < i ==> s[j].score < s[i].score)
  }

  /** findBestAsset: the head of matchAssets with a limit of one, or null. */
  function FindBestAsset(registry: seq<AssetEntry>, narration: string, category: Option<Category>,
                         excludeIds: set<string>): (r: Option<AssetEntry>)
    ensures r.None? <==> forall a :: a in registry && Qualifies(a, category, excludeIds) ==>
                            Score(LowerCase(narration), a.tags) == 0
    ensures r.Some? ==> r.value in registry && Qualifies(r.value, category, excludeIds) &&
                        Score(LowerCase(narration), r.value.tags) > 0
    ensures r.Some? ==> exists i :: IsFirstBest(Candidates(registry, LowerCase(narration), category, excludeIds), i) &&
                          Candidates(registry, LowerCase(narration), category, excludeIds)[i].asset == r.value
  {
    var matches := MatchSpec(registry, narration, category, Some(1), excludeIds);
    MatchSpecEmpty(registry, narration, category, Some(1), excludeIds);
    MatchSpecMembers(registry, narration, category, Some(1), excludeIds);
    if |matches| > 0 then
      BestIsRankedHead(Candidates(registry, LowerCase(narration), category, excludeIds));
      assert matches[0] in matches;
      Some(matches[0].asset)
    else None
  }

  /** The head of the stable ranking is the first candidate with the best score. */
  lemma BestIsRankedHead(c: seq<AssetMatch>)
    requires c != []
    ensures Sorting.SortDesc(c, ScoreOf) != []
    ensures exists i :: IsFirstBest(c, i) && Sorting.SortDesc(c, ScoreOf)[0] == c[i]
  {
    var ranked := Sorting.SortDesc(c, ScoreOf);
    Sorting.SortDescFacts(c, ScoreOf);
    assert c[0] in multiset(ranked);
    var h := ranked[0];
    assert h in multiset(c);
    // the head's score is the largest of all candidates
    forall j | 0 <= j < |c| ensures c[j].score <= h.score {
      assert c[j] in multiset(ranked);
      var p :| 0 <= p < |ranked| && ranked[p] == c[j];
    }
    var i := FirstWithScore(c, h.score);
    WithKeyHead(c, h.score, i);
    WithKeyHead(ranked, h.score, 0);
    assert IsFirstBest(c, i);
  }

  /** The first position of `c` whose score is `k`, given that one exists. */
  function FirstWithScore(c: seq<AssetMatch>, k: int): (i: nat)
    requires exists j :: 0 <= j < |c| && c[j].score == k
    ensures i < |c| && c[i].score == k && forall j :: 0 <= j < i ==> c[j].score != k
  {
    if c[0].score == k then 0
    else
      var j :| 0 <= j < |c| && c[j].score == k;
      assert c[1..][j - 1].score == k;
      1 + FirstWithScore(c[1..], k)
  }

  /** The group of score `k` starts with the first element that has score `k`. */
  lemma {:induction false} WithKeyHead(s: seq<AssetMatch>, k: int, i: nat)
    requires i < |s| && s[i].score == k && forall j :: 0 <= j < i ==> s[j].score != k
    ensures Sorting.WithKey(s, ScoreOf, k) != [] && Sorting.WithKey(s, ScoreOf, k)[0] == s[i]
  {
    if i > 0 {
      WithKeyHead(s[1..], k, i - 1);
    }
  }
}
