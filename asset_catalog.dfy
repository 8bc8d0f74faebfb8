/** The builder's asset catalog (builder/src/data/asset-catalog.ts): a
    list of Lottie files with ids, looked up by id and by category, and
    extended by a scan of the animations directory with the files it does
    not list yet. */
module AssetCatalog {
  import opened Common

  datatype AssetCategory = Background | Element | Character | Effect | Emoji

  datatype AssetEntry = AssetEntry(id: string, file: string, name: string, tags: seq<string>, category: AssetCategory)

  /** The catalog the module starts with. */
  const StaticCatalog: seq<AssetEntry> := [
      AssetEntry("coins_drop", "element/Coins drop.json", "코인 낙하", ["돈", "코인", "투자"], Element),
      AssetEntry("coin_3d", "element/Fake 3D vector coin.json", "3D 코인", ["코인", "동전"], Element),
      AssetEntry("coin_spin", "element/coin-spin.json", "코인 회전", ["코인", "회전", "돈"], Element),
      AssetEntry("money_transfer", "element/Money Transfer.json", "송금", ["송금", "이체", "돈"], Element),
      AssetEntry("money_icon", "element/Money.json", "지폐", ["돈", "지폐", "현금", "수익"], Element),
      AssetEntry("company_revenue", "element/Company Revenue.json", "매출", ["매출", "수익", "기업"], Element),
      AssetEntry("growth_chart", "element/Growth Chart.json", "성장 차트", ["성장", "그래프", "차트"], Element),
      AssetEntry("growth_arrow", "element/growth-arrow.json", "성장 화살표", ["성장", "화살표", "상승"], Element),
      AssetEntry("financial_graph", "element/Financial Graph Loader.json", "금융 그래프", ["그래프", "차트", "데이터"], Element),
      AssetEntry("graph_loader", "element/graph loader.json", "그래프 로더", ["그래프", "로딩", "차트"], Element),
      AssetEntry("analysis", "element/Analysis.json", "분석", ["분석", "비교", "검토"], Element),
      AssetEntry("arrows", "element/Arrows.json", "화살표", ["방향", "화살표", "변화"], Element),
      AssetEntry("rocket_ufo", "element/Rocket in space with the UFO.json", "로켓 & UFO", ["우주", "로켓", "발사"], Element),
      AssetEntry("planet", "element/Planet.json", "행성", ["행성", "우주", "세계"], Element),
      AssetEntry("orbit_planet", "element/Orbit Planet.json", "궤도 행성", ["궤도", "행성", "우주"], Element),
      AssetEntry("earth", "element/Earth.json", "지구", ["지구", "세계", "글로벌"], Element),
      AssetEntry("tesla", "element/Tesla Company.json", "테슬라", ["테슬라", "기업"], Element),
      AssetEntry("stripe", "element/Stripe.json", "스트라이프", ["스트라이프", "결제"], Element),
      AssetEntry("gemini", "element/Gemini Logo.json", "제미니", ["AI", "기업", "로고"], Element),
      AssetEntry("adidas_shoes", "element/Adidas Shoes.json", "아디다스", ["아디다스", "브랜드"], Element),
      AssetEntry("ai_company_logo", "element/Ai Company Logo.json", "AI 로고", ["AI", "인공지능", "로고"], Element),
      AssetEntry("company_business", "element/Company Business.json", "비즈니스", ["기업", "비즈니스", "사업"], Element),
      AssetEntry("company_culture", "element/Company Culture.json", "기업 문화", ["기업", "문화", "팀"], Element),
      AssetEntry("company_folder", "element/Company Folder.json", "폴더", ["기업", "폴더", "자료"], Element),
      AssetEntry("constructions_houses", "element/Constructions Houses.json", "건설 주택", ["건설", "주택", "부동산", "건물"], Element),
      AssetEntry("modern_buildings", "element/Modern Buildings.json", "현대 빌딩", ["빌딩", "건물", "도시", "부동산"], Element),
      AssetEntry("bearded_man_walking", "character/Bearded Man Walking.json", "걷는 남자", ["사람", "걷기", "남자"], Character),
      AssetEntry("girl_skateboard", "character/girl skating on skateboard.json", "스케이트보드 소녀", ["소녀", "스케이트보드"], Character),
      AssetEntry("spaceman_ship", "character/Spaceman In Ship.json", "우주인", ["우주", "우주인", "탐험"], Character),
      AssetEntry("conversation", "character/Conversation Two Friend & Get Idea.json", "대화 & 아이디어", ["대화", "아이디어", "사람"], Character),
      AssetEntry("lightbulb", "element/lightbulb.json", "전구", ["아이디어", "인사이트", "팁"], Element),
      AssetEntry("cityscape_night", "background/Cityscape at night.json", "도시 야경", ["도시", "야경", "배경"], Background),
      AssetEntry("abstract_bg", "background/Abstract Background.json", "추상 배경", ["배경", "추상"], Background),
      AssetEntry("bg_lines", "background/Background Lines.json", "라인 배경", ["배경", "라인", "흐름"], Background),
      AssetEntry("love_emoji", "emoji/Love Emoji.json", "하트", ["사랑", "하트", "좋아요"], Emoji),
      AssetEntry("brain_explosion_emoji", "emoji/Brain Explosion Emoji.json", "뇌 폭발", ["충격", "놀라움", "대박"], Emoji),
      AssetEntry("confetti", "effect/confetti.json", "컨페티", ["축하", "완료", "엔딩"], Effect),
      AssetEntry("gold_sparkle", "effect/gold-sparkle.json", "금빛 반짝", ["반짝", "효과", "금"], Effect),
      AssetEntry("shine_star", "effect/Shine Star.json", "빛나는 별", ["반짝", "별", "빛"], Effect)

    ]

  /** No two entries of the starting catalog share an id (in parts, by the
      position of the first entry of the pair). */
  lemma StaticIdsDistinct()
    ensures forall i, j :: 0 <= i < j < |StaticCatalog| ==> StaticCatalog[i].id != StaticCatalog[j].id
  {
    StaticIdsDistinctRows0To1();
    StaticIdsDistinctRows2To3();
    StaticIdsDistinctRows4To6();
    StaticIdsDistinctRows7To9();
    StaticIdsDistinctRows10To12();
    StaticIdsDistinctRows13To15();
    StaticIdsDistinctRows16To19();
    StaticIdsDistinctRows20To24();
    StaticIdsDistinctRows25To31();
    StaticIdsDistinctRows32To38();
  }

  lemma StaticIdsDistinctRows0To1()
    ensures forall i, j :: 0 <= i < 2 && i < j < |StaticCatalog| ==> StaticCatalog[i].id != StaticCatalog[j].id
  {
  }

  lemma StaticIdsDistinctRows2To3()
    ensures forall i, j :: 2 <= i < 4 && i < j < |StaticCatalog| ==> StaticCatalog[i].id != StaticCatalog[j].id
  {
  }

  lemma StaticIdsDistinctRows4To6()
    ensures forall i, j :: 4 <= i < 7 && i < j < |StaticCatalog| ==> StaticCatalog[i].id != StaticCatalog[j].id
  {
  }

  lemma StaticIdsDistinctRows7To9()
    ensures forall i, j :: 7 <= i < 10 && i < j < |StaticCatalog| ==> StaticCatalog[i].id != StaticCatalog[j].id
  {
  }

  lemma StaticIdsDistinctRows10To12()
    ensures forall i, j :: 10 <= i < 13 && i < j < |StaticCatalog| ==> StaticCatalog[i].id != StaticCatalog[j].id
  {
  }

  lemma StaticIdsDistinctRows13To15()
    ensures forall i, j :: 13 <= i < 16 && i < j < |StaticCatalog| ==> StaticCatalog[i].id != StaticCatalog[j].id
  {
  }

  lemma StaticIdsDistinctRows16To19()
    ensures forall i, j :: 16 <= i < 20 && i < j < |StaticCatalog| ==> StaticCatalog[i].id != StaticCatalog[j].id
  {
  }

  lemma StaticIdsDistinctRows20To24()
    ensures forall i, j :: 20 <= i < 25 && i < j < |StaticCatalog| ==> StaticCatalog[i].id != StaticCatalog[j].id
  {
  }

  lemma StaticIdsDistinctRows25To31()
    ensures forall i, j :: 25 <= i < 32 && i < j < |StaticCatalog| ==> StaticCatalog[i].id != StaticCatalog[j].id
  {
  }

  lemma StaticIdsDistinctRows32To38()
    ensures forall i, j :: 32 <= i < 39 && i < j < |StaticCatalog| ==> StaticCatalog[i].id != StaticCatalog[j].id
  {
  }

  // ── Lookups ──

  /** `catalog.find((a) => a.id === id)`: the first entry with that id. */
  function FindAsset(catalog: seq<AssetEntry>, id: string): (r: Option<AssetEntry>)
    ensures r.None? <==> forall i :: 0 <= i < |catalog| ==> catalog[i].id != id
    ensures r.Some? ==> exists i :: 0 <= i < |catalog| && catalog[i] == r.value && r.value.id == id
                          && forall j :: 0 <= j < i ==> catalog[j].id != id
  {
    if catalog == [] then None
    else if catalog[0].id == id then Some(catalog[0])
    else
      var r := FindAsset(catalog[1..], id);
      assert forall i :: 1 <= i < |catalog| ==> catalog[i] == catalog[1..][i - 1];
      r
  }

  /** `catalog.filter((a) => a.category === category)` */
  function AssetsOfCategory(catalog: seq<AssetEntry>, category: AssetCategory): (r: seq<AssetEntry>)
    ensures |r| <= |catalog|
    ensures forall a :: a in r <==> a in catalog && a.category == category
  {
    if catalog == [] then []
    else
      var rest := AssetsOfCategory(catalog[1..], category);
      assert forall a :: a in catalog <==> a == catalog[0] || a in catalog[1..];
      if catalog[0].category == category then [catalog[0]] + rest else rest
  }

  /** The filter keeps catalog order: it distributes over concatenation. */
  lemma {:induction false} AssetsOfCategoryAppend(a: seq<AssetEntry>, b: seq<AssetEntry>, category: AssetCategory)
    ensures AssetsOfCategory(a + b, category) == AssetsOfCategory(a, category) + AssetsOfCategory(b, category)
    decreases |a|
  {
    if a != [] {
      assert (a + b)[0] == a[0] && (a + b)[1..] == a[1..] + b;
      AssetsOfCategoryAppend(a[1..], b, category);
    } else {
      assert a + b == b;
    }
  }

  /** Adding entries after the existing ones never changes what an id that
      is already present resolves to. */
  lemma {:induction false} FindAssetAppend(a: seq<AssetEntry>, b: seq<AssetEntry>, id: string)
    ensures FindAsset(a, id).Some? ==> FindAsset(a + b, id) == FindAsset(a, id)
    ensures FindAsset(a, id).None? ==> FindAsset(a + b, id) == FindAsset(b, id)
    decreases |a|
  {
    if a != [] {
      assert (a + b)[0] == a[0] && (a + b)[1..] == a[1..] + b;
      FindAssetAppend(a[1..], b, id);
    } else {
      assert a + b == b;
    }
  }

  // ── Refresh ──

  function FilesOf(catalog: seq<AssetEntry>): (r: set<string>)
    ensures forall f :: f in r <==> exists i :: 0 <= i < |catalog| && catalog[i].file == f
  {
    set i | 0 <= i < |catalog| :: catalog[i].file
  }

  /** `scanned.filter((a) => !existingFiles.has(a.file))`, in scan order. */
  function NewEntries(files: set<string>, scanned: seq<AssetEntry>): (r: seq<AssetEntry>)
    ensures |r| <= |scanned|
    ensures forall a :: a in r <==> a in scanned && a.file !in files
  {
    if scanned == [] then []
    else
      var rest := NewEntries(files, scanned[1..]);
      assert forall a :: a in scanned <==> a == scanned[0] || a in scanned[1..];
      if scanned[0].file !in files then [scanned[0]] + rest else rest
  }

  lemma {:induction false} NoNewEntries(files: set<string>, scanned: seq<AssetEntry>)
    requires forall a :: a in scanned ==> a.file in files
    ensures NewEntries(files, scanned) == []
  {
    if scanned != [] {
      assert scanned[0] in scanned;
      NoNewEntries(files, scanned[1..]);
    }
  }

  /** A second refresh with the same scan adds nothing. */
  lemma RefreshIdempotent(catalog: seq<AssetEntry>, scanned: seq<AssetEntry>)
    ensures var merged := catalog + NewEntries(FilesOf(catalog), scanned);
      NewEntries(FilesOf(merged), scanned) == []
  {
    var added := NewEntries(FilesOf(catalog), scanned);
    var merged := catalog + added;
    forall a | a in scanned
      ensures a.file in FilesOf(merged)
    {
      if a.file in FilesOf(catalog) {
        var i :| 0 <= i < |catalog| && catalog[i].file == a.file;
        assert merged[i] == catalog[i];
      } else {
        assert a in added;
        var k :| 0 <= k < |added| && added[k] == a;
        assert merged[|catalog| + k] == a;
      }
    }
    NoNewEntries(FilesOf(merged), scanned);
  }

  /** The module-level `ASSET_CATALOG`, which `refreshCatalog` reassigns. */
  class Catalog {
    var entries: seq<AssetEntry>

    constructor ()
      ensures entries == StaticCatalog
    {
      entries := StaticCatalog;
    }

    /** `getAssetById` */
    function GetAssetById(id: string): (r: Option<AssetEntry>)
      reads this
      ensures r == FindAsset(entries, id)
    {
      FindAsset(entries, id)
    }

    /** `getAssetsByCategory` */
    function GetAssetsByCategory(category: AssetCategory): (r: seq<AssetEntry>)
      reads this
      ensures r == AssetsOfCategory(entries, category)
    {
      AssetsOfCategory(entries, category)
    }

    /** The merge step of `refreshCatalog`, given the scan's result: the
        entries whose file is new are appended, and their number returned. */
    method Refresh(scanned: seq<AssetEntry>) returns (added: nat)
      modifies this
      ensures entries == old(entries) + NewEntries(FilesOf(old(entries)), scanned)
      ensures added == |NewEntries(FilesOf(old(entries)), scanned)|
      ensures added == 0 ==> entries == old(entries)
    {
      var newEntries := NewEntries(FilesOf(entries), scanned);
      if |newEntries| > 0 {
        entries := entries + newEntries;
      }
      added := |newEntries|;
    }
  }
}
