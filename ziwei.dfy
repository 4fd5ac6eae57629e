/** The simplified Zi Wei Dou Shu chart engine (utils/ziwei_calculator.py):
    the life palace, the placement of the fourteen main stars on the ring of
    twelve branches, and a verdict text for each of the twelve palaces. */
module ZiWei {
  import opened Containers

  // ---------------------------------------------------------------------------
  // Catalogs

  const Palaces: seq<string> := ["命宫", "兄弟", "夫妻", "子女", "财帛", "疾厄",
                                 "迁移", "交友", "官禄", "田宅", "福德", "父母"]

  /** Declared by the calculator; no computation of the chart uses it. */
  const HeavenlyStems: seq<string> := ["甲", "乙", "丙", "丁", "戊", "己", "庚", "辛", "壬", "癸"]

  const EarthlyBranches: seq<string> := ["子", "丑", "寅", "卯", "辰", "巳",
                                        "午", "未", "申", "酉", "戌", "亥"]

  const MainStars: seq<string> := ["紫微", "天机", "太阳", "武曲", "天同", "廉贞",
                                  "天府", "太阴", "贪狼", "巨门", "天相", "天梁", "七杀", "破军"]

  const PalaceMeanings: map<string, string> := map[
    "命宫" := "主性格、个性、人生走向",
    "兄弟" := "主手足关系、同辈互动",
    "夫妻" := "主婚姻、感情、伴侣",
    "子女" := "主子女、后代、创造力",
    "财帛" := "主财运、收入、理财",
    "疾厄" := "主健康、困难、化解",
    "迁移" := "主行动、变化、旅行",
    "交友" := "主朋友、人际、社交",
    "官禄" := "主事业、地位、成就",
    "田宅" := "主房产、居所、投资",
    "福德" := "主心理、福分、休闲",
    "父母" := "主长辈、贵人、靠山"]

  const StarQualities: map<string, string> := map[
    "紫微" := "吉", "天机" := "吉", "太阳" := "吉",
    "武曲" := "吉", "天同" := "吉", "廉贞" := "凶",
    "天府" := "吉", "太阴" := "吉", "贪狼" := "凶",
    "巨门" := "中", "天相" := "吉", "天梁" := "吉",
    "七杀" := "凶", "破军" := "凶"]

  const NoMeaning: string := "暂无解释"

  lemma CatalogsDistinct()
    ensures |Palaces| == 12 && |EarthlyBranches| == 12 && |MainStars| == 14
    ensures Distinct(Palaces) && Distinct(EarthlyBranches) && Distinct(MainStars)
  {
  }

  /** `EARTHLY_BRANCHES.index` finds every branch at its own position. */
  lemma BranchPosition(i: nat)
    requires i < 12
    ensures EarthlyBranches[i] in EarthlyBranches && IndexOf(EarthlyBranches, EarthlyBranches[i]) == i
  {
    CatalogsDistinct();
    IndexOfDistinct(EarthlyBranches, i);
  }

  /** `MAIN_STARS.index` finds every star at its catalog rank. */
  lemma StarRank(r: nat)
    requires r < 14
    ensures MainStars[r] in MainStars && IndexOf(MainStars, MainStars[r]) == r
  {
    CatalogsDistinct();
    IndexOfDistinct(MainStars, r);
  }

  /** `PALACES.index` finds every palace at its own position. */
  lemma PalacePosition(p: nat)
    requires p < 12
    ensures Palaces[p] in Palaces && IndexOf(Palaces, Palaces[p]) == p
  {
    CatalogsDistinct();
    IndexOfDistinct(Palaces, p);
  }

  /** Two positions on the ring name the same branch only if they are the same position. */
  lemma BranchesEqual(i: nat, j: nat)
    requires i < 12 && j < 12
    ensures EarthlyBranches[i] == EarthlyBranches[j] <==> i == j
  {
    CatalogsDistinct();
  }

  // ---------------------------------------------------------------------------
  // Inputs

  /** The parts of a Python `datetime` the calculator reads. */
  datatype DateTime = DateTime(year: int, month: int, day: int, hour: int)

  /** The ranges Python's `datetime` enforces on its fields. */
  predicate ValidDateTime(dt: DateTime) {
    1 <= dt.year <= 9999 && 1 <= dt.month <= 12 && 1 <= dt.day <= 31 && 0 <= dt.hour < 24
  }

  datatype LunarDate = LunarDate(year: int, month: int, day: int, hour: int)

  /** `_convert_to_lunar`: a stub that copies the solar fields unchanged. */
  function ConvertToLunar(dt: DateTime): (d: LunarDate)
    ensures d.year == dt.year && d.month == dt.month && d.day == dt.day && d.hour == dt.hour
  {
    LunarDate(dt.year, dt.month, dt.day, dt.hour)
  }

  // ---------------------------------------------------------------------------
  // Life palace

  /** `_get_hour_branch`: the branch of the two-hour period the hour falls in,
      found by `EARTHLY_BRANCHES.index` at position `hour // 2`. */
  function HourBranch(hour: int): (b: string)
    requires 0 <= hour < 24
    ensures b in EarthlyBranches && IndexOf(EarthlyBranches, b) == hour / 2
  {
    BranchPosition(hour / 2);
    EarthlyBranches[hour / 2]
  }

  /** Two hours get the same branch exactly when they fall in the same two-hour period. */
  lemma HourBranchesAgree(h1: int, h2: int)
    requires 0 <= h1 < 24 && 0 <= h2 < 24
    ensures HourBranch(h1) == HourBranch(h2) <==> h1 / 2 == h2 / 2
  {
    BranchesEqual(h1 / 2, h2 / 2);
  }

  /** The position of the life palace on the ring of branches. */
  function MingGongIndex(month: int, hour: int): (i: nat)
    ensures i < 12
  {
    (month - 1 + hour / 2) % 12
  }

  /** The step `calculate_ming_gong` takes, once the hour branch has been looked up. */
  lemma MingGongFromHourIndex(month: int, hour: int, hourIndex: int)
    requires hourIndex == hour / 2
    ensures (month - 1 + hourIndex) % 12 == MingGongIndex(month, hour)
  {
  }

  /** The life palace moves one branch forward per month and per two-hour period,
      and returns to the same branch after twelve months. */
  lemma MingGongAdvances(month: int, hour: int)
    ensures MingGongIndex(month + 1, hour) == (MingGongIndex(month, hour) + 1) % 12
    ensures MingGongIndex(month, hour + 2) == (MingGongIndex(month, hour) + 1) % 12
    ensures MingGongIndex(month + 12, hour) == MingGongIndex(month, hour)
  {
    var a := month - 1 + hour / 2;
    assert (hour + 2) / 2 == hour / 2 + 1;
    assert (a + 12) % 12 == a % 12;
    assert (a + 1) % 12 == (a % 12 + 1) % 12;
  }

  // ---------------------------------------------------------------------------
  // Star placement

  /** The branch the star of catalog rank `rank` lands on when the life palace is at `mg`. */
  function StarBranch(mg: nat, rank: nat): string {
    EarthlyBranches[(mg + rank) % 12]
  }

  /** The step `calculate_main_stars` takes for one star, once both names have been looked up. */
  lemma StarBranchFromIndices(mingGongIndex: int, rankIndex: int, mg: nat, rank: nat)
    requires mingGongIndex == mg && rankIndex == rank
    ensures 0 <= (mingGongIndex + rankIndex) % 12 < |EarthlyBranches|
    ensures EarthlyBranches[(mingGongIndex + rankIndex) % 12] == StarBranch(mg, rank)
  {
  }

  /** The star map `calculate_main_stars` builds: star name to branch name, in catalog order. */
  function Placement(mg: nat): (d: Dict<string, string>)
    ensures |d| == 14 && Keys(d) == MainStars
  {
    seq(14, r requires 0 <= r < 14 => (MainStars[r], StarBranch(mg, r)))
  }

  /** Storing the next star into the map built so far extends it by one entry. */
  lemma PlacementStep(mg: nat, k: nat, prefix: Dict<string, string>)
    requires k < 14 && prefix == Placement(mg)[..k]
    ensures Put(prefix, MainStars[k], StarBranch(mg, k)) == Placement(mg)[..k + 1]
  {
    CatalogsDistinct();
    KeysOfPrefix(Placement(mg), k);
    FreshInPrefix(MainStars, k);
    assert MainStars[k] !in Keys(prefix);
    TakeOneMore(Placement(mg), k);
  }

  /** Looking a star up in the map gives the branch its rank places it on. */
  lemma PlacementLookup(mg: nat, r: nat)
    requires r < 14
    ensures Get(Placement(mg), MainStars[r]) == Some(EarthlyBranches[(mg + r) % 12])
  {
    CatalogsDistinct();
    IndexOfDistinct(Keys(Placement(mg)), r);
  }

  /** 紫微, the first star, stands on the life palace itself. */
  lemma ZiWeiOnLifePalace(mg: nat)
    requires mg < 12
    ensures Get(Placement(mg), MainStars[0]) == Some(EarthlyBranches[mg])
  {
    var r := 0;
    PlacementLookup(mg, r);
    OnTheRing(mg + r);
  }

  /** A position already on the ring of twelve is its own remainder. */
  lemma OnTheRing(x: int)
    requires 0 <= x < 12
    ensures x % 12 == x
  {
  }

  /** `[star for star, pos in main_stars.items() if pos == branch]`: every star stored
      at the branch is listed, and only such stars are. */
  function StarsOn(positions: Dict<string, string>, branch: string): (stars: seq<string>)
    ensures |stars| <= |positions|
    ensures forall i :: 0 <= i < |positions| && positions[i].1 == branch ==> positions[i].0 in stars
    ensures forall s :: s in stars ==> (s, branch) in positions
  {
    if positions == [] then []
    else StarsOn(positions[..|positions| - 1], branch) + Landing(positions[|positions| - 1], branch)
  }

  /** The star of one entry, if it stands on the branch. */
  function Landing(entry: (string, string), branch: string): seq<string> {
    if entry.1 == branch then [entry.0] else []
  }

  /** The stars whose rank is congruent to `p - mg` modulo 12, among the first `n` ranks,
      in rank order. */
  function RanksOn(mg: nat, p: nat, n: nat): seq<string>
    requires n <= 14
  {
    var k := (p - mg) % 12;
    (if k < n then [MainStars[k]] else []) + (if k + 12 < n then [MainStars[k + 12]] else [])
  }

  /** Rank `n` lands on position `p` exactly when it is congruent to `p - mg`. */
  lemma RankLandsOn(mg: nat, p: nat, n: nat)
    requires p < 12 && n < 14
    ensures (mg + n) % 12 == p <==> n == (p - mg) % 12 || n == (p - mg) % 12 + 12
  {
    var k := (p - mg) % 12;
    assert (mg + k) % 12 == p;
    if (mg + n) % 12 == p {
      assert (n - k) % 12 == 0;
      assert n - k == 0 || n - k == 12;
    }
    assert (mg + k + 12) % 12 == p;
  }

  lemma StarsOnSnoc(positions: Dict<string, string>, e: (string, string), branch: string)
    ensures StarsOn(positions + [e], branch) == StarsOn(positions, branch) + Landing(e, branch)
  {
    assert (positions + [e])[..|positions|] == positions;
  }

  /** The entry of rank `r` lands on branch `p` exactly when `(mg + r) % 12 == p`. */
  lemma LandingOfRank(mg: nat, p: nat, r: nat)
    requires p < 12 && r < 14
    ensures Landing(Placement(mg)[r], EarthlyBranches[p])
      == if (mg + r) % 12 == p then [MainStars[r]] else []
  {
    BranchesEqual((mg + r) % 12, p);
  }

  lemma RanksOnStep(mg: nat, p: nat, r: nat)
    requires p < 12 && r < 14
    ensures RanksOn(mg, p, r + 1)
      == RanksOn(mg, p, r) + if (mg + r) % 12 == p then [MainStars[r]] else []
  {
    RankLandsOn(mg, p, r);
  }

  lemma {:induction false} StarsOnPrefix(mg: nat, p: nat, n: nat)
    requires p < 12 && n <= 14
    ensures StarsOn(Placement(mg)[..n], EarthlyBranches[p]) == RanksOn(mg, p, n)
  {
    if n > 0 {
      var pl, b, r := Placement(mg), EarthlyBranches[p], n - 1;
      StarsOnPrefix(mg, p, r);
      TakeOneMore(pl, r);
      StarsOnSnoc(pl[..r], pl[r], b);
      LandingOfRank(mg, p, r);
      RanksOnStep(mg, p, r);
      assert StarsOn(pl[..r + 1], b) == RanksOn(mg, p, r) + if (mg + r) % 12 == p then [MainStars[r]] else [];
    }
  }

  /** The stars on branch `p`: the star of rank `(p - mg) % 12`, followed by the star
      twelve ranks later when there is one. */
  lemma StarsOnBranch(mg: nat, p: nat)
    requires p < 12
    ensures var k := (p - mg) % 12;
      StarsOn(Placement(mg), EarthlyBranches[p])
        == if k < 2 then [MainStars[k], MainStars[k + 12]] else [MainStars[k]]
  {
    StarsOnPrefix(mg, p, 14);
    assert Placement(mg)[..14] == Placement(mg);
  }

  /** Every branch holds at least one star; exactly the branches at the life palace and
      the one after it hold two. */
  lemma EveryBranchOccupied(mg: nat, p: nat)
    requires p < 12
    ensures 1 <= |StarsOn(Placement(mg), EarthlyBranches[p])| <= 2
    ensures |StarsOn(Placement(mg), EarthlyBranches[p])| == 2 <==> p == mg % 12 || p == (mg + 1) % 12
  {
    var stars, k := StarsOn(Placement(mg), EarthlyBranches[p]), (p - mg) % 12;
    StarsOnBranch(mg, p);
    assert |stars| == if k < 2 then 2 else 1;
    PairedBranches(mg, p);
  }

  /** The ranks 0 and 1, the two that have a partner twelve ranks later, land on the
      life palace and the branch after it. */
  lemma PairedBranches(mg: nat, p: nat)
    requires p < 12
    ensures (p - mg) % 12 < 2 <==> p == mg % 12 || p == (mg + 1) % 12
  {
    RankLandsOn(mg, p, 0);
    RankLandsOn(mg, p, 1);
  }

  /** The number of stars on the first `n` branches of the ring. */
  function BranchTotal(positions: Dict<string, string>, n: nat): nat
    requires n <= 12
  {
    if n == 0 then 0 else BranchTotal(positions, n - 1) + |StarsOn(positions, EarthlyBranches[n - 1])|
  }

  /** How many of the first `n` branches carry the name `v`. */
  function BranchHits(v: string, n: nat): nat
    requires n <= 12
  {
    if n == 0 then 0 else BranchHits(v, n - 1) + (if EarthlyBranches[n - 1] == v then 1 else 0)
  }

  lemma {:induction false} BranchHitsOnce(v: string, n: nat)
    requires v in EarthlyBranches && n <= 12
    ensures BranchHits(v, n) == if IndexOf(EarthlyBranches, v) < n then 1 else 0
  {
    if n > 0 {
      BranchHitsOnce(v, n - 1);
      var i := IndexOf(EarthlyBranches, v);
      BranchesEqual(i, n - 1);
    }
  }

  lemma {:induction false} BranchTotalSnoc(positions: Dict<string, string>, e: (string, string), n: nat)
    requires n <= 12
    ensures BranchTotal(positions + [e], n) == BranchTotal(positions, n) + BranchHits(e.1, n)
  {
    if n > 0 {
      BranchTotalSnoc(positions, e, n - 1);
      assert (positions + [e])[..|positions|] == positions;
    }
  }

  /** A star map whose every position is a branch is split by the twelve branches:
      the stars of all palaces together number as many as the map has entries. */
  lemma {:induction false} BranchesPartition(positions: Dict<string, string>)
    requires forall i :: 0 <= i < |positions| ==> positions[i].1 in EarthlyBranches
    ensures BranchTotal(positions, 12) == |positions|
  {
    if positions != [] {
      var init := positions[..|positions| - 1];
      var last := positions[|positions| - 1];
      assert positions == init + [last];
      BranchesPartition(init);
      BranchTotalSnoc(init, last, 12);
      BranchHitsOnce(last.1, 12);
    } else {
      BranchTotalOfEmpty(12);
    }
  }

  lemma {:induction false} BranchTotalOfEmpty(n: nat)
    requires n <= 12
    ensures BranchTotal([], n) == 0
  {
    if n > 0 {
      BranchTotalOfEmpty(n - 1);
    }
  }

  /** The per-branch star counts of a chart sum to the fourteen catalog stars. */
  lemma StarCountsSumToFourteen(mg: nat)
    ensures BranchTotal(Placement(mg), 12) == 14
  {
    var pl := Placement(mg);
    forall i | 0 <= i < |pl|
      ensures pl[i].1 in EarthlyBranches
    {
      assert pl[i].1 == EarthlyBranches[(mg + i) % 12];
    }
    BranchesPartition(pl);
  }

  // ---------------------------------------------------------------------------
  // Verdicts

  /** How many of the stars carry the given quality in the catalog; a star not in
      the catalog carries none (`STAR_QUALITIES.get` yields None). */
  function CountQuality(stars: seq<string>, quality: string): nat {
    if stars == [] then 0 else Tagged(stars[0], quality) + CountQuality(stars[1..], quality)
  }

  /** 1 when the catalog gives the star the quality, else 0. */
  function Tagged(star: string, quality: string): nat {
    if star in StarQualities && StarQualities[star] == quality then 1 else 0
  }

  /** The verdict as a function of the margin of auspicious over inauspicious stars. */
  function VerdictByMargin(d: int): string {
    if d >= 2 then "大吉"
    else if d == 1 then "吉"
    else if d == 0 then "平"
    else if d == -1 then "凶"
    else "大凶"
  }

  /** `_analyze_palace_stars`: the verdict depends only on the margin good - bad. */
  function AnalyzePalaceStars(stars: seq<string>): (verdict: string)
    ensures verdict == VerdictByMargin(CountQuality(stars, "吉") - CountQuality(stars, "凶"))
  {
    var good := CountQuality(stars, "吉");
    var bad := CountQuality(stars, "凶");
    if good > bad + 1 then "大吉"
    else if good > bad then "吉"
    else if good == bad then "平"
    else if bad > good + 1 then "大凶"
    else "凶"
  }

  lemma {:induction false} CountQualityAppend(stars: seq<string>, s: string, quality: string)
    ensures CountQuality(stars + [s], quality)
      == CountQuality(stars, quality) + Tagged(s, quality)
  {
    if stars != [] {
      assert (stars + [s])[1..] == stars[1..] + [s];
      CountQualityAppend(stars[1..], s, quality);
    } else {
      assert [] + [s] == [s];
    }
  }

  /** A star tagged 中, or one missing from the catalog, leaves the verdict unchanged. */
  lemma NeutralStarIgnored(stars: seq<string>, s: string)
    requires s !in StarQualities || (StarQualities[s] != "吉" && StarQualities[s] != "凶")
    ensures AnalyzePalaceStars(stars + [s]) == AnalyzePalaceStars(stars)
  {
    CountQualityAppend(stars, s, "吉");
    CountQualityAppend(stars, s, "凶");
  }

  /** The catalog quality of every main star, listed by rank. */
  lemma RankQuality(r: nat)
    requires r < 14
    ensures MainStars[r] in StarQualities
    ensures StarQualities[MainStars[r]]
      == ["吉", "吉", "吉", "吉", "吉", "凶", "吉", "吉", "凶", "中", "吉", "吉", "凶", "凶"][r]
  {
    if r == 0 { assert MainStars[r] == "紫微"; }
    else if r == 1 { assert MainStars[r] == "天机"; }
    else if r == 2 { assert MainStars[r] == "太阳"; }
    else if r == 3 { assert MainStars[r] == "武曲"; }
    else if r == 4 { assert MainStars[r] == "天同"; }
    else if r == 5 { assert MainStars[r] == "廉贞"; }
    else if r == 6 { assert MainStars[r] == "天府"; }
    else if r == 7 { assert MainStars[r] == "太阴"; }
    else if r == 8 { assert MainStars[r] == "贪狼"; }
    else if r == 9 { assert MainStars[r] == "巨门"; }
    else if r == 10 { assert MainStars[r] == "天相"; }
    else if r == 11 { assert MainStars[r] == "天梁"; }
    else if r == 12 { assert MainStars[r] == "七杀"; }
    else { assert MainStars[r] == "破军"; }
  }

  lemma CountQualityOne(s: string, quality: string)
    ensures CountQuality([s], quality) == Tagged(s, quality)
  {
    assert [s][1..] == [];
  }

  /** The verdict of a palace holding the single star of rank `k`: 吉 or 凶 by the star's
      quality, and 平 for 巨门, the one star tagged 中. */
  lemma SingleStarVerdict(k: nat)
    requires 2 <= k < 12
    ensures AnalyzePalaceStars([MainStars[k]]) in {"吉", "凶", "平"}
    ensures AnalyzePalaceStars([MainStars[k]]) == "平" <==> k == 9
  {
    RankQuality(k);
    CountQualityOne(MainStars[k], "吉");
    CountQualityOne(MainStars[k], "凶");
  }

  /** The verdict of a palace holding the stars of ranks `k` and `k + 12`: one 吉 star
      and one 凶 star, so 平. */
  lemma DoubleStarVerdict(k: nat)
    requires k < 2
    ensures AnalyzePalaceStars([MainStars[k], MainStars[k + 12]]) == "平"
  {
    RankQuality(k);
    RankQuality(k + 12);
    CountQualityAppend([MainStars[k]], MainStars[k + 12], "吉");
    CountQualityAppend([MainStars[k]], MainStars[k + 12], "凶");
    CountQualityOne(MainStars[k], "吉");
    CountQualityOne(MainStars[k], "凶");
    assert [MainStars[k]] + [MainStars[k + 12]] == [MainStars[k], MainStars[k + 12]];
  }

  /** In every chart no palace is 大吉 or 大凶, and the two palaces holding two stars are 平. */
  lemma PalaceVerdicts(mg: nat, p: nat)
    requires p < 12
    ensures var v := AnalyzePalaceStars(StarsOn(Placement(mg), EarthlyBranches[p]));
      v in {"吉", "凶", "平"} && (|StarsOn(Placement(mg), EarthlyBranches[p])| == 2 ==> v == "平")
  {
    StarsOnBranch(mg, p);
    var k := (p - mg) % 12;
    if k < 2 {
      DoubleStarVerdict(k);
    } else {
      SingleStarVerdict(k);
    }
  }

  // ---------------------------------------------------------------------------
  // Predictions

  /** `get_palace_meaning`: the catalog meaning, or the "no explanation" default. */
  function GetPalaceMeaning(palace: string): (meaning: string)
    ensures palace in PalaceMeanings ==> meaning == PalaceMeanings[palace]
    ensures palace !in PalaceMeanings ==> meaning == NoMeaning
    ensures palace in Palaces ==> meaning == PalaceMeanings[palace] && meaning != NoMeaning
  {
    PalaceCatalogCovered(palace);
    if palace in PalaceMeanings then PalaceMeanings[palace] else NoMeaning
  }

  /** A palace of the catalog has a meaning other than the default. */
  lemma PalaceCatalogCovered(palace: string)
    ensures palace in Palaces ==> palace in PalaceMeanings && PalaceMeanings[palace] != NoMeaning
  {
    if palace in Palaces {
      PalacesHaveMeanings(IndexOf(Palaces, palace));
    }
  }

  /** Every palace has a catalog meaning, and none of them is the default text. */
  lemma PalacesHaveMeanings(p: nat)
    requires p < 12
    ensures Palaces[p] in PalaceMeanings && PalaceMeanings[Palaces[p]] != NoMeaning
  {
    if p == 0 { assert Palaces[p] == "命宫"; }
    else if p == 1 { assert Palaces[p] == "兄弟"; }
    else if p == 2 { assert Palaces[p] == "夫妻"; }
    else if p == 3 { assert Palaces[p] == "子女"; }
    else if p == 4 { assert Palaces[p] == "财帛"; }
    else if p == 5 { assert Palaces[p] == "疾厄"; }
    else if p == 6 { assert Palaces[p] == "迁移"; }
    else if p == 7 { assert Palaces[p] == "交友"; }
    else if p == 8 { assert Palaces[p] == "官禄"; }
    else if p == 9 { assert Palaces[p] == "田宅"; }
    else if p == 10 { assert Palaces[p] == "福德"; }
    else { assert Palaces[p] == "父母"; }
  }

  /** The text `get_fortune_prediction` stores for one palace. */
  function PredictionText(palace: string, stars: seq<string>): (text: string)
    ensures text == AnalyzePalaceStars(stars) + " - " + GetPalaceMeaning(palace)
      + (if stars != [] then "\n落星：" + Join(stars, "、") else "\n无主星入驻")
  {
    var meaning := GetPalaceMeaning(palace);
    if stars != [] then
      AppendAssociative(AnalyzePalaceStars(stars) + " - " + meaning, "\n落星：", Join(stars, "、"));
      AnalyzePalaceStars(stars) + " - " + meaning + "\n落星：" + Join(stars, "、")
    else
      EmptyPalaceVerdict(meaning);
      "平 - " + meaning + "\n无主星入驻"
  }

  /** The fixed 平 of the no-star text is the verdict of an empty star list. */
  lemma EmptyPalaceVerdict(meaning: string)
    ensures "平 - " + meaning == AnalyzePalaceStars([]) + " - " + meaning
  {
    assert AnalyzePalaceStars([]) == "平";
    assert "平" + " - " == "平 - ";
  }

  /** The prediction dict: palace `p` collects the stars standing on branch `p`. */
  function Predictions(positions: Dict<string, string>): (d: Dict<string, string>)
    ensures |d| == 12 && Keys(d) == Palaces
  {
    seq(12, p requires 0 <= p < 12 => (Palaces[p], PredictionText(Palaces[p], StarsOn(positions, EarthlyBranches[p]))))
  }

  /** Storing the next palace's text into the dict built so far extends it by one entry. */
  lemma PredictionsStep(positions: Dict<string, string>, p: nat, prefix: Dict<string, string>)
    requires p < 12 && prefix == Predictions(positions)[..p]
    ensures Put(prefix, Palaces[p], PredictionText(Palaces[p], StarsOn(positions, EarthlyBranches[p])))
      == Predictions(positions)[..p + 1]
  {
    CatalogsDistinct();
    KeysOfPrefix(Predictions(positions), p);
    FreshInPrefix(Palaces, p);
    assert Palaces[p] !in Keys(prefix);
    TakeOneMore(Predictions(positions), p);
  }

  /** Looking a palace up in the predictions of a chart gives the verdict, the palace's
      catalog meaning and its stars: the "no star" text and the default meaning never appear. */
  lemma ChartPrediction(mg: nat, p: nat)
    requires p < 12
    ensures var stars := StarsOn(Placement(mg), EarthlyBranches[p]);
      stars != [] &&
      Get(Predictions(Placement(mg)), Palaces[p])
        == Some(AnalyzePalaceStars(stars) + " - " + PalaceMeanings[Palaces[p]] + "\n落星：" + Join(stars, "、"))
  {
    var pr := Predictions(Placement(mg));
    CatalogsDistinct();
    IndexOfDistinct(Keys(pr), p);
    EveryBranchOccupied(mg, p);
    PalacesHaveMeanings(p);
  }

  // ---------------------------------------------------------------------------
  // The chart

  datatype BirthInfo = BirthInfo(year: int, month: int, day: int, hour: int, gender: string)

  datatype ChartData = ChartData(
    mingGong: string,
    mainStars: Dict<string, string>,
    predictions: Dict<string, string>,
    birthInfo: BirthInfo)

  /** The chart for a lunar date and gender tag. */
  function Chart(d: LunarDate, gender: string): (c: ChartData)
    ensures Keys(c.mainStars) == MainStars && Keys(c.predictions) == Palaces
    ensures Get(c.mainStars, MainStars[0]) == Some(c.mingGong)
    ensures c.birthInfo == BirthInfo(d.year, d.month, d.day, d.hour, gender)
  {
    var mg := MingGongIndex(d.month, d.hour);
    var stars := Placement(mg);
    ZiWeiOnLifePalace(mg);
    ChartData(EarthlyBranches[mg], stars, Predictions(stars),
              BirthInfo(d.year, d.month, d.day, d.hour, gender))
  }

  /** The gender tag is only copied into the birth information. */
  lemma GenderOnlyStored(d: LunarDate, g1: string, g2: string)
    ensures Chart(d, g1).mingGong == Chart(d, g2).mingGong
    ensures Chart(d, g1).mainStars == Chart(d, g2).mainStars
    ensures Chart(d, g1).predictions == Chart(d, g2).predictions
    ensures Chart(d, g1).birthInfo.(gender := g2) == Chart(d, g2).birthInfo
  {
  }

  /** `ZiWeiCalculator`: the birth moment, the gender tag and the lunar date are set
      once by the constructor and never updated. */
  class ZiWeiCalculator {
    const birthDatetime: DateTime
    const gender: string
    const lunarDate: LunarDate

    predicate Valid() {
      0 <= lunarDate.hour < 24
    }

    constructor (birthDatetime: DateTime, gender: string)
      requires ValidDateTime(birthDatetime)
      ensures this.birthDatetime == birthDatetime && this.gender == gender
      ensures lunarDate == LunarDate(birthDatetime.year, birthDatetime.month, birthDatetime.day, birthDatetime.hour)
      ensures Valid()
    {
      this.birthDatetime := birthDatetime;
      this.gender := gender;
      this.lunarDate := ConvertToLunar(birthDatetime);
    }

    /** `calculate_ming_gong`: the branch `(month - 1 + hour // 2) % 12`. */
    method CalculateMingGong() returns (mingGong: string)
      requires Valid()
      ensures mingGong == EarthlyBranches[MingGongIndex(lunarDate.month, lunarDate.hour)]
    {
      var month := lunarDate.month;
      var hourBranch := HourBranch(lunarDate.hour);
      var hourIndex := IndexOf(EarthlyBranches, hourBranch);
      MingGongFromHourIndex(month, lunarDate.hour, hourIndex);
      var index := (month - 1 + hourIndex) % 12;
      mingGong := EarthlyBranches[index];
    }

    /** `calculate_main_stars`: every catalog star, in catalog order, on the branch
        its rank past the life palace. */
    method CalculateMainStars() returns (mainStarPositions: Dict<string, string>)
      requires Valid()
      ensures mainStarPositions == Placement(MingGongIndex(lunarDate.month, lunarDate.hour))
    {
      mainStarPositions := [];
      var mingGong := CalculateMingGong();
      ghost var mg := MingGongIndex(lunarDate.month, lunarDate.hour);
      BranchPosition(mg);
      for k := 0 to |MainStars|
        invariant mainStarPositions == Placement(mg)[..k]
      {
        var star := MainStars[k];
        StarRank(k);
        var branchIndex := IndexOf(EarthlyBranches, mingGong);
        var rankIndex := IndexOf(MainStars, star);
        StarBranchFromIndices(branchIndex, rankIndex, mg, k);
        var position := EarthlyBranches[(branchIndex + rankIndex) % 12];
        PlacementStep(mg, k, mainStarPositions);
        mainStarPositions := Put(mainStarPositions, star, position);
      }
    }

    /** `get_fortune_prediction`: one text per palace, in palace order. */
    method GetFortunePrediction() returns (predictions: Dict<string, string>)
      requires Valid()
      ensures predictions == Predictions(Placement(MingGongIndex(lunarDate.month, lunarDate.hour)))
    {
      predictions := [];
      var mainStars := CalculateMainStars();
      for p := 0 to |Palaces|
        invariant predictions == Predictions(mainStars)[..p]
      {
        var palace := Palaces[p];
        PalacePosition(p);
        var palaceIndex := IndexOf(Palaces, palace);
        var starsInPalace := StarsOn(mainStars, EarthlyBranches[palaceIndex]);
        var prediction;
        if starsInPalace != [] {
          prediction := AnalyzePalaceStars(starsInPalace);
          var starsDesc := Join(starsInPalace, "、");
          var palaceMeaning := GetPalaceMeaning(palace);
          prediction := prediction + " - " + palaceMeaning + "\n落星：" + starsDesc;
        } else {
          prediction := "平 - " + GetPalaceMeaning(palace) + "\n无主星入驻";
        }
        PredictionsStep(mainStars, p, predictions);
        predictions := Put(predictions, palace, prediction);
      }
    }

    /** `generate_chart_data`: the life palace, the star map, the predictions and the
        birth information, all determined by the lunar date and the gender tag. */
    method GenerateChartData() returns (chart: ChartData)
      requires Valid()
      ensures chart == Chart(lunarDate, gender)
    {
      var mingGong := CalculateMingGong();
      var mainStars := CalculateMainStars();
      var predictions := GetFortunePrediction();
      chart := ChartData(mingGong, mainStars, predictions,
                         BirthInfo(lunarDate.year, lunarDate.month, lunarDate.day, lunarDate.hour, gender));
    }
  }
}
