/** The simplified Four Pillars (BaZi) calculator and its Five-Element tally
    (utils/bazi_calculator.py). */
module BaZi {
  import opened Containers

  /** The ten stems and twelve branches; the source lists them as one-character strings. */
  const HeavenlyStems: seq<char> := ['甲', '乙', '丙', '丁', '戊', '己', '庚', '辛', '壬', '癸']
  const EarthlyBranches: seq<char> := ['子', '丑', '寅', '卯', '辰', '巳', '午', '未', '申', '酉', '戌', '亥']

  /** The keys of the tally, in the order the tally is initialised. */
  const ElementNames: seq<string> := ["木", "火", "土", "金", "水"]

  const ElementMap: map<char, string> := map[
    '甲' := "木", '乙' := "木",
    '丙' := "火", '丁' := "火",
    '戊' := "土", '己' := "土",
    '庚' := "金", '辛' := "金",
    '壬' := "水", '癸' := "水"]

  const PillarKeys: seq<string> := ["year", "month", "day", "hour"]

  /** The parts of Python's `date` and `time` the calculator reads. */
  datatype Date = Date(year: int, month: int, day: int)
  datatype Time = Time(hour: int)

  /** A pillar: the stem picked by one ordinal next to the branch picked by another. */
  function Pillar(stemOrdinal: int, branchOrdinal: int): string {
    [HeavenlyStems[stemOrdinal % 10], EarthlyBranches[branchOrdinal % 12]]
  }

  /** `calculate_bazi`: the year, month and day pillars each take stem and branch
      from one integer; the hour pillar takes its branch from the two-hour bucket.
      The gender argument is accepted and not used. The result has the four pillar
      keys in order, each holding a two-character string. */
  function CalculateBazi(birthDate: Date, birthTime: Time, gender: string): (r: Dict<string, string>)
    ensures Keys(r) == PillarKeys
    ensures forall i :: 0 <= i < |r| ==> |r[i].1| == 2
  {
    var year, month, day, hour := birthDate.year, birthDate.month, birthDate.day, birthTime.hour;
    [("year", Pillar(year - 4, year - 4)),
     ("month", Pillar(month, month)),
     ("day", Pillar(day, day)),
     ("hour", Pillar(hour, hour / 2))]
  }

  // ---------------------------------------------------------------------------
  // The sexagenary cycle

  /** The position of a stem character, or -1. */
  function StemIndex(c: char): int {
    if c in HeavenlyStems then IndexOf(HeavenlyStems, c) else -1
  }

  function BranchIndex(c: char): int {
    if c in EarthlyBranches then IndexOf(EarthlyBranches, c) else -1
  }

  /** A two-character pillar that is one of the 60 terms of the cycle:
      a stem and a branch of equal parity. */
  predicate InCycle(p: string) {
    |p| == 2 && StemIndex(p[0]) >= 0 && BranchIndex(p[1]) >= 0
    && StemIndex(p[0]) % 2 == BranchIndex(p[1]) % 2
  }

  lemma TablesDistinct()
    ensures Distinct(HeavenlyStems) && Distinct(EarthlyBranches) && Distinct(ElementNames)
  {
  }

  /** Reading a pillar back gives the reduced ordinals it was built from. */
  lemma PillarReadsBack(s: int, b: int)
    ensures |Pillar(s, b)| == 2
    ensures StemIndex(Pillar(s, b)[0]) == s % 10
    ensures BranchIndex(Pillar(s, b)[1]) == b % 12
  {
    TablesDistinct();
    IndexOfDistinct(HeavenlyStems, s % 10);
    IndexOfDistinct(EarthlyBranches, b % 12);
  }

  /** Reducing one integer modulo 10 and modulo 12 keeps its parity both times. */
  lemma SameParity(n: int)
    ensures (n % 10) % 2 == n % 2 && (n % 12) % 2 == n % 2
  {
    var q10, q12 := n / 10, n / 12;
    assert n == 10 * q10 + n % 10;
    assert n == 12 * q12 + n % 12;
    assert 10 * q10 == 2 * (5 * q10);
    assert 12 * q12 == 2 * (6 * q12);
  }

  /** A pillar whose stem and branch come from the same integer is in the cycle. */
  lemma {:induction false} SharedOrdinalInCycle(n: int)
    ensures InCycle(Pillar(n, n))
  {
    PillarReadsBack(n, n);
    SameParity(n);
  }

  /** The result has the four keys in order and every value is a stem followed by
      a branch. Gender plays no part. */
  lemma CalculateBaziShape(birthDate: Date, birthTime: Time, gender: string, other: string)
    ensures Keys(CalculateBazi(birthDate, birthTime, gender)) == PillarKeys
    ensures forall i :: 0 <= i < 4 ==>
      var p := CalculateBazi(birthDate, birthTime, gender)[i].1;
      |p| == 2 && p[0] in HeavenlyStems && p[1] in EarthlyBranches
    ensures CalculateBazi(birthDate, birthTime, gender) == CalculateBazi(birthDate, birthTime, other)
  {
    assert Keys(CalculateBazi(birthDate, birthTime, gender)) == PillarKeys;
  }

  /** The year, month and day pillars are terms of the 60-cycle. */
  lemma SharedOrdinalPillarsInCycle(birthDate: Date, birthTime: Time, gender: string, i: nat)
    requires i < 3
    ensures InCycle(CalculateBazi(birthDate, birthTime, gender)[i].1)
  {
    var n := if i == 0 then birthDate.year - 4 else if i == 1 then birthDate.month else birthDate.day;
    assert CalculateBazi(birthDate, birthTime, gender)[i].1 == Pillar(n, n);
    SharedOrdinalInCycle(n);
  }

  /** The year pillar's stem and branch are the non-negative residues of `year - 4`,
      also for years before 4. */
  lemma YearPillarIndices(birthDate: Date, birthTime: Time, gender: string)
    ensures var p := CalculateBazi(birthDate, birthTime, gender)[0].1;
      && 0 <= StemIndex(p[0]) == (birthDate.year - 4) % 10
      && 0 <= BranchIndex(p[1]) == (birthDate.year - 4) % 12
  {
    var n := birthDate.year - 4;
    assert CalculateBazi(birthDate, birthTime, gender)[0].1 == Pillar(n, n);
    PillarReadsBack(n, n);
  }

  /** The hour pillar's stem comes from the hour, its branch from the two-hour bucket. */
  lemma HourPillarIndices(birthDate: Date, birthTime: Time, gender: string)
    ensures var p := CalculateBazi(birthDate, birthTime, gender)[3].1;
      StemIndex(p[0]) == birthTime.hour % 10 && BranchIndex(p[1]) == (birthTime.hour / 2) % 12
  {
    var h, b := birthTime.hour, birthTime.hour / 2;
    assert CalculateBazi(birthDate, birthTime, gender)[3].1 == Pillar(h, b);
    PillarReadsBack(h, b);
  }

  /** The hour pillar is not bound by the parity rule: hour 1 gives 乙子. */
  lemma HourPillarBreaksParity(birthDate: Date, gender: string)
    ensures CalculateBazi(birthDate, Time(1), gender)[3].1 == "乙子"
    ensures !InCycle(CalculateBazi(birthDate, Time(1), gender)[3].1)
  {
    assert CalculateBazi(birthDate, Time(1), gender)[3].1 == Pillar(1, 0);
    PillarReadsBack(1, 0);
  }

  /** Reducing modulo 60 first changes neither residue. */
  lemma ResiduesOfCyclePosition(a: int)
    ensures (a % 60) % 10 == a % 10 && (a % 60) % 12 == a % 12
  {
    var q := a / 60;
    Residue10(a % 60, a / 10 - 6 * q, a % 10);
    Residue12(a % 60, a / 12 - 5 * q, a % 12);
  }

  /** Within one cycle of 60, the two residues fix the position. */
  lemma ResiduesFixPosition(u: int, v: int)
    requires 0 <= u <= v < 60 && u % 10 == v % 10 && u % 12 == v % 12
    ensures u == v
  {
    var k, m := v / 10 - u / 10, v / 12 - u / 12;
    assert v - u == 10 * k && v - u == 12 * m;
    assert 0 <= k < 6 && 0 <= m < 5;
  }

  lemma WholeCyclesKeepResidues(b: int, k: int)
    ensures (b + 60 * k) % 10 == b % 10 && (b + 60 * k) % 12 == b % 12
  {
    Residue10(b + 60 * k, b / 10 + 6 * k, b % 10);
    Residue12(b + 60 * k, b / 12 + 5 * k, b % 12);
  }

  /** The remainder modulo 10 is the one any quotient leaves in 0..9. */
  lemma Residue10(x: int, q: int, r: int)
    requires 0 <= r < 10 && x == 10 * q + r
    ensures x % 10 == r
  {
  }

  /** The remainder modulo 12 is the one any quotient leaves in 0..11. */
  lemma Residue12(x: int, q: int, r: int)
    requires 0 <= r < 12 && x == 12 * q + r
    ensures x % 12 == r
  {
  }

  lemma SameResiduesSameCyclePosition(a: int, b: int)
    requires a % 10 == b % 10 && a % 12 == b % 12
    ensures (a - b) % 60 == 0
  {
    ResiduesOfCyclePosition(a);
    ResiduesOfCyclePosition(b);
    var u, v := a % 60, b % 60;
    if u <= v { ResiduesFixPosition(u, v); } else { ResiduesFixPosition(v, u); }
    assert a == 60 * (a / 60) + u && b == 60 * (b / 60) + u;
    assert a - b == 60 * (a / 60 - b / 60);
  }

  /** Two integers agree modulo 10 and modulo 12 exactly when they differ by a multiple of 60. */
  lemma ChineseRemainder(a: int, b: int)
    ensures (a % 10 == b % 10 && a % 12 == b % 12) <==> (a - b) % 60 == 0
  {
    if a % 10 == b % 10 && a % 12 == b % 12 {
      SameResiduesSameCyclePosition(a, b);
    }
    if (a - b) % 60 == 0 {
      var k := (a - b) / 60;
      assert a == b + 60 * k;
      WholeCyclesKeepResidues(b, k);
    }
  }

  /** Two pillars are the same string exactly when their ordinals agree after reduction. */
  lemma PillarsEqual(s1: int, b1: int, s2: int, b2: int)
    ensures Pillar(s1, b1) == Pillar(s2, b2) <==> s1 % 10 == s2 % 10 && b1 % 12 == b2 % 12
  {
    TablesDistinct();
    if Pillar(s1, b1) == Pillar(s2, b2) {
      assert Pillar(s1, b1)[0] == Pillar(s2, b2)[0] && Pillar(s1, b1)[1] == Pillar(s2, b2)[1];
    }
  }

  /** The year pillar names the year's place in the 60-year cycle: two birth years
      get the same year pillar exactly when they are a multiple of 60 years apart. */
  lemma YearPillarIsCyclePosition(d1: Date, d2: Date, t: Time, gender: string)
    ensures CalculateBazi(d1, t, gender)[0].1 == CalculateBazi(d2, t, gender)[0].1
        <==> (d1.year - d2.year) % 60 == 0
  {
    var a, b := d1.year - 4, d2.year - 4;
    PillarsEqual(a, a, b, b);
    ChineseRemainder(a, b);
    assert a - b == d1.year - d2.year;
  }

  /** Month 12 reduces to branch 子 and month 10 to stem 甲. */
  lemma MonthReduction(year: int, day: int, t: Time, gender: string)
    ensures CalculateBazi(Date(year, 12, day), t, gender)[1].1 == "丙子"
    ensures CalculateBazi(Date(year, 10, day), t, gender)[1].1 == "甲戌"
  {
  }

  // ---------------------------------------------------------------------------
  // Five-Element tally

  /** Whether a pillar's first character is a stem of element `e`. */
  predicate Hit(pillar: string, e: string) {
    |pillar| > 0 && pillar[0] in ElementMap && ElementMap[pillar[0]] == e
  }

  /** How many of the pillars have a first character that is a stem of element `e`. */
  function ElementCount(pillars: seq<string>, e: string): nat {
    if pillars == [] then 0
    else ElementCount(pillars[..|pillars| - 1], e) + (if Hit(pillars[|pillars| - 1], e) then 1 else 0)
  }

  /** How many of the pillars begin with a stem. */
  function StemLed(pillars: seq<string>): nat {
    if pillars == [] then 0
    else
      var p := pillars[|pillars| - 1];
      StemLed(pillars[..|pillars| - 1]) + (if |p| > 0 && p[0] in ElementMap then 1 else 0)
  }

  /** The five counts of `pillars`, keyed in the declared element order. */
  function Tally(pillars: seq<string>): Dict<string, int> {
    seq(5, j requires 0 <= j < 5 => (ElementNames[j], ElementCount(pillars, ElementNames[j]) as int))
  }

  /** The tally is keyed by the five element names, in order. */
  lemma TallyKeys(pillars: seq<string>)
    ensures Keys(Tally(pillars)) == ElementNames
  {
  }

  /** What `get_five_elements` yields: the five counts in the declared key order,
      or None when some pillar is empty (Python's `pillar[0]` raises). */
  function FiveElements(pillars: seq<string>): Option<Dict<string, int>> {
    if exists i :: 0 <= i < |pillars| && pillars[i] == "" then None
    else Some(Tally(pillars))
  }

  /** Counting one more pillar whose first character is a stem of element `e`
      bumps the entry of `e`. */
  lemma TallyBump(pillars: seq<string>, i: nat, e: string)
    requires i < |pillars| && |pillars[i]| > 0 && pillars[i][0] in ElementMap
    requires e == ElementMap[pillars[i][0]]
    ensures var t := Tally(pillars[..i]);
      Get(t, e).Some? && Tally(pillars[..i + 1]) == Put(t, e, Get(t, e).value + 1)
  {
    var t, t' := Tally(pillars[..i]), Tally(pillars[..i + 1]);
    PrefixCountStep(pillars, i);
    assert forall j :: 0 <= j < 5 ==> t'[j].1 == t[j].1 + (if ElementNames[j] == e then 1 else 0);
    TallyKeys(pillars[..i]);
    TallyKeys(pillars[..i + 1]);
    BumpByKey(t, t', e);
  }

  /** Two five-entry tallies that differ by one in the entry of `e` alone are `t`
      before and after `t[e] += 1`. */
  lemma BumpByKey(t: Dict<string, int>, t': Dict<string, int>, e: string)
    requires Keys(t) == ElementNames && Keys(t') == ElementNames && e in ElementNames
    requires forall j :: 0 <= j < 5 ==> t'[j].1 == t[j].1 + (if ElementNames[j] == e then 1 else 0)
    ensures Get(t, e).Some? && t' == Put(t, e, Get(t, e).value + 1)
  {
    TablesDistinct();
    var at := IndexOf(ElementNames, e);
    assert Get(t, e) == Some(t[at].1);
    assert Put(t, e, t[at].1 + 1) == t[at := (e, t[at].1 + 1)];
    assert forall j :: 0 <= j < 5 ==> t'[j] == t[at := (e, t[at].1 + 1)][j];
  }

  /** Counting one more pillar that does not begin with a stem changes nothing. */
  lemma TallySkip(pillars: seq<string>, i: nat)
    requires i < |pillars| && |pillars[i]| > 0 && pillars[i][0] !in ElementMap
    ensures Tally(pillars[..i + 1]) == Tally(pillars[..i])
  {
    PrefixCountStep(pillars, i);
    assert forall j :: 0 <= j < 5 ==> !Hit(pillars[i], ElementNames[j]);
  }

  /** `get_five_elements`: start every element at zero and add one per pillar
      whose first character is a stem. */
  method GetFiveElements(baziResult: Dict<string, string>) returns (r: Option<Dict<string, int>>)
    ensures r == FiveElements(Values(baziResult))
  {
    var elements: Dict<string, int> := [("木", 0), ("火", 0), ("土", 0), ("金", 0), ("水", 0)];
    var pillars := Values(baziResult);
    assert elements == Tally(pillars[..0]);
    var i := 0;
    while i < |pillars|
      invariant 0 <= i <= |pillars|
      invariant forall k :: 0 <= k < i ==> pillars[k] != ""
      invariant elements == Tally(pillars[..i])
    {
      var pillar := pillars[i];
      if |pillar| == 0 {
        assert pillars[i] == "";
        return None;
      }
      if pillar[0] in ElementMap {
        var e := ElementMap[pillar[0]];
        TallyBump(pillars, i, e);
        elements := Put(elements, e, Get(elements, e).value + 1);
      } else {
        TallySkip(pillars, i);
      }
      i := i + 1;
    }
    assert pillars[..i] == pillars;
    r := Some(elements);
  }

  /** Stems map to elements in consecutive pairs: 甲乙 to 木, ..., 壬癸 to 水. */
  lemma StemElements()
    ensures forall i :: 0 <= i < 10 ==> HeavenlyStems[i] in ElementMap && ElementMap[HeavenlyStems[i]] == ElementNames[i / 2]
    ensures forall c :: c in ElementMap ==> c in HeavenlyStems
  {
  }

  /** The five counts add up to the number of pillars that begin with a stem. */
  lemma {:induction false} TallySum(pillars: seq<string>)
    ensures ElementCount(pillars, "木") + ElementCount(pillars, "火") + ElementCount(pillars, "土")
          + ElementCount(pillars, "金") + ElementCount(pillars, "水") == StemLed(pillars)
  {
    if pillars != [] {
      TallySum(pillars[..|pillars| - 1]);
    }
  }

  /** When every pillar begins with a stem, each of them is counted. */
  lemma {:induction false} AllStemLed(pillars: seq<string>)
    requires forall i :: 0 <= i < |pillars| ==> |pillars[i]| > 0 && pillars[i][0] in ElementMap
    ensures StemLed(pillars) == |pillars|
  {
    if pillars != [] {
      AllStemLed(pillars[..|pillars| - 1]);
    }
  }

  /** For any birth moment every pillar begins with a stem, so the tally sums to 4. */
  lemma TallyOfBaziIsFour(birthDate: Date, birthTime: Time, gender: string)
    ensures var pillars := Values(CalculateBazi(birthDate, birthTime, gender));
      && FiveElements(pillars).Some?
      && Keys(FiveElements(pillars).value) == ElementNames
      && var c := FiveElements(pillars).value;
         c[0].1 + c[1].1 + c[2].1 + c[3].1 + c[4].1 == 4
  {
    var pillars := Values(CalculateBazi(birthDate, birthTime, gender));
    CalculateBaziShape(birthDate, birthTime, gender, gender);
    StemElements();
    assert forall i :: 0 <= i < 4 ==> pillars[i][0] in HeavenlyStems;
    AllStemLed(pillars);
    TallySum(pillars);
    assert forall i :: 0 <= i < |pillars| ==> pillars[i] != "";
    var c := FiveElements(pillars).value;
    assert Keys(c) == ElementNames;
  }

  lemma ElementCountSnoc(pillars: seq<string>, p: string, e: string)
    ensures ElementCount(pillars + [p], e) == ElementCount(pillars, e) + (if Hit(p, e) then 1 else 0)
  {
    assert (pillars + [p])[..|pillars|] == pillars;
  }

  /** Counting one more pillar adds its hit. */
  lemma PrefixCountStep(pillars: seq<string>, i: nat)
    requires i < |pillars|
    ensures forall e :: ElementCount(pillars[..i + 1], e) == ElementCount(pillars[..i], e) + (if Hit(pillars[i], e) then 1 else 0)
  {
    assert pillars[..i + 1][..i] == pillars[..i];
  }

  /** 2000-01-01 at hour 0 gives 庚辰 乙丑 乙丑 甲子. */
  lemma GoldenPillars()
    ensures CalculateBazi(Date(2000, 1, 1), Time(0), "男")
      == [("year", "庚辰"), ("month", "乙丑"), ("day", "乙丑"), ("hour", "甲子")]
  {
  }

  lemma GoldenCounts(e: string)
    ensures ElementCount(["庚辰", "乙丑", "乙丑", "甲子"], e) == if e == "木" then 3 else if e == "金" then 1 else 0
  {
    ElementCountSnoc([], "庚辰", e);
    ElementCountSnoc(["庚辰"], "乙丑", e);
    ElementCountSnoc(["庚辰", "乙丑"], "乙丑", e);
    ElementCountSnoc(["庚辰", "乙丑", "乙丑"], "甲子", e);
    assert [] + ["庚辰"] == ["庚辰"];
    assert ["庚辰"] + ["乙丑"] == ["庚辰", "乙丑"];
    assert ["庚辰", "乙丑"] + ["乙丑"] == ["庚辰", "乙丑", "乙丑"];
    assert ["庚辰", "乙丑", "乙丑"] + ["甲子"] == ["庚辰", "乙丑", "乙丑", "甲子"];
  }

  /** The tally of those pillars is three 木 and one 金. */
  lemma GoldenTally()
    ensures FiveElements(Values(CalculateBazi(Date(2000, 1, 1), Time(0), "男")))
      == Some([("木", 3), ("火", 0), ("土", 0), ("金", 1), ("水", 0)])
  {
    var pillars := ["庚辰", "乙丑", "乙丑", "甲子"];
    GoldenPillars();
    assert Values(CalculateBazi(Date(2000, 1, 1), Time(0), "男")) == pillars;
    GoldenCounts("木");
    GoldenCounts("火");
    GoldenCounts("土");
    GoldenCounts("金");
    GoldenCounts("水");
    assert forall i :: 0 <= i < |pillars| ==> pillars[i] != "";
    var c := FiveElements(pillars).value;
    assert c == [("木", 3), ("火", 0), ("土", 0), ("金", 1), ("水", 0)];
  }
}
