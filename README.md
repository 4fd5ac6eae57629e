# Sexagenary calendar and destiny-chart engine, modelled in Dafny

This project models the three deterministic calculators of the suanmingapp
fortune dashboard and proves properties of them:

- **Four Pillars (BaZi)** (`bazi.dfy`, module `BaZi`). `calculate_bazi` turns a
  birth date and hour into four stem-branch strings. The year, month and day
  pillars each take stem and branch from one integer; the hour pillar takes its
  stem from the hour and its branch from the two-hour bucket. `get_five_elements`
  tallies the element of each pillar's first character into a five-key dict.
- **Zi Wei Dou Shu chart** (`ziwei.dfy`, module `ZiWei`). The `ZiWeiCalculator`
  class holds the birth moment, the gender tag and the "lunar" date (an identity
  stub). Its methods compute:
  - the life palace (命宫) branch;
  - the placement of the fourteen catalog stars on the ring of twelve branches;
  - a verdict text per palace, from the counts of auspicious and inauspicious
    stars standing on it;
  - the chart that bundles these.
- **Nearest lunar festival** (`festival.dfy`, module `LunarFestival`).
  `get_current_festival` searches the fixed table of eight festivals for the
  nearest one ahead. It measures distance on a calendar of twelve 30-day months
  and wraps around a 360-day year.

`containers.dfy` (module `Containers`) holds value models of the Python
built-ins these use:
- an insertion-ordered `dict` as a sequence of pairs, with first-match lookup
  and replace-or-append store;
- `list.index`;
- `str.join`.

Two loops build a dict entry by entry: `calculate_main_stars` and
`get_fortune_prediction`. They are methods with loop invariants, proved equal to
the specification functions `Placement` and `Predictions`. `get_five_elements`
updates a count dict in place inside its loop and is proved equal to
`FiveElements`. The festival search updates two running variables, the smallest
distance so far and the festival that has it; it is proved against the predicate
`NearestAmong`. Lemmas then prove what the source promises about those
specifications.

Some behaviour of the code is worth stating up front:
- `calculate_bazi` validates nothing, so `CalculateBazi` is total. Only the Zi Wei
  constructor requires the field ranges, and Python's `datetime` guarantees them.
- `_convert_to_lunar` copies the solar fields unchanged, and so does
  `ConvertToLunar`.
- The star map takes star names to branch names (`Placement`).
- The chart dicts keep insertion order. `Placement` and `Predictions` prove that
  this is the catalog order.
- Every branch receives one or two stars, so no palace is empty
  (`EveryBranchOccupied`).

## Model

| member | source | states |
|---|---|---|
| BaZi.CalculateBazi | utils/bazi_calculator.py:4-37 | the result has the keys year, month, day, hour in that order, and every value is a two-character string |
| BaZi.CalculateBaziShape | utils/bazi_calculator.py:32-37 | the result has the keys year, month, day, hour in that order; every value is a stem character followed by a branch character; the gender argument does not change the result |
| BaZi.SharedOrdinalPillarsInCycle | utils/bazi_calculator.py:17-26 | the year, month and day pillars are terms of the 60-cycle: stem index and branch index have equal parity |
| BaZi.YearPillarIndices | utils/bazi_calculator.py:17-18 | the year pillar's stem index is `(year - 4) % 10` and its branch index `(year - 4) % 12`, both non-negative also for years before 4 |
| BaZi.YearPillarIsCyclePosition | utils/bazi_calculator.py:17-18 | two birth years give the same year pillar if and only if they differ by a multiple of 60 |
| BaZi.PillarsEqual | utils/bazi_calculator.py:17-30 | two pillars are the same string if and only if their stem ordinals agree modulo 10 and their branch ordinals modulo 12 |
| BaZi.HourPillarIndices | utils/bazi_calculator.py:29-30 | the hour pillar's stem index is `hour % 10` and its branch index `(hour // 2) % 12` |
| BaZi.HourPillarBreaksParity | utils/bazi_calculator.py:29-30 | hour 1 gives the hour pillar 乙子, which is not a term of the 60-cycle |
| BaZi.MonthReduction | utils/bazi_calculator.py:21-22 | month 12 gives the month pillar 丙子 and month 10 gives 甲戌 |
| BaZi.GoldenPillars | utils/bazi_calculator.py:17-37 | 2000-01-01 at hour 0 gives year 庚辰, month 乙丑, day 乙丑, hour 甲子 |
| BaZi.GetFiveElements | utils/bazi_calculator.py:39-65 | the loop returns the five element counts in key order 木 火 土 金 水, each the number of pillars led by a stem of that element; None when a pillar is empty |
| BaZi.TallyKeys | utils/bazi_calculator.py:43-49 | the tally always has the five element keys in declared order |
| BaZi.TallyBump | utils/bazi_calculator.py:61-63 | counting one more pillar led by a stem of element `e` is `elements[e] += 1` on the tally so far |
| BaZi.TallySkip | utils/bazi_calculator.py:61-62 | a pillar not led by a stem leaves the tally unchanged |
| BaZi.StemElements | utils/bazi_calculator.py:52-58 | stems map to elements in consecutive pairs 甲乙→木 … 壬癸→水, and only stems are mapped |
| BaZi.TallySum | utils/bazi_calculator.py:52-63 | the five counts add up to the number of pillars whose first character is a stem |
| BaZi.TallyOfBaziIsFour | utils/bazi_calculator.py:39-65 | for every `calculate_bazi` result the tally is defined, has the five keys and sums to 4 |
| BaZi.GoldenTally | utils/bazi_calculator.py:39-65 | the tally of the 2000-01-01 hour-0 pillars is 木 3, 金 1, the others 0 |
| ZiWei.CatalogsDistinct | utils/ziwei_calculator.py:8-20 | the palace, branch and star catalogs have 12, 12 and 14 entries with no repeats |
| ZiWei.ZiWeiCalculator.constructor | utils/ziwei_calculator.py:47-51 | stores the birth moment and gender as given and the lunar date as the copied fields |
| ZiWei.HourBranch | utils/ziwei_calculator.py:72-75 | for hours 0..23 the hour branch is a branch whose catalog position is `hour // 2` |
| ZiWei.HourBranchesAgree | utils/ziwei_calculator.py:72-75 | two hours get the same branch if and only if they fall in the same two-hour period |
| ZiWei.MingGongIndex | utils/ziwei_calculator.py:69 | the life-palace position lies on the ring of 12 |
| ZiWei.ZiWeiCalculator.CalculateMingGong | utils/ziwei_calculator.py:63-70 | returns the branch at position `(month - 1 + hour // 2) % 12` |
| ZiWei.MingGongAdvances | utils/ziwei_calculator.py:63-70 | the life palace moves one branch forward per month and per two hours, and repeats after 12 months |
| ZiWei.Placement | utils/ziwei_calculator.py:77-89 | the star map has exactly 14 entries, keyed by the star catalog in catalog order |
| ZiWei.ZiWeiCalculator.CalculateMainStars | utils/ziwei_calculator.py:77-89 | the loop builds exactly the star map of the life palace |
| ZiWei.PlacementStep | utils/ziwei_calculator.py:85-87 | storing the next star appends it as a fresh key: the map so far is always a prefix of the final map |
| ZiWei.PlacementLookup | utils/ziwei_calculator.py:83-87 | the star of rank r is stored at the branch `(life palace + r) % 12` |
| ZiWei.StarsOn | utils/ziwei_calculator.py:119-120 | the stars on a branch are at most the map's size; every star stored at the branch is listed, and only stars stored at the branch are |
| ZiWei.StarsOnBranch | utils/ziwei_calculator.py:118-120 | branch p collects the star of rank `(p - mg) % 12` and, for ranks 0 and 1, also the star 12 ranks later, in catalog order (紫微 with 七杀, 天机 with 破军) |
| ZiWei.EveryBranchOccupied | utils/ziwei_calculator.py:118-120 | every branch holds one or two stars, and it holds two if and only if it is the life palace or the branch after it |
| ZiWei.PairedBranches | utils/ziwei_calculator.py:85-86 | the rank that lands first on branch p is 0 or 1, the ranks with a partner twelve ranks later, if and only if p is the life palace or the branch after it |
| ZiWei.BranchesPartition | utils/ziwei_calculator.py:118-120 | for a star map whose positions are all branches, the per-branch star counts sum to the number of entries |
| ZiWei.StarCountsSumToFourteen | utils/ziwei_calculator.py:83-87 | the per-branch star counts of a chart sum to 14 |
| ZiWei.AnalyzePalaceStars | utils/ziwei_calculator.py:91-106 | the verdict depends only on `good - bad`: ≥2 大吉, 1 吉, 0 平, -1 凶, ≤-2 大凶 |
| ZiWei.NeutralStarIgnored | utils/ziwei_calculator.py:94-95 | adding a star tagged 中, or a star missing from the catalog, leaves the verdict unchanged |
| ZiWei.RankQuality | utils/ziwei_calculator.py:39-45 | every main star has a catalog quality, listed by rank |
| ZiWei.SingleStarVerdict | utils/ziwei_calculator.py:91-106 | a palace with one star of rank 2..11 gets 吉, 凶 or 平, and 平 if and only if the star is 巨门 |
| ZiWei.DoubleStarVerdict | utils/ziwei_calculator.py:91-106 | the two double-star palaces each hold one 吉 and one 凶 star and get 平 |
| ZiWei.PalaceVerdicts | utils/ziwei_calculator.py:118-126 | in every chart no palace gets 大吉 or 大凶, and a palace with two stars gets 平 |
| ZiWei.GetPalaceMeaning | utils/ziwei_calculator.py:108-110 | every palace of the catalog gets its own catalog meaning, never the 暂无解释 default; a name outside the meaning table gets the default |
| ZiWei.PalacesHaveMeanings | utils/ziwei_calculator.py:23-36 | every palace of the catalog is a key of the meaning table, and no meaning is the default text |
| ZiWei.PredictionText | utils/ziwei_calculator.py:122-128 | both texts open with the verdict `_analyze_palace_stars` gives the palace's stars and the palace meaning: the fixed 平 of the no-star text is the verdict of an empty list |
| ZiWei.Predictions | utils/ziwei_calculator.py:112-132 | the prediction dict has exactly the 12 palace keys in declared order |
| ZiWei.PredictionsStep | utils/ziwei_calculator.py:118-130 | storing the next palace's text appends it as a fresh key: the dict so far is always a prefix of the final dict |
| ZiWei.ZiWeiCalculator.GetFortunePrediction | utils/ziwei_calculator.py:112-132 | the loop builds exactly the prediction dict of the star map |
| ZiWei.ChartPrediction | utils/ziwei_calculator.py:118-128 | each palace's text is `verdict - meaning\n落星：stars joined by 、`; the no-star text and the default meaning never occur |
| ZiWei.Chart | utils/ziwei_calculator.py:136-146 | the chart's star map is keyed by the star catalog and its predictions by the palace catalog; 紫微 stands on the chart's life palace; the birth information is the lunar date and the gender |
| ZiWei.ZiWeiOnLifePalace | utils/ziwei_calculator.py:83-87 | 紫微, rank 0, is stored at the life-palace branch itself |
| ZiWei.ZiWeiCalculator.GenerateChartData | utils/ziwei_calculator.py:134-146 | the chart is the life palace, star map, predictions and birth information determined by the lunar date and gender |
| ZiWei.GenderOnlyStored | utils/ziwei_calculator.py:134-146 | the gender tag changes nothing in the chart but the stored birth information |
| LunarFestival.DaysUntil | utils/lunar_festival.py:44-49 | for a festival and today both in months 1..12 and days 1..30, the day count is the distance forward from today to the festival around a 360-day year, and lies in 0..359; for any other dates it is the 30-day-month offset, moved forward by 360 when negative |
| LunarFestival.FestivalDatesInRange | utils/lunar_festival.py:8-17 | every festival of the table falls on a month 1..12 and a day 1..30 |
| LunarFestival.FestivalsDistinct | utils/lunar_festival.py:8-17 | no two festivals share a date or a name |
| LunarFestival.GetCurrentFestival | utils/lunar_festival.py:30-59 | the result is never None; it is the table entry with the least distance, the first declared among equal ones, with its name, its unchanged info and its distance |
| LunarFestival.NearestIsUnique | utils/lunar_festival.py:51 | because replacement needs a strict `<`, at most one festival is the first nearest |
| LunarFestival.NearestDistanceInRange | utils/lunar_festival.py:43-57 | for a lunar month 1..12 and day 1..30 the result's distance is 0..359 |
| LunarFestival.FestivalToday | utils/lunar_festival.py:43-57 | on a festival's own date that festival is the result, 0 days away, under its own name |
| LunarFestival.ZeroDistanceIsSameDate | utils/lunar_festival.py:44-49 | within the table's ranges a festival is 0 days away only on its own date |

## Left out

- main.py (the Streamlit page, charts and styling) is not part of this model: it is presentation only.
- utils/name_analysis.py, utils/tarot.py and utils/daily_fortune.py are not part of this model. Their behaviour depends on random draws, float weights and the clock.
- `get_festival_fortune` is left out because it picks a fortune text at random.
- In `get_current_festival`, `datetime.now()` and `Lunar.fromDate` are left out. They call the clock and an external lunar calendar library, so today's lunar month and day are parameters of `GetCurrentFestival`.
- Real solar-to-lunar conversion is not modelled: the code stubs it as the identity, and so does the model.
- utils/zodiac_utils is not part of this model.
- Python `datetime` objects are reduced to the fields the calculators read (year, month, day, hour).
- ZiWei.ZiWeiCalculator.constructor: requires the field ranges of a Python `datetime`, which `datetime` itself enforces. The model therefore does not cover hours outside 0..23 (for hours -24..-1 Python's negative indexing would still pick a branch).
- BaZi.GetFiveElements: an empty pillar string makes Python's `pillar[0]` raise. The model returns None there instead of an exception.
- LunarFestival.GetCurrentFestival: the returned `info` is the table's own dict object in Python, an alias. The model returns an equal value, so aliasing is not modelled.
- The festival descriptions and the ZiWei catalog `HEAVENLY_STEMS` are carried as data only; no computation reads them.
- `ZiWeiCalculator` is modelled with `const` fields. Nothing in the class assigns its attributes after `__init__`, so the model shows no state change beyond construction.
