/** The final version of the world map: the country panel with its largest and
    least immigration category, the province panel that ranks the source
    countries with three running-best slots, the choice between the two (and
    "No information"), and the fill of the stored province. The lines are
    built by `WorldMap.BuildLines` with the stored province coordinates as
    destination. */
module FinalMap {
  import opened Wrappers
  import opened JsNumber
  import opened WorldMap

  /** Reading a property of `undefined` throws a TypeError. */
  datatype JsError = TypeError

  /** `d3.sum(countryData, d => d.Total)`. */
  function TotalSum(data: seq<CountryRecord>): int
    decreases |data|
  {
    if |data| == 0 then 0 else TotalSum(data[..|data| - 1]) + data[|data| - 1].total
  }

  /** Immigrant totals are counts. */
  ghost predicate NonNegativeTotals(data: seq<CountryRecord>) {
    forall j :: 0 <= j < |data| ==> data[j].total >= 0
  }

  /** With non-negative totals the sum is non-negative and bounds every total. */
  lemma {:induction false} SumBounds(data: seq<CountryRecord>)
    requires NonNegativeTotals(data)
    ensures TotalSum(data) >= 0
    ensures forall j :: 0 <= j < |data| ==> data[j].total <= TotalSum(data)
    decreases |data|
  {
    if |data| > 0 {
      var prefix := data[..|data| - 1];
      assert forall j :: 0 <= j < |prefix| ==> prefix[j] == data[j];
      SumBounds(prefix);
    }
  }

  // ---------------------------------------------------------------------------
  // The ranking of source countries shown in the province panel
  // ---------------------------------------------------------------------------

  /** The three slots of the scan, as positions in `countryData` (`None`: the
      slot holds `undefined`), and the percentage of the largest. */
  datatype Slots = Slots(largest: nat, second: Option<nat>, third: Option<nat>, largestPercentage: Num)

  /** Every slot that is defined holds an entry of the data. */
  predicate InRange(data: seq<CountryRecord>, s: Slots) {
    s.largest < |data|
    && (s.second.Some? ==> s.second.value < |data|)
    && (s.third.Some? ==> s.third.value < |data|)
  }

  /** `countryData[i].Total / d3.sum(countryData, d => d.Total) * 100`. */
  function CountryShare(data: seq<CountryRecord>, i: nat, sum: int): Num
    requires i < |data|
  {
    Percent(data[i].total, sum)
  }

  /** The slots before the loop: entries 0, 1 and 2, whichever exist. */
  function InitialSlots(data: seq<CountryRecord>, sum: int): (s: Slots)
    requires |data| > 0
    ensures InRange(data, s)
  {
    Slots(0, if |data| > 1 then Some(1) else None, if |data| > 2 then Some(2) else None,
      CountryShare(data, 0, sum))
  }

  /** One pass of the loop body for entry i: the cascade of `if / else if`. */
  function Step(data: seq<CountryRecord>, sum: int, s: Slots, i: nat): (r: Result<Slots, JsError>)
    requires InRange(data, s) && i < |data|
    ensures r.Success? ==> InRange(data, r.value)
    ensures r.Success? && s.largestPercentage == CountryShare(data, s.largest, sum) ==>
      r.value.largestPercentage == CountryShare(data, r.value.largest, sum)
  {
    var current := CountryShare(data, i, sum);
    if Greater(current, s.largestPercentage) then
      Success(Slots(i, Some(s.largest), s.second, current))
    else if s.second.None? then
      Failure(TypeError)
    else if Greater(current, CountryShare(data, s.second.value, sum)) then
      Success(Slots(s.largest, Some(i), s.second, s.largestPercentage))
    else if s.third.None? then
      Failure(TypeError)
    else if Greater(current, CountryShare(data, s.third.value, sum)) then
      Success(s.(third := Some(i)))
    else
      Success(s)
  }

  /** The loop from entry i to the end. */
  function ScanFrom(data: seq<CountryRecord>, sum: int, s: Slots, i: nat): (r: Result<Slots, JsError>)
    requires InRange(data, s) && i <= |data|
    ensures r.Success? ==> InRange(data, r.value)
    ensures r.Success? && s.largestPercentage == CountryShare(data, s.largest, sum) ==>
      r.value.largestPercentage == CountryShare(data, r.value.largest, sum)
    decreases |data| - i
  {
    if i == |data| then Success(s)
    else
      match Step(data, sum, s, i)
      case Failure(e) => Failure(e)
      case Success(next) => ScanFrom(data, sum, next, i + 1)
  }

  /** The whole scan, failing where the source reads `.Total` of `undefined`. */
  function TopThree(data: seq<CountryRecord>): (r: Result<Slots, JsError>)
    ensures r.Success? ==> InRange(data, r.value)
    ensures r.Success? ==> r.value.largestPercentage == CountryShare(data, r.value.largest, TotalSum(data))
  {
    if |data| == 0 then Failure(TypeError)
    else
      var sum := TotalSum(data);
      ScanFrom(data, sum, InitialSlots(data, sum), 1)
  }

  /** The scan as the source runs it: a `for` loop over three mutable slots. */
  method RankCountries(countryData: seq<CountryRecord>) returns (r: Result<Slots, JsError>)
    ensures r == TopThree(countryData)
  {
    if |countryData| == 0 {
      return Failure(TypeError);
    }
    var sum := TotalSum(countryData);
    var largest: nat := 0;
    var second: Option<nat> := if |countryData| > 1 then Some(1) else None;
    var third: Option<nat> := if |countryData| > 2 then Some(2) else None;
    var largestPercentage := CountryShare(countryData, 0, sum);
    var i := 1;
    while i < |countryData|
      invariant 1 <= i <= |countryData|
      invariant InRange(countryData, Slots(largest, second, third, largestPercentage))
      invariant ScanFrom(countryData, sum, Slots(largest, second, third, largestPercentage), i)
        == TopThree(countryData)
    {
      var currentPercentage := CountryShare(countryData, i, sum);
      if Greater(currentPercentage, largestPercentage) {
        third := second;
        second := Some(largest);
        largest := i;
        largestPercentage := currentPercentage;
      } else {
        if second.None? {
          return Failure(TypeError);
        }
        if Greater(currentPercentage, CountryShare(countryData, second.value, sum)) {
          third := second;
          second := Some(i);
        } else {
          if third.None? {
            return Failure(TypeError);
          }
          if Greater(currentPercentage, CountryShare(countryData, third.value, sum)) {
            third := Some(i);
          }
        }
      }
      i := i + 1;
    }
    r := Success(Slots(largest, second, third, largestPercentage));
  }

  /** Entry k has the largest total among the entries before n other than
      `except`, and no earlier such entry ties it. */
  ghost predicate EarliestMaxAmong(data: seq<CountryRecord>, k: nat, n: nat, except: int) {
    k < n <= |data| && k != except
    && (forall j :: 0 <= j < n && j != except ==> data[j].total <= data[k].total)
    && (forall j :: 0 <= j < k && j != except ==> data[j].total < data[k].total)
  }

  /** What the slots are once entries 0 .. n-1 have been scanned (n >= 2). */
  ghost predicate Ranked(data: seq<CountryRecord>, sum: int, s: Slots, n: nat) {
    2 <= n <= |data| && InRange(data, s)
    && EarliestMaxAmong(data, s.largest, n, -1)
    && s.largestPercentage == CountryShare(data, s.largest, sum)
    && s.second.Some? && EarliestMaxAmong(data, s.second.value, n, s.largest)
    && s.third.Some?
  }

  lemma FirstStep(data: seq<CountryRecord>)
    requires NonNegativeTotals(data) && |data| >= 2
    ensures var sum := TotalSum(data);
      var r := Step(data, sum, InitialSlots(data, sum), 1);
      (r.Failure? <==> |data| == 2 && data[1].total <= data[0].total)
      && (r.Success? ==> Ranked(data, sum, r.value, 2))
  {
    var sum := TotalSum(data);
    SumBounds(data);
    PercentOrder(data[1].total, data[0].total, sum);
    PercentOrder(data[1].total, data[1].total, sum);
    if |data| > 2 {
      PercentOrder(data[1].total, data[2].total, sum);
    }
  }

  lemma StepKeepsRanked(data: seq<CountryRecord>, s: Slots, n: nat)
    requires NonNegativeTotals(data) && Ranked(data, TotalSum(data), s, n) && n < |data|
    ensures Step(data, TotalSum(data), s, n).Success?
    ensures Ranked(data, TotalSum(data), Step(data, TotalSum(data), s, n).value, n + 1)
  {
    var sum := TotalSum(data);
    SumBounds(data);
    PercentOrder(data[n].total, data[s.largest].total, sum);
    PercentOrder(data[n].total, data[s.second.value].total, sum);
    PercentOrder(data[n].total, data[s.third.value].total, sum);
  }

  lemma {:induction false} ScanKeepsRanked(data: seq<CountryRecord>, s: Slots, n: nat)
    requires NonNegativeTotals(data) && Ranked(data, TotalSum(data), s, n)
    ensures ScanFrom(data, TotalSum(data), s, n).Success?
    ensures Ranked(data, TotalSum(data), ScanFrom(data, TotalSum(data), s, n).value, |data|)
    decreases |data| - n
  {
    if n < |data| {
      StepKeepsRanked(data, s, n);
      ScanKeepsRanked(data, Step(data, TotalSum(data), s, n).value, n + 1);
    }
  }

  lemma ScanOutcome(data: seq<CountryRecord>)
    requires NonNegativeTotals(data)
    ensures TopThree(data).Failure? <==> |data| == 0 || (|data| == 2 && data[1].total <= data[0].total)
    ensures |data| == 1 ==> TopThree(data) == Success(Slots(0, None, None, CountryShare(data, 0, TotalSum(data))))
    ensures |data| >= 2 && TopThree(data).Success? ==> Ranked(data, TotalSum(data), TopThree(data).value, |data|)
  {
    if |data| >= 2 {
      var sum := TotalSum(data);
      FirstStep(data);
      var r := Step(data, sum, InitialSlots(data, sum), 1);
      if r.Success? {
        ScanKeepsRanked(data, r.value, 2);
      }
    }
  }

  /** The scan throws exactly when the data is empty, or when it has two
      entries and the second does not beat the first (then the loop reads
      `.Total` of the undefined third slot); every data set of three or more
      entries is ranked. */
  lemma TopThreeFailsExactly(data: seq<CountryRecord>)
    requires NonNegativeTotals(data)
    ensures TopThree(data).Failure? <==> |data| == 0 || (|data| == 2 && data[1].total <= data[0].total)
  {
    ScanOutcome(data);
  }

  /** The largest slot is the earliest entry with the greatest total (only a
      strictly greater percentage replaces it), and `largestPercentage` is that
      entry's share of the sum of all totals. */
  lemma LargestSlotIsEarliestMax(data: seq<CountryRecord>)
    requires NonNegativeTotals(data) && TopThree(data).Success?
    ensures var s := TopThree(data).value;
      (forall j :: 0 <= j < |data| ==> data[j].total <= data[s.largest].total)
      && (forall j :: 0 <= j < s.largest ==> data[j].total < data[s.largest].total)
      && s.largestPercentage == Percent(data[s.largest].total, TotalSum(data))
  {
    ScanOutcome(data);
  }

  /** Once the loop has run, the second slot is another entry than the largest,
      its total is at most the largest's, and it is the earliest entry with the
      greatest total among all entries but the largest. */
  lemma SecondSlotIsRunnerUp(data: seq<CountryRecord>)
    requires NonNegativeTotals(data) && TopThree(data).Success? && |data| >= 2
    ensures var s := TopThree(data).value;
      s.second.Some? && s.second.value != s.largest
      && data[s.second.value].total <= data[s.largest].total
      && (forall j :: 0 <= j < |data| && j != s.largest ==> data[j].total <= data[s.second.value].total)
      && (forall j :: 0 <= j < s.second.value && j != s.largest ==> data[j].total < data[s.second.value].total)
  {
    ScanOutcome(data);
  }

  /** With one entry the second and third slots stay undefined; with two or
      more both are defined. Every slot holds an entry of the data. */
  lemma SlotsDefined(data: seq<CountryRecord>)
    requires NonNegativeTotals(data) && TopThree(data).Success?
    ensures InRange(data, TopThree(data).value)
    ensures TopThree(data).value.second.Some? <==> |data| >= 2
    ensures TopThree(data).value.third.Some? <==> |data| >= 2
  {
    ScanOutcome(data);
  }

  function SampleCountry(name: string, total: int): CountryRecord {
    CountryRecord(name, total, 0, 0, 0, 0, Coord(0.0, 0.0))
  }

  /** The third slot is never compared again after a shift, so it can end up
      holding the largest entry, with a total above the second's: for totals
      [10, 20, 5] the slots end as entries (1, 0, 1). */
  lemma ThirdSlotMayRepeatLargest()
    ensures var data := [SampleCountry("A", 10), SampleCountry("B", 20), SampleCountry("C", 5)];
      TopThree(data) == Success(Slots(1, Some(0), Some(1), Percent(20, 35)))
  {
    var data := [SampleCountry("A", 10), SampleCountry("B", 20), SampleCountry("C", 5)];
    assert TotalSum(data) == 35 by {
      var p1, p2 := data[..1], data[..2];
      assert p1[..0] == [] && p2[..1] == p1;
      assert TotalSum(p1) == 10;
      assert TotalSum(p2) == 30;
    }
    var s0 := InitialSlots(data, 35);
    assert Greater(Percent(20, 35), Percent(10, 35));
    var s1 := Slots(1, Some(0), Some(1), Percent(20, 35));
    assert Step(data, 35, s0, 1) == Success(s1);
    assert !Greater(Percent(5, 35), Percent(20, 35));
    assert !Greater(Percent(5, 35), Percent(10, 35));
    assert Step(data, 35, s1, 2) == Success(s1);
  }

  // ---------------------------------------------------------------------------
  // The country panel
  // ---------------------------------------------------------------------------

  datatype Category = Category(title: string, value: int)

  const PanelLabels: seq<string> := ["Economic", "Family", "Refugees", "Other Immigrants"]

  /** The `data` array of the country panel: one record per category. */
  function PanelCategories(c: CountryRecord): (cats: seq<Category>)
    ensures |cats| == 4
    ensures forall i :: 0 <= i < 4 ==> cats[i].title == PanelLabels[i] && cats[i].value == CategoryValues(c)[i]
  {
    [Category("Economic", c.economic), Category("Family", c.family),
     Category("Refugees", c.refugees), Category("Other Immigrants", c.other)]
  }

  /** `cats.reduce((acc, cur) => cur.value > acc.value ? cur : acc, {value: -Infinity})`,
      given as the position of the record it returns; `None` is the -Infinity
      seed, which only an empty list leaves in place. */
  function LargestCategory(cats: seq<Category>): (r: Option<nat>)
    ensures r.None? <==> |cats| == 0
    ensures r.Some? ==> (r.value < |cats|
      && (forall j :: 0 <= j < |cats| ==> cats[j].value <= cats[r.value].value)
      && (forall j :: 0 <= j < r.value ==> cats[j].value < cats[r.value].value))
    decreases |cats|
  {
    if |cats| == 0 then None
    else
      var prefix := cats[..|cats| - 1];
      assert forall j :: 0 <= j < |prefix| ==> prefix[j] == cats[j];
      match LargestCategory(prefix)
      case None => Some(|cats| - 1)
      case Some(k) => if cats[|cats| - 1].value > cats[k].value then Some(|cats| - 1) else Some(k)
  }

  /** `cats.reduce((acc, cur) => cur.value < acc.value ? cur : acc, {value: Infinity})`. */
  function LeastCategory(cats: seq<Category>): (r: Option<nat>)
    ensures r.None? <==> |cats| == 0
    ensures r.Some? ==> (r.value < |cats|
      && (forall j :: 0 <= j < |cats| ==> cats[r.value].value <= cats[j].value)
      && (forall j :: 0 <= j < r.value ==> cats[r.value].value < cats[j].value))
    decreases |cats|
  {
    if |cats| == 0 then None
    else
      var prefix := cats[..|cats| - 1];
      assert forall j :: 0 <= j < |prefix| ==> prefix[j] == cats[j];
      match LeastCategory(prefix)
      case None => Some(|cats| - 1)
      case Some(k) => if cats[|cats| - 1].value < cats[k].value then Some(|cats| - 1) else Some(k)
  }

  /** `cats.reduce((acc, cur) => acc + cur.value, 0)`. */
  function SumCategories(cats: seq<Category>): int
    decreases |cats|
  {
    if |cats| == 0 then 0 else SumCategories(cats[..|cats| - 1]) + cats[|cats| - 1].value
  }

  datatype CountryDetails = CountryDetails(
    name: string,
    total: int,
    categories: seq<Category>,
    largest: Category,
    least: Category,
    totalImmigration: int,
    percentage: Num,
    leastPercentage: Num)

  /** Everything the country panel shows for the record `info`. */
  function DetailsOf(name: string, info: CountryRecord): (d: CountryDetails)
    ensures d.name == name && d.total == info.total && d.categories == PanelCategories(info)
    ensures d.largest == d.categories[LargestCategory(d.categories).value]
    ensures d.least == d.categories[LeastCategory(d.categories).value]
    ensures d.totalImmigration == info.economic + info.family + info.refugees + info.other
    ensures d.percentage == Percent(d.largest.value, d.totalImmigration)
    ensures d.leastPercentage == Percent(d.least.value, d.totalImmigration)
  {
    var data := PanelCategories(info);
    var largest := data[LargestCategory(data).value];
    var least := data[LeastCategory(data).value];
    var total := SumCategories(data);
    assert total == info.economic + info.family + info.refugees + info.other by {
      var p1, p2, p3 := data[..1], data[..2], data[..3];
      assert p1[..0] == [] && p2[..1] == p1 && p3[..2] == p2;
      assert SumCategories(p1) == info.economic;
      assert SumCategories(p2) == info.economic + info.family;
      assert SumCategories(p3) == info.economic + info.family + info.refugees;
    }
    CountryDetails(name, info.total, data, largest, least, total,
      Percent(largest.value, total), Percent(least.value, total))
  }

  /** With non-negative counts and a positive sum, both percentages are finite
      and 0 <= least <= largest <= 100. */
  lemma CategoryPercentagesOrdered(name: string, info: CountryRecord)
    requires info.economic >= 0 && info.family >= 0 && info.refugees >= 0 && info.other >= 0
    requires info.economic + info.family + info.refugees + info.other > 0
    ensures var d := DetailsOf(name, info);
      d.percentage.Finite? && d.leastPercentage.Finite?
      && 0.0 <= d.leastPercentage.value <= d.percentage.value <= 100.0
  {
    var d := DetailsOf(name, info);
    var t := d.totalImmigration;
    assert forall i :: 0 <= i < 4 ==> 0 <= d.categories[i].value <= t by {
      assert CategoryValues(info) == [info.economic, info.family, info.refugees, info.other];
    }
    PercentRange(d.largest.value, t);
    PercentRange(d.least.value, t);
    PercentOrder(d.least.value, d.largest.value, t);
  }

  // ---------------------------------------------------------------------------
  // Choosing the panel
  // ---------------------------------------------------------------------------

  datatype Panel =
    | CountryPanel(details: CountryDetails)
    | RankingPanel(heading: string, province: string, largest: CountryRecord, second: CountryRecord, third: CountryRecord,
                   largestPercentage: Num)
    | NoInformation(heading: string, name: string)

  /** The heading of the ranking panel, spelled as the page spells it. */
  const RankingHeading: string := "Province Informationnnnnn"

  /** The province panel: the scan, then the three slots' names, which throws
      when a slot is undefined. */
  function RankingPanelOf(province: string, countryData: seq<CountryRecord>): (r: Result<Panel, JsError>)
    ensures TopThree(countryData).Failure? ==> r.Failure?
    ensures r.Success? ==> (r.value.RankingPanel? && r.value.heading == RankingHeading && r.value.province == province
      && r.value.largest in countryData && r.value.second in countryData && r.value.third in countryData
      && r.value.largestPercentage == Percent(r.value.largest.total, TotalSum(countryData)))
  {
    match TopThree(countryData)
    case Failure(e) => Failure(e)
    case Success(s) =>
      if s.second.None? || s.third.None? then Failure(TypeError)
      else Success(RankingPanel(RankingHeading, province, countryData[s.largest], countryData[s.second.value],
        countryData[s.third.value], s.largestPercentage))
  }

  /** `updateCountryInfo` for the clicked feature `name`; `provinces` are the
      names of the Canadian features and `storedName` the province name kept in
      the browser's storage (`None` when nothing is stored). */
  function UpdateCountryInfo(name: string, countryData: seq<CountryRecord>, provinces: seq<string>,
                             storedName: Option<string>): (r: Result<Panel, JsError>)
    ensures FindCountry(countryData, name).Some? ==>
      r == Success(CountryPanel(DetailsOf(name, FindCountry(countryData, name).value)))
    ensures FindCountry(countryData, name).None? && name in provinces && storedName == Some(name) ==>
      r == RankingPanelOf(name, countryData)
    ensures (r.Success? && r.value.NoInformation?) <==>
      FindCountry(countryData, name).None? && !(name in provinces && storedName == Some(name))
    ensures r.Success? && r.value.NoInformation? ==>
      r.value.name == name
      && r.value.heading == (if name in provinces then "Province Information" else "Country Information")
  {
    match FindCountry(countryData, name)
    case Some(countryInfo) => Success(CountryPanel(DetailsOf(name, countryInfo)))
    case None =>
      if name in provinces then
        if storedName == Some(name) then RankingPanelOf(name, countryData)
        else Success(NoInformation("Province Information", name))
      else Success(NoInformation("Country Information", name))
  }

  /** Once the scan has ranked two or more entries, the ranking panel shows
      the entries of the largest, second and third slots: first the earliest
      entry with the greatest total, with its share of the sum; second the
      earliest entry with the greatest total among all the others. */
  lemma RankingPanelContents(province: string, data: seq<CountryRecord>)
    requires NonNegativeTotals(data) && |data| >= 2 && TopThree(data).Success?
    ensures var s := TopThree(data).value;
      s.second.Some? && s.third.Some? && s.second.value != s.largest
      && RankingPanelOf(province, data) == Success(RankingPanel(RankingHeading, province, data[s.largest],
        data[s.second.value], data[s.third.value], Percent(data[s.largest].total, TotalSum(data))))
      && (forall j :: 0 <= j < |data| ==> data[j].total <= data[s.largest].total)
      && (forall j :: 0 <= j < s.largest ==> data[j].total < data[s.largest].total)
      && (forall j :: 0 <= j < |data| && j != s.largest ==> data[j].total <= data[s.second.value].total)
      && (forall j :: 0 <= j < s.second.value && j != s.largest ==> data[j].total < data[s.second.value].total)
  {
    SlotsDefined(data);
    LargestSlotIsEarliestMax(data);
    SecondSlotIsRunnerUp(data);
  }

  /** Clicking the stored province (with no country of that name) shows the
      ranking unless the data has fewer than two entries, or two entries where
      the second does not beat the first; then the panel is the one
      `RankingPanelContents` describes. */
  lemma RankingPanelShown(name: string, countryData: seq<CountryRecord>, provinces: seq<string>)
    requires NonNegativeTotals(countryData)
    requires FindCountry(countryData, name).None? && name in provinces
    ensures var r := UpdateCountryInfo(name, countryData, provinces, Some(name));
      r.Failure? <==> |countryData| <= 1 || (|countryData| == 2 && countryData[1].total <= countryData[0].total)
    ensures var r := UpdateCountryInfo(name, countryData, provinces, Some(name));
      r.Success? ==> (TopThree(countryData).Success?
        && var s := TopThree(countryData).value;
        s.second.Some? && s.third.Some? && s.second.value != s.largest
        && r.value == RankingPanel(RankingHeading, name, countryData[s.largest], countryData[s.second.value],
          countryData[s.third.value], Percent(countryData[s.largest].total, TotalSum(countryData)))
        && (forall j :: 0 <= j < |countryData| ==> countryData[j].total <= countryData[s.largest].total)
        && (forall j :: 0 <= j < s.largest ==> countryData[j].total < countryData[s.largest].total)
        && (forall j :: 0 <= j < |countryData| && j != s.largest ==>
              countryData[j].total <= countryData[s.second.value].total)
        && (forall j :: 0 <= j < s.second.value && j != s.largest ==>
              countryData[j].total < countryData[s.second.value].total))
  {
    assert UpdateCountryInfo(name, countryData, provinces, Some(name)) == RankingPanelOf(name, countryData);
    TopThreeFailsExactly(countryData);
    if TopThree(countryData).Success? {
      if |countryData| >= 2 {
        RankingPanelContents(name, countryData);
      } else {
        SlotsDefined(countryData);
      }
    }
  }

  /** The fill of a Canadian feature: chocolate for the stored province, none
      for the others. */
  function CanadaFill(name: string, storedName: Option<string>): (f: Fill)
    ensures f == Color("#D2691E") <==> storedName == Some(name)
    ensures f != Color("#D2691E") ==> f == NoFill
  {
    if storedName == Some(name) then Color("#D2691E") else NoFill
  }
}
