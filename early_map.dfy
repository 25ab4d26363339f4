/** The first version of the world map: every line ends at fixed Quebec
    coordinates, Quebec is the highlighted province, and the panel shows either
    the details of a country or "No information". */
module EarlyMap {
  import opened Wrappers
  import opened WorldMap
  import FinalMap

  const QuebecCoords: Coord := Coord(-73.5491, 52.9399)

  /** `drawMap`'s line building: one line per country, in order, to Quebec. */
  method DrawMapLines(countryData: seq<CountryRecord>) returns (lines: seq<LineString>)
    ensures |lines| == |countryData|
    ensures forall i :: 0 <= i < |countryData| ==>
      lines[i].coordinates == [countryData[i].coordinates, QuebecCoords]
      && lines[i].immigrants == countryData[i].total
  {
    lines := BuildLines(countryData, QuebecCoords);
  }

  /** One bar of the detail chart. */
  datatype Detail = Detail(title: string, value: int)

  const DetailTitles: seq<string> :=
    ["Economic Immigrants", "Family Reunification", "Refugees or Similar", "Other Immigrants"]

  /** The `data` array of the detail panel. */
  function DetailRecords(c: CountryRecord): (d: seq<Detail>)
    ensures |d| == 4
    ensures forall i :: 0 <= i < 4 ==> d[i] == Detail(DetailTitles[i], CategoryValues(c)[i])
  {
    [Detail("Economic Immigrants", c.economic), Detail("Family Reunification", c.family),
     Detail("Refugees or Similar", c.refugees), Detail("Other Immigrants", c.other)]
  }

  /** The detail bars lose nothing: two records give the same bars exactly when
      their four category counts agree. */
  lemma DetailRecordsDetermineCounts(c1: CountryRecord, c2: CountryRecord)
    ensures DetailRecords(c1) == DetailRecords(c2) <==> CategoryValues(c1) == CategoryValues(c2)
  {
    if DetailRecords(c1) == DetailRecords(c2) {
      assert forall i :: 0 <= i < 4 ==> DetailRecords(c1)[i].value == DetailRecords(c2)[i].value;
    }
  }

  datatype Panel =
    | Details(name: string, total: int, records: seq<Detail>)
    | NoInformation(name: string)

  /** `updateCountryInfo` for the clicked feature `name`; both panels are
      headed "Country Information". */
  function UpdateCountryInfo(name: string, countryData: seq<CountryRecord>): (p: Panel)
    ensures p.name == name
    ensures p.Details? <==> exists j :: 0 <= j < |countryData| && countryData[j].country == name
    ensures p.Details? ==> exists j :: (0 <= j < |countryData| && countryData[j].country == name
      && p.total == countryData[j].total && p.records == DetailRecords(countryData[j])
      && forall k :: 0 <= k < j ==> countryData[k].country != name)
  {
    match FindCountry(countryData, name)
    case Some(countryInfo) => Details(name, countryInfo.total, DetailRecords(countryInfo))
    case None => NoInformation(name)
  }

  /** The fill of a Canadian feature: chocolate for Quebec, none for the others. */
  function CanadaFill(name: string): (f: Fill)
    ensures f == Color("#D2691E") <==> name == "Quebec"
    ensures f != Color("#D2691E") ==> f == NoFill
  {
    if name == "Quebec" then Color("#D2691E") else NoFill
  }

  /** The later map generalises this one: its fill with "Quebec" stored is
      this fill. */
  lemma CanadaFillIsFinalWithQuebec(name: string)
    ensures CanadaFill(name) == FinalMap.CanadaFill(name, Some("Quebec"))
  {
  }

  /** On a country the two versions agree: both show details of the same
      record, and the later panel's categories carry this panel's values. */
  lemma CountryPanelAgreesWithFinal(name: string, countryData: seq<CountryRecord>, provinces: seq<string>,
                                    storedName: Option<string>)
    requires FindCountry(countryData, name).Some?
    ensures var p := UpdateCountryInfo(name, countryData);
      var r := FinalMap.UpdateCountryInfo(name, countryData, provinces, storedName);
      p.Details? && r.Success? && r.value.CountryPanel?
      && r.value.details.total == p.total
      && forall i :: 0 <= i < 4 ==> r.value.details.categories[i].value == p.records[i].value
  {
  }
}
