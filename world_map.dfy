/** What the two versions of the world map (`main.js`) have in common: the
    per-country immigration records, the lines drawn from every country to the
    destination province, the lookup of a clicked feature among the records,
    the world fill rule, the relabelled ticks under the detail bar chart and the
    colour legend. */
module WorldMap {
  import opened Wrappers

  /** A longitude/latitude pair; the model only copies these. */
  datatype Coord = Coord(lon: real, lat: real)

  /** One entry of the country data file: a source country, its immigrant
      total, the four category counts and where to start its line. */
  datatype CountryRecord = CountryRecord(
    country: string,
    total: int,
    economic: int,
    family: int,
    refugees: int,
    other: int,
    coordinates: Coord)

  /** A GeoJSON `LineString` from a country to the destination, carrying the
      country's total as `immigrants`. */
  datatype LineString = LineString(coordinates: seq<Coord>, immigrants: int)

  /** The four category counts of a record, in the order every chart lists them. */
  function CategoryValues(c: CountryRecord): seq<int> {
    [c.economic, c.family, c.refugees, c.other]
  }

  /** `drawMap`'s `forEach` that pushes one line per country onto `lines`. */
  method BuildLines(countryData: seq<CountryRecord>, destination: Coord) returns (lines: seq<LineString>)
    ensures |lines| == |countryData|
    ensures forall i :: 0 <= i < |countryData| ==>
      lines[i].coordinates == [countryData[i].coordinates, destination]
      && lines[i].immigrants == countryData[i].total
  {
    lines := [];
    for i := 0 to |countryData|
      invariant |lines| == i
      invariant forall j :: 0 <= j < i ==>
        lines[j].coordinates == [countryData[j].coordinates, destination]
        && lines[j].immigrants == countryData[j].total
    {
      var d := countryData[i];
      var lineString := LineString([d.coordinates, destination], d.total);
      lines := lines + [lineString];
    }
  }

  /** The position of the first record whose country is `name`, searching
      from `from` on. */
  function CountryIndex(countryData: seq<CountryRecord>, name: string, from: nat): (r: Option<nat>)
    ensures r.Some? ==> from <= r.value < |countryData| && countryData[r.value].country == name
    ensures r.Some? ==> forall j :: from <= j < r.value ==> countryData[j].country != name
    ensures r.None? ==> forall j :: from <= j < |countryData| ==> countryData[j].country != name
    decreases |countryData| - from
  {
    if from >= |countryData| then None
    else if countryData[from].country == name then Some(from)
    else CountryIndex(countryData, name, from + 1)
  }

  /** `countryData.find(c => c.Country === name)`: the first record of that
      country, or `undefined`. */
  function FindCountry(countryData: seq<CountryRecord>, name: string): (r: Option<CountryRecord>)
    ensures r.None? <==> forall j :: 0 <= j < |countryData| ==> countryData[j].country != name
    ensures r.Some? ==> r.value in countryData && r.value.country == name
    ensures r.Some? ==> var k := CountryIndex(countryData, name, 0).value;
      r.value == countryData[k] && forall j :: 0 <= j < k ==> countryData[j].country != name
  {
    match CountryIndex(countryData, name, 0)
    case Some(k) => Some(countryData[k])
    case None => None
  }

  /** The fill of a world feature: the choropleth scale applied to the total of
      its record, or light green when the country has no record. */
  datatype Fill = Scaled(total: int) | Color(color: string) | NoFill

  function WorldFill(countryData: seq<CountryRecord>, name: string): (f: Fill)
    ensures f == Color("#90EE90") <==> forall j :: 0 <= j < |countryData| ==> countryData[j].country != name
    ensures f.Scaled? ==> FindCountry(countryData, name).Some? && f.total == FindCountry(countryData, name).value.total
    ensures FindCountry(countryData, name).Some? ==> f == Scaled(FindCountry(countryData, name).value.total)
    ensures !f.NoFill?
  {
    match FindCountry(countryData, name)
    case Some(country) => Scaled(country.total)
    case None => Color("#90EE90")
  }

  const TickLabels: seq<string> := ["Economic", "Family", "Refugees", "Others"]

  /** The text tick i of the detail bar chart is given (`undefined` past the
      fourth). */
  function TickLabel(i: int): (r: Option<string>)
    ensures r.Some? <==> 0 <= i < 4
    ensures 0 <= i < 4 ==> r == Some(["Economic", "Family", "Refugees", "Others"][i])
  {
    if 0 <= i < |TickLabels| then Some(TickLabels[i]) else None
  }

  /** The four bars get four different tick texts. */
  lemma TickLabelsDistinct(i: int, j: int)
    requires 0 <= i < 4 && 0 <= j < 4 && i != j
    ensures TickLabel(i) != TickLabel(j)
  {
  }

  /** The colour legend: four bands stacked from `height - legendHeight - 10`,
      each `legendHeight / 4` tall, with the label at the middle of its band. */
  const MapHeight: int := 650
  const LegendHeight: int := 120
  const LegendBands: int := 4
  const LegendY: int := MapHeight - LegendHeight - 10

  function BandHeight(): int {
    LegendHeight / LegendBands
  }

  function BandTop(i: int): (y: int)
    ensures y == 520 + 30 * i
  {
    LegendY + i * BandHeight()
  }

  function BandTextY(i: int): (y: int)
    ensures y == BandTop(i) + BandHeight() / 2
    ensures BandTop(i) < y < BandTop(i) + BandHeight()
  {
    LegendY + i * BandHeight() + BandHeight() / 2
  }

  /** The four bands tile [520, 640) without gap or overlap: every pixel row
      of that range lies in exactly one band. */
  lemma LegendBandsTile(y: int)
    requires 520 <= y < 640
    ensures var i := (y - 520) / 30;
      0 <= i < LegendBands && BandTop(i) <= y < BandTop(i) + BandHeight()
    ensures forall i :: 0 <= i < LegendBands && BandTop(i) <= y < BandTop(i) + BandHeight() ==> i == (y - 520) / 30
  {
  }
}
