/** What the two versions of the province bar chart (`project.js`) have in
    common: CSV rows, the four bar records of a row, the colour of a bar, the
    axis label cut at " - ", the CSV path of a year and the legend layout. */
module BarChart {
  import opened Wrappers
  import opened JsText

  /** A cell of a CSV row as `d3.csv` parses it: the column name from the
      header and the cell text. */
  datatype Field = Field(column: string, text: string)

  /** A row, with its fields in header order. */
  type Row = seq<Field>

  /** `row[name]`: the text of the column with that name, or `undefined`.
      When a header repeats a name, the later column wins, as it does in the
      object `d3.csv` builds. */
  function Column(row: Row, name: string): (r: Option<string>)
    ensures r.None? <==> forall j :: 0 <= j < |row| ==> row[j].column != name
    ensures r.Some? ==> exists j :: (0 <= j < |row| && row[j] == Field(name, r.value)
      && forall k :: j < k < |row| ==> row[k].column != name)
    decreases |row|
  {
    if |row| == 0 then None
    else if row[|row| - 1].column == name then Some(row[|row| - 1].text)
    else
      var prefix := row[..|row| - 1];
      assert forall j :: 0 <= j < |prefix| ==> prefix[j] == row[j];
      Column(prefix, name)
  }

  /** No two columns of the row share a name. */
  predicate DistinctColumns(row: Row) {
    forall j, k :: 0 <= j < k < |row| ==> row[j].column != row[k].column
  }

  /** In a row whose header names are distinct, a column reads its own cell. */
  lemma ColumnOfField(row: Row, j: nat)
    requires DistinctColumns(row) && j < |row|
    ensures Column(row, row[j].column) == Some(row[j].text)
  {
    var r := Column(row, row[j].column);
    var k :| 0 <= k < |row| && row[k] == Field(row[j].column, r.value)
      && forall m :: k < m < |row| ==> row[m].column != row[j].column;
    assert k == j;
  }

  /** The four immigration categories, as column names and bar keys. */
  const Categories: seq<string> :=
    ["Economic", "Sponsored Family", "Resettled Refugee & Protected Person in Canada", "All Other Immigration"]

  /** One bar: the category and the row's cell for it (`undefined` when the
      row lacks the column). */
  datatype Bar = Bar(key: string, value: Option<string>)

  /** The array of four records every row is expanded to. */
  function BarRecords(row: Row): (bars: seq<Bar>)
    ensures |bars| == 4
    ensures forall i :: 0 <= i < 4 ==> bars[i] == Bar(Categories[i], Column(row, Categories[i]))
  {
    [Bar("Economic", Column(row, "Economic")),
     Bar("Sponsored Family", Column(row, "Sponsored Family")),
     Bar("Resettled Refugee & Protected Person in Canada", Column(row, "Resettled Refugee & Protected Person in Canada")),
     Bar("All Other Immigration", Column(row, "All Other Immigration"))]
  }

  /** Each bar carries the text of the row's cell for its category. */
  lemma BarTakesCell(row: Row, i: nat, j: nat)
    requires DistinctColumns(row) && i < 4 && j < |row| && row[j].column == Categories[i]
    ensures BarRecords(row)[i] == Bar(Categories[i], Some(row[j].text))
  {
    ColumnOfField(row, j);
  }

  const Colors: seq<string> := ["#1f77b4", "#aec7e8", "#2ca02c", "#98df8a"]

  /** `colors.find((c, index) => index === k)`, searching from `from`: the
      first colour whose position is k. */
  function FindAtIndex(colors: seq<string>, k: int, from: nat): (r: Option<string>)
    ensures r == if from <= k < |colors| then Some(colors[k]) else None
    decreases |colors| - from
  {
    if from >= |colors| then None
    else if from == k then Some(colors[from])
    else FindAtIndex(colors, k, from + 1)
  }

  /** The fill of bar i of a group. */
  function BarFill(i: int): (c: Option<string>)
    ensures c.Some? <==> 0 <= i < 4
    ensures 0 <= i < 4 ==> c == Some(Colors[i])
  {
    FindAtIndex(Colors, i, 0)
  }

  /** The four bars of a group get four different colours. */
  lemma BarFillsDistinct(i: int, j: int)
    requires 0 <= i < 4 && 0 <= j < 4 && i != j
    ensures BarFill(i) != BarFill(j)
  {
  }

  /** `d.split(" - ")[0]`: the Province text up to its first " - ". */
  function AxisLabel(province: string): (text: string)
    ensures text <= province
    ensures text == province <==> forall j :: 0 <= j < |province| ==> !OccursAt(province, " - ", j)
    ensures text != province ==> OccursAt(province, " - ", |text|)
    ensures forall j :: 0 <= j < |text| ==> !OccursAt(province, " - ", j)
  {
    Split(province, " - ")[0]
  }

  /** A name without a hyphen followed by " - " and anything at all is
      labelled with the name alone. */
  lemma AxisLabelOfSuffixed(name: string, rest: string)
    requires forall j :: 0 <= j < |name| ==> name[j] != '-'
    ensures AxisLabel(name + " - " + rest) == name
  {
    var s := name + " - " + rest;
    forall j | 0 <= j < |name|
      ensures !OccursAt(s, " - ", j)
    {
      assert s[j + 1] != '-' by {
        if j + 1 < |name| {
          assert s[j + 1] == name[j + 1];
        } else {
          assert s[j + 1] == ' ';
        }
      }
      assert s[j..j + 3][1] == s[j + 1];
    }
    SplitAtFirst(name, " - ", rest);
  }

  /** `'src/data/' + year + '.csv'`. */
  function CsvPath(year: string): (path: string)
    ensures |path| == |year| + 13
  {
    "src/data/" + year + ".csv"
  }

  /** The year a data path names, if it has the form of `CsvPath`. */
  function YearOf(path: string): (year: Option<string>)
    ensures year.Some? ==> |year.value| + 13 == |path|
  {
    if |path| >= 13 && path[..9] == "src/data/" && path[|path| - 4..] == ".csv"
    then Some(path[9..|path| - 4])
    else None
  }

  /** Building the path and reading it back are inverse. */
  lemma CsvPathRoundTrip(year: string, path: string)
    ensures YearOf(CsvPath(year)) == Some(year)
    ensures YearOf(path) == Some(year) ==> CsvPath(year) == path
  {
    var p := CsvPath(year);
    assert p[..9] == "src/data/" && p[|p| - 4..] == ".csv" && p[9..|p| - 4] == year;
    if YearOf(path) == Some(year) {
      assert path == path[..9] + path[9..|path| - 4] + path[|path| - 4..];
    }
  }

  /** Legend item i is translated to (width - 250, i * (18 + 4) + 20). */
  const LegendRectSize: int := 18
  const LegendSpacing: int := 4

  function LegendOrigin(width: int, i: int): (p: (int, int))
    ensures p == (width - 250, 20 + 22 * i)
  {
    var offset := LegendRectSize + LegendSpacing;
    (width - 250, i * offset + 20)
  }

  /** The squares of the legend sit in one column and never overlap: each
      starts 4 pixels below the end of the one before. */
  lemma LegendSquaresApart(width: int, i: int, j: int)
    requires i < j
    ensures LegendOrigin(width, i).0 == LegendOrigin(width, j).0
    ensures LegendOrigin(width, i).1 + LegendRectSize + LegendSpacing <= LegendOrigin(width, j).1
  {
  }

  /** The texts of the legend. */
  const LegendLabels: seq<string> :=
    ["Economic", "Sponsored Family", "Resettled Refugee & Protected Person", "All Other Immigration"]

  /** Legend text i begins the name of category i; only the third is shorter,
      lacking " in Canada". */
  lemma LegendLabelsAbbreviate(i: nat)
    requires i < 4
    ensures LegendLabels[i] <= Categories[i]
    ensures LegendLabels[i] == Categories[i] <==> i != 2
    ensures Categories[2] == LegendLabels[2] + " in Canada"
  {
  }
}
