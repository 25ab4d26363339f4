/** The final version of the province bar chart: the hover tooltip with the
    category colour, the row total and the share of the hovered bar, the pie of
    the hovered province, the two year-button paths and the legend. */
module FinalChart {
  import opened Wrappers
  import opened JsNumber
  import opened JsText
  import opened BarChart

  const Width: int := 1400

  /** `list.indexOf(x)`: the first position of x, or -1. */
  function IndexOf(list: seq<string>, x: string): (k: int)
    ensures -1 <= k < |list|
    ensures k == -1 <==> x !in list
    ensures k >= 0 ==> list[k] == x && forall j :: 0 <= j < k ==> list[j] != x
    decreases |list|
  {
    if |list| == 0 then -1
    else if list[0] == x then 0
    else
      var k := IndexOf(list[1..], x);
      if k == -1 then -1 else k + 1
  }

  /** The colour of the tooltip's square: the colour whose position is the
      position of the hovered category in the category list, `undefined` for
      any other text. */
  function TooltipColor(reason: string): (c: Option<string>)
    ensures c.Some? <==> reason in Categories
    ensures forall k :: 0 <= k < 4 && Categories[k] == reason ==> c == Some(Colors[k])
  {
    FindAtIndex(Colors, IndexOf(Categories, reason), 0)
  }

  /** The tooltip square of a bar has the colour of the bar. */
  lemma TooltipColorMatchesBar(row: Row, i: nat)
    requires i < 4
    ensures TooltipColor(BarRecords(row)[i].key) == BarFill(i)
  {
  }

  /** `Object.values(row)`: the cell texts in header order. */
  function FieldTexts(row: Row): (texts: seq<string>)
    ensures |texts| == |row|
    ensures forall j :: 0 <= j < |row| ==> texts[j] == row[j].text
  {
    seq(|row|, j requires 0 <= j < |row| => row[j].text)
  }

  /** `parseInt` of every text. */
  function ParseAll(texts: seq<string>): (vals: seq<Option<int>>)
    ensures |vals| == |texts|
    ensures forall j :: 0 <= j < |texts| ==> vals[j] == ParseInt(texts[j])
  {
    seq(|texts|, j requires 0 <= j < |texts| => ParseInt(texts[j]))
  }

  /** The fold `(acc, v) => acc + v` from 0 over parsed values; `None` is NaN,
      which every later addition keeps. */
  function SumParsed(vals: seq<Option<int>>): (r: Option<int>)
    ensures r.Some? <==> forall j :: 0 <= j < |vals| ==> vals[j].Some?
    decreases |vals|
  {
    if |vals| == 0 then Some(0)
    else
      var prefix := vals[..|vals| - 1];
      assert forall j :: 0 <= j < |prefix| ==> prefix[j] == vals[j];
      match SumParsed(prefix)
      case None => None
      case Some(acc) =>
        match vals[|vals| - 1]
        case None => None
        case Some(n) => Some(acc + n)
  }

  /** `Object.values(row).slice(1).reduce((acc, curr) => acc + parseInt(curr), 0)`:
      the total of the hovered province, the parsed sum of every cell but the
      first (the Province name). */
  function HoverTotal(row: Row): (total: Option<int>)
    ensures total.Some? <==> forall j :: 1 <= j < |row| ==> ParseInt(row[j].text).Some?
  {
    var texts := FieldTexts(row);
    var rest := if |texts| == 0 then [] else texts[1..];
    assert forall j :: 0 <= j < |rest| ==> rest[j] == row[j + 1].text;
    SumParsed(ParseAll(rest))
  }

  function SumInts(ns: seq<int>): int
    decreases |ns|
  {
    if |ns| == 0 then 0 else SumInts(ns[..|ns| - 1]) + ns[|ns| - 1]
  }

  /** A row whose cells after the first are the numerals of `counts`. */
  ghost predicate CountRow(row: Row, counts: seq<int>) {
    |row| == |counts| + 1 && forall j :: 0 <= j < |counts| ==> row[j + 1].text == DecimalText(counts[j])
  }

  lemma ParseNumeral(n: int)
    ensures ParseInt(DecimalText(n)) == Some(n)
  {
    ParseIntOfDecimal(n, "");
    assert DecimalText(n) + "" == DecimalText(n);
  }

  lemma {:induction false} SumParsedOfValues(vals: seq<Option<int>>, counts: seq<int>)
    requires |vals| == |counts|
    requires forall j :: 0 <= j < |vals| ==> vals[j] == Some(counts[j])
    ensures SumParsed(vals) == Some(SumInts(counts))
    decreases |vals|
  {
    if |vals| > 0 {
      var n := |vals| - 1;
      var p, c := vals[..n], counts[..n];
      assert forall j :: 0 <= j < |p| ==> p[j] == Some(c[j]);
      SumParsedOfValues(p, c);
    }
  }

  /** The hover total of a row of numerals is the sum of their values. */
  lemma HoverTotalOfCounts(row: Row, counts: seq<int>)
    requires CountRow(row, counts)
    ensures HoverTotal(row) == Some(SumInts(counts))
  {
    var rest := FieldTexts(row)[1..];
    var vals := ParseAll(rest);
    forall j | 0 <= j < |vals|
      ensures vals[j] == Some(counts[j])
    {
      assert rest[j] == DecimalText(counts[j]);
      ParseNumeral(counts[j]);
    }
    SumParsedOfValues(vals, counts);
  }

  lemma {:induction false} SumIntsBounds(ns: seq<int>)
    requires forall j :: 0 <= j < |ns| ==> ns[j] >= 0
    ensures SumInts(ns) >= 0
    ensures forall j :: 0 <= j < |ns| ==> ns[j] <= SumInts(ns)
    decreases |ns|
  {
    if |ns| > 0 {
      var prefix := ns[..|ns| - 1];
      assert forall j :: 0 <= j < |prefix| ==> prefix[j] == ns[j];
      SumIntsBounds(prefix);
    }
  }

  /** `Number(text)` for the integer numerals `String` writes; every other
      text is read as NaN (`None`). */
  function NumberOf(text: string): (n: Option<int>)
    ensures n.Some? ==> DecimalText(n.value) == text
  {
    match ParseInt(text)
    case Some(v) => if DecimalText(v) == text then Some(v) else None
    case None => None
  }

  /** Reading back the numeral of an integer gives the integer. */
  lemma NumberOfDecimal(n: int)
    ensures NumberOf(DecimalText(n)) == Some(n)
  {
    ParseNumeral(n);
  }

  /** `value / total * 100`, the share shown in the tooltip. */
  function HoverShare(row: Row, bar: Bar): (share: Num)
    ensures bar.value.None? || HoverTotal(row).None? ==> share == NaN
    ensures bar.value.Some? && HoverTotal(row).Some? && HoverTotal(row).value != 0 ==>
      (share.Finite? <==> NumberOf(bar.value.value).Some?)
  {
    var value := match bar.value case Some(t) => NumberOf(t) case None => None;
    match (value, HoverTotal(row))
    case (Some(v), Some(t)) => Percent(v, t)
    case _ => NaN
  }

  /** The share of a bar that shows one of the counted cells lies in
      [0, 100] when the counts are non-negative and not all zero. */
  lemma ShareInRange(row: Row, counts: seq<int>, j: nat, bar: Bar)
    requires CountRow(row, counts) && j < |counts| && bar.value == Some(row[j + 1].text)
    requires forall k :: 0 <= k < |counts| ==> counts[k] >= 0
    requires SumInts(counts) > 0
    ensures HoverShare(row, bar).Finite?
    ensures 0.0 <= HoverShare(row, bar).value <= 100.0
  {
    HoverTotalOfCounts(row, counts);
    NumberOfDecimal(counts[j]);
    SumIntsBounds(counts);
    PercentRange(counts[j], SumInts(counts));
  }

  /** A row of distinct columns whose cells after the Province are the numerals
      of the four category counts, in category order. */
  ghost predicate CategoryRow(row: Row, counts: seq<int>) {
    |counts| == 4 && CountRow(row, counts) && DistinctColumns(row)
    && forall i :: 0 <= i < 4 ==> row[i + 1].column == Categories[i]
  }

  lemma CategoryShare(row: Row, counts: seq<int>, i: nat)
    requires CategoryRow(row, counts) && i < 4
    ensures HoverShare(row, BarRecords(row)[i]) == Percent(counts[i], SumInts(counts))
  {
    HoverTotalOfCounts(row, counts);
    BarTakesCell(row, i, i + 1);
    NumberOfDecimal(counts[i]);
  }

  /** On such a row the four tooltip shares add up to 100 percent. */
  lemma SharesAddUpToWhole(row: Row, counts: seq<int>)
    requires CategoryRow(row, counts) && SumInts(counts) != 0
    ensures forall i :: 0 <= i < 4 ==> HoverShare(row, BarRecords(row)[i]).Finite?
    ensures HoverShare(row, BarRecords(row)[0]).value + HoverShare(row, BarRecords(row)[1]).value
      + HoverShare(row, BarRecords(row)[2]).value + HoverShare(row, BarRecords(row)[3]).value == 100.0
  {
    var t := SumInts(counts);
    var s0, s1, s2, s3 := HoverShare(row, BarRecords(row)[0]), HoverShare(row, BarRecords(row)[1]),
      HoverShare(row, BarRecords(row)[2]), HoverShare(row, BarRecords(row)[3]);
    assert s0 == Percent(counts[0], t) by { CategoryShare(row, counts, 0); }
    assert s1 == Percent(counts[1], t) by { CategoryShare(row, counts, 1); }
    assert s2 == Percent(counts[2], t) by { CategoryShare(row, counts, 2); }
    assert s3 == Percent(counts[3], t) by { CategoryShare(row, counts, 3); }
    assert Percent(counts[0], t).value + Percent(counts[1], t).value + Percent(counts[2], t).value
      + Percent(counts[3], t).value == 100.0 by {
      SumOfFour(counts);
      PercentsOfParts(counts[0], counts[1], counts[2], counts[3], t);
    }
  }

  lemma SumOfFour(counts: seq<int>)
    requires |counts| == 4
    ensures SumInts(counts) == counts[0] + counts[1] + counts[2] + counts[3]
  {
    var p1, p2, p3 := counts[..1], counts[..2], counts[..3];
    assert p1[..0] == [] && p2[..1] == p1 && p3[..2] == p2;
    assert SumInts(p1) == counts[0];
    assert SumInts(p2) == counts[0] + counts[1];
    assert SumInts(p3) == counts[0] + counts[1] + counts[2];
  }

  /** The percentages of four parts of a non-zero whole add up to 100. */
  lemma PercentsOfParts(a: int, b: int, c: int, d: int, t: int)
    requires t == a + b + c + d && t != 0
    ensures Percent(a, t).value + Percent(b, t).value + Percent(c, t).value + Percent(d, t).value == 100.0
  {
    PercentAdds(a, b, t);
    PercentAdds(a + b, c, t);
    PercentAdds(a + b + c, d, t);
    PercentOfWhole(t);
  }

  /** One record of the pie of the hovered province. */
  datatype Slice = Slice(category: string, value: Option<string>)

  /** `pieData`; the pie layout is built with `sort(null)`, so its arcs follow
      this order. */
  function PieData(row: Row): (slices: seq<Slice>)
    ensures |slices| == 4
    ensures forall i :: 0 <= i < 4 ==> slices[i] == Slice(Categories[i], Column(row, Categories[i]))
  {
    [Slice("Economic", Column(row, "Economic")),
     Slice("Sponsored Family", Column(row, "Sponsored Family")),
     Slice("Resettled Refugee & Protected Person in Canada", Column(row, "Resettled Refugee & Protected Person in Canada")),
     Slice("All Other Immigration", Column(row, "All Other Immigration"))]
  }

  /** The pie shows the bars of its province, in the same order. */
  lemma PieMatchesBars(row: Row)
    ensures |PieData(row)| == |BarRecords(row)|
    ensures forall i :: 0 <= i < 4 ==>
      PieData(row)[i].category == BarRecords(row)[i].key && PieData(row)[i].value == BarRecords(row)[i].value
  {
  }

  /** An ordinal scale over `domain` with `range`, for a value of the domain
      (the scale's implicit growth of its domain is not modelled). */
  function OrdinalColor(domain: seq<string>, range: seq<string>, value: string): (c: Option<string>)
    ensures c.Some? <==> value in domain && |range| > 0
  {
    var k := IndexOf(domain, value);
    if k >= 0 && |range| > 0 then Some(range[k % |range|]) else None
  }

  /** The pie colour of a slice: the ordinal scale over the slice categories. */
  function SliceColor(row: Row, slice: Slice): (c: Option<string>)
    ensures c.Some? <==> slice.category in Categories
    ensures forall k :: 0 <= k < 4 && Categories[k] == slice.category ==> c == Some(Colors[k])
  {
    var domain := seq(4, i requires 0 <= i < 4 => PieData(row)[i].category);
    assert domain == Categories;
    CategoryScale(slice.category);
    OrdinalColor(domain, Colors, slice.category)
  }

  /** The ordinal scale over the four categories and the four colours gives
      category k colour k. */
  lemma CategoryScale(x: string)
    ensures OrdinalColor(Categories, Colors, x).Some? <==> x in Categories
    ensures forall k :: 0 <= k < 4 && Categories[k] == x ==> OrdinalColor(Categories, Colors, x) == Some(Colors[k])
  {
  }

  /** Each slice is drawn in the colour of its bar. */
  lemma SliceColorMatchesBar(row: Row, i: nat)
    requires i < 4
    ensures SliceColor(row, PieData(row)[i]) == BarFill(i)
  {
  }

  /** The second year-button handler's path `year + ".csv"`, which lacks the
      data folder of the first. */
  function BareCsvPath(year: string): (path: string)
    ensures CsvPath(year) == "src/data/" + path
    ensures |path| == |year| + 4 && path != CsvPath(year)
  {
    year + ".csv"
  }

  /** Legend item i is at (1150, 20 + 22 i). */
  function LegendPosition(i: int): (p: (int, int))
    ensures p == (1150, 20 + 22 * i)
  {
    LegendOrigin(Width, i)
  }
}
