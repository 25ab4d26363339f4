/** The first version of the province bar chart: its hover tooltip text and
    its legend. Bars, colours, axis labels and the data path are those of
    `BarChart`. */
module EarlyChart {
  import opened Wrappers
  import opened JsText
  import opened BarChart

  const Width: int := 1600

  /** The tooltip's HTML, three lines separated by `<br>`. */
  function TooltipText(province: string, reason: string, value: string): (t: string)
    ensures t == Join(["Province: " + province, "Migration Categories: " + reason, "Number: " + value], "<br>")
  {
    var lines := ["Province: " + province, "Migration Categories: " + reason, "Number: " + value];
    assert lines[1..] == [lines[1], lines[2]] && lines[1..][1..] == [lines[2]];
    assert Join([lines[2]], "<br>") == lines[2];
    assert Join(lines[1..], "<br>") == lines[1] + "<br>" + lines[2];
    assert Join(lines, "<br>") == lines[0] + "<br>" + (lines[1] + "<br>" + lines[2]);
    "Province: " + province + "<br>" + "Migration Categories: " + reason + "<br>" + "Number: " + value
  }

  /** A template literal writes `undefined` for a missing value. */
  function Shown(v: Option<string>): (s: string)
    ensures v.Some? ==> s == v.value
    ensures v.None? ==> s == "undefined"
  {
    match v
    case Some(t) => t
    case None => "undefined"
  }

  /** The tooltip for a bar of a row: the row's Province, the bar's key and
      its value. */
  function HoverTooltip(row: Row, bar: Bar): (t: string)
    ensures t == Join(["Province: " + Shown(Column(row, "Province")), "Migration Categories: " + bar.key,
      "Number: " + Shown(bar.value)], "<br>")
  {
    TooltipText(Shown(Column(row, "Province")), bar.key, Shown(bar.value))
  }

  predicate NoAngle(s: string) {
    forall j :: 0 <= j < |s| ==> s[j] != '<'
  }

  lemma NoAngleConcat(a: string, b: string)
    requires NoAngle(a) && NoAngle(b)
    ensures NoAngle(a + b)
  {
    forall j | 0 <= j < |a + b| ensures (a + b)[j] != '<' {
      if j < |a| {
        assert (a + b)[j] == a[j];
      } else {
        assert (a + b)[j] == b[j - |a|];
      }
    }
  }

  /** A text without `<` followed by `<br>` ends its first line there. */
  lemma SplitAfterLine(a: string, b: string)
    requires NoAngle(a)
    ensures Split(a + "<br>" + b, "<br>") == [a] + Split(b, "<br>")
  {
    var s := a + "<br>" + b;
    forall j | 0 <= j < |a| ensures !OccursAt(s, "<br>", j) {
      assert s[j] == a[j];
      if j + 4 <= |s| {
        assert s[j..j + 4][0] == s[j];
      }
    }
    SplitAtFirst(a, "<br>", b);
  }

  lemma SplitLastLine(a: string)
    requires NoAngle(a)
    ensures Split(a, "<br>") == [a]
  {
    forall j | 0 <= j < |a| ensures !OccursAt(a, "<br>", j) {
      NoOccurrenceWithout(a, "<br>", j);
    }
    SplitWithout(a, "<br>");
  }

  /** When neither interpolated text contains `<`, the line breaks are
      exactly the two of the template, so the three lines can be read back. */
  lemma TooltipLines(province: string, reason: string, value: string)
    requires NoAngle(province) && NoAngle(reason) && NoAngle(value)
    ensures Split(TooltipText(province, reason, value), "<br>")
      == ["Province: " + province, "Migration Categories: " + reason, "Number: " + value]
  {
    var l1, l2, l3 := "Province: " + province, "Migration Categories: " + reason, "Number: " + value;
    NoAngleConcat("Province: ", province);
    NoAngleConcat("Migration Categories: ", reason);
    NoAngleConcat("Number: ", value);
    SplitLastLine(l3);
    SplitAfterLine(l2, l3);
    SplitAfterLine(l1, l2 + "<br>" + l3);
    TooltipShape(province, reason, value);
  }

  lemma TooltipShape(province: string, reason: string, value: string)
    ensures TooltipText(province, reason, value)
      == ("Province: " + province) + "<br>" + (("Migration Categories: " + reason) + "<br>" + ("Number: " + value))
  {
    var l1, l2, l3 := "Province: " + province, "Migration Categories: " + reason, "Number: " + value;
    assert TooltipText(province, reason, value) == l1 + "<br>" + l2 + "<br>" + l3;
  }

  lemma CategoriesHaveNoAngle(i: nat)
    requires i < 4
    ensures NoAngle(Categories[i])
  {
    if i == 2 {
      NoAngleConcat("Resettled Refugee & Protected Person", " in Canada");
      assert Categories[2] == "Resettled Refugee & Protected Person" + " in Canada";
    }
  }

  /** A bar of any row shows its own key and value on the second and third
      lines of the tooltip. */
  lemma HoverTooltipLines(row: Row, i: nat)
    requires i < 4
    requires NoAngle(Shown(Column(row, "Province"))) && NoAngle(Shown(Column(row, Categories[i])))
    ensures Split(HoverTooltip(row, BarRecords(row)[i]), "<br>")
      == ["Province: " + Shown(Column(row, "Province")), "Migration Categories: " + Categories[i],
          "Number: " + Shown(Column(row, Categories[i]))]
  {
    CategoriesHaveNoAngle(i);
    TooltipLines(Shown(Column(row, "Province")), Categories[i], Shown(Column(row, Categories[i])));
  }

  /** Legend item i is at (1350, 20 + 22 i). */
  function LegendPosition(i: int): (p: (int, int))
    ensures p == (1350, 20 + 22 * i)
  {
    LegendOrigin(Width, i)
  }
}
