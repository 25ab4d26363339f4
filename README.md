# Immigration to Canada maps and charts — a Dafny model

The repository draws two kinds of pages with d3, each in two versions.

- **The world map** (`main.js`). It draws a line from every source country to a
  Canadian province and fills the countries by immigrant total. Clicking a
  feature opens an information panel. In the final version that panel is one of
  three:
  - the details of a country: its four immigration categories, the largest and
    least category, and their percentages;
  - for the province stored in the browser, three source countries picked by
    a single scan with three running-best slots: the one with the largest
    total, the runner-up among the others, and a third slot that the scan does
    not keep ordered (it can even repeat the largest);
  - "No information".
- **The province bar chart** (`project.js`). It expands every CSV row into four
  bars and trims the axis labels at `" - "`. Hovering a bar shows a tooltip; in
  the final version the tooltip carries the category colour and the bar's share
  of the row's parsed total.

This project models that logic on values. Counts are unbounded integers.
Percentages are exact reals, wrapped in a JavaScript number type that also has
the infinities and NaN a division by zero produces. The comparisons `>` and `<`
are false whenever NaN takes part. Run-time failures are explicit results:
reading `.Total` of an `undefined` slot is a `TypeError`. The scan is modelled
exactly as written: a loop over three mutable slots. It is proved equal
to a step-by-step specification function, and that function's properties are
proved as lemmas. It is not modelled as the stable sort a redesign would put in
its place.

The modules are:

- `Wrappers`: `Option` (JavaScript's `undefined`) and `Result`.
- `JsNumber`: division, percentages and comparisons.
- `JsText`: `indexOf`, `split`, `String(n)` and `parseInt`.
- `WorldMap`: what both versions of `main.js` share.
- `FinalMap` and `EarlyMap`: the two versions of `main.js`.
- `BarChart`: what both versions of `project.js` share.
- `FinalChart` and `EarlyChart`: the two versions of `project.js`.

Shared members model both versions of their code:

- `WorldMap.BuildLines`: Final/src/js/main.js:510-519 and Project/chapter123/chapter1/src/js/main.js:201-210.
- `WorldMap.FindCountry`: Final/src/js/main.js:69-71 and Project/chapter123/chapter1/src/js/main.js:45-47.
- `WorldMap.WorldFill`: Final/src/js/main.js:537-542 and Project/chapter123/chapter1/src/js/main.js:228-233.
- `WorldMap.TickLabel`: Final/src/js/main.js:168-170 and Project/chapter123/chapter1/src/js/main.js:138-140.
- The legend bands: Final/src/js/main.js:605-649 and Project/chapter123/chapter1/src/js/main.js:302-334.
- `BarChart.BarRecords`: Final/src/js/project.js:225-233 and Project/chapter123/chapter1/src/js/project.js:103-108.
- `BarChart.BarFill`: Final/src/js/project.js:240 and Project/chapter123/chapter1/src/js/project.js:115.
- `BarChart.AxisLabel`: Final/src/js/project.js:255 and Project/chapter123/chapter1/src/js/project.js:130.
- `BarChart.CsvPath`: Final/src/js/project.js:14 and Project/chapter123/chapter1/src/js/project.js:18.
- `BarChart.LegendOrigin`: Final/src/js/project.js:293-297 and Project/chapter123/chapter1/src/js/project.js:161-166.

Several things the pages read from storage or from the DOM become parameters:

- the stored province name;
- the end point of the lines in the final map;
- the names of the Canadian features;
- the clicked feature's name.

## Model

| member | source | states |
|---|---|---|
| `JsNumber.Divide` | Final/src/js/main.js:200-201 | A non-zero divisor gives the exact quotient (it times the divisor is the dividend). Dividing by zero gives +Infinity for a positive dividend, -Infinity for a negative one and NaN for 0. |
| `JsNumber.Percent` | Final/src/js/project.js:196 | With a non-zero total the percentage is finite, and it times the total is 100 times the count. With a zero total it is the infinity or NaN of the division. |
| `JsNumber.Greater` | Final/src/js/main.js:258-278 | `>` is false whenever NaN takes part and never holds between equal numbers. On finite numbers it is the real order; +Infinity is above and -Infinity below every other number. |
| `JsNumber.PercentOrder` | Final/src/js/main.js:258-278 | For counts between 0 and a common total, comparing their percentages with `>` is the same as comparing the counts. With a zero total every percentage is NaN and no comparison holds, which again agrees with the counts. |
| `JsNumber.PercentRange` | Final/src/js/main.js:200-201 | A count between 0 and a positive total has a finite percentage in [0, 100]. |
| `JsText.IndexOfFrom` | Final/src/js/project.js:255 | The search returns the first occurrence at or after `from`, or reports that there is none. |
| `JsText.Split` | Final/src/js/project.js:255 | `split` with a non-empty separator always gives at least one piece. |
| `JsText.JoinSplit` | Final/src/js/project.js:255 | Joining the pieces with the separator gives the text back. |
| `JsText.SplitAtFirst` | Project/chapter123/chapter1/src/js/project.js:79 | When the first occurrence follows a prefix `a`, the pieces are `a` followed by the pieces of the rest. |
| `JsText.SplitWithout` | Final/src/js/project.js:255 | A text without the separator is a single piece. |
| `JsText.SplitPiecesHaveNoSeparator` | Final/src/js/project.js:255 | No piece of the split contains the separator. |
| `JsText.Digits` | Final/src/js/project.js:189 | `String(n)` of a natural number is a non-empty run of digits. |
| `JsText.ParseInt` | Final/src/js/project.js:189 | `parseInt` without a radix gives NaN for a blank text. A negative result needs a leading minus sign. A text that starts with a decimal digit, and not with `0x`, always gives a number. |
| `JsText.DigitRun` | Final/src/js/project.js:189 | The digit run `parseInt` reads is all digits and stops at the first non-digit. |
| `JsText.HexRun` | Final/src/js/project.js:189 | The hexadecimal digit run read after a `0x` prefix is all hexadecimal digits and stops at the first other character. |
| `JsText.ParseIntOfHex` | Final/src/js/project.js:189 | Without a radix, `0x` or `0X` followed by hexadecimal digits is read in base 16. With no digit after the prefix the result is NaN. |
| `JsText.HexPrefixExamples` | Final/src/js/project.js:189 | `parseInt("0x10")` is 16 and `parseInt("0x")` is NaN. |
| `JsText.ParseIntOfDecimal` | Final/src/js/project.js:189 | `parseInt` reads back the numeral of every integer, negatives included, when the numeral is followed by nothing or by a non-digit. The numeral 0 followed by `x` or `X` is excluded, because there `parseInt` switches to hexadecimal. |
| `WorldMap.BuildLines` | Final/src/js/main.js:510-519 | There is exactly one line per country, in input order, from the country's coordinates to the destination, carrying the country's total. |
| `WorldMap.CountryIndex` | Final/src/js/main.js:69-71 | The result is the first position at or after `from` whose country has the name, or none when no later entry has it. |
| `WorldMap.FindCountry` | Final/src/js/main.js:69-71 | `find` is `undefined` exactly when no record has the name. Otherwise it is the first record with that name. |
| `WorldMap.WorldFill` | Final/src/js/main.js:537-542 | Light green exactly when no record has the name. Otherwise the scale is applied to the found record's total. A world feature always gets a fill. |
| `WorldMap.TickLabel` | Project/chapter123/chapter1/src/js/main.js:138-140 | Ticks 0 to 3 are relabelled "Economic", "Family", "Refugees" and "Others", in that order. Any other position is `undefined`. |
| `WorldMap.TickLabelsDistinct` | Project/chapter123/chapter1/src/js/main.js:138-140 | The four bars get four different tick texts. |
| `WorldMap.BandTop` | Project/chapter123/chapter1/src/js/main.js:302-318 | Legend band i starts at y = 520 + 30 i. |
| `WorldMap.BandTextY` | Project/chapter123/chapter1/src/js/main.js:328-334 | A band's label sits at the middle of its band, strictly inside it. |
| `WorldMap.LegendBandsTile` | Project/chapter123/chapter1/src/js/main.js:302-334 | The four bands cover [520, 640), and each pixel row of that range lies in exactly one band, so there is no gap or overlap. |
| `FinalMap.SumBounds` | Final/src/js/main.js:254 | With non-negative totals, `d3.sum` (the function `TotalSum`) is non-negative and bounds every total. |
| `FinalMap.InitialSlots` | Final/src/js/main.js:249-255 | The slots before the loop (entries 0, 1 and 2, each only where it exists) lie inside the data. |
| `FinalMap.Step` | Final/src/js/main.js:258-280 | One loop pass keeps every slot inside the data, or throws when it compares with an undefined slot. A pass never breaks the link between `largestPercentage` and the share of the largest slot. |
| `FinalMap.ScanFrom` | Final/src/js/main.js:257-281 | The rest of the loop keeps every defined slot inside the data, and keeps `largestPercentage` equal to the share of the largest slot. |
| `FinalMap.TopThree` | Final/src/js/main.js:249-281 | When the scan does not throw, every slot it ends with is an entry of the data, and `largestPercentage` is the share of the largest slot, whatever the signs of the totals. |
| `FinalMap.RankCountries` | Final/src/js/main.js:249-281 | The `for` loop over three mutable slots returns exactly the result of the step-by-step specification `TopThree`, throwing where it throws. |
| `FinalMap.FirstStep` | Final/src/js/main.js:257-281 | The first pass throws exactly for two entries where the second does not beat the first; otherwise the slots are ranked over the first two entries. |
| `FinalMap.StepKeepsRanked` | Final/src/js/main.js:258-280 | Once two entries are ranked, every later pass succeeds and keeps the ranking invariant. Under that invariant the largest slot is the earliest maximum, its percentage is its share, and the second slot is the earliest maximum of the others. |
| `FinalMap.ScanKeepsRanked` | Final/src/js/main.js:257-281 | From a ranked state the rest of the loop succeeds and ends ranked over all entries. |
| `FinalMap.ScanOutcome` | Final/src/js/main.js:249-281 | The failure cases, the one-entry result, and the ranking over all entries once the loop has run. |
| `FinalMap.TopThreeFailsExactly` | Final/src/js/main.js:249-281 | With non-negative totals the scan throws exactly when the data is empty, or when there are two entries and the second total is at most the first. Every data set of three or more entries is ranked. |
| `FinalMap.LargestSlotIsEarliestMax` | Final/src/js/main.js:253-264 | The largest slot has a total no smaller than any entry's, every earlier entry has a strictly smaller total, and `largestPercentage` is its total over the sum, times 100. |
| `FinalMap.SecondSlotIsRunnerUp` | Final/src/js/main.js:257-272 | Once the loop has run, the second slot is a different entry from the largest, its total is at most the largest's, and it is the earliest maximum among all the other entries. |
| `FinalMap.SlotsDefined` | Final/src/js/main.js:249-251 | The slots lie inside the data. The second and third slots are defined exactly when there are at least two entries. |
| `FinalMap.ThirdSlotMayRepeatLargest` | Final/src/js/main.js:261-279 | For totals [10, 20, 5] the slots end as entries (1, 0, 1): the third slot holds the largest, with a total above the second's. |
| `FinalMap.PanelCategories` | Final/src/js/main.js:114-122 | The panel's data is four records in fixed order, labelled Economic, Family, Refugees, Other Immigrants, with the record's four counts. |
| `FinalMap.LargestCategory` | Final/src/js/main.js:189-192 | The reduce returns `undefined` only for an empty list. Otherwise its record has the greatest value, and every earlier record is strictly smaller, so the first maximum wins. |
| `FinalMap.LeastCategory` | Final/src/js/main.js:193-196 | The reduce returns `undefined` only for an empty list. Otherwise its record has the least value, and every earlier record is strictly greater, so the first minimum wins. |
| `FinalMap.DetailsOf` | Final/src/js/main.js:189-201 | `totalImmigration`, the reduce `SumCategories`, is the sum of the four counts. The two percentages are the largest and least category values over that sum. |
| `FinalMap.CategoryPercentagesOrdered` | Final/src/js/main.js:198-201 | With non-negative counts and a positive total, both percentages are finite and 0 <= least <= largest <= 100. |
| `FinalMap.UpdateCountryInfo` | Final/src/js/main.js:66-491 | A country with the name takes precedence and shows its details. Otherwise a province equal to the stored name shows the ranking panel. Every other case is "No information", headed "Province Information" for a province and "Country Information" otherwise. |
| `FinalMap.RankingPanelOf` | Final/src/js/main.js:246-429 | A throwing scan makes the panel throw. A panel that is shown names three entries of the data, with the page's heading, and its percentage is the first entry's share of the sum of all totals. |
| `FinalMap.RankingPanelContents` | Final/src/js/main.js:246-429 | With two or more entries and non-negative totals, the panel names the entries of the three slots. The first is the earliest entry with the greatest total, with its share. The second is a different entry, the earliest with the greatest total among all the others. |
| `FinalMap.RankingPanelShown` | Final/src/js/main.js:246-429 | For the stored province with non-negative totals, the panel throws exactly for fewer than two entries, or for two entries where the second does not beat the first. Otherwise it is the panel of the three slots: the earliest entry with the greatest total first, with its share of the sum, then the earliest entry with the greatest total among all the others. |
| `FinalMap.CanadaFill` | Final/src/js/main.js:560-562 | A Canadian feature is chocolate exactly when its name is the stored one; otherwise it has no fill. |
| `EarlyMap.DrawMapLines` | Project/chapter123/chapter1/src/js/main.js:192-210 | There is one line per country, in order, from its coordinates to the fixed Quebec point (-73.5491, 52.9399), carrying its total. |
| `EarlyMap.DetailRecords` | Project/chapter123/chapter1/src/js/main.js:84-92 | The detail data is four records in fixed order, with the four category counts of the record. |
| `EarlyMap.DetailRecordsDetermineCounts` | Project/chapter123/chapter1/src/js/main.js:84-92 | Two records give equal detail data exactly when their four counts agree. |
| `EarlyMap.UpdateCountryInfo` | Project/chapter123/chapter1/src/js/main.js:42-189 | Details exactly when some record has the name, built from the first record with that name; "No information" otherwise. |
| `EarlyMap.CanadaFill` | Project/chapter123/chapter1/src/js/main.js:251-253 | Chocolate exactly when the name is "Quebec"; no fill otherwise. |
| `EarlyMap.CanadaFillIsFinalWithQuebec` | Project/chapter123/chapter1/src/js/main.js:251-253 | The early fill is the final fill with "Quebec" stored. |
| `EarlyMap.CountryPanelAgreesWithFinal` | Project/chapter123/chapter1/src/js/main.js:45-92 | On a country both versions show details of the same record, with the same total and the same four category values. |
| `BarChart.Column` | Final/src/js/project.js:225-233 | A cell read is `undefined` exactly when no column has the name. Otherwise it is the cell of the last column with that name. |
| `BarChart.ColumnOfField` | Final/src/js/project.js:225-233 | In a row with distinct column names, each column reads its own cell. |
| `BarChart.BarRecords` | Final/src/js/project.js:225-233 | Every row expands to exactly four bars, keyed by the four categories in order, each taking the row's cell for its category. |
| `BarChart.BarTakesCell` | Final/src/js/project.js:225-233 | Bar i carries the text of the row's cell for category i. |
| `BarChart.FindAtIndex` | Final/src/js/project.js:240 | `find` over the colours by index returns the colour at position k when k is in range, and `undefined` otherwise. |
| `BarChart.BarFill` | Final/src/js/project.js:240 | Bar i of a group is filled with colour i, and only positions 0 to 3 get a colour. |
| `BarChart.BarFillsDistinct` | Final/src/js/project.js:240 | The four bars of a group get four different colours. |
| `BarChart.AxisLabel` | Final/src/js/project.js:255 | The label is a prefix of the Province text. It is the whole text exactly when the text has no `" - "`. Otherwise it stops at the first `" - "`. |
| `BarChart.AxisLabelOfSuffixed` | Project/chapter123/chapter1/src/js/project.js:130 | A name without a hyphen, followed by `" - "` and anything, is labelled with the name alone. |
| `BarChart.CsvPath` | Final/src/js/project.js:14 | The path is the year wrapped in `src/data/` and `.csv`. |
| `BarChart.YearOf` | Project/chapter123/chapter1/src/js/project.js:18 | A data path is 13 characters longer than the year it names. |
| `BarChart.CsvPathRoundTrip` | Project/chapter123/chapter1/src/js/project.js:18 | Building a path from a year and reading the year back are inverse, in both directions. |
| `BarChart.LegendOrigin` | Final/src/js/project.js:293-297 | Legend item i is translated to (width - 250, 20 + 22 i). |
| `BarChart.LegendSquaresApart` | Project/chapter123/chapter1/src/js/project.js:161-173 | The legend squares share one column, and each starts 4 pixels below the end of the one before, so they never overlap. |
| `BarChart.LegendLabelsAbbreviate` | Final/src/js/project.js:284-289 | Legend text i begins the name of category i. Only the third is shorter: it lacks " in Canada". |
| `FinalChart.IndexOf` | Final/src/js/project.js:180-185 | `indexOf` is -1 exactly when the text is absent. Otherwise it is the first position holding it. |
| `FinalChart.TooltipColor` | Final/src/js/project.js:177-186 | The tooltip colour is defined exactly for the four categories, and category k gets colour k. |
| `FinalChart.TooltipColorMatchesBar` | Final/src/js/project.js:177-186 | The tooltip square of every bar has the bar's colour. |
| `FinalChart.SumParsed` | Final/src/js/project.js:187-189 | The parsed sum is a number exactly when every cell parses; one NaN makes the whole total NaN. |
| `FinalChart.HoverTotal` | Final/src/js/project.js:187-189 | The hover total is a number exactly when every cell but the first parses. |
| `FinalChart.SumParsedOfValues` | Final/src/js/project.js:189 | Folding parsed values that are all numbers gives their sum. |
| `FinalChart.HoverTotalOfCounts` | Final/src/js/project.js:187-189 | For a row whose cells after the Province are the numerals of some counts, the hover total is the sum of those counts. |
| `FinalChart.SumIntsBounds` | Final/src/js/project.js:187-189 | A sum of non-negative counts is non-negative and bounds each count. |
| `FinalChart.ParseNumeral` | Final/src/js/project.js:189 | `parseInt` of an integer's numeral is that integer. |
| `FinalChart.NumberOf` | Final/src/js/project.js:196 | A text read as a number is the numeral of that number. |
| `FinalChart.NumberOfDecimal` | Final/src/js/project.js:196 | Reading back the numeral of an integer gives the integer. |
| `FinalChart.HoverShare` | Final/src/js/project.js:187-196 | The share is NaN when the bar has no value or the row total is NaN. With a non-zero total it is finite exactly when the bar's text reads as a number. |
| `FinalChart.ShareInRange` | Final/src/js/project.js:187-196 | With non-negative counts, not all zero, the share of a bar showing one of the counted cells is finite and lies in [0, 100]. |
| `FinalChart.CategoryShare` | Final/src/js/project.js:187-196 | On a row of the four category counts, bar i's share is count i over the sum, times 100. |
| `FinalChart.SharesAddUpToWhole` | Final/src/js/project.js:187-196 | On a row of the four category counts with a non-zero sum, the four tooltip shares are finite and add up to exactly 100. |
| `FinalChart.PercentsOfParts` | Final/src/js/project.js:196 | The percentages of four parts of a non-zero whole add up to 100. |
| `FinalChart.PieData` | Final/src/js/project.js:82-99 | The pie data is four slices in category order, each with the row's cell for its category. |
| `FinalChart.PieMatchesBars` | Final/src/js/project.js:116-119 | With `sort(null)` the slices keep the bars' order, categories and values. |
| `FinalChart.OrdinalColor` | Final/src/js/project.js:110-113 | The ordinal scale gives a colour exactly for values of its domain, provided the range is not empty. |
| `FinalChart.CategoryScale` | Final/src/js/project.js:110-113 | The ordinal scale over the four categories and the four colours gives category k colour k and nothing to any other text. |
| `FinalChart.SliceColor` | Final/src/js/project.js:110-152 | A slice gets a colour exactly when its category is one of the four, and category k gets colour k. |
| `FinalChart.SliceColorMatchesBar` | Final/src/js/project.js:110-152 | Each pie slice is drawn in the colour of its bar. |
| `FinalChart.BareCsvPath` | Final/src/js/project.js:332 | The second handler's path is the first handler's path without the `src/data/` folder, so the two never coincide. |
| `FinalChart.LegendPosition` | Final/src/js/project.js:293-297 | Legend item i is at (1150, 20 + 22 i). |
| `EarlyChart.TooltipText` | Project/chapter123/chapter1/src/js/project.js:79 | The tooltip is the three lines "Province: " + P, "Migration Categories: " + R and "Number: " + V, joined by `<br>`. |
| `EarlyChart.Shown` | Project/chapter123/chapter1/src/js/project.js:79 | The template writes a cell's text, or `undefined` for a missing value. |
| `EarlyChart.HoverTooltip` | Project/chapter123/chapter1/src/js/project.js:75-79 | Hovering a bar shows three lines joined by `<br>`: the row's Province, the bar's category and the bar's value, with `undefined` for a missing cell. |
| `EarlyChart.SplitAfterLine` | Project/chapter123/chapter1/src/js/project.js:79 | A line without `<`, followed by `<br>`, is a piece of its own. |
| `EarlyChart.SplitLastLine` | Project/chapter123/chapter1/src/js/project.js:79 | A line without `<` is a single piece. |
| `EarlyChart.TooltipLines` | Project/chapter123/chapter1/src/js/project.js:79 | When the province, category and value have no `<`, splitting the tooltip at `<br>` gives exactly its three lines: "Province: " + P, "Migration Categories: " + R, "Number: " + V. |
| `EarlyChart.CategoriesHaveNoAngle` | Project/chapter123/chapter1/src/js/project.js:103-108 | No category name contains `<`. |
| `EarlyChart.HoverTooltipLines` | Project/chapter123/chapter1/src/js/project.js:75-79 | Hovering any bar of a row shows the row's Province, the bar's category and that category's cell on the three lines. |
| `EarlyChart.LegendPosition` | Project/chapter123/chapter1/src/js/project.js:161-166 | Legend item i is at (1350, 20 + 22 i). |

## Left out

- Rendering is not modelled. This covers d3 selections, SVG attributes, transitions, tooltip placement from the mouse position, and mouse-over and mouse-out styling.
- d3 scales and geometry are library code and floating point. This covers `scaleQuantize`, `scaleBand`, `scaleLinear().nice()`, the axes, `geoMercator`, `geoPath`, `path.bounds`, the zoom transforms, and the pie and arc layout. The choropleth colour of a country is modelled only as the scale applied to its total (`Scaled(total)`). The y-axis maximum is not modelled.
- Data loading (`d3.queue`, `d3.json`, `d3.csv`) and `localStorage` are I/O. Their values are parameters: the country data, the CSV rows, the stored province name and the stored end point of the lines.
- WorldMap.BuildLines: the destination is a coordinate pair. When nothing is stored, the final map's end point is `undefined`; that case is not modelled.
- `showProvinceTooltip` (Final/src/js/main.js:51-64) sums values read back from the DOM and is not modelled. Neither is the pie of source countries that the ranking panel draws.
- The numbers printed after the second and third place (Final/src/js/main.js:416, 427) are `Total.toFixed(2)`, which is formatting. Only which entries fill the slots is modelled.
- `toFixed` rounding is not modelled. Percentages are exact reals, not IEEE doubles.
- The pie total (Final/src/js/project.js:102) adds the raw CSV texts with `+`, which concatenates them. That total and the slice titles built from it are not modelled.
- The second registration of the year-button listeners, the `selected` button class and the `hoveredCategory` bookkeeping are event plumbing. Only the two paths they build are modelled.
- FinalChart.NumberOf: models `Number(text)` only for the integer numerals `String` writes. Every other text counts as NaN, although `Number` also accepts surrounding white space, decimals, exponents and the empty string.
- JsText.ParseInt: results are exact integers, with no loss of precision past 2^53. The skipped white space covers the ASCII white space, no-break space and the byte-order mark, but not the other Unicode space separators (U+1680, U+2000 to U+200A, U+2028, U+2029, U+202F, U+205F, U+3000).
- FinalChart.HoverTotal: takes the cells in header order. `Object.values` lists a column whose name is an array index (a whole number) before the others, and a repeated column name only once; both are assumed not to occur in the data.
- FinalChart.OrdinalColor: an ordinal scale also adds unknown values to its domain on first use. The pie only asks for its own four categories, so that growth is not modelled.
- The tooltip's Province is read from the parent group's datum. It is modelled as the row's `Province` cell, because each group is bound to its row.
