# jQuery Visualize: a verified model of the chart core

jQuery Visualize draws bar, line, area and pie charts from an HTML table. This
project models the part of `js/jquery.visualize.js` that computes things:

- **Array aggregates** (`Array.max`, `Array.min`, `Array.sum`, `Array.avg`),
  in module `Aggregates`. These are lenient folds over JavaScript values.
  The values are modelled as `Values.Entry = Num(real) | Text(string) | Missing`.
  `null`, `false` and `""` are 0 under `Number` and falsy, so they are `Num(0)`.
  `parseFloat` reads them, and strings such as `"12px"`, differently from
  `Number`. The guard `!arr[i] || isNaN(arr[i])` of `Array.sum`
  (js/jquery.visualize.js:31) discards the parsed value in exactly those
  cases, so `Values.ToNumber` is `Number` and stands for `parseFloat` wherever
  a parsed value is added.
- **The range label generator** (`$.visualize.getRangeLabels`), in module
  `RangeLabels`. It computes the evenly spaced, display-rounded numeric labels
  of an axis.
- **The table scraper** (`TableData` and its `parse`), in module `TableScraper`.
  It turns the filtered table grid into column headers, line headers, parsed
  lines and their transpose, the columns. `TableData` is a class whose `Parse`
  assigns the four fields, as the source does.
- **The axis layout arithmetic** of `DrawContext.drawXAxis` and `drawYAxis`,
  in module `AxisLayout`. It covers option defaults, band count and size,
  label boxes and gridline coordinates.
- **The per-day decisions of `drawDateRange`**, in module `DateAxis`. These are
  the lane width, the label kept or removed, the month and year text, the
  gridline tier and the weekend band.

Arithmetic is exact (`real`), not IEEE-754. Label widths and heights measured
by the browser are inputs. So are the days that the calendar library yields.

`getRangeLabels(0, 9, 5)` does not clamp `ticks`, since 5 < 9
(js/jquery.visualize.js:49); `RangeLabels.ExampleNine` proves the result is
`[0, 2.25, 4.5, 6.75, 9]`.

Tables without a data row make the source throw at `lines[0].length`. The model
makes that an explicit error, `NoDataRow`, returned by `Scrape` and `Parse`.
The `TableData` constructor, which throws in the source, requires a data row.

## Model

| member | source | states |
|---|---|---|
| Aggregates.Largest | js/jquery.visualize.js:21 | Math.max over an all-numeric, non-empty series is one of its entries and no entry exceeds it |
| Aggregates.Smallest | js/jquery.visualize.js:25 | Math.min over an all-numeric, non-empty series is one of its entries and no entry is below it |
| Aggregates.Max | js/jquery.visualize.js:19-22 | undefined exactly for a missing or empty array; NaN exactly when some entry is not a number; otherwise an entry that no entry exceeds |
| Aggregates.Min | js/jquery.visualize.js:23-26 | undefined exactly for a missing or empty array; NaN exactly when some entry is not a number; otherwise an entry that no entry is below |
| Aggregates.Sum | js/jquery.visualize.js:27-34 | the loop that skips falsy and isNaN entries computes the reference sum of the numeric entries (0 for a missing or empty array) |
| Aggregates.Average | js/jquery.visualize.js:35-38 | 0 for a missing or empty array; average times length equals the sum |
| Aggregates.EntriesSumAppend | js/jquery.visualize.js:27-34 | the sum of a concatenation is the sum of its parts |
| Aggregates.SumSkipsNonNumeric | js/jquery.visualize.js:31 | dropping a non-numeric or missing entry leaves the sum unchanged |
| Aggregates.EntriesSumBounds | js/jquery.visualize.js:27-34 | a series of n numbers within [lo, hi] sums to within [n*lo, n*hi] |
| Aggregates.AverageWithin | js/jquery.visualize.js:35-38 | the average lies within [lo, hi] when the sum lies within [n*lo, n*hi] |
| Aggregates.AverageBetweenMinAndMax | js/jquery.visualize.js:19-38 | on a non-empty numeric array, Array.min <= Array.avg <= Array.max |
| Aggregates.SumExample | js/jquery.visualize.js:27-38 | sum([1, "x", null, 3]) is 4, avg([]) is 0, max([]) is undefined |
| RangeLabels.Ceil | js/jquery.visualize.js:58 | Math.ceil(x) is an integer in [x, x + 1) |
| RangeLabels.RoundLabel | js/jquery.visualize.js:57-61 | below 10 in magnitude the label is a whole number of hundredths in [v, v + 0.01); from 10 on it is an integer in (v - 1, v] |
| RangeLabels.GetRangeLabels | js/jquery.visualize.js:47-66 | the push loop returns exactly the label sequence `Labels(first, last, ticks)` |
| RangeLabels.LabelsShape | js/jquery.visualize.js:53-64 | the series starts with first, ends with last, and has one label per loop iteration between them |
| RangeLabels.LabelsLength | js/jquery.visualize.js:49-55 | with k ticks after the clamp, the series has max(2, k) labels, and is [first, last] when k <= 2 |
| RangeLabels.EmptyDomain | js/jquery.visualize.js:48-55 | first == last gives just [first, last], whatever ticks is |
| RangeLabels.InteriorLabel | js/jquery.visualize.js:55-62 | interior label i is v = first + domain/slices*i kept when integral, ceil(v*100)/100 otherwise, when abs(v) < 10, and floor(v) from 10 on |
| RangeLabels.CeilLeast | js/jquery.visualize.js:58 | Math.ceil(x) is at most every integer that is at least x |
| RangeLabels.RoundLabelRoundsUp | js/jquery.visualize.js:57-58 | below 10 in magnitude, the label is the least whole number of hundredths not below v |
| RangeLabels.RoundLabelRoundsDown | js/jquery.visualize.js:59-60 | from 10 on in magnitude, the label is the greatest integer not above v |
| RangeLabels.RoundLabelMonotone | js/jquery.visualize.js:57-61 | the display rounding never reorders two values |
| RangeLabels.InterpolateMonotone | js/jquery.visualize.js:56 | for first <= last the unrounded values grow with the index |
| RangeLabels.InteriorNonDecreasing | js/jquery.visualize.js:55-62 | for first <= last the interior labels never decrease |
| RangeLabels.ExampleHundred | js/jquery.visualize.js:47-66 | getRangeLabels(0, 100, 5) is [0, 25, 50, 75, 100] |
| RangeLabels.ExampleNine | js/jquery.visualize.js:47-66 | getRangeLabels(0, 9, 5) is [0, 2.25, 4.5, 6.75, 9] (no clamp, since 5 < 9) |
| RangeLabels.ExampleClamped | js/jquery.visualize.js:49 | getRangeLabels(0, 3, 5) clamps to 4 ticks and is [0, 1, 2, 3] |
| TableScraper.Scrape | js/jquery.visualize.js:322-358 | error exactly without a data row; row 0 is the corner cell followed by the unparsed column headers; one line and one unparsed line header per data row; other cells go through the parser; columns are as wide as the first line and columns[j][i] is lines[i][j] (undefined past a short row) |
| TableScraper.TransposeLines | js/jquery.visualize.js:342-352 | the nested loops build exactly the transpose of the lines |
| TableScraper.TransposeTwice | js/jquery.visualize.js:342-352 | transposing rectangular lines twice gives them back |
| TableScraper.RectangularTable | js/jquery.visualize.js:322-358 | on a rectangular table every line has one value per column header, there is one column per header, and columns[j][i] == lines[i][j] exactly |
| TableScraper.TableData.constructor | js/jquery.visualize.js:313-318 | the new object holds the table, the parser and the scraped matrix |
| TableScraper.TableData.Parse | js/jquery.visualize.js:322-358 | the fields become the scraped matrix; without a data row it fails and changes nothing |
| AxisLayout.BandSize | js/jquery.visualize.js:219 | bands of the returned size fill the extent; zero bands get the whole extent |
| AxisLayout.LayoutXAxis | js/jquery.visualize.js:209-261 | the mode and the drawing of lines are the resolved centerLabels and drawLines; one label box per label, and one gridline per label exactly when lines are drawn |
| AxisLayout.LayoutYAxis | js/jquery.visualize.js:267-306 | the mode and the drawing of lines are the resolved centerLabels and drawLines; one label box per label, and one gridline per label exactly when lines are drawn |
| AxisLayout.DefaultOptions | js/jquery.visualize.js:215-216 | without options labels are centred exactly when the first is NaN (or absent), and lines are drawn exactly when they are not centred |
| AxisLayout.ExplicitOptions | js/jquery.visualize.js:273-274 | explicit centerLabels and drawLines override the defaults |
| AxisLayout.XTickedSpansWidth | js/jquery.visualize.js:235-246 | ticked X labels run from 0 to w; every label but the first gets a margin of minus half its width |
| AxisLayout.XCenteredTilesWidth | js/jquery.visualize.js:225-233 | centred X labels tile the width: band after band from 0 to w, all centred, no margin |
| AxisLayout.XGridlinesAtBandEnds | js/jquery.visualize.js:248-255 | gridline i is at the far end of band i; with ticked labels it passes through label i + 1 |
| AxisLayout.XGridlinesAt | js/jquery.visualize.js:248-255 | with lines drawn, gridline i is at xBandWidth * (i + 1) |
| AxisLayout.XBoxPlacement | js/jquery.visualize.js:225-242 | in both modes label i sits at xBandWidth * i and is one band wide |
| AxisLayout.XBoxesEvenlySpaced | js/jquery.visualize.js:225-242 | in both modes consecutive X labels are exactly one band apart |
| AxisLayout.XBandsFillWidth | js/jquery.visualize.js:218-219 | in both modes the bands add up to the canvas width, unless there are none |
| AxisLayout.YBoxOffsets | js/jquery.visualize.js:283-291 | in both modes label i is offset liHeight * i from its edge, plus half a band when centred, and raised by half its height; the edge is the top exactly with fromTop |
| AxisLayout.YBoxesEvenlySpaced | js/jquery.visualize.js:283-287 | in both modes consecutive Y labels are exactly one band apart |
| AxisLayout.YBandsFillHeight | js/jquery.visualize.js:276-277 | in both modes the bands add up to the canvas height, unless there are none |
| AxisLayout.YGridlinesAt | js/jquery.visualize.js:293-305 | with lines drawn, gridline i is at canvas y liHeight * (i + 1), measured from the top |
| AxisLayout.YFromTopMirrors | js/jquery.visualize.js:286 | fromTop mirrors every Y label about the middle of the canvas |
| AxisLayout.YTickedSpansHeight | js/jquery.visualize.js:276-287 | ticked Y labels run from the bottom edge to the top edge, reversed with fromTop |
| AxisLayout.YCenteredMidpoints | js/jquery.visualize.js:276-291 | centred Y labels sit in the middle of their bands, the bands fill the height, and each label is raised by half its height |
| AxisLayout.MonthLabelsExample | js/jquery.visualize.js:209-233 | ["Jan", "Feb", "Mar"] on a 300-wide canvas: centred, band 100, boxes at 0, 100, 200, no gridlines |
| DateAxis.DrawDateRange | js/jquery.visualize.js:127-198 | fails exactly when CalendarTools is missing; otherwise one mark per visited day, each the decisions for that day on lanes of w / (elapsed + 1) |
| DateAxis.LanesFillWidth | js/jquery.visualize.js:136-137 | with elapsed + 1 visited days the lanes run adjacent from 0 to w |
| DateAxis.LanesAdjacent | js/jquery.visualize.js:169 | lane i starts at lane*i and ends where lane i + 1 starts |
| DateAxis.LaneTimesBands | js/jquery.visualize.js:136-137 | elapsed + 1 lanes add up to the canvas width |
| DateAxis.KeptLabels | js/jquery.visualize.js:172-177 | the 1st and multiples of 5 other than 30 keep their label; day 30 loses it exactly when wider than 1.9 lanes |
| DateAxis.NarrowLabelKept | js/jquery.visualize.js:172-177 | a label at most half a lane wide is never removed |
| DateAxis.DayTiers | js/jquery.visualize.js:183-194 | tier 2 exactly on 1 January, tier 1 exactly on the 1st of other months, tier 0 otherwise; month name appended on the 1st, year on 1 January |
| DateAxis.MonthStartLabelled | js/jquery.visualize.js:172-185 | the label of a month's 1st is never removed |
| DateAxis.WeekendCoversTwoLanes | js/jquery.visualize.js:150-158 | a band appears exactly on Saturdays, two lanes wide at lane*(i+1), covering the Saturday and the Sunday lanes |
| DateAxis.JanuaryHasOneYearLine | js/jquery.visualize.js:184-194 | a January range starting on the 1st draws exactly one year gridline |

## Left out

- `loadChart` (the ajax plugin loader) and `$.fn.visualize`. They cover option merging, canvas and container creation, title and key markup, excanvas and the refresh event. This is network I/O and DOM glue.
- `DrawContext.keys` and the `defaults` options object: configuration with no logic.
- Canvas stroke calls and DOM element construction. The model returns the numbers and decisions they are fed: positions, widths, tiers, kept or removed labels.
- The `format` option and `defaultFormat`. They only change the HTML text of a label.
- The colours. Strokes carry the index into `options.lineColors`, not the colour.
- The order of the Y label list items. The source prepends them, so the DOM holds them in reverse. The model lists boxes in label order, and each box's position is unaffected.
- Label width and height measurement. These come from the browser and are inputs.
- CalendarTools (`Date.elapsed`, `Date.add`) and the `Date` getters. The visited days and the elapsed count are inputs.
- The row and column filters of the table scraper. These are jQuery selectors; the input is the already filtered grid.
- TableScraper.TableData.Parse: the per-cell loop is written as a sequence map over each row, not as a loop.
- TableScraper.TableData.constructor: requires at least one data row; in the source the constructor throws there.
- Values.ToNumber: the coercion quirks of `true` (1 under Number, NaN under parseFloat), whitespace-only strings and "Infinity" are not modelled. Every string is either a number that `Number` and `parseFloat` read alike, or NaN under `Number`; hexadecimal, binary and octal literal strings such as "0x10", "0b101" and "0o17" (16, 5 and 15 under `Number`, 0 under `parseFloat`) are not modelled.
- RangeLabels.GetRangeLabels: `ticks` is a number. An undefined `ticks` is not modelled; the caller always passes a number, and the documented default of 5 is not implemented in the source.
- IEEE-754 rounding. All arithmetic is exact, so the results are the intended values, not the floating-point ones.
- Aggregates.Max: the engine limit on the number of arguments to `Math.max.apply` is not modelled.
