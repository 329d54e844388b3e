# googlegantt in Dafny

A model of `googlegantt.py`, a small Python 2 library that draws Gantt charts
with the Google Charts API. A chart (`GanttChart`) holds an ordered list of
tasks (`GanttTask`). Each task has a start date, an end date, a duration in
days and a category (`GanttCategory`: a legend title and an RGBA colour).
From these the chart derives its date range and its day labels. It also
derives the dictionary of Google Charts parameters that the library would
send: chart type, colours, title, size, data range, bar width, grid, axes,
legend, progress marker and the `t:` encoded data.

The project has seven modules, one per file:

- `Wrappers` (`wrappers.dfy`): `Option` and `Result`.
- `Text` (`text.dfy`): upper-casing, `str()` of integers, `join` and `split` on one character, and the
  readers that undo `str()` and `join`.
- `Unique` (`unique.dfy`): `uniquify`, as a loop proved against the specification function `Dedup`.
- `Dates` (`dates.dfy`): dates as day ordinals (day 1 is 0001-01-01, as `date.toordinal()` counts),
  the proleptic Gregorian calendar behind `datetime.date(y, m, d)`, `as_date`, and date-plus-days.
- `Colors` (`colors.dfy`): `parse_color`.
- `Tasks` (`tasks.dfy`): categories and task construction (`GanttTask.__init__`) as a function that
  returns the task or the exception it raises.
- `Chart` (`chart.dfy`): the `GanttChart` class with its `tasks` field, `add_task`, `day_series` and
  `params`, together with the specification functions those methods are proved against, and the
  documented tour of the class docstring.

Design:

- Tasks and categories are values. Their fields are set once in `__init__` and never changed.
  Category comparison through `__hash__`/`__cmp__` becomes datatype equality. The chart is a class,
  because `add_task` appends to its `tasks` list.
- Exceptions become `Result` failures. `InvalidTaskError` has one constructor per `raise` in
  `GanttTask.__init__`. The `datetime` library's own errors have three constructors: `TypeError`
  for a tuple of the wrong length, `ValueError` for a day that is not in the calendar, and
  `OverflowError` for date arithmetic outside years 1..9999. `GanttTask` does not catch them, so the model
  keeps them apart from `InvalidTaskError`.
- `params` raises `ZeroDivisionError` on an empty chart (line 150), a zero duration (line 153), a
  zero width (line 250) and a label skip of zero (line 253). These four crashes are the precondition
  `CanRender` of the methods that would raise them. `SkipZeroWindow` proves that the last one can
  happen: for a positive width it happens exactly when `80 * count < width < 81 * count`.
- `strftime('%d/%m')` is a function parameter `dayLabel: int -> string` from day ordinals to labels.
- The two parameters with floating-point text are kept symbolic as `FloatText(prefix, num, den,
  suffix)`. These are `chg` (`100. / duration`) and the fraction at the end of `chm`.
- `int(float)` truncates toward zero. It is written out as `TruncDiv` and proved against floor
  division (`TruncDivValue`, `BarThicknessValue`, `SkipValue`).

## Model

| member | source | states |
|---|---|---|
| `Unique.Uniquify` | googlegantt.py:23-44 | the loop over `seq` with the `seen` set returns exactly `Dedup(s)`: the same members as `s`, none twice |
| `Unique.DedupMembers` | googlegantt.py:34-42 | an item is in the result if and only if it is in the input |
| `Unique.DedupDistinct` | googlegantt.py:37-40 | no item appears twice in the result |
| `Unique.Dedup` | googlegantt.py:23-44 | the specification of `uniquify`: the input with every item dropped that already occurs earlier, in input order; what it keeps is proved in the `Dedup…` lemmas |
| `Unique.DedupIsFirstOccurrences` | googlegantt.py:34-42 | the k-th result item is the input at the k-th first occurrence, and these positions increase (order is preserved) |
| `Unique.FirstOccurrencesExact` | googlegantt.py:34-42 | a position is a first occurrence exactly when its value is not earlier in the input (the `marker in seen` test) |
| `Unique.DedupCount` | googlegantt.py:23-44 | the result has as many items as the input has distinct values |
| `Unique.DedupOfDistinct` | googlegantt.py:23-44 | a list without repeats comes back unchanged |
| `Unique.DedupIdempotent` | googlegantt.py:23-44 | uniquifying twice is uniquifying once |
| `Dates.Ordinal` | googlegantt.py:51 | every valid calendar date `datetime.date(y, m, d)` has an ordinal in 1..3652059, namely the days before its year and month plus its day |
| `Dates.OrdinalNextDay` | googlegantt.py:51 | consecutive calendar days, across month and year ends, have consecutive ordinals |
| `Dates.MaxOrdinalIsLastDay` | googlegantt.py:51 | 9999-12-31 is valid and is the last representable ordinal |
| `Dates.AsDate` | googlegantt.py:46-52 | a date is returned unchanged; a 3-tuple becomes that calendar date, or the library's `ValueError` when no such day exists; a tuple of another length gives the library's `TypeError`; any other value, and only such a value, gives `InvalidDateError` |
| `Dates.AddDays` | googlegantt.py:356 | `start + timedelta(days=n)` succeeds exactly when the result stays in the calendar, and then lies `n` days after `start`; otherwise it is an overflow |
| `Text.Upper` | googlegantt.py:63 | `str.upper()` keeps the length and upper-cases character by character |
| `Text.UpperFixed` | googlegantt.py:63 | a string without lower-case letters is its own upper case |
| `Text.IntToString` | googlegantt.py:185 | `str(n)` is non-empty and made of digits, with a leading minus exactly for negative n; it is canonical: a leading `0` only in `"0"` itself, and never `-0…` |
| `Text.IntToStringRoundTrip` | googlegantt.py:185 | reading `str(n)` back gives `n` |
| `Text.Strings` | googlegantt.py:185 | `[str(x) for x in xs]`: as many strings as numbers, the i-th being `str` of the i-th number |
| `Text.Join` | googlegantt.py:200 | `sep.join(xs)`: the pieces with one separator between neighbours; `SplitJoin` undoes it and `JoinAppend` splits it at any point |
| `Text.JoinAppend` | googlegantt.py:168 | joining two non-empty lists is joining each and putting one separator between them |
| `Text.StringsRoundTrip` | googlegantt.py:185-197 | reading back a list of `str()` values gives the list of numbers |
| `Text.SplitJoin` | googlegantt.py:200 | splitting the `sep.join` of a non-empty list of pieces that do not contain `sep` gives back the pieces |
| `Text.JoinAvoids` | googlegantt.py:200 | joining pieces that lack a character, with a different separator, gives a string that lacks it |
| `Colors.ParseColor` | googlegantt.py:54-63 | three digits RGB become RRGGBBFF, four digits RGBA become RRGGBBAA, six digits gain FF, other lengths are only upper-cased; no lower-case letter remains |
| `Colors.ParseColorLength` | googlegantt.py:54-63 | colours of 3, 4, 6 or 8 characters normalise to 8 characters |
| `Colors.ParseColorIdempotent` | googlegantt.py:54-63 | normalising a normalised colour changes nothing |
| `Colors.ParseColorExamples` | googlegantt.py:312-319 | `'f00'` gives `FF0000FF` and `'f00d'` gives `FF0000DD`, as documented; `'00c'` gives `0000CCFF` (line 83) |
| `Colors.DefaultColorNormalised` | googlegantt.py:15 | the default colour `4D89F9FF` is already normalised |
| `Tasks.NewCategory` | googlegantt.py:272-283 | a category keeps its title and stores the normalised colour, which is a fixed point of normalisation |
| `Tasks.SameCategory` | googlegantt.py:285-290 | two categories compare equal exactly when their title and colour are equal |
| `Tasks.TaskCategory` | googlegantt.py:327-330 | a given category is kept; otherwise the task gets an untitled category in its normalised colour, `DEFAULT_COLOR` when none is given |
| `Tasks.CoercionError` | googlegantt.py:345-348 | an `InvalidDateError` from `as_date` becomes the step's `InvalidTaskError`; an error of the date library itself passes through and is not an `InvalidTaskError` |
| `Tasks.ResolveStart` | googlegantt.py:336-351 | `depends_on` takes precedence and gives its end date; it fails if and only if it is not a task; otherwise `start_date` goes through `as_date`, and succeeds with that date exactly when `as_date` does, a library error passing through unchanged; `InvalidTaskError` when neither is given |
| `Tasks.ResolveSpan` | googlegantt.py:353-366 | `duration` takes precedence and gives `start + duration`, or an overflow; otherwise `end_date` goes through `as_date`, and succeeds with that date and the span exactly when `as_date` does, a library error passing through unchanged; `InvalidTaskError` when neither is given |
| `Tasks.NewTask` | googlegantt.py:322-369 | construction succeeds exactly when both steps succeed and the end is not before the start; a failing step's error is the construction's error, unchanged; a built task is valid (start ≤ end, duration = end − start) and has the title, category, dependency and dates its arguments select; each `InvalidTaskError` happens if and only if its condition holds, in the source's order, including the start-after-end check; an error that is not an `InvalidTaskError` needs a tuple date or a duration, the only inputs the date library can refuse |
| `Tasks.StartDurationRoundTrip` | googlegantt.py:353-369 | with `start_date` and `duration` n, construction succeeds exactly when n ≥ 0 and the end is in the calendar; the task then ends n days after it starts |
| `Tasks.StartEndRoundTrip` | googlegantt.py:358-369 | with `start_date` and `end_date`, construction succeeds exactly when start ≤ end; the duration is then end − start |
| `Tasks.DependsOnPrecedence` | googlegantt.py:337-342 | with `depends_on` a task, the new task starts where that one ends, whatever `start_date` says |
| `Tasks.DocumentedTasks` | googlegantt.py:302-310 | with `datetime.date` arguments, 2009-01-01 to 2009-02-01 lasts 31 days; 20 days after it gives a task from 2009-02-01 to 2009-02-21 |
| `Tasks.DocumentedColors` | googlegantt.py:314-319 | colours `'f00'` and `'f00d'` give categories coloured `FF0000FF` and `FF0000DD`; no colour gives `DEFAULT_COLOR` |
| `Chart.StartDate` | googlegantt.py:258-259 | `start_date()` is at most every task's start and equal to one of them |
| `Chart.EndDate` | googlegantt.py:261-262 | `end_date()` is at least every task's end and equal to one of them |
| `Chart.Duration` | googlegantt.py:264-265 | `duration()` is the end minus the start, never negative for constructed tasks |
| `Chart.Offsets` | googlegantt.py:185 | one offset per task, each the task's start minus the chart's start date; `OffsetsInRange` bounds them |
| `Chart.OffsetsInRange` | googlegantt.py:185 | every task's offset from the chart start is non-negative, and the offset plus the duration stays within the chart's duration |
| `Chart.TruncDiv` | googlegantt.py:150 | `int(a / b)` on the exact quotient: the quotient of the magnitudes, negated when the operands' signs differ; `TruncDivValue` relates it to floor division |
| `Chart.TruncDivValue` | googlegantt.py:150 | `int(a / b)` has the magnitude of the quotient of the magnitudes and the sign of the operands; it is floor division for non-negative operands |
| `Chart.BarThickness` | googlegantt.py:150 | `task_size`: the truncated share of `height - 50` per task, minus 4; `BarThicknessValue` states its value |
| `Chart.BarThicknessValue` | googlegantt.py:150 | `task_size` is `(height - 50) // n - 4` from a height of 50 on, and rounds toward zero below it |
| `Chart.Skip` | googlegantt.py:247-250 | `skip_n_labels`: 1 when `width / duration > 80` (integer division), else the truncated `80 * duration / width`; `SkipValue` states its value |
| `Chart.DayLabels` | googlegantt.py:252-256 | one label per day of the chart, the day's text at multiples of the skip and `' '` elsewhere; `GanttChart.DaySeries` is proved to build it |
| `Chart.SkipValue` | googlegantt.py:247-250 | every label when a day gets more than 80 pixels (integer division); otherwise a label every `80 * count // width` days; never negative for a positive width |
| `Chart.SkipZeroWindow` | googlegantt.py:247-253 | for a positive width the skip is zero (and `i % 0` raises) exactly when `80 * count < width < 81 * count` |
| `Chart.SkipZeroExample` | googlegantt.py:250-253 | a 161-pixel chart with two day labels has skip 0 |
| `Chart.Categories` | googlegantt.py:155 | `uniquify` of the tasks' categories; `CategoriesOfTasks` states what it holds |
| `Chart.CategoriesOfTasks` | googlegantt.py:155 | the chart's categories are distinct, contain every task's category and nothing else, one per distinct category |
| `Chart.Series` | googlegantt.py:190-198 | one `zeroed_data` series: one entry per task, the task's duration when it is in the category and 0 otherwise; `TaskInOwnBlock` states it per task |
| `Chart.Blocks` | googlegantt.py:184-198 | the offsets, then one series per category in category order; `BlocksShape` states its shape |
| `Chart.Chd` | googlegantt.py:200 | `chd` text: `t:`, the offsets joined by `,`, then each category series joined by `,`, the series joined by bars; `ChdRoundTrip` decodes it |
| `Chart.BlocksShape` | googlegantt.py:184-200 | the data has the offsets series, then one series per category in order, each with one entry per task |
| `Chart.TaskInOwnBlock` | googlegantt.py:189-198 | each task's duration appears in its own category's series, and 0 appears at its position in every other series |
| `Chart.EncodeSeriesRoundTrip` | googlegantt.py:200 | any non-empty list of non-empty integer series survives the `t:` encoding (bars between series, commas between numbers) and decoding |
| `Chart.ChdIsJoinedBlocks` | googlegantt.py:200 | `chd` is the offsets and the category series joined as one list of series |
| `Chart.ChdRoundTrip` | googlegantt.py:184-200 | decoding `chd` gives back the offsets and every category series |
| `Chart.AnyTitle` | googlegantt.py:173 | the `reduce` is true exactly when some category has a non-empty title |
| `Chart.TitledIndices` | googlegantt.py:174 | the positions of the titled categories: below the number of categories, strictly increasing, and a position is among them exactly when its category has a non-empty title |
| `Chart.Titles` | googlegantt.py:174 | `[c.title for c in categories if c.title]`; `TitlesAtIndices` and `TitlesExact` state what it holds |
| `Chart.TitlesAtIndices` | googlegantt.py:174 | the legend titles are the titles of the categories at the titled positions, one per position, in order |
| `Chart.TitlesExact` | googlegantt.py:173-174 | the legend titles are at most one per category and non-empty, every non-empty title is among them, and there are none exactly when no category has a title |
| `Chart.TitlesOfTitled` | googlegantt.py:174 | when every category has a title, the legend lists all of them in category order |
| `Chart.Legend` | googlegantt.py:173-174 | `chdl` is produced exactly when some category has a title |
| `Chart.ProgressMarker` | googlegantt.py:178-180 | `chm` is produced exactly when a progress date lies within the chart; its fraction is a number of days between 0 and the duration, over the duration |
| `Chart.ColorList` | googlegantt.py:161 | `chco`: the transparent colour, then the categories' colours joined by `,`; `ColorListSplit` reads it back |
| `Chart.ColorListSplit` | googlegantt.py:161 | splitting `chco` at `,` gives the transparent colour, then each category's colour in order, when no colour holds a comma |
| `Chart.AxisLabels` | googlegantt.py:168 | `chxl`: `0:`, the day labels, `1:`, the reversed task titles, joined by bars; `AxisLabelsSplit` reads it back |
| `Chart.AxisLabelsJoined` | googlegantt.py:168 | `chxl` is a single bar-join of the list `0:`, the day labels, `1:`, the reversed titles |
| `Chart.AxisLabelsSplit` | googlegantt.py:168 | splitting `chxl` at its bars gives `0:`, every day label, `1:` and the task titles from last to first, when none of them holds a bar |
| `Chart.CanRender` | googlegantt.py:150-253 | the conditions under which `params()` does not divide by zero: at least one task, a non-zero duration, a non-zero width and a non-zero label skip |
| `Chart.ReversedTitles` | googlegantt.py:168 | the Y axis lists the task titles from last to first |
| `Chart.FixedParams` | googlegantt.py:159-169 | the dictionary literal has exactly its nine keys, `chco` holds the colours, and it has no `chdl`, `chm` or `chd` |
| `Chart.ParamsMap` | googlegantt.py:172-180 | `chdl` and `chm` are added exactly when they apply; every other key is unchanged |
| `Chart.ChartFixedParams` | googlegantt.py:150-169 | the chart's literal has no `chdl`, `chm` or `chd`, and its `chco` is the transparent colour followed by the category colours |
| `Chart.BaseParams` | googlegantt.py:148-180 | before the merge, `chdl` is present exactly when some category has a title, `chm` exactly when progress is shown, `chco` always, and `chd` is not yet present |
| `Chart.MergeThenSet` | googlegantt.py:182-200 | after `update(raw_inputs)` and then setting `chd`, the keys are the union; `chd` has the set value; every other raw key wins; the remaining keys keep their computed values |
| `Chart.ChartProgress` | googlegantt.py:125-130 | no progress stays absent; any other value goes through `as_date` and keeps its error |
| `Chart.TourDays` | googlegantt.py:91-102 | 2011-02-01 and 2011-02-20 are ordinals 734169 and 734188 |
| `Chart.TourSpan` | googlegantt.py:99-108 | the tour's four tasks are valid and span 19 days: `chds=0,19` |
| `Chart.TourCategoryColors` | googlegantt.py:78-83 | the tour categories built from `'000'`, `'0c0'`, `'00c'` and `'c00'` have colours `000000FF`, `00CC00FF`, `0000CCFF` and `CC0000FF` |
| `Chart.TourCategoriesDistinct` | googlegantt.py:78-81 | the four tour categories are different |
| `Chart.TourCategoryOrder` | googlegantt.py:99-102 | the tour's categories, in order of first use, are Complete, On Time, Upcoming, Late |
| `Chart.TourColorList` | googlegantt.py:107-108 | the tour's `chco` is `FFFFFF00` followed by the four colours in that order |
| `Chart.TourLegend` | googlegantt.py:173-174 | the tour's legend lists all four titles |
| `Chart.GanttChart.constructor` | googlegantt.py:119-130 | the chart holds the given title, tasks, size and coerced progress |
| `Chart.GanttChart.WithDefaults` | googlegantt.py:119-130 | `GanttChart(title)`: no tasks, width 600, height 200 and no progress |
| `Chart.GanttChart.AddTask` | googlegantt.py:138-146 | a given task, or one built from the arguments, is appended and returned; a construction error leaves `tasks` unchanged; every task stays valid |
| `Chart.GanttChart.DaySeries` | googlegantt.py:241-256 | one label per day from start to end inclusive: the day's label at every skip-th index and a blank elsewhere; the first day is always labelled, and every day is labelled when days get more than 80 pixels |
| `Chart.GanttChart.CategorySeries` | googlegantt.py:190-198 | the `zeroed_data` array holds each task's duration where its category matches and `'0'` elsewhere |
| `Chart.GanttChart.ComputedParams` | googlegantt.py:148-180 | the key-by-key construction equals `BaseParams` |
| `Chart.GanttChart.ChdValue` | googlegantt.py:184-200 | the nested loop builds exactly `Chd(tasks)` |
| `Chart.GanttChart.Params` | googlegantt.py:148-202 | the result is `BaseParams` merged with `raw_inputs`, then `chd`; `chd` is always the computed data and is never overridden; every other raw key wins; `chdl` and `chm` are present exactly when raw gives them or they apply; `chco` is computed unless raw gives it |

## Left out

- `get_url` and `get_image`: they do network I/O, build URLs and use PIL. The model stops at the parameter dictionary.
- `__str__` and `__repr__` of all three classes, the doctest runner, and packaging.
- Floating-point text: `chg` and the fraction in `chm` are kept as numerator and denominator, not as Python's `repr` of a float.
- `Chart.Skip` (and `Chart.SkipValue`, which states its value; `DayLabels`, `GanttChart.DaySeries` and `CanRender` use it): `int(1. / (float(width) / float(count) / 80.))` is modelled as the exact rational `80 * count / width` truncated. Floating-point rounding that could move the result by one at exact multiples is not modelled.
- `strftime('%d/%m')`, and Python 2's refusal to format years before 1900: the label is an abstract function parameter.
- The `idfun` parameter of `uniquify`: the chart never passes it, so the model always uses the identity.
- Category equality: `__cmp__` compares `hash((title, color))`. The model uses equality of title and colour and leaves out hash collisions.
- Object identity and aliasing: tasks and categories are values. A task's `depends_on` is a copy, not a reference. A `tasks` list passed to the constructor is not shared with the caller. Appending directly to `gc.tasks` (as the docstring does) has the same effect as `AddTask` with an existing task.
- Python's dynamic typing: durations are integers and a task's title is a string. Arguments of the wrong type other than dates and `depends_on` are not modelled.
- `self.progress = False`: absence of progress is `None`, which the marker condition treats the same way.
- `params` crashes (`ZeroDivisionError`) are preconditions rather than error results: `CanRender` requires tasks, a non-zero duration, a non-zero width and a non-zero skip.
- Keyword arguments given only in part: the model has the constructor that takes every value and `WithDefaults`, which takes none (width 600, height 200, no tasks, no progress).
- The tour's tasks (`TourTasks`) are written out as resolved values. `DocumentedTasks` and `NewTask`'s contract cover construction.
