# Dataset analysis, modelled in Dafny

A model of the `DataSet` class of `dataset_analysis.py`. The class loads numeric readings
and category labels from line-oriented text files. It reduces the readings to a count,
total, average, minimum and maximum, and classifies the average against a threshold
("High Performance" / "Needs Improvement"). It reports everything with the distinct
category labels.

Modules (one file each):

- `Wrappers` (`wrappers.dfy`): `Option`, for `None` results.
- `Text` (`text.dfy`): `str.strip()` over a fixed set of six whitespace characters, and
  what trimming means.
- `Reductions` (`reductions.dfy`): `calculate_total`, `calculate_average`,
  `calculate_minimum` and `calculate_maximum`. Each is a loop method proved against a
  specification function (`Sum`, `Mean`, `Min`, `Max`), with lemmas about those functions.
- `Loading` (`loading.dfy`): the line loops of `load_data` and `load_categories` as
  functions of the file's lines (`ScanNumbers`, `CategorySet`, `LoadNumbers`,
  `LoadLabels`), and their properties.
- `DatasetAnalysis` (`dataset.dfy`): the class `DataSet` with its `data`, `categories` and
  `statistics` fields and the methods that update them in place. It also holds the verdict,
  the report content and `main`'s run.

Inputs the model takes as parameters:

- A file is `Option<seq<string>>`: `None` when opening it raises `FileNotFoundError`,
  otherwise the list `readlines()` returns, each line with its line feed.
- `float(line)` is a parameter `parse: string -> Option<real>`. `None` stands for the
  `ValueError` it raises. A parsed value is always a finite `real`: see "## Left out" for
  the NaN and infinite values `float()` also accepts.
- Readings are exact `real`s.

Behaviour of the code worth stating, which the model keeps:

- A failing numeric load is not all-or-nothing. `load_data` appends each value as it is
  parsed (line 55), and the error at line 58 does not undo that. After an unparseable line
  the values before it stay in `data`. `LoadData`'s contract says so, and
  `InvalidLineKeepsEarlierValues` shows it on three lines.
- Loads also append to whatever `data` and `categories` already hold.
- The `No valid ...` checks look at the whole field, not only at what the call added.
- The line reported by the invalid-data error is the trimmed line, not the raw text.
- `calculate_statistics` writes its five entries one at a time (lines 171-175), not as
  one new table. Because the table only ever holds those five keys, the result is the
  same as replacing it (`WritesEveryEntry`).

## Model

| member | source | states |
|---|---|---|
| `Reductions.CalculateTotal` | dataset_analysis.py:73-87 | the loop's total is `Sum(dataset)`, the left-to-right sum, and 0 for no readings |
| `Reductions.CalculateAverage` | dataset_analysis.py:89-112 | 0 for no readings; otherwise average times the number of readings is the total, because the counting loop counts every reading |
| `Reductions.CalculateMinimum` | dataset_analysis.py:114-135 | `None` exactly for no readings; otherwise a reading that is no larger than any reading (and equal to `Min`) |
| `Reductions.CalculateMaximum` | dataset_analysis.py:137-158 | `None` exactly for no readings; otherwise a reading that is no smaller than any reading (and equal to `Max`) |
| `Reductions.Min` | dataset_analysis.py:127-133 | the running minimum seeded with the first reading is one of the readings and bounds every reading from below |
| `Reductions.Max` | dataset_analysis.py:150-156 | the running maximum seeded with the first reading is one of the readings and bounds every reading from above |
| `Reductions.SumAppend` | dataset_analysis.py:83-87 | the total of two runs of readings, one after the other, is the sum of their totals |
| `Reductions.SumAtLeast` | dataset_analysis.py:83-87 | a lower bound of every reading, times the count, is at most the total |
| `Reductions.SumAtMost` | dataset_analysis.py:83-87 | an upper bound of every reading, times the count, is at least the total |
| `Reductions.MeanBetweenExtremes` | dataset_analysis.py:99-158 | for at least one reading, minimum <= average <= maximum |
| `Reductions.MeanTimesCount` | dataset_analysis.py:107-111 | for at least one reading, the average times the count gives back the total |
| `Reductions.ExtremesBound` | dataset_analysis.py:124-158 | every reading x satisfies minimum <= x <= maximum |
| `Text.TrimStart` | dataset_analysis.py:50 | the result is no longer than the line and does not start with whitespace |
| `Text.TrimEnd` | dataset_analysis.py:50 | the result is no longer than the line, keeps its first character and does not end with whitespace |
| `Text.Trim` | dataset_analysis.py:50 | `line.strip()` has whitespace at neither end and is no longer than the line |
| `Text.TrimStartSplits` | dataset_analysis.py:50 | what is stripped at the front is whitespace, and the rest of the line is kept unchanged |
| `Text.TrimEndSplits` | dataset_analysis.py:50 | what is stripped at the back is whitespace, and the start of the line is kept unchanged |
| `Text.TrimOfTrimmed` | dataset_analysis.py:192 | a line with no whitespace at either end strips to itself |
| `Text.TrimIdempotent` | dataset_analysis.py:192-194 | stripping a stripped line changes nothing |
| `Text.TrimLine` | dataset_analysis.py:41-50 | a line read with its line feed strips back to its text |
| `Text.TrimEmptyIffBlank` | dataset_analysis.py:50-51 | a line strips to the empty string (and is skipped) exactly when it is all whitespace |
| `Loading.ScanStopsAtBad` | dataset_analysis.py:49-58 | once a non-blank line fails to parse, no later line is read: the scan equals the scan up to that line |
| `Loading.ScanCompleteIff` | dataset_analysis.py:49-58 | the numeric loop runs to the end exactly when every non-blank stripped line parses |
| `Loading.ScanBadIsFirst` | dataset_analysis.py:49-58 | the reported line is the first non-blank stripped line that does not parse, and the values kept are those of the lines before it |
| `Loading.ScanAppend` | dataset_analysis.py:49-55 | values are appended in file order: scanning two runs of lines gives the first run's values followed by the second's |
| `Loading.CategorySetMembers` | dataset_analysis.py:191-194 | a label is in the set exactly when it is the non-empty stripped form of some line |
| `Loading.CategoriesAreTrimmed` | dataset_analysis.py:192-194 | every label added is non-empty and equal to its own stripped form |
| `Loading.CategorySetEmptyIff` | dataset_analysis.py:191-197 | the lines add no label exactly when every line is blank |
| `Loading.LoadNumbersOutcome` | dataset_analysis.py:45-62 | `load_data` keeps the old data as a prefix, leaves it untouched for a missing or empty file, and succeeds exactly when the file has lines, every non-blank line parses and the data is non-empty |
| `Loading.LoadLabelsOutcome` | dataset_analysis.py:187-197 | `load_categories` only adds, every added label is non-empty and stripped, and it succeeds exactly when the file has lines and the set is non-empty |
| `Loading.InvalidLineKeepsEarlierValues` | dataset_analysis.py:52-58 | two parseable lines followed by an unparseable one: the error names the third line and the first two values stay appended |
| `Loading.DuplicateLabelsCollapse` | dataset_analysis.py:191-194 | lines "math", "science", "math" yield the two labels once each |
| `DatasetAnalysis.DataSet.constructor` | dataset_analysis.py:17-31 | paths and threshold as given; data, categories and statistics empty |
| `DatasetAnalysis.DataSet.LoadData` | dataset_analysis.py:33-71 | new `data` and outcome are `LoadNumbers` of the old data and the file: errors for a missing file, no lines, the first unparseable line (values before it kept) and no data; otherwise old data followed by the parsed values |
| `DatasetAnalysis.DataSet.CalculateStatistics` | dataset_analysis.py:160-175 | nothing changes without data; otherwise the table holds total, average, minimum, maximum of the four reductions and count = number of readings |
| `DatasetAnalysis.DataSet.LoadCategories` | dataset_analysis.py:177-206 | new `categories` and outcome are `LoadLabels` of the old set and the file; the set stays made of non-empty stripped labels |
| `DatasetAnalysis.DataSet.Results` | dataset_analysis.py:214-240 | nothing without statistics; otherwise the table, the categories and "High Performance" exactly when average > threshold |
| `DatasetAnalysis.RunAnalysis` | dataset_analysis.py:286-316 | no report exactly when the numeric load fails; otherwise the statistics of the loaded readings, the verdict against 85 and the labels of the category file (none if that load failed) |
| `DatasetAnalysis.WritesEveryEntry` | dataset_analysis.py:171-175 | the five successive writes over an empty or complete table give exactly the table of the readings |
| `DatasetAnalysis.StatisticsConsistent` | dataset_analysis.py:166-175 | the table has all five keys, count >= 1, minimum <= average <= maximum and average times count = total |
| `DatasetAnalysis.VerdictByTotal` | dataset_analysis.py:228-233 | "High Performance" exactly when the total exceeds threshold times count |
| `DatasetAnalysis.VerdictByExtremes` | dataset_analysis.py:266-271 | all readings above the threshold give "High Performance"; none above it give "Needs Improvement" |
| `DatasetAnalysis.VerdictAtThreshold` | dataset_analysis.py:228-233 | an average equal to the threshold gives "Needs Improvement" (the comparison is strict) |
| `DatasetAnalysis.HighPerformanceExample` | dataset_analysis.py:166-175 | readings 90, 80, 95: count 3, total 265, minimum 80, maximum 95, average 265/3, "High Performance" at 85 |
| `DatasetAnalysis.NeedsImprovementExample` | dataset_analysis.py:266-271 | readings 70, 75: average 72.5, "Needs Improvement" at 85 |

## Left out

- Opening and reading files, and the `with` blocks: a file is given as its list of lines,
  or `None` when it is missing.
- Console output (`print` diagnostics and the success counts) and the report's text layout:
  `:.2f` formatting, `sorted(...)` and `', '.join`. `Report` carries the content only.
- `save_results`' file writing and its catch-all `except` (lines 243-283). This includes
  the `KeyError` it would swallow if called with an empty statistics table (`main` never
  does this). Its content is what `display_results` shows, modelled by `Results`. It also
  writes the two input paths (`Data file:` and `Categories file:`, lines 258 and 275), and
  `Report` does not carry them.
- NaN and infinite readings. `float()` accepts `"nan"`, `"inf"`, `"-inf"` and `"infinity"`
  in any case, and lines 54-55 append what it returns. `parse` returns only finite reals,
  so these readings are not modelled. With a NaN reading the total and the average are NaN.
  The extremes then depend on where the NaN sits: seeded with a NaN, the running minimum
  and maximum stay NaN, while a later NaN is never taken, since `<` and `>` with NaN are
  false. The verdict is then always "Needs Improvement". `MeanBetweenExtremes`,
  `ExtremesBound`, `StatisticsConsistent` and `VerdictByExtremes` hold for finite readings
  only.
- `float()` parsing and IEEE-754 rounding: parsing is a parameter, and arithmetic is exact
  over `real`. The threshold is a `real`, not Python's `int`.
- The constructor's default argument `threshold=85` (line 17): `DataSet.constructor`
  always takes a threshold. `DefaultThreshold` holds 85, and `RunAnalysis` passes it as
  `main` does.
- The full whitespace set of `str.strip()`, which removes every `str.isspace()` character.
  The model trims only space, tab, line feed, carriage return, vertical tab and form feed.
  U+001C to U+001F, U+0085, U+00A0 and the other non-ASCII spaces are not trimmed. A line
  made of them is handed to `parse` rather than skipped, and a label keeps them.
- `main`'s exception routing is modelled by `RunAnalysis` as outcomes; the output path
  argument of `save_results` is not modelled.
