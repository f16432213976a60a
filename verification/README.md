# Dataset management and analysis: a Dafny model

This project models the core of a small Python dataset-analysis program
(`index.py`). The core does three things:

- it loads a numeric series from a text or CSV file, dropping records that
  do not convert and warning about each one;
- it reduces the series to its total, average, minimum and maximum;
- it classifies the average against a threshold and counts the distinct
  labels in an optional category file.

The modules follow the program's structure:

- `Wrappers`: `Option` and `Result`.
- `Strings`: Python's `str.strip` over the `str.isspace` character set
  (`Trim`), and the non-blank stripped lines of a file.
- `NumericParser`: Python's `float()` restricted to plain decimal notation
  (`ParseFloat`), including the white space `float()` itself ignores
  around a token, and `DataSet._is_numeric` (`IsNumeric`). It also has an integer printer
  (`FormatInt`) whose output `ParseFloat` reads back exactly.
- `SeriesReducer`: `calculate_total`, `calculate_average`,
  `calculate_minimum` and `calculate_maximum`.
- `DatasetLoader`: `DataSet.load_data`. It covers both framings, the header
  skip, warnings with their line numbers, and the failure outcomes.
- `CategoryExtractor`: `extract_unique_categories`.
- `AnalysisEngine`: `DataSet.calculate_statistics`, and the
  load-then-analyse run of `main`.
- `Scenarios`: concrete files the program's own sample writer produces,
  carried through the general lemmas.

A file is modelled by its contents, not by its name. `Source` is either
`TextLines` (the lines `readlines()` returns, line breaks included) or
`CsvRows` (the rows `csv.reader` yields). In the program, the name's
`.csv` suffix chooses between the two. `None` stands for a file that
cannot be opened.

The loader takes the numeric conversion as a parameter
`parse: string -> Option<real>`. `None` stands for the `ValueError` that
`float()` raises. The loader lemmas hold for any such conversion.
`ParseFloat` is the one the program uses, and the scenarios instantiate
the loader with it.

Values are exact reals.

## Model

| member | source | states |
|---|---|---|
| Strings.Trim | index.py:136 | the stripped text is empty exactly when the input consists only of whitespace |
| Strings.TrimShape | index.py:60-63 | stripping removes only leading and trailing whitespace: the result is a contiguous slice of the input with whitespace on both sides removed, and it neither starts nor ends with whitespace |
| Strings.TrimUnchanged | index.py:136 | text that neither starts nor ends with whitespace is left unchanged by stripping |
| Strings.TrimLineBreak | index.py:62-63 | a line read with its line break strips back to the text that was written |
| Strings.TrimPadded | index.py:129 | text with white space on either side but none at its own ends strips back to itself |
| Strings.TrimIdempotent | index.py:129 | stripping twice gives the same result as stripping once |
| Strings.NonBlankLinesMembers | index.py:62-65 | the kept labels are exactly the stripped forms of the non-blank lines |
| NumericParser.ParseFloat | index.py:139 | a token that converts is not blank |
| NumericParser.FloatStrip | index.py:162 | the conversion sees the middle of the token left after cutting, from both ends, the white space `float()` ignores (the `isspace` set minus the separators U+001C..U+001F) |
| NumericParser.ParseFloatTrim | index.py:129 | a token that converts as written converts to the same value once stripped |
| NumericParser.SeparatorNotIgnored | index.py:121 | the converse fails: "\x1c5" does not convert as written, yet strips to "5", which does |
| NumericParser.DecimalAlphabet | index.py:159-165 | a token that the modelled grammar converts uses only ASCII digits, a sign and a decimal point once stripped |
| NumericParser.NonDecimalCharRejected | index.py:159-165 | under the modelled grammar, a token holding a character that is neither white space `float()` ignores nor part of decimal notation is not numeric |
| NumericParser.FormatIntRoundTrip | index.py:282-284 | every integer, written in decimal, converts back to exactly that value |
| SeriesReducer.TotalAppend | index.py:6-11 | the total of a concatenation is the sum of the totals |
| SeriesReducer.TotalRepeat | index.py:6-11 | n copies of v total n times v |
| SeriesReducer.TotalBounds | index.py:6-11 | if every value lies in [lo, hi], the total lies in [n*lo, n*hi] |
| SeriesReducer.CalculateAverage | index.py:14-20 | an empty series averages 0; otherwise the average times the count equals the total |
| SeriesReducer.AverageRepeat | index.py:14-20 | a constant series averages to its value |
| SeriesReducer.MinScan | index.py:28-31 | the scan ends at the first position holding the least value |
| SeriesReducer.CalculateMinimum | index.py:23-32 | no minimum exactly when the series is empty; otherwise it is the value at the first position of the least value |
| SeriesReducer.MaxScan | index.py:40-43 | the scan ends at the first position holding the greatest value |
| SeriesReducer.CalculateMaximum | index.py:35-44 | no maximum exactly when the series is empty; otherwise it is the value at the first position of the greatest value |
| SeriesReducer.MinMaxBound | index.py:23-44 | the minimum and maximum are members of the series and bound every value |
| SeriesReducer.AverageBetween | index.py:14-20 | bounds on every value bound the average |
| SeriesReducer.MinLeAverageLeMax | index.py:14-44 | minimum <= average <= maximum |
| SeriesReducer.MinMaxRepeat | index.py:23-44 | a constant series has that value as both minimum and maximum |
| DatasetLoader.ScanLinesCount | index.py:135-142 | values plus warnings equal the number of non-blank lines |
| DatasetLoader.ScanLinesAppend | index.py:135-142 | scanning two consecutive blocks of lines equals scanning each with continued numbering and joining the results |
| DatasetLoader.ScanLinesAllNumeric | index.py:135-142 | when every line converts, there are no warnings and the values are the conversions in order |
| DatasetLoader.ScanLinesWarningsSound | index.py:141-142 | every warning names a line in range whose stripped text is non-blank, fails to convert, and is the quoted token |
| DatasetLoader.ScanLinesWarningsComplete | index.py:141-142 | every non-blank line that fails to convert produces a warning carrying its 1-based number |
| DatasetLoader.ScanLinesOrdered | index.py:135-142 | warnings come out in strictly increasing line order |
| DatasetLoader.ScanLinesValues | index.py:138-140 | every converting line's value is kept, and every kept value comes from a converting line |
| DatasetLoader.JoinIncreasing | index.py:124-142 | joining two line-ordered warning lists, the first wholly before the second, keeps them ordered |
| DatasetLoader.ScanRowsCount | index.py:124-132 | values plus warnings equal the number of non-empty rows |
| DatasetLoader.FirstFieldsMembers | index.py:124-126 | the first fields taken are exactly those of the rows that have a field |
| DatasetLoader.ScanRowsWarningsSound | index.py:131-132 | every warning names a non-empty row whose first field fails to convert, and quotes that field |
| DatasetLoader.ScanRowsWarningsComplete | index.py:131-132 | every non-empty row whose first field fails to convert produces a warning quoting that field, numbered by its position from the starting number (row index + 1 in a load) |
| DatasetLoader.ScanRowsOrdered | index.py:124-132 | warnings come out in strictly increasing line order |
| DatasetLoader.ScanRowsValues | index.py:127-130 | every converting row's value is kept, and every kept value comes from a converting row |
| DatasetLoader.ScanRowsAppend | index.py:124-132 | scanning two consecutive blocks of rows equals scanning each with continued numbering and joining the results, so values are appended in row order, one per converting row |
| DatasetLoader.ScanRowsAnyValue | index.py:124-132 | a scan from a given row keeps some value exactly when some later non-empty row converts |
| DatasetLoader.ScanRowsLinesFrom | index.py:124-132 | warning numbers never precede the numbering start |
| DatasetLoader.LoadData | index.py:104-157 | a missing file fails as not found; a file without lines fails as empty; a CSV file whose first row has no field fails; a success holds at least one value |
| DatasetLoader.LoadTextOutcome | index.py:133-150 | a text file succeeds exactly when some non-blank line converts; the values and warnings together account for every non-blank line |
| DatasetLoader.LoadCsvSucceeds | index.py:116-147 | a CSV load succeeds exactly when some non-empty row at or after the data start has a converting first field |
| DatasetLoader.LoadCsvAccounting | index.py:116-150 | a CSV load's values plus warnings equal the non-empty rows after the header, and every warning lies past the header |
| DatasetLoader.LoadCsvFirstRow | index.py:121-132 | when the first row's first field converts as written, that row is not skipped: its stripped field's value is the first value loaded, or, if that does not convert, the first warning is on line 1 |
| DatasetLoader.CsvHeaderRule | index.py:121 | with `_is_numeric` as the header test (index.py:159-165): a numeric first field is loaded as the first value; otherwise the first row is skipped and the load is that of the later rows, numbered from line 2 |
| CategoryExtractor.AddAll | index.py:50-65 | the set built by adding labels one at a time holds exactly the labels, and is no larger than the list |
| CategoryExtractor.StrippedFirstFieldsMembers | index.py:58-60 | the labels are exactly the stripped first fields of the non-empty rows |
| CategoryExtractor.ExtractUniqueCategories | index.py:48-74 | an unreadable file gives the empty set; otherwise the set holds exactly the file's labels |
| CategoryExtractor.TextCategories | index.py:61-65 | a text file's categories are exactly the stripped forms of its non-blank lines |
| CategoryExtractor.CsvCategories | index.py:55-60 | a CSV file's categories are exactly the stripped first fields of its non-empty rows after the first row |
| AnalysisEngine.CalculateStatistics | index.py:167-201 | no statistics for an empty series. Otherwise: the count is the series length; the average times the count is the total; minimum <= average <= maximum, both members of the series; performance is high exactly when the average exceeds the threshold; the category count is present exactly when a non-empty category file name was given, and then it equals the size of the extracted set |
| AnalysisEngine.ClassifyStrict | index.py:193-196 | the comparison is strict: an average equal to the threshold needs improvement, and any average above it is high performance |
| AnalysisEngine.Run | index.py:312-314 | a run fails exactly when loading fails, with the same error; a success carries the loaded batch and exactly the statistics `CalculateStatistics` gives for its values, so all of that member's guarantees hold of the run |
| Scenarios.IntRecord | index.py:136-140 | a line holding a written integer loads as that integer |
| Scenarios.WordRecord | index.py:136-142 | a line holding a word (ASCII letters, other than the special float names nan, inf and infinity in any case) warns with the word and its line number |
| Scenarios.ScanLinesRecords | index.py:135-142 | scanning lines equals joining the per-line records, in order |
| Scenarios.MixedTextFile | index.py:135-147 | word, integer, word, integer loads the two integers and warns about lines 1 and 3 |
| Scenarios.MixedRecords | index.py:135-142 | the per-line records of that file are warning, value, warning, value |
| Scenarios.AbcTenXyzTwenty | index.py:135-147 | the file "abc", "10", "xyz", "20" loads [10, 20] with warnings for 'abc' on line 1 and 'xyz' on line 3 |
| Scenarios.LabelLinesCategories | index.py:61-65 | labels written one per line come back as exactly the set of labels |
| Scenarios.CoursesCategories | index.py:286-291 | the sample course file has the five distinct courses |
| Scenarios.MarksStatistics | index.py:167-201 | the sample marks at threshold 85 give total 871, average 87.1, minimum 76, maximum 95, count 10, high performance and 5 categories |
| Scenarios.ScanConvertingRows | index.py:124-132 | rows that all convert scan to their values in order, with no warnings |
| Scenarios.ScanIntRows | index.py:124-132 | rows of written integers scan to those integers |
| Scenarios.HeaderIntRows | index.py:116-132 | a word header (not a special float name) over integer rows is skipped, and the integers load in order without warnings |
| Scenarios.SampleMarksLoad | index.py:279-284 | the sample marks file loads the ten marks |
| Scenarios.SampleRun | index.py:303-314 | the sample run loads the ten marks and produces the sample analysis |

### Behaviour of the code worth knowing

The model follows the code in these cases, some of which its own comments
would not suggest:

- **Blank CSV field.** The CSV loop skips a row only when it has no field
  at all (the "Check if row is not empty" test, index.py:126). A row whose
  first field is whitespace is not empty, so its field is stripped,
  fails to convert, and warns (`ScanRowsWarningsComplete`). The text loop,
  by contrast, skips lines that are blank after stripping.
- **Category count key.** The count is added whenever the category file
  name is non-empty (index.py:199-201). That includes a missing file, or
  one with no labels, when the count is 0 (`CalculateStatistics`).
- **Empty first CSV row.** The header test at index.py:121 reads the first
  field of the first row. If that row has no field (a blank first line),
  the resulting error is caught as an unexpected error at index.py:155-157,
  so the load fails even when later rows hold numbers (`FirstRowEmpty`).
- **CSV categories.** Next to "Skip header if present" (index.py:57), the
  category reader skips the first CSV row whatever it holds, numeric or
  not. It also keeps a label that strips to the empty string
  (`CsvCategories`).
- **Warning text.** Text-file warnings quote the stripped line. CSV
  warnings quote the first field before stripping.
- **Header test on the unstripped field.** `_is_numeric` converts the
  first field as written (index.py:121), and `float()` ignores less white
  space than `str.strip` removes: the separators U+001C..U+001F are not
  ignored. A first field such as "\x1c5" is therefore not numeric and its
  row is skipped as a header, although the loop would load it as 5
  (`SeparatorNotIgnored`, `CsvHeaderRule`).

## Left out

- File I/O is not modelled. Files are given by their contents, and the
  `.csv` suffix test becomes the choice of `Source` constructor.
- CSV quoting, custom dialects and quoted multi-line fields are not
  modelled. A CSV file is given as its rows of fields.
- Console output is not modelled: the banners, the success line and the
  messages of the caught exceptions. Warnings are returned as data.
- `display_results`, `save_report` and `_get_current_date` are output
  only, and the date reads the clock.
- `create_sample_files` is not an operation of the model. The files it
  writes appear as the constants `MarkInts`, `Marks` and `Courses`.
- Floating point is not modelled. Values are exact reals, so a sum or
  average that IEEE-754 doubles would round is exact here.
- NumericParser.ParseFloat: accepts only an optional sign, ASCII digits
  and at most one decimal point, with the surrounding white space `float()` ignores. Python's
  `float()` also accepts exponents, `inf`/`infinity`/`nan` in any case,
  digit underscores, and decimal digits of any Unicode script (such as
  Arabic-Indic or full-width digits). Those tokens warn here where the
  program would load them.
- NumericParser.IsNumeric: inherits the narrower grammar of `ParseFloat`,
  so a header such as `nan` or `1e5` is skipped here but loaded by the
  program.
- NumericParser.DecimalAlphabet: holds only of the modelled grammar. A
  token the program converts may also hold exponent letters, the special
  names, underscores or non-ASCII digits.
- NumericParser.NonDecimalCharRejected: holds only of the modelled grammar.
  `_is_numeric` accepts `1e5`, `nan`, `1_0` and non-ASCII digits.
- DatasetLoader.LoadData: models a load into a fresh `DataSet`. A second
  call on the same object would append to the values already loaded,
  because `self.data` is never cleared.
- DatasetLoader.LoadData: does not model I/O errors other than a missing
  file, such as permissions or decoding. Only the empty-first-row error
  of the unexpected-error path is modelled.
- CategoryExtractor.ExtractUniqueCategories: models every unreadable file
  as `None`. The code's two handlers, not-found and any other error, both
  return the empty set and differ only in the message printed.
- AnalysisEngine.CalculateStatistics: takes the threshold as a real. The
  program's threshold is an int (default 50, index.py:81), and Python
  compares it with the float average by value, so the result is the same.
  The default itself is not modelled: every call supplies a threshold, as
  `main` does with 85.
- AnalysisEngine.CalculateStatistics: the call on an empty series is
  modelled as giving no statistics. The source then also leaves the
  statistics dictionary and the categories as they were before.
