# Gold, Tesla and S&P 500 data pipeline: the fetch adapter and the cleaning pass

This project models the two table transformations of a small market-data
pipeline and proves what they guarantee.

- **The gold-price adapter** (`fetch_gold_price` in data_fetcher.py). It
  starts once the Alpha Vantage response is in hand:
  - a status other than 200 raises an error naming the status and the
    response text;
  - a body without the `"Time Series (Daily)"` envelope raises the
    missing-envelope error;
  - otherwise the date-keyed series becomes one row per entry that has at
    least one field (an entry with an empty field object gives no row);
  - the five fields `"1. open"` … `"5. volume"` are renamed to `open`,
    `high`, `low`, `close` and `volume`;
  - entries older than 365 days before `now` are dropped, and the bound is
    inclusive;
  - the rows are sorted by date;
  - `reset_index` and `rename`, both in place, move the date label into a
    `Date` column.

  The pure part is the function `DataFetcher.GoldSeries`. The method
  `DataFetcher.FetchGoldPrice` builds a `Frames.DataFrame` object and
  updates it in place. It is proved to end in exactly the rows
  `GoldSeries` describes.
- **The cleaning pass** (`process_data` in data_processor.py). It visits
  every named table in the dictionary's iteration order and changes each
  one in place:
  - it converts the `Date` column;
  - it drops every row with any missing cell;
  - it sorts the rest by `Date`, non-decreasing. Rows sharing a date may
    come in any order.

  It returns a dictionary holding the same table objects under the same
  names. `DataProcessor.ProcessData` is a loop over a
  `map<string, DataFrame>` of objects. A table that stands under two names
  is cleaned twice, and the contract still holds in that case.

Modules:

- `Wrappers` holds `Option` and `Result`.
- `Sorting` holds the sorted-by-key predicate and a functional sort with
  its permutation proof.
- `Frames` holds:
  - the cell and row model;
  - the specification of a cleaned table (`CleanedFrom`: the converted
    rows with no missing cell, as a permutation sorted by date) and the
    lemmas about it;
  - the `DataFrame` class and its in-place operations.
- `DataFetcher` and `DataProcessor` hold the two transformations.

Cells are `Null` (None, NaN or NaT), an opaque `Text` value, or an
`Instant` in seconds. Parsing a date text (`pd.to_datetime`) is the
parameter `parse`. The clock reading `datetime.now()` is the parameter
`now`.

## Model

| member | source | states |
|---|---|---|
| Sorting.SortedByPairs | data_processor.py:30 | the neighbour-wise sortedness used throughout is the same as every earlier row having a key no larger than every later one |
| Sorting.Sort | data_fetcher.py:51 | the sorted rows are ordered by key and are a permutation of the input: nothing added, lost or duplicated |
| Frames.ToDatetime | data_processor.py:24 | converting a cell fails exactly on a text that cannot be read. A text becomes the instant it denotes, or a missing cell when read as NaT. A missing cell or an instant stays as it is |
| Frames.ConvertRow | data_processor.py:24 | conversion keeps a row's columns and every cell except Date. A date text becomes the instant it denotes, or missing when read as NaT. A Date that was not a text stays as it was |
| Frames.Converted | data_processor.py:24 | the whole column is converted row by row, keeping the number and order of rows |
| Frames.DataFrame.ConvertDates | data_processor.py:23-24 | the table is converted in place exactly when every date text parses; otherwise it reports the first unparsable text in row order (every earlier date parses) and leaves the rows as they were; the columns never change |
| Frames.DropIncomplete | data_processor.py:27 | dropna keeps at most the input rows, and every row it keeps is complete and comes from the input |
| Frames.DropIncompleteCount | data_processor.py:27 | a complete row is kept as many times as it occurs; a row with any missing cell is kept zero times |
| Frames.DropIncompleteKeepsComplete | data_processor.py:27 | dropna changes nothing on a table with no missing cell |
| Frames.DataFrame.DropNa | data_processor.py:27 | the in-place dropna leaves exactly the complete rows, in order, and the same columns |
| Frames.DataFrame.SortByDate | data_processor.py:30 | the in-place sort leaves the rows non-decreasing by Date and a permutation of the rows before the sort |
| Frames.KeptIsDropOfConverted | data_processor.py:24-27 | the rows cleaning keeps are exactly dropna applied after the Date conversion |
| Frames.KeptDatesAreInstants | data_processor.py:24-30 | after conversion and dropna every remaining Date is an instant, so the sort has a date for every row |
| Frames.CleanedBySteps | data_processor.py:22-30 | converting, dropping and then sorting a permutation yields a cleaning of the input |
| Frames.CleanedRowsCounted | data_processor.py:24-30 | a cleaned table is a permutation of the converted complete rows |
| Frames.CleanedRowsComplete | data_processor.py:27 | no cleaned row has a missing cell, and every cleaned row's Date is an instant |
| Frames.CleanedKeepsExactlyCompleteRows | data_processor.py:24-30 | a row is in the cleaned table if and only if it is complete and is the conversion of an input row, and it occurs exactly as often as among the converted rows |
| Frames.CleanedDatesFromInput | data_processor.py:24-30 | every cleaned row is some input row with its other cells unchanged, and its Date is the instant that row's date text denotes or the instant it already held |
| Frames.ConvertedFromInputRow | data_processor.py:24 | a converted row whose Date is an instant has its source row's other cells, and as Date the source's parsed date or its unchanged instant |
| Frames.NaTDateDropped | data_processor.py:24-27 | a row whose date text is read as NaT is not in the cleaned table |
| Frames.CleanedSize | data_processor.py:27 | the cleaned table has as many rows as the input has complete converted rows, so no more than the input |
| Frames.CleanedRowsAreFixedPoint | data_processor.py:21-33 | cleaned rows parse again, and converting them and dropping incomplete rows changes nothing |
| Frames.CleanedFromSameRows | data_processor.py:21-33 | whether rows are a cleaning depends only on what the input keeps |
| Frames.CleanedTwice | data_processor.py:21-33 | cleaning an already cleaned table again is still a cleaning of the original table |
| Frames.DataFrame.ResetIndex | data_fetcher.py:52 | reset_index adds the column "index" holding each row's label and changes nothing else |
| Frames.DataFrame.RenameColumn | data_fetcher.py:53 | renaming a column moves its cells to the new name in every row and keeps all other cells |
| Frames.RenamedCell | data_fetcher.py:53 | a renamed row has the new column instead of the old one, holding the old cell, and every other cell is unchanged |
| DataProcessor.UnparsableNotCleanable | data_processor.py:24 | a date text that does not parse makes the table impossible to clean |
| DataProcessor.CleanTable | data_processor.py:22-30 | one loop body succeeds exactly when the table has a Date column and all its dates parse, and then the table is cleaned in place; without Date the table is left after dropna; with a bad date it is left unchanged |
| DataProcessor.CleanStep | data_processor.py:21-33 | a table reached again under a second name is cleaned again without failing and stays a cleaning of its original rows |
| DataProcessor.Visit | data_processor.py:21-33 | one iteration either cleans the current table for every name it stands under and records it in the result, or stops with that table left as the failure leaves it and all others unchanged |
| DataProcessor.ProcessData | data_processor.py:8-35 | succeeds exactly when every table has a Date column whose texts all parse; on success it returns a new dictionary with the same keys and the same table objects and every table is cleaned in place with unchanged columns; on failure it stops at the first table that cannot be cleaned: every earlier table could be and is cleaned, the failing one is left as the error leaves it, and the tables not reached are untouched |
| DataProcessor.FailedNotCleanable | data_processor.py:24-30 | a table left in either failure state (no Date column, or an unreadable date text) could not have been cleaned |
| DataProcessor.StopIsUnique | data_processor.py:21-33 | a failure stops at one name only: the first whose table cannot be cleaned |
| DataProcessor.ExampleGold | test_data_processor.py:12-44 | a table with two full rows and a row whose Date and Price are missing cleans to two rows with no missing cell |
| DataProcessor.ExampleTesla | test_data_processor.py:17-44 | two rows, one without an opening price, clean to one row with no missing cell |
| DataProcessor.ExampleSp500 | test_data_processor.py:23-44 | two rows, one without a closing price, clean to one row with no missing cell |
| DataFetcher.DigitsRoundTrip | data_fetcher.py:59 | the decimal numeral written for a status reads back as that status |
| DataFetcher.StatusMessageNamesStatus | data_fetcher.py:58-59 | the status error's message is the fixed "Failed to fetch gold price data: " prefix, then the status in decimal, then ", " and the response text |
| DataFetcher.FieldNames | data_fetcher.py:40 | the table's columns include every field of every entry |
| DataFetcher.FieldNamesFromEntries | data_fetcher.py:40 | every column comes from some entry's fields |
| DataFetcher.RowOf | data_fetcher.py:40 | an entry's row has every column: a field present in the entry keeps its value, a field the entry lacks is missing |
| DataFetcher.Filled | data_fetcher.py:40 | the entries that give a row are at most the series' entries, and each has at least one field |
| DataFetcher.FilledCount | data_fetcher.py:40 | an entry with fields gives a row as often as it occurs; an entry with an empty field object gives none |
| DataFetcher.FromDict | data_fetcher.py:40 | from_dict with orient=index gives one row per entry that has a field, labelled by its date, over the union of all fields |
| DataFetcher.CanonicalInverse | data_fetcher.py:41-47 | the rename changes a name exactly when it is one of the five Alpha Vantage fields, maps those to the short names, and is undone by the reverse mapping |
| DataFetcher.RenameRow | data_fetcher.py:41-47 | renaming keeps every cell value under its new name, and the row's columns are the renamed columns |
| DataFetcher.RenameFrame | data_fetcher.py:41-47 | the rename applies row by row, keeping labels and order |
| DataFetcher.AlphaNamesRenamed | data_fetcher.py:41-47 | the five Alpha Vantage fields become exactly open, high, low, close and volume |
| DataFetcher.AlphaNamesRenameable | data_fetcher.py:41-47 | the five Alpha Vantage fields can be renamed without two columns colliding |
| DataFetcher.RenameableWithoutShortNames | data_fetcher.py:41-53 | fields that carry no short name and no "index" or "Date" name can be renamed without two columns colliding |
| DataFetcher.Recent | data_fetcher.py:50 | the window keeps only rows from the input whose date lies in the window |
| DataFetcher.RecentCount | data_fetcher.py:50 | a row dated at or after now minus 365 days is kept as often as it occurs; an older one is dropped without error |
| DataFetcher.GoldRow | data_fetcher.py:52-53 | the final row has a Date column holding the row's date, and every other cell is unchanged |
| DataFetcher.GoldFrame | data_fetcher.py:40-51 | before the index reset, the rows are sorted by date and each has exactly the renamed columns |
| DataFetcher.GoldSeries | data_fetcher.py:33-59 | the adapter succeeds exactly on status 200 with the envelope present; any other status gives the status error with its text, and a missing envelope gives the missing-envelope error |
| DataFetcher.GoldRowsKeepOrder | data_fetcher.py:51-53 | moving the date label into the Date column keeps the order by date |
| DataFetcher.GoldRowsSorted | data_fetcher.py:49-53 | the returned rows are non-decreasing by Date, and every Date is in the 365-day window |
| DataFetcher.Expected | data_fetcher.py:40-53 | each entry should give a row with the renamed fields as text, missing cells for fields it lacks, and its date in Date |
| DataFetcher.WindowedLabelled | data_fetcher.py:40-53 | windowing the renamed rows and moving their dates into Date gives the expected row of each in-window entry, in series order |
| DataFetcher.GoldRowsPermuted | data_fetcher.py:51-53 | reordering labelled rows reorders the final rows the same way |
| DataFetcher.WindowRowsFilled | data_fetcher.py:40 | leaving out the entries with an empty field object first does not change the expected rows |
| DataFetcher.GoldRowsAreWindowRows | data_fetcher.py:40-53 | the returned rows are exactly the expected rows of the entries inside the window that have a field, each once, in some order; the count equals the number of those entries |
| DataFetcher.GoldSeriesRows | data_fetcher.py:40-55 | a successful call returns rows sorted by Date, all inside the window, and exactly the expected rows of the in-window entries that have a field |
| DataFetcher.FetchGoldPrice | data_fetcher.py:33-59 | the method returns the error GoldSeries gives, or a new table whose rows are exactly GoldSeries' rows and whose columns are the renamed fields plus Date |
| DataFetcher.ResetThenRename | data_fetcher.py:52-53 | reset_index followed by renaming "index" to Date puts each row's date label in the Date column |
| DataFetcher.TwoDaysGiveTwoRows | test_data_fetcher.py:11-48 | two in-window entries with the same fields give a successful result with two rows, each with Date and the renamed fields, or no row when both field objects are empty |
| DataFetcher.AlphaVantageTwoDays | test_data_fetcher.py:11-48 | two in-window entries with the five Alpha Vantage fields give two rows with columns Date, open, high, low, close and volume. The in-window requirement stands for the real clock the test reads: its fixed dates 2025-09-12 and 2025-09-13 both lie in the window only while `now` is at most 365 days after 2025-09-12; once `now` passes 2026-09-12 the older entry gives no row, and after 2026-09-13 neither does (DataFetcher.RecentCount) |
| DataFetcher.EmptyDayGivesNoRow | data_fetcher.py:40 | an in-window day with fields next to an in-window day with an empty field object gives a table of one row, dated by the first day |

## Left out

- The HTTP request and the JSON decoding (data_fetcher.py:31,34) are calls into libraries. The response is given as its status, its text and the daily series of its body. The series is a sequence of entries in the JSON object's order, or None when the envelope key is missing.
- The debug `print` calls (data_fetcher.py:35,39,48,54) are console output only.
- `fetch_tesla_stock_price` and `fetch_sp500_index` are downloads through yfinance, a foreign network call. Their only other logic is a start date 730 days back and an in-place `reset_index`; they are not modelled.
- The `parse_args` functions and `__main__` blocks are not part of this model: CLI arguments, CSV reading and writing, the missing-file check. data_fetcher_runner.py (orchestration, file output) and chart_visualizer.py (plotting and HTML) are not part of this model either.
- Calendar parsing is abstract. `pd.to_datetime` is the parameter `parse`, which reads a text as an instant, as NaT, or not at all. A text read as NaT (such as "" or "NaT") becomes a missing cell. `parse` reads each text on its own. Pandas 2 instead infers one format from the first non-missing text of the column and raises on a text in another format, so a column can fail although each of its texts parses alone. DataProcessor.ProcessData's "succeeds exactly when all dates parse" holds for the per-text reading only. Time zones are not modelled.
- The gold entries arrive with their dates already as instants. So the exception `pd.to_datetime(df.index)` (data_fetcher.py:49) raises on a date key it cannot read is not modelled.
- Prices and volumes are opaque cell values. The code does no arithmetic on them, so floating point is not modelled.
- The row labels (index) of a table are not modelled, apart from the date labels the gold table resets into a column. `sort_values(by='Date')` would also sort by an index level named Date. A table whose only Date is such a level therefore fails here with `MissingDate`, while pandas would sort it.
- The exception classes and the text of pandas' own errors are not modelled. The missing-Date failure is modelled, as the error `MissingDate` with the table left after `dropna`; pandas' `KeyError` text is not.
- DataFetcher.GoldSeries: it requires the field names to be renameable without collision. Pandas would build a table with duplicate column names when an entry carries both "1. open" and "open", or a field named "Date". When a field is named "index", `reset_index` picks the name "level_0" instead. A row here is a map from column names, so it cannot hold duplicate columns. The five Alpha Vantage fields meet the requirement (DataFetcher.AlphaNamesRenameable).
- DataFetcher.FetchGoldPrice: same requirement as GoldSeries, for the same reason.
- Frames.DataFrame.SortByDate: pandas sorts with a non-stable quicksort, while the model sorts by insertion. The contract therefore states only non-decreasing order and a permutation, and rows sharing a date may come in any order. The same holds for `sort_index` in the gold adapter (Sorting.Sort).
- DataProcessor.ProcessData: on a date that does not parse, the error names an unparsable text of the failing table, not necessarily the first one in row order. Frames.DataFrame.ConvertDates reports the first.
- The code keeps no drop counts and resolves no duplicate dates, so neither is modelled. The model does what the code does:
  - a row is dropped when any of its cells is missing, not only Date or close;
  - rows sharing a date all stay;
  - the order is non-decreasing, not strictly ascending;
  - an unparsable date stops processing instead of dropping that one row.
- DataFetcher.FromDict: the rows come in the order of the series. Pandas orders them by first appearance, column by column, which is the series order only when the entries share their fields. The rows are sorted by date right after, so this changes only the order of rows sharing a date, which is unspecified anyway.
- The columns of a table are a set. Their order is not modelled, for example that `reset_index` (data_fetcher.py:52) puts Date first. Duplicate column names cannot occur in the model.
