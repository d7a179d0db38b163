/**
 * The gold-price adapter of data_fetcher.py, from the moment the HTTP
 * response is in hand: the status check, the envelope check, the table
 * built from the daily series, the renamed price fields, the one-year
 * window, the sort by date, and the date index turned into a Date column.
 *
 * Trading days arrive already parsed to instants (seconds); the clock
 * reading `now` is a parameter.
 */
module DataFetcher {
  import opened Wrappers
  import opened Sorting
  import opened Frames

  /** The only status the adapter accepts. */
  const OkStatus := 200
  const SecondsPerDay := 86400
  /** How far back the window reaches, in days. */
  const WindowDays := 365
  /** The key of the envelope holding the daily series. */
  const TimeSeriesKey := "Time Series (Daily)"

  // ---------------------------------------------------------------------
  // Errors
  // ---------------------------------------------------------------------

  /** Why no table comes back: the server answered with another status, or
      the body has no daily series. */
  datatype FetchError = StatusError(status: int, text: string) | MissingTimeSeries

  const StatusPrefix := "Failed to fetch gold price data: "
  const MissingMessage := "Unexpected response format: Missing '" + TimeSeriesKey + "'"

  /** The text of the exception raised for each error. */
  function Message(e: FetchError): string {
    match e
    case StatusError(status, text) => StatusPrefix + Decimal(status) + ", " + text
    case MissingTimeSeries => MissingMessage
  }

  /** The character of a decimal digit. */
  function DigitChar(d: nat): (c: char)
    requires d < 10
    ensures '0' <= c <= '9' && c as int - '0' as int == d
  {
    (d + '0' as int) as char
  }

  predicate IsDigits(s: string) {
    forall i :: 0 <= i < |s| ==> '0' <= s[i] <= '9'
  }

  /** The decimal numeral of `n`, without leading zeros. */
  function Digits(n: nat): (s: string)
    ensures |s| >= 1 && IsDigits(s)
  {
    if n < 10 then [DigitChar(n)] else Digits(n / 10) + [DigitChar(n % 10)]
  }

  /** The number a numeral denotes. */
  function DigitsValue(s: string): nat
    requires IsDigits(s)
  {
    if s == [] then 0 else DigitsValue(s[..|s| - 1]) * 10 + (s[|s| - 1] as int - '0' as int)
  }

  /** Reading a numeral back gives the number written. */
  lemma {:induction false} DigitsRoundTrip(n: nat)
    ensures DigitsValue(Digits(n)) == n
  {
    if n >= 10 {
      var s := Digits(n);
      assert s[..|s| - 1] == Digits(n / 10);
      DigitsRoundTrip(n / 10);
    }
  }

  /** `str(n)` for an integer. */
  function Decimal(n: int): string {
    if n < 0 then "-" + Digits(-n) else Digits(n)
  }

  /** The status error names its status: the message starts with the fixed
      prefix, and right after it stands a numeral that reads back as the
      status, followed by the response text. */
  lemma StatusMessageNamesStatus(status: nat, text: string)
    ensures var m := Message(StatusError(status, text));
            var n := |StatusPrefix| + |Digits(status)|;
            && |StatusPrefix| < n <= |m|
            && m[..|StatusPrefix|] == StatusPrefix
            && IsDigits(m[|StatusPrefix|..n])
            && DigitsValue(m[|StatusPrefix|..n]) == status
            && m[n..] == ", " + text
  {
    var m := Message(StatusError(status, text));
    var n := |StatusPrefix| + |Digits(status)|;
    assert m == StatusPrefix + Digits(status) + (", " + text);
    assert m[|StatusPrefix|..n] == Digits(status);
    DigitsRoundTrip(status);
  }

  // ---------------------------------------------------------------------
  // The table built from the envelope (data_fetcher.py:40)
  // ---------------------------------------------------------------------

  /** One entry of the daily series: the trading day and its fields. */
  datatype Quote = Quote(date: int, fields: map<string, string>)

  /** A row of a table indexed by date: its label and its cells. */
  datatype Dated = Dated(date: int, row: Row)

  function DateLabel(d: Dated): int {
    d.date
  }

  /** Every field name of any entry: the columns of the table. */
  function FieldNames(series: seq<Quote>): (names: set<string>)
    ensures forall i :: 0 <= i < |series| ==> series[i].fields.Keys <= names
  {
    if series == [] then {}
    else
      var init := series[..|series| - 1];
      assert forall i :: 0 <= i < |init| ==> init[i] == series[i];
      FieldNames(init) + series[|series| - 1].fields.Keys
  }

  /** Every column comes from the fields of some entry. */
  lemma {:induction false} FieldNamesFromEntries(series: seq<Quote>, c: string)
    requires c in FieldNames(series)
    ensures exists i :: 0 <= i < |series| && c in series[i].fields
  {
    var init := series[..|series| - 1];
    if c !in series[|series| - 1].fields {
      FieldNamesFromEntries(init, c);
      var i :| 0 <= i < |init| && c in init[i].fields;
      assert init[i] == series[i];
    }
  }

  /** The row of one entry over the columns `names`: a cell per field, the
      cell missing for a column the entry lacks. */
  function RowOf(fields: map<string, string>, names: set<string>): (r: Row)
    requires fields.Keys <= names
    ensures r.Keys == names
    ensures forall c :: c in fields ==> r[c] == Text(fields[c])
    ensures forall c :: c in names && c !in fields ==> r[c] == Null
  {
    map c | c in names :: if c in fields then Text(fields[c]) else Null
  }

  /** An entry whose field object is not empty. */
  predicate HasFields(q: Quote) {
    q.fields.Keys != {}
  }

  /** The entries with at least one field, in the order of the series.
      `from_dict` with orient="index" rebuilds nested dicts column by
      column, so an entry whose field object is empty gives no row. */
  function Filled(series: seq<Quote>): (kept: seq<Quote>)
    ensures |kept| <= |series|
    ensures forall i :: 0 <= i < |kept| ==> HasFields(kept[i]) && kept[i].fields.Keys <= FieldNames(series)
  {
    if series == [] then []
    else
      var last := series[|series| - 1];
      Filled(series[..|series| - 1]) + (if HasFields(last) then [last] else [])
  }

  /** The kept entries have no field outside `names` when no entry has. */
  lemma {:induction false} FilledWithin(series: seq<Quote>, names: set<string>)
    requires forall i :: 0 <= i < |series| ==> series[i].fields.Keys <= names
    ensures forall i :: 0 <= i < |Filled(series)| ==> Filled(series)[i].fields.Keys <= names
  {
    if series != [] {
      var init := series[..|series| - 1];
      assert forall i :: 0 <= i < |init| ==> init[i] == series[i];
      FilledWithin(init, names);
    }
  }

  /** An entry with fields is kept as often as it occurs; an entry with an
      empty field object is not kept at all. */
  lemma {:induction false} FilledCount(series: seq<Quote>, q: Quote)
    ensures multiset(Filled(series))[q] == if HasFields(q) then multiset(series)[q] else 0
  {
    if series != [] {
      var init := series[..|series| - 1];
      assert series == init + [series[|series| - 1]];
      FilledCount(init, q);
    }
  }

  /** `pd.DataFrame.from_dict(series, orient="index")`: one row per entry
      that has a field, labelled by its date, over the union of all
      fields. */
  function FromDict(series: seq<Quote>): (frame: seq<Dated>)
    ensures |frame| == |Filled(series)|
    ensures forall i :: 0 <= i < |frame| ==>
              frame[i].date == Filled(series)[i].date && frame[i].row == RowOf(Filled(series)[i].fields, FieldNames(series))
    ensures forall i :: 0 <= i < |frame| ==> frame[i].row.Keys == FieldNames(series)
  {
    var names := FieldNames(series);
    var filled := Filled(series);
    seq(|filled|, i requires 0 <= i < |filled| => Dated(filled[i].date, RowOf(filled[i].fields, names)))
  }

  // ---------------------------------------------------------------------
  // Renaming the price fields (data_fetcher.py:41-47)
  // ---------------------------------------------------------------------

  /** The names the five Alpha Vantage fields get. */
  const ShortNames: set<string> := {"open", "high", "low", "close", "volume"}
  const AlphaNames: set<string> := {"1. open", "2. high", "3. low", "4. close", "5. volume"}

  /** The new name of a column; a column the renaming does not list keeps
      its name. */
  function Canonical(name: string): string {
    if name == "1. open" then "open"
    else if name == "2. high" then "high"
    else if name == "3. low" then "low"
    else if name == "4. close" then "close"
    else if name == "5. volume" then "volume"
    else name
  }

  /** The Alpha Vantage field a short name comes from; any other name is
      itself. */
  function AlphaName(name: string): string {
    if name == "open" then "1. open"
    else if name == "high" then "2. high"
    else if name == "low" then "3. low"
    else if name == "close" then "4. close"
    else if name == "volume" then "5. volume"
    else name
  }

  /** The renaming is undone by AlphaName for every name that is not already
      one of the short names; it changes exactly the five field names. */
  lemma CanonicalInverse(name: string)
    ensures name !in ShortNames ==> AlphaName(Canonical(name)) == name
    ensures Canonical(name) != name <==> name in AlphaNames
    ensures name in AlphaNames ==> Canonical(name) in ShortNames
  {
  }

  /** The columns after the renaming. */
  function Renamed(names: set<string>): set<string> {
    set c | c in names :: Canonical(c)
  }

  /** The renaming, the reset index and the rename to Date make no two
      columns share a name: no field is named both by its Alpha Vantage name
      and by its short name, and no field is named "index" or "Date". */
  predicate Renameable(names: set<string>) {
    && (forall a, b :: a in names && b in names && Canonical(a) == Canonical(b) ==> a == b)
    && IndexColumn !in Renamed(names) && DateColumn !in Renamed(names)
  }

  /** One row with its columns renamed; every cell keeps its value. */
  function RenameRow(r: Row): (r': Row)
    requires Renameable(r.Keys)
    ensures r'.Keys == Renamed(r.Keys)
    ensures forall c :: c in r ==> r'[Canonical(c)] == r[c]
  {
    map c | c in r.Keys :: Canonical(c) := r[c]
  }

  /** `df.rename(columns=...)` on the whole table. */
  function RenameFrame(frame: seq<Dated>, names: set<string>): (frame': seq<Dated>)
    requires Renameable(names)
    requires forall i :: 0 <= i < |frame| ==> frame[i].row.Keys == names
    ensures |frame'| == |frame|
    ensures forall i :: 0 <= i < |frame| ==> frame'[i] == Dated(frame[i].date, RenameRow(frame[i].row))
    ensures forall i :: 0 <= i < |frame| ==> frame'[i].row.Keys == Renamed(names)
  {
    seq(|frame|, i requires 0 <= i < |frame| => Dated(frame[i].date, RenameRow(frame[i].row)))
  }

  // ---------------------------------------------------------------------
  // The one-year window (data_fetcher.py:50)
  // ---------------------------------------------------------------------

  /** A trading day at or after `now` minus 365 days is kept. */
  predicate InWindow(date: int, now: int) {
    date >= now - WindowDays * SecondsPerDay
  }

  /** The rows whose label lies in the window, in their order. */
  function Recent(frame: seq<Dated>, now: int): (kept: seq<Dated>)
    ensures |kept| <= |frame|
    ensures forall d :: d in kept ==> InWindow(d.date, now) && d in frame
  {
    if frame == [] then []
    else
      var last := frame[|frame| - 1];
      Recent(frame[..|frame| - 1], now) + (if InWindow(last.date, now) then [last] else [])
  }

  /** A row in the window is kept as often as it occurs; any other row is
      dropped, silently. */
  lemma {:induction false} RecentCount(frame: seq<Dated>, now: int, d: Dated)
    ensures multiset(Recent(frame, now))[d] == if InWindow(d.date, now) then multiset(frame)[d] else 0
  {
    if frame != [] {
      var init := frame[..|frame| - 1];
      assert frame == init + [frame[|frame| - 1]];
      RecentCount(init, now, d);
    }
  }

  // ---------------------------------------------------------------------
  // The whole adapter (data_fetcher.py:33-59)
  // ---------------------------------------------------------------------

  /** The final row of a labelled row: its date becomes the Date cell. */
  function GoldRow(d: Dated): (r: Row)
    ensures r.Keys == d.row.Keys + {DateColumn} && r[DateColumn] == Instant(d.date)
    ensures forall c :: c in d.row && c != DateColumn ==> r[c] == d.row[c]
  {
    d.row[DateColumn := Instant(d.date)]
  }

  /** The labelled rows the adapter ends with before the index is reset:
      renamed, windowed, sorted by date. */
  function GoldFrame(series: seq<Quote>, now: int): (frame: seq<Dated>)
    requires Renameable(FieldNames(series))
    ensures SortedBy(frame, DateLabel)
    ensures forall i :: 0 <= i < |frame| ==> frame[i].row.Keys == Renamed(FieldNames(series))
  {
    var names := FieldNames(series);
    var renamed := RenameFrame(FromDict(series), names);
    var sorted := Sort(Recent(renamed, now), DateLabel);
    SortedKeepsColumns(renamed, now, Renamed(names), sorted);
    sorted
  }

  /** Windowing and sorting keep the columns of every row. */
  lemma SortedKeepsColumns(frame: seq<Dated>, now: int, names: set<string>, sorted: seq<Dated>)
    requires forall i :: 0 <= i < |frame| ==> frame[i].row.Keys == names
    requires multiset(sorted) == multiset(Recent(frame, now))
    ensures forall i :: 0 <= i < |sorted| ==> sorted[i].row.Keys == names
  {
    var kept := Recent(frame, now);
    forall i | 0 <= i < |sorted|
      ensures sorted[i].row.Keys == names
    {
      assert sorted[i] in multiset(kept);
    }
  }

  /** The rows of the final table, with the dates in the Date column. */
  function GoldRows(frame: seq<Dated>): (rows: seq<Row>)
    ensures |rows| == |frame|
    ensures forall i :: 0 <= i < |frame| ==> rows[i] == GoldRow(frame[i])
  {
    seq(|frame|, i requires 0 <= i < |frame| => GoldRow(frame[i]))
  }

  /** fetch_gold_price after the HTTP call: the rows of the returned table,
      or the error it raises. `envelope` is the daily series of the body,
      None when the body has none. */
  function GoldSeries(status: int, text: string, envelope: Option<seq<Quote>>, now: int)
    : (r: Result<seq<Row>, FetchError>)
    requires status == OkStatus && envelope.Some? ==> Renameable(FieldNames(envelope.value))
    ensures r.Success? <==> status == OkStatus && envelope.Some?
    ensures status != OkStatus ==> r == Failure(StatusError(status, text))
    ensures status == OkStatus && envelope.None? ==> r == Failure(MissingTimeSeries)
  {
    if status != OkStatus then Failure(StatusError(status, text))
    else if envelope.None? then Failure(MissingTimeSeries)
    else
      var frame := GoldFrame(envelope.value, now);
      Success(GoldRows(frame))
  }

  /** Moving each date into the Date column keeps a date-sorted frame
      sorted, now by the Date column. */
  lemma GoldRowsKeepOrder(frame: seq<Dated>)
    requires SortedBy(frame, DateLabel)
    ensures SortedByDate(GoldRows(frame))
  {
    var rows := GoldRows(frame);
    SortedByPairs(frame, DateLabel);
    assert forall i :: 0 <= i < |rows| ==> DateOf(rows[i]) == frame[i].date;
    assert forall i, j :: 0 <= i < j < |rows| ==> DateOf(rows[i]) <= DateOf(rows[j]);
    SortedByPairs(rows, DateOf);
  }

  /** The rows of the final table are sorted by Date, every one of them
      within the window. */
  lemma GoldRowsSorted(series: seq<Quote>, now: int)
    requires Renameable(FieldNames(series))
    ensures var rows := GoldRows(GoldFrame(series, now));
            && SortedByDate(rows)
            && forall i :: 0 <= i < |rows| ==> InWindow(DateOf(rows[i]), now)
  {
    var frame := GoldFrame(series, now);
    var rows := GoldRows(frame);
    var raw := Recent(RenameFrame(FromDict(series), FieldNames(series)), now);
    forall i | 0 <= i < |rows|
      ensures InWindow(DateOf(rows[i]), now)
    {
      assert frame[i] in multiset(raw);
    }
    GoldRowsKeepOrder(frame);
  }

  /** What each entry of the series becomes: its fields renamed, its date
      in the Date column. */
  function Expected(q: Quote, names: set<string>): (r: Row)
    requires Renameable(names) && q.fields.Keys <= names
    ensures r.Keys == Renamed(names) + {DateColumn} && r[DateColumn] == Instant(q.date)
    ensures forall c :: c in q.fields ==> r[Canonical(c)] == Text(q.fields[c])
    ensures forall c :: c in names && c !in q.fields ==> r[Canonical(c)] == Null
  {
    GoldRow(Dated(q.date, RenameRow(RowOf(q.fields, names))))
  }

  /** The rows the entries in the window should give, in the order of the
      series: one per entry that has a field, nothing else. */
  function WindowRows(series: seq<Quote>, names: set<string>, now: int): (rows: seq<Row>)
    requires Renameable(names)
    requires forall i :: 0 <= i < |series| ==> series[i].fields.Keys <= names
    ensures |rows| <= |series|
  {
    if series == [] then []
    else
      var last := series[|series| - 1];
      WindowRows(series[..|series| - 1], names, now)
        + (if InWindow(last.date, now) && HasFields(last) then [Expected(last, names)] else [])
  }

  /** Entries without fields give no expected row, so leaving them out
      first changes nothing. */
  lemma {:induction false} WindowRowsFilled(series: seq<Quote>, names: set<string>, now: int)
    requires Renameable(names)
    requires forall i :: 0 <= i < |series| ==> series[i].fields.Keys <= names
    ensures forall i :: 0 <= i < |Filled(series)| ==> Filled(series)[i].fields.Keys <= names
    ensures WindowRows(Filled(series), names, now) == WindowRows(series, names, now)
  {
    FilledWithin(series, names);
    if series != [] {
      var init, last := series[..|series| - 1], series[|series| - 1];
      assert forall i :: 0 <= i < |init| ==> init[i] == series[i];
      WindowRowsFilled(init, names, now);
      var filled := Filled(series);
      if HasFields(last) {
        assert filled == Filled(init) + [last];
        assert filled[..|filled| - 1] == Filled(init);
        assert WindowRows(filled, names, now) == WindowRows(Filled(init), names, now)
          + (if InWindow(last.date, now) then [Expected(last, names)] else []);
      } else {
        assert filled == Filled(init);
      }
      assert WindowRows(series, names, now) == WindowRows(init, names, now)
        + (if InWindow(last.date, now) && HasFields(last) then [Expected(last, names)] else []);
    }
  }

  /** Every entry as a renamed row labelled by its date, over the columns
      `names`. */
  function Labelled(series: seq<Quote>, names: set<string>): (frame: seq<Dated>)
    requires Renameable(names)
    requires forall i :: 0 <= i < |series| ==> series[i].fields.Keys <= names
    ensures |frame| == |series|
    ensures forall i :: 0 <= i < |series| ==> frame[i] == Dated(series[i].date, RenameRow(RowOf(series[i].fields, names)))
  {
    seq(|series|, i requires 0 <= i < |series| => Dated(series[i].date, RenameRow(RowOf(series[i].fields, names))))
  }

  /** Windowing the labelled entries and moving each date into the Date
      column gives the expected rows, in the same order. */
  lemma {:induction false} WindowedLabelled(series: seq<Quote>, names: set<string>, now: int)
    requires Renameable(names)
    requires forall i :: 0 <= i < |series| ==> series[i].fields.Keys <= names && HasFields(series[i])
    ensures GoldRows(Recent(Labelled(series, names), now)) == WindowRows(series, names, now)
  {
    if series != [] {
      assert HasFields(series[|series| - 1]);
      WindowRowsLast(series, names, now);
      LabelledLast(series, names, now);
      WindowedLabelled(series[..|series| - 1], names, now);
    }
  }

  /** The final rows of the windowed labelled series end with the last
      entry's expected row, when it lies in the window. */
  lemma LabelledLast(series: seq<Quote>, names: set<string>, now: int)
    requires Renameable(names) && series != []
    requires forall i :: 0 <= i < |series| ==> series[i].fields.Keys <= names
    ensures var init, last := series[..|series| - 1], series[|series| - 1];
            && (forall i :: 0 <= i < |init| ==> init[i].fields.Keys <= names)
            && GoldRows(Recent(Labelled(series, names), now))
               == GoldRows(Recent(Labelled(init, names), now)) + (if InWindow(last.date, now) then [Expected(last, names)] else [])
  {
    var init, last := series[..|series| - 1], series[|series| - 1];
    assert forall i :: 0 <= i < |init| ==> init[i] == series[i];
    var frame := Labelled(series, names);
    var d := frame[|frame| - 1];
    assert frame[..|frame| - 1] == Labelled(init, names);
    assert GoldRow(d) == Expected(last, names);
    var tail := if InWindow(d.date, now) then [d] else [];
    assert Recent(frame, now) == Recent(Labelled(init, names), now) + tail;
    assert GoldRows(tail) == if InWindow(last.date, now) then [Expected(last, names)] else [];
    GoldRowsAppend(Recent(Labelled(init, names), now), tail);
  }

  /** The expected rows of a series end with the last entry's, when it has
      fields and lies in the window. */
  lemma WindowRowsLast(series: seq<Quote>, names: set<string>, now: int)
    requires Renameable(names) && series != []
    requires forall i :: 0 <= i < |series| ==> series[i].fields.Keys <= names
    requires HasFields(series[|series| - 1])
    ensures var init, last := series[..|series| - 1], series[|series| - 1];
            && (forall i :: 0 <= i < |init| ==> init[i].fields.Keys <= names && init[i] == series[i])
            && WindowRows(series, names, now)
               == WindowRows(init, names, now) + (if InWindow(last.date, now) then [Expected(last, names)] else [])
  {
  }

  /** Moving the dates into the Date column commutes with concatenation. */
  lemma GoldRowsAppend(a: seq<Dated>, b: seq<Dated>)
    ensures GoldRows(a + b) == GoldRows(a) + GoldRows(b)
  {
    assert forall i :: 0 <= i < |a + b| ==> (a + b)[i] == if i < |a| then a[i] else b[i - |a|];
  }

  /** Taking one labelled row out of the middle of a frame takes its final
      row out of the final rows. */
  lemma GoldRowsMiddle(a: seq<Dated>, x: Dated, b: seq<Dated>)
    ensures multiset(GoldRows(a + [x] + b)) == multiset(GoldRows([x])) + multiset(GoldRows(a + b))
  {
    GoldRowsAppend(a, [x]);
    GoldRowsAppend(a + [x], b);
    GoldRowsAppend(a, b);
  }

  /** Reordering labelled rows reorders the final rows the same way. */
  lemma {:induction false} GoldRowsPermuted(xs: seq<Dated>, ys: seq<Dated>)
    requires multiset(xs) == multiset(ys)
    ensures multiset(GoldRows(xs)) == multiset(GoldRows(ys))
  {
    if xs != [] {
      var x, tail := xs[0], xs[1..];
      assert x in multiset(ys);
      var j :| 0 <= j < |ys| && ys[j] == x;
      var a, b := ys[..j], ys[j + 1..];
      assert ys == a + [x] + b;
      assert xs == [x] + tail;
      PermutationWithout(x, tail, a, b);
      GoldRowsPermuted(tail, a + b);
      GoldRowsAppend([x], tail);
      GoldRowsMiddle(a, x, b);
    }
  }

  /** The final rows are exactly the expected rows of the entries inside the
      window, each once, in some order: none is added, duplicated or lost,
      and entries older than the window or without fields give none. */
  lemma GoldRowsAreWindowRows(series: seq<Quote>, now: int)
    requires Renameable(FieldNames(series))
    ensures multiset(GoldRows(GoldFrame(series, now))) == multiset(WindowRows(series, FieldNames(series), now))
    ensures |GoldRows(GoldFrame(series, now))| == |WindowRows(series, FieldNames(series), now)|
  {
    var names := FieldNames(series);
    var filled := Filled(series);
    WindowRowsFilled(series, names, now);
    var renamed := RenameFrame(FromDict(series), names);
    assert renamed == Labelled(filled, names);
    var kept := Recent(renamed, now);
    WindowedLabelled(filled, names, now);
    GoldRowsPermuted(GoldFrame(series, now), kept);
    assert |multiset(GoldRows(GoldFrame(series, now)))| == |multiset(WindowRows(series, names, now))|;
  }

  /** What a successful call returns: rows sorted by Date, all inside the
      window, and exactly the expected rows of the entries in the window
      that have a field, each once. */
  lemma GoldSeriesRows(text: string, series: seq<Quote>, now: int)
    requires Renameable(FieldNames(series))
    ensures var r := GoldSeries(OkStatus, text, Some(series), now);
            && r.Success?
            && SortedByDate(r.value)
            && (forall i :: 0 <= i < |r.value| ==> InWindow(DateOf(r.value[i]), now))
            && multiset(r.value) == multiset(WindowRows(series, FieldNames(series), now))
  {
    GoldRowsSorted(series, now);
    GoldRowsAreWindowRows(series, now);
  }

  // ---------------------------------------------------------------------
  // The returned table (data_fetcher.py:52-55)
  // ---------------------------------------------------------------------

  /** fetch_gold_price, with the response given as its status, its text and
      the daily series of its body. The table is built from the labelled
      rows; `reset_index` turns the labels into a column "index", which is
      then renamed to Date, both in place. */
  method FetchGoldPrice(status: int, text: string, envelope: Option<seq<Quote>>, now: int)
    returns (r: Result<DataFrame, FetchError>)
    requires status == OkStatus && envelope.Some? ==> Renameable(FieldNames(envelope.value))
    ensures r.Failure? ==> GoldSeries(status, text, envelope, now) == Failure(r.error)
    ensures r.Success? ==> && GoldSeries(status, text, envelope, now) == Success(r.value.rows)
                           && fresh(r.value) && r.value.Valid()
                           && r.value.columns == Renamed(FieldNames(envelope.value)) + {DateColumn}
  {
    if status != OkStatus {
      return Failure(StatusError(status, text));
    }
    if envelope.None? {
      return Failure(MissingTimeSeries);
    }
    var names := Renamed(FieldNames(envelope.value));
    var frame := GoldFrame(envelope.value, now);
    var rows := seq(|frame|, i requires 0 <= i < |frame| => frame[i].row);
    var dates := seq(|frame|, i requires 0 <= i < |frame| => frame[i].date);
    var df := new DataFrame(names, rows);
    df.ResetIndex(dates);
    df.RenameColumn(IndexColumn, DateColumn);
    forall i | 0 <= i < |frame|
      ensures df.rows[i] == GoldRow(frame[i])
    {
      ResetThenRename(frame[i]);
    }
    assert df.rows == GoldRows(frame);
    r := Success(df);
  }

  /** Adding the label as column "index" and renaming that column to Date
      puts the label in the Date column. */
  lemma ResetThenRename(d: Dated)
    requires IndexColumn !in d.row && DateColumn !in d.row
    ensures RenamedCell(d.row[IndexColumn := Instant(d.date)], IndexColumn, DateColumn) == GoldRow(d)
  {
    var r := RenamedCell(d.row[IndexColumn := Instant(d.date)], IndexColumn, DateColumn);
    assert r.Keys == GoldRow(d).Keys;
  }

  // ---------------------------------------------------------------------
  // A worked example: two trading days, both inside the window
  // ---------------------------------------------------------------------

  /** The five Alpha Vantage fields become the five short names. */
  lemma AlphaNamesRenamed()
    ensures Renamed(AlphaNames) == ShortNames
  {
    forall c | c in ShortNames
      ensures c in Renamed(AlphaNames)
    {
      assert AlphaName(c) in AlphaNames && Canonical(AlphaName(c)) == c;
    }
  }

  /** A set of fields none of which already bears a short name, or is
      called "index" or Date, can be renamed without a collision. */
  lemma RenameableWithoutShortNames(names: set<string>)
    requires forall c :: c in names ==> c !in ShortNames && c != IndexColumn && c != DateColumn
    ensures Renameable(names)
  {
    forall a, b | a in names && b in names && Canonical(a) == Canonical(b)
      ensures a == b
    {
      CanonicalInverse(a);
      CanonicalInverse(b);
    }
    forall c | c in names
      ensures Canonical(c) != IndexColumn && Canonical(c) != DateColumn
    {
      CanonicalInverse(c);
    }
  }

  /** In particular the five Alpha Vantage fields can. */
  lemma AlphaNamesRenameable()
    ensures Renameable(AlphaNames)
  {
    RenameableWithoutShortNames(AlphaNames);
  }

  /** The columns of two entries with the same fields are those fields. */
  lemma SameFieldsAreColumns(day1: Quote, day2: Quote)
    requires day1.fields.Keys == day2.fields.Keys
    ensures FieldNames([day1, day2]) == day1.fields.Keys
  {
    assert [day1, day2][..1] == [day1];
    assert [day1][..0] == [];
    assert FieldNames([day1]) == FieldNames([]) + day1.fields.Keys;
    assert FieldNames([day1, day2]) == FieldNames([day1]) + day2.fields.Keys;
  }

  /** Two trading days inside the window with the same fields give a table
      of two rows, each with a Date column and the renamed fields; when
      both field objects are empty, the table has no row. */
  lemma TwoDaysGiveTwoRows(day1: Quote, day2: Quote, now: int)
    requires day1.fields.Keys == day2.fields.Keys && Renameable(day1.fields.Keys)
    requires InWindow(day1.date, now) && InWindow(day2.date, now)
    ensures Renameable(FieldNames([day1, day2]))
    ensures var r := GoldSeries(OkStatus, "", Some([day1, day2]), now);
            && r.Success? && |r.value| == (if day1.fields.Keys == {} then 0 else 2)
            && forall i :: 0 <= i < |r.value| ==> r.value[i].Keys == Renamed(day1.fields.Keys) + {DateColumn}
  {
    var series := [day1, day2];
    SameFieldsAreColumns(day1, day2);
    var frame := GoldFrame(series, now);
    assert GoldSeries(OkStatus, "", Some(series), now) == Success(GoldRows(frame));
    GoldRowsAreWindowRows(series, now);
    TwoDaysWindowRows(day1, day2, day1.fields.Keys, now);
  }

  /** Two entries in the window with the same fields are expected to give
      two rows, or none when their field objects are empty. */
  lemma TwoDaysWindowRows(day1: Quote, day2: Quote, names: set<string>, now: int)
    requires day1.fields.Keys == day2.fields.Keys && day1.fields.Keys <= names && Renameable(names)
    requires InWindow(day1.date, now) && InWindow(day2.date, now)
    ensures |WindowRows([day1, day2], names, now)| == if day1.fields.Keys == {} then 0 else 2
  {
    assert [day1, day2][..1] == [day1];
    assert [day1][..0] == [];
    assert HasFields(day1) == HasFields(day2);
    assert |WindowRows([day1], names, now)| == if HasFields(day1) then 1 else 0;
  }

  /** Two trading days inside the window, each with the five Alpha Vantage
      fields, give two rows with the columns Date, open, high, low, close
      and volume. */
  lemma AlphaVantageTwoDays(day1: Quote, day2: Quote, now: int)
    requires day1.fields.Keys == AlphaNames && day2.fields.Keys == AlphaNames
    requires InWindow(day1.date, now) && InWindow(day2.date, now)
    ensures FieldNames([day1, day2]) == AlphaNames && Renameable(AlphaNames)
    ensures var r := GoldSeries(OkStatus, "", Some([day1, day2]), now);
            && r.Success? && |r.value| == 2
            && forall i :: 0 <= i < |r.value| ==> r.value[i].Keys == ShortNames + {DateColumn}
  {
    AlphaNamesRenameable();
    SameFieldsAreColumns(day1, day2);
    TwoDaysGiveTwoRows(day1, day2, now);
    AlphaNamesRenamed();
  }

  /** An entry whose field object is empty gives no row: a day with fields
      and an empty day, both inside the window, give a table of one row,
      the first day's. */
  lemma EmptyDayGivesNoRow(day1: Quote, day2: Quote, now: int)
    requires HasFields(day1) && Renameable(day1.fields.Keys) && day2.fields == map[]
    requires InWindow(day1.date, now) && InWindow(day2.date, now)
    ensures FieldNames([day1, day2]) == day1.fields.Keys
    ensures var r := GoldSeries(OkStatus, "", Some([day1, day2]), now);
            && r.Success? && |r.value| == 1 && DateOf(r.value[0]) == day1.date
  {
    var series := [day1, day2];
    OneDayWindowRows(day1, day2, now);
    GoldSeriesRows("", series, now);
    OnlyElement(GoldSeries(OkStatus, "", Some(series), now).value, Expected(day1, day1.fields.Keys));
  }

  /** The columns and the expected rows of a day with fields followed by an
      empty day. */
  lemma OneDayWindowRows(day1: Quote, day2: Quote, now: int)
    requires HasFields(day1) && Renameable(day1.fields.Keys) && day2.fields == map[]
    requires InWindow(day1.date, now)
    ensures FieldNames([day1, day2]) == day1.fields.Keys
    ensures WindowRows([day1, day2], day1.fields.Keys, now) == [Expected(day1, day1.fields.Keys)]
  {
    var series, names := [day1, day2], day1.fields.Keys;
    assert series[..1] == [day1];
    assert [day1][..0] == [];
    assert FieldNames([day1]) == FieldNames([]) + names;
    assert FieldNames(series) == FieldNames([day1]) + day2.fields.Keys;
    assert WindowRows([day1], names, now) == [Expected(day1, names)];
  }
}
