/**
 * The table values both pipeline stages work on, and the in-place table
 * operations they call.
 *
 * A table is a set of column names and a sequence of rows; a row maps every
 * column to a cell. Calendar instants are seconds since an epoch; parsing a
 * date text into an instant is a parameter of the operations that do it.
 */
module Frames {
  import opened Wrappers
  import opened Sorting

  /** One cell: missing (None, NaN or NaT), an opaque value as the data source
      wrote it, or a calendar instant in seconds. */
  datatype Cell = Null | Text(text: string) | Instant(seconds: int)

  type Row = map<string, Cell>

  /** What `pd.to_datetime` makes of one date text: an instant, NaT (for
      texts it reads as missing, such as "" or "NaT"), or an error. */
  datatype ParsedDate = At(seconds: int) | NaT | Unreadable

  /** Reads the text of a date. */
  type DateParser = string -> ParsedDate

  const DateColumn := "Date"

  /** A row in which no cell is missing. */
  predicate Complete(r: Row) {
    forall c :: c in r ==> r[c] != Null
  }

  predicate HasInstantDate(r: Row) {
    DateColumn in r && r[DateColumn].Instant?
  }

  /** The instant of a row's Date, for a row whose Date is an instant (0 for
      any other row, which the sort never sees). */
  function DateOf(r: Row): int {
    if HasInstantDate(r) then r[DateColumn].seconds else 0
  }

  predicate DatesAreInstants(rs: seq<Row>) {
    forall i :: 0 <= i < |rs| ==> HasInstantDate(rs[i])
  }

  /** Non-decreasing by date; rows sharing a date may come in any order. */
  predicate SortedByDate(rs: seq<Row>) {
    DatesAreInstants(rs) && SortedBy(rs, DateOf)
  }

  // ---------------------------------------------------------------------
  // Date conversion: the column assignment at data_processor.py:24
  // ---------------------------------------------------------------------

  /** Converts one cell to a date: a missing cell stays missing, an instant
      stays as it is, a text becomes the instant it denotes or, when read as
      NaT, a missing cell; None when the text cannot be read. */
  function ToDatetime(c: Cell, parse: DateParser): (r: Option<Cell>)
    ensures r.None? <==> c.Text? && parse(c.text).Unreadable?
    ensures r.Some? ==> !r.value.Text?
    ensures !c.Text? ==> r == Some(c)
    ensures c.Text? && parse(c.text).At? ==> r == Some(Instant(parse(c.text).seconds))
    ensures c.Text? && parse(c.text).NaT? ==> r == Some(Null)
  {
    match c
    case Null => Some(Null)
    case Instant(_) => Some(c)
    case Text(s) => (match parse(s)
                     case At(t) => Some(Instant(t))
                     case NaT => Some(Null)
                     case Unreadable => None)
  }

  predicate DateParses(r: Row, parse: DateParser) {
    DateColumn in r ==> ToDatetime(r[DateColumn], parse).Some?
  }

  predicate DatesParse(rs: seq<Row>, parse: DateParser) {
    forall i :: 0 <= i < |rs| ==> DateParses(rs[i], parse)
  }

  /** Some row holds the date text `s`, which cannot be read. */
  predicate Unparsable(rs: seq<Row>, s: string, parse: DateParser) {
    parse(s).Unreadable? &&
    exists i :: 0 <= i < |rs| && DateColumn in rs[i] && rs[i][DateColumn] == Text(s)
  }

  /** A row after the Date column is converted: same columns, same cells
      except the date, which is now missing or an instant: the instant a
      date text denotes, missing for a text read as NaT, and unchanged when
      it was not a text. */
  function ConvertRow(r: Row, parse: DateParser): (r': Row)
    requires DateParses(r, parse)
    ensures r'.Keys == r.Keys
    ensures forall c :: c in r && c != DateColumn ==> r'[c] == r[c]
    ensures DateColumn in r ==> !r'[DateColumn].Text?
    ensures DateColumn in r && r[DateColumn].Text? && parse(r[DateColumn].text).At? ==>
              r'[DateColumn] == Instant(parse(r[DateColumn].text).seconds)
    ensures DateColumn in r && r[DateColumn].Text? && parse(r[DateColumn].text).NaT? ==> r'[DateColumn] == Null
    ensures DateColumn in r && !r[DateColumn].Text? ==> r'[DateColumn] == r[DateColumn]
  {
    if DateColumn in r then r[DateColumn := ToDatetime(r[DateColumn], parse).value] else r
  }

  /** Every row with its Date converted, in the same order. */
  function Converted(rs: seq<Row>, parse: DateParser): (rs': seq<Row>)
    requires DatesParse(rs, parse)
    ensures |rs'| == |rs|
    ensures forall i :: 0 <= i < |rs| ==> rs'[i] == ConvertRow(rs[i], parse)
  {
    if rs == [] then [] else [ConvertRow(rs[0], parse)] + Converted(rs[1..], parse)
  }

  // ---------------------------------------------------------------------
  // Dropping incomplete rows: dropna at data_processor.py:27
  // ---------------------------------------------------------------------

  /** The rows with no missing cell, in their original order. */
  function DropIncomplete(rs: seq<Row>): (kept: seq<Row>)
    ensures |kept| <= |rs|
    ensures forall r :: r in kept ==> Complete(r) && r in rs
  {
    if rs == [] then []
    else DropIncomplete(rs[..|rs| - 1]) + (if Complete(rs[|rs| - 1]) then [rs[|rs| - 1]] else [])
  }

  /** A complete row occurs in the kept rows exactly as often as in the input;
      an incomplete one not at all. */
  lemma {:induction false} DropIncompleteCount(rs: seq<Row>, r: Row)
    ensures multiset(DropIncomplete(rs))[r] == if Complete(r) then multiset(rs)[r] else 0
  {
    if rs != [] {
      var init, last := rs[..|rs| - 1], rs[|rs| - 1];
      assert rs == init + [last];
      DropIncompleteCount(init, r);
    }
  }

  lemma {:induction false} DropIncompleteKeepsComplete(rs: seq<Row>)
    requires forall i :: 0 <= i < |rs| ==> Complete(rs[i])
    ensures DropIncomplete(rs) == rs
  {
    if rs != [] {
      var init := rs[..|rs| - 1];
      DropIncompleteKeepsComplete(init);
      assert rs == init + [rs[|rs| - 1]];
    }
  }

  // ---------------------------------------------------------------------
  // The state process_data leaves one table in
  // ---------------------------------------------------------------------

  /** The rows cleaning keeps, in input order: each row with its Date
      converted, when it then has no missing cell. */
  function Kept(rs: seq<Row>, parse: DateParser): seq<Row>
    requires DatesParse(rs, parse)
  {
    if rs == [] then []
    else
      var r := ConvertRow(rs[|rs| - 1], parse);
      Kept(rs[..|rs| - 1], parse) + (if Complete(r) then [r] else [])
  }

  /** Kept is dropna applied after the Date conversion. */
  lemma {:induction false} KeptIsDropOfConverted(rs: seq<Row>, parse: DateParser)
    requires DatesParse(rs, parse)
    ensures Kept(rs, parse) == DropIncomplete(Converted(rs, parse))
  {
    if rs != [] {
      var init := rs[..|rs| - 1];
      KeptIsDropOfConverted(init, parse);
      var conv := Converted(rs, parse);
      assert conv[..|conv| - 1] == Converted(init, parse);
    }
  }

  /** After conversion and dropping, every row left has an instant for its
      date: a converted date is never a text, and a kept one is not missing. */
  lemma KeptDatesAreInstants(rs: seq<Row>, parse: DateParser)
    requires DatesParse(rs, parse)
    requires forall i :: 0 <= i < |rs| ==> DateColumn in rs[i]
    ensures DatesAreInstants(DropIncomplete(Converted(rs, parse)))
  {
    var conv := Converted(rs, parse);
    var kept := DropIncomplete(conv);
    forall i | 0 <= i < |kept|
      ensures HasInstantDate(kept[i])
    {
      assert kept[i] in conv;
      var j :| 0 <= j < |conv| && conv[j] == kept[i];
      assert conv[j][DateColumn] != Null;
    }
  }

  /** The same rows, each as often, in any order. */
  ghost predicate SameRows(a: seq<Row>, b: seq<Row>) {
    forall r :: multiset(a)[r] == multiset(b)[r]
  }

  /** `out` is what cleaning `input` may yield: all dates parsed, sorted by
      date, and a permutation of the converted rows that have no missing cell. */
  ghost predicate CleanedFrom(out: seq<Row>, input: seq<Row>, parse: DateParser) {
    DatesParse(input, parse) &&
    SortedByDate(out) &&
    SameRows(out, Kept(input, parse))
  }

  /** Converting the dates, dropping incomplete rows and sorting what is
      left, one after the other, is a cleaning. */
  lemma CleanedBySteps(out: seq<Row>, input: seq<Row>, parse: DateParser)
    requires DatesParse(input, parse) && SortedByDate(out)
    requires multiset(out) == multiset(DropIncomplete(Converted(input, parse)))
    ensures CleanedFrom(out, input, parse)
  {
    KeptIsDropOfConverted(input, parse);
  }

  /** The rows of a cleaning, counted: CleanedFrom states a permutation of the
      converted complete rows. */
  lemma CleanedRowsCounted(out: seq<Row>, input: seq<Row>, parse: DateParser)
    requires CleanedFrom(out, input, parse)
    ensures multiset(out) == multiset(DropIncomplete(Converted(input, parse)))
  {
    KeptIsDropOfConverted(input, parse);
    assert multiset(out) == multiset(Kept(input, parse));
  }

  /** No missing cell remains, and every date is an instant. */
  lemma CleanedRowsComplete(out: seq<Row>, input: seq<Row>, parse: DateParser)
    requires CleanedFrom(out, input, parse)
    ensures forall i :: 0 <= i < |out| ==> Complete(out[i]) && HasInstantDate(out[i])
  {
    CleanedRowsCounted(out, input, parse);
    forall i | 0 <= i < |out|
      ensures Complete(out[i])
    {
      assert out[i] in multiset(DropIncomplete(Converted(input, parse)));
    }
  }

  /** The cleaned rows are exactly the converted input rows with no missing
      cell: each occurs as often as in the converted input, the others never. */
  lemma CleanedKeepsExactlyCompleteRows(out: seq<Row>, input: seq<Row>, parse: DateParser, r: Row)
    requires CleanedFrom(out, input, parse)
    ensures multiset(out)[r] == if Complete(r) then multiset(Converted(input, parse))[r] else 0
    ensures r in out <==> Complete(r) && exists i :: 0 <= i < |input| && r == ConvertRow(input[i], parse)
  {
    CleanedRowsCounted(out, input, parse);
    var conv := Converted(input, parse);
    DropIncompleteCount(conv, r);
    if Complete(r) && r in conv {
      var i :| 0 <= i < |conv| && conv[i] == r;
      assert r == ConvertRow(input[i], parse);
    }
    if exists i :: 0 <= i < |input| && r == ConvertRow(input[i], parse) {
      var i :| 0 <= i < |input| && r == ConvertRow(input[i], parse);
      assert conv[i] == r;
    }
  }

  /** `r` is `src` with its date converted to the instant `r` holds. */
  predicate FromInputRow(r: Row, src: Row, parse: DateParser) {
    && r.Keys == src.Keys && DateColumn in src && DateColumn in r
    && (forall c :: c in src && c != DateColumn ==> r[c] == src[c])
    && (|| src[DateColumn] == Instant(DateOf(r))
        || (src[DateColumn].Text? && parse(src[DateColumn].text) == At(DateOf(r))))
  }

  /** A converted row whose Date is an instant comes from its source row so. */
  lemma ConvertedFromInputRow(src: Row, parse: DateParser)
    requires DateParses(src, parse) && HasInstantDate(ConvertRow(src, parse))
    ensures FromInputRow(ConvertRow(src, parse), src, parse)
  {
  }

  /** Every cleaned row is an input row with its date converted: the same
      cells elsewhere, and as Date the instant the input's date text
      denotes, or the instant the input already held. */
  lemma CleanedDatesFromInput(out: seq<Row>, input: seq<Row>, parse: DateParser, k: nat)
    requires CleanedFrom(out, input, parse) && k < |out|
    ensures exists i :: 0 <= i < |input| && FromInputRow(out[k], input[i], parse)
  {
    assert HasInstantDate(out[k]);
    CleanedKeepsExactlyCompleteRows(out, input, parse, out[k]);
    var i :| 0 <= i < |input| && out[k] == ConvertRow(input[i], parse);
    ConvertedFromInputRow(input[i], parse);
  }

  /** A row whose date text `pd.to_datetime` reads as NaT is gone after
      cleaning: its Date becomes missing, so dropna removes it. */
  lemma NaTDateDropped(out: seq<Row>, input: seq<Row>, parse: DateParser, i: nat)
    requires CleanedFrom(out, input, parse) && i < |input|
    requires DateColumn in input[i] && input[i][DateColumn].Text? && parse(input[i][DateColumn].text).NaT?
    ensures ConvertRow(input[i], parse) !in out
  {
    var r := ConvertRow(input[i], parse);
    assert r[DateColumn] == Null;
    CleanedKeepsExactlyCompleteRows(out, input, parse, r);
  }

  /** Cleaning keeps exactly as many rows as the input has complete converted rows. */
  lemma CleanedSize(out: seq<Row>, input: seq<Row>, parse: DateParser)
    requires CleanedFrom(out, input, parse)
    ensures |out| == |DropIncomplete(Converted(input, parse))| <= |input|
  {
    CleanedRowsCounted(out, input, parse);
    assert |multiset(out)| == |multiset(DropIncomplete(Converted(input, parse)))|;
  }

  /** Cleaned rows parse again. */
  lemma CleanedRowsParse(out: seq<Row>, input: seq<Row>, parse: DateParser)
    requires CleanedFrom(out, input, parse)
    ensures DatesParse(out, parse)
  {
    CleanedRowsComplete(out, input, parse);
  }

  /** Converting cleaned rows changes nothing, and dropna keeps all of them. */
  lemma CleanedRowsAreFixedPoint(out: seq<Row>, input: seq<Row>, parse: DateParser)
    requires CleanedFrom(out, input, parse)
    ensures DatesParse(out, parse) && Kept(out, parse) == out
  {
    CleanedRowsComplete(out, input, parse);
    forall i | 0 <= i < |out|
      ensures ConvertRow(out[i], parse) == out[i]
    {
      assert out[i][DateColumn := out[i][DateColumn]] == out[i];
    }
    KeptIsDropOfConverted(out, parse);
    assert Converted(out, parse) == out;
    DropIncompleteKeepsComplete(out);
  }

  /** Whether rows are a cleaning of an input depends only on the rows the
      input keeps: rows that clean two inputs make any cleaning of one a
      cleaning of the other. */
  lemma CleanedFromSameRows(out1: seq<Row>, out2: seq<Row>, input1: seq<Row>, input2: seq<Row>, parse: DateParser)
    requires CleanedFrom(out1, input1, parse) && CleanedFrom(out1, input2, parse)
    requires CleanedFrom(out2, input1, parse)
    ensures CleanedFrom(out2, input2, parse)
  {
  }

  /** Cleaning a cleaned table again still yields a cleaning of the original,
      so processing one table object twice (it stands under two keys) keeps
      every promise made about the first pass. */
  lemma CleanedTwice(out2: seq<Row>, out1: seq<Row>, input: seq<Row>, parse: DateParser)
    requires CleanedFrom(out1, input, parse)
    requires CleanedFrom(out2, out1, parse)
    ensures CleanedFrom(out2, input, parse)
  {
    CleanedRowsAreFixedPoint(out1, input, parse);
  }

  // ---------------------------------------------------------------------
  // The table object
  // ---------------------------------------------------------------------

  predicate Shaped(columns: set<string>, rows: seq<Row>) {
    forall i :: 0 <= i < |rows| ==> rows[i].Keys == columns
  }

  /** A pandas DataFrame: its column set and its rows, both updated in place.
      The row labels (index) are not part of this model. */
  class DataFrame {
    var columns: set<string>
    var rows: seq<Row>

    /** Every row has a cell for exactly the frame's columns. */
    ghost predicate Valid()
      reads this
    {
      Shaped(columns, rows)
    }

    constructor (columns: set<string>, rows: seq<Row>)
      requires Shaped(columns, rows)
      ensures Valid() && this.columns == columns && this.rows == rows
    {
      this.columns := columns;
      this.rows := rows;
    }

    /** `df['Date'] = pd.to_datetime(df['Date'])`: every date text is parsed.
        When one does not parse, the call fails with that text and the
        table is left as it was. */
    method ConvertDates(parse: DateParser) returns (bad: Option<string>)
      requires Valid() && DateColumn in columns
      modifies this
      ensures Valid() && columns == old(columns)
      ensures bad.None? <==> DatesParse(old(rows), parse)
      ensures bad.None? ==> rows == Converted(old(rows), parse)
      ensures bad.Some? ==> rows == old(rows) && Unparsable(rows, bad.value, parse)
      ensures bad.Some? ==> exists k :: 0 <= k < |rows| && rows[k][DateColumn] == Text(bad.value)
                                        && DatesParse(rows[..k], parse)
    {
      var converted: seq<Row> := [];
      var i := 0;
      while i < |rows|
        invariant 0 <= i <= |rows|
        invariant DatesParse(rows[..i], parse)
        invariant |converted| == i
        invariant forall k :: 0 <= k < i ==> converted[k] == ConvertRow(rows[k], parse)
      {
        var c := ToDatetime(rows[i][DateColumn], parse);
        if c.None? {
          bad := Some(rows[i][DateColumn].text);
          assert rows[i][DateColumn] == Text(bad.value);
          return;
        }
        converted := converted + [rows[i][DateColumn := c.value]];
        i := i + 1;
      }
      assert rows[..i] == rows;
      rows := converted;
      bad := None;
    }

    /** `df.dropna(inplace=True)`: removes every row with a missing cell. */
    method DropNa()
      requires Valid()
      modifies this
      ensures Valid() && columns == old(columns)
      ensures rows == DropIncomplete(old(rows))
    {
      var kept: seq<Row> := [];
      var i := 0;
      while i < |rows|
        invariant 0 <= i <= |rows|
        invariant kept == DropIncomplete(rows[..i])
        invariant Shaped(columns, kept)
      {
        assert rows[..i + 1][..i] == rows[..i];
        if Complete(rows[i]) {
          kept := kept + [rows[i]];
        }
        i := i + 1;
      }
      assert rows[..i] == rows;
      rows := kept;
    }

    /** `df.sort_values(by='Date', inplace=True)`: reorders the rows so that
        their dates do not decrease. */
    method SortByDate()
      requires Valid() && DatesAreInstants(rows)
      modifies this
      ensures Valid() && columns == old(columns)
      ensures SortedByDate(rows) && multiset(rows) == multiset(old(rows))
    {
      var sorted := Sort(rows, DateOf);
      forall k | 0 <= k < |sorted|
        ensures sorted[k].Keys == columns && HasInstantDate(sorted[k])
      {
        assert sorted[k] in multiset(rows);
      }
      rows := sorted;
    }

    /** `df.reset_index(inplace=True)` on a frame indexed by dates: the labels
        `index` become a new column named "index", row by row. */
    method ResetIndex(index: seq<int>)
      requires Valid() && |index| == |rows| && IndexColumn !in columns
      modifies this
      ensures Valid() && columns == old(columns) + {IndexColumn}
      ensures |rows| == |old(rows)|
      ensures forall i :: 0 <= i < |rows| ==> rows[i] == old(rows)[i][IndexColumn := Instant(index[i])]
    {
      var before := rows;
      rows := seq(|before|, i requires 0 <= i < |before| => before[i][IndexColumn := Instant(index[i])]);
      columns := columns + {IndexColumn};
    }

    /** `df.rename(columns={from: to}, inplace=True)`: the column keeps its
        cells under its new name. */
    method RenameColumn(from: string, to: string)
      requires Valid() && from in columns && to !in columns
      modifies this
      ensures Valid() && columns == old(columns) - {from} + {to}
      ensures |rows| == |old(rows)|
      ensures forall i :: 0 <= i < |rows| ==> rows[i] == RenamedCell(old(rows)[i], from, to)
    {
      var before := rows;
      assert forall i :: 0 <= i < |before| ==> from in before[i];
      rows := seq(|before|, i requires 0 <= i < |before| => RenamedCell(before[i], from, to));
      columns := columns - {from} + {to};
    }
  }

  const IndexColumn := "index"

  /** The row with the cell of column `from` moved to column `to`. */
  function RenamedCell(r: Row, from: string, to: string): (r': Row)
    requires from in r
    ensures r'.Keys == r.Keys - {from} + {to}
    ensures r'[to] == r[from]
    ensures forall c :: c in r && c != from && c != to ==> r'[c] == r[c]
  {
    (r - {from})[to := r[from]]
  }
}
