/**
 * The cleaning pass of data_processor.py: for every named table, convert the
 * Date column, drop each row with a missing cell, and sort by Date, all in
 * place; the result dictionary holds the same table objects under the same
 * names.
 */
module DataProcessor {
  import opened Wrappers
  import opened Frames

  /** Why process_data raises: a date text pd.to_datetime cannot read, or a
      table without a Date column (row labels are not modelled, so neither
      is an index level named Date, which sort_values would also accept). */
  datatype CleanError = UnparsableDate(text: string) | MissingDate

  /** A table process_data can clean: it has a Date column and every date
      text in it parses. */
  predicate Cleanable(columns: set<string>, rows: seq<Row>, parse: DateParser) {
    DateColumn in columns && DatesParse(rows, parse)
  }

  /** How a table with columns `columns` and rows `before` is left when
      cleaning it fails with `e`: a bad date text leaves it as it was; a
      missing Date column skips the conversion, so dropna has already removed
      the incomplete rows when the sort fails. */
  predicate FailedWith(before: seq<Row>, columns: set<string>, after: seq<Row>, e: CleanError, parse: DateParser) {
    match e
    case UnparsableDate(s) => DateColumn in columns && after == before && Unparsable(before, s, parse)
    case MissingDate => DateColumn !in columns && after == DropIncomplete(before)
  }

  /** A text that does not parse makes its table not cleanable. */
  lemma UnparsableNotCleanable(rs: seq<Row>, columns: set<string>, s: string, parse: DateParser)
    requires Unparsable(rs, s, parse)
    ensures !Cleanable(columns, rs, parse)
  {
    var i :| 0 <= i < |rs| && DateColumn in rs[i] && rs[i][DateColumn] == Text(s);
    assert !DateParses(rs[i], parse);
  }

  /** The body of the loop of process_data for one table. Without a Date
      column the conversion is skipped, dropna still runs, and the sort
      fails. When a date text does not parse, the table is left as it was
      and that text is reported. Otherwise the table ends up cleaned. */
  method CleanTable(df: DataFrame, parse: DateParser) returns (bad: Option<CleanError>)
    requires df.Valid()
    modifies df
    ensures df.Valid() && df.columns == old(df.columns)
    ensures bad.None? <==> Cleanable(old(df.columns), old(df.rows), parse)
    ensures bad.None? ==> CleanedFrom(df.rows, old(df.rows), parse)
    ensures bad.Some? ==> FailedWith(old(df.rows), df.columns, df.rows, bad.value, parse)
  {
    ghost var input := df.rows;
    if DateColumn !in df.columns {
      df.DropNa();
      return Some(MissingDate);
    }
    var unparsed := df.ConvertDates(parse);
    if unparsed.Some? {
      return Some(UnparsableDate(unparsed.value));
    }
    df.DropNa();
    KeptDatesAreInstants(input, parse);
    df.SortByDate();
    CleanedBySteps(df.rows, input, parse);
    bad := None;
  }

  /** The iteration order of the dictionary lists every key of it. */
  predicate IsKeyOrder(order: seq<string>, tables: map<string, DataFrame>) {
    tables.Keys == set k | k in order
  }

  /** No key comes twice in the iteration order. */
  predicate Distinct(order: seq<string>) {
    forall i, j :: 0 <= i < j < |order| ==> order[i] != order[j]
  }

  /** No name before the `i`-th in the iteration order holds the table `t`. */
  predicate Unreached(order: seq<string>, tables: map<string, DataFrame>, i: nat, t: DataFrame)
    requires i <= |order| && IsKeyOrder(order, tables)
  {
    forall j :: 0 <= j < i ==> tables[order[j]] != t
  }

  /** The rows each key's table holds. */
  ghost function RowsOf(tables: map<string, DataFrame>): (rows: map<string, seq<Row>>)
    reads tables.Values
    ensures rows.Keys == tables.Keys
  {
    map k | k in tables :: tables[k].rows
  }

  /** The columns each key's table has. */
  ghost function ColumnsOf(tables: map<string, DataFrame>): (columns: map<string, set<string>>)
    reads tables.Values
    ensures columns.Keys == tables.Keys
  {
    map k | k in tables :: tables[k].columns
  }

  /** Every key's rows fit the columns `columns0` records for it. */
  predicate ShapedAll(tables: map<string, DataFrame>, rows: map<string, seq<Row>>,
                      columns0: map<string, set<string>>)
  {
    && rows.Keys == tables.Keys && columns0.Keys == tables.Keys
    && forall k :: k in tables ==> Shaped(columns0[k], rows[k])
  }

  /** Every table cleaned so far has a Date column. */
  predicate DatedDone(tables: map<string, DataFrame>, columns0: map<string, set<string>>, done: set<DataFrame>) {
    forall k :: k in tables && k in columns0 && tables[k] in done ==> DateColumn in columns0[k]
  }

  /** Under a name whose table is in `done`, `rows` holds a cleaning of what
      `rows0` records for it; under every other name, still those rows. */
  ghost predicate CleanedAll(tables: map<string, DataFrame>, rows: map<string, seq<Row>>,
                             rows0: map<string, seq<Row>>, done: set<DataFrame>, parse: DateParser)
  {
    && rows.Keys == tables.Keys && rows0.Keys == tables.Keys
    && (forall k :: k in tables && tables[k] in done ==> CleanedFrom(rows[k], rows0[k], parse))
    && (forall k :: k in tables && tables[k] !in done ==> rows[k] == rows0[k])
  }

  /** `done` holds exactly the tables under the first `i` names, and `result`
      maps those names to their tables. */
  predicate Covered(order: seq<string>, tables: map<string, DataFrame>, i: nat, done: set<DataFrame>,
                    result: map<string, DataFrame>)
  {
    && i <= |order| && IsKeyOrder(order, tables)
    && (forall j :: 0 <= j < i ==> tables[order[j]] in done && order[j] in result)
    && (forall k :: k in tables && tables[k] in done ==> !Unreached(order, tables, i, tables[k]))
    && (forall k :: k in result ==> k in tables && result[k] == tables[k])
  }

  /** Visiting the `i`-th name covers one more name. */
  lemma CoveredStep(order: seq<string>, tables: map<string, DataFrame>, i: nat, done: set<DataFrame>,
                    result: map<string, DataFrame>)
    requires Covered(order, tables, i, done, result) && i < |order|
    ensures Covered(order, tables, i + 1, done + {tables[order[i]]}, result[order[i] := tables[order[i]]])
  {
  }

  /** Where process_data stands before the `i`-th name, with `rows` the rows
      each name's table holds now. `rows0` and `columns0` hold what each
      name's table had on entry; `done` holds the tables cleaned so far. */
  ghost predicate ReachedWith(order: seq<string>, tables: map<string, DataFrame>, rows: map<string, seq<Row>>,
                              rows0: map<string, seq<Row>>, columns0: map<string, set<string>>, i: nat,
                              done: set<DataFrame>, result: map<string, DataFrame>, parse: DateParser)
  {
    && ShapedAll(tables, rows, columns0) && DatedDone(tables, columns0, done)
    && CleanedAll(tables, rows, rows0, done, parse) && Covered(order, tables, i, done, result)
  }

  /** `rows` and `columns` record what each name's table holds now. */
  ghost predicate Tracks(tables: map<string, DataFrame>, rows: map<string, seq<Row>>,
                         columns: map<string, set<string>>)
    reads tables.Values
  {
    && rows.Keys == tables.Keys && columns.Keys == tables.Keys
    && forall k :: k in tables ==> tables[k].rows == rows[k] && tables[k].columns == columns[k]
  }

  /** The rows each name's table holds once the table `df` holds `newRows`:
      every name under which `df` stands sees the change. */
  function WithRows(tables: map<string, DataFrame>, rows: map<string, seq<Row>>, df: DataFrame,
                    newRows: seq<Row>): (rows': map<string, seq<Row>>)
    requires rows.Keys == tables.Keys
    ensures rows'.Keys == tables.Keys
    ensures forall k :: k in tables ==> rows'[k] == if tables[k] == df then newRows else rows[k]
  {
    map k | k in tables :: if tables[k] == df then newRows else rows[k]
  }

  /** Cleaning the table under the `i`-th name reaches the next name, even
      when that table also stands under other names. */
  lemma ReachedStep(order: seq<string>, tables: map<string, DataFrame>, rows: map<string, seq<Row>>,
                    rows0: map<string, seq<Row>>, columns0: map<string, set<string>>, i: nat,
                    done: set<DataFrame>, result: map<string, DataFrame>, newRows: seq<Row>, parse: DateParser)
    requires ReachedWith(order, tables, rows, rows0, columns0, i, done, result, parse) && i < |order|
    requires forall k :: k in tables && tables[k] == tables[order[i]] ==>
               rows[k] == rows[order[i]] && columns0[k] == columns0[order[i]]
    requires DateColumn in columns0[order[i]]
    requires Shaped(columns0[order[i]], newRows) && CleanedFrom(newRows, rows0[order[i]], parse)
    ensures ReachedWith(order, tables, WithRows(tables, rows, tables[order[i]], newRows), rows0, columns0,
                        i + 1, done + {tables[order[i]]}, result[order[i] := tables[order[i]]], parse)
  {
    CoveredStep(order, tables, i, done, result);
    ShapedStep(tables, rows, columns0, order[i], newRows);
    CleanedStep(tables, rows, rows0, done, order[i], newRows, parse);
  }

  /** New rows that fit the columns of the table under `name` keep every
      name's rows fitting its columns. */
  lemma ShapedStep(tables: map<string, DataFrame>, rows: map<string, seq<Row>>,
                   columns0: map<string, set<string>>, name: string, newRows: seq<Row>)
    requires ShapedAll(tables, rows, columns0) && name in tables
    requires forall k :: k in tables && tables[k] == tables[name] ==> columns0[k] == columns0[name]
    requires Shaped(columns0[name], newRows)
    ensures ShapedAll(tables, WithRows(tables, rows, tables[name], newRows), columns0)
  {
  }

  /** Rows that clean the original rows of the table under `name` are a
      cleaning for every name that table stands under. */
  lemma CleanedStep(tables: map<string, DataFrame>, rows: map<string, seq<Row>>,
                    rows0: map<string, seq<Row>>, done: set<DataFrame>, name: string, newRows: seq<Row>,
                    parse: DateParser)
    requires CleanedAll(tables, rows, rows0, done, parse) && name in tables
    requires forall k :: k in tables && tables[k] == tables[name] ==> rows[k] == rows[name]
    requires CleanedFrom(newRows, rows0[name], parse)
    ensures CleanedAll(tables, WithRows(tables, rows, tables[name], newRows), rows0, done + {tables[name]}, parse)
  {
    var df := tables[name];
    forall k | k in tables && tables[k] == df
      ensures CleanedFrom(newRows, rows0[k], parse)
    {
      if df in done {
        CleanedFromSameRows(rows[k], newRows, rows0[name], rows0[k], parse);
      }
    }
  }

  /** Processing stopped at the `i`-th name with the error `e`: its table is
      left as FailedWith says, every earlier name's table was cleanable and
      `rows` holds a cleaning of it, and for every other table not reached
      the rows `rows0` records for it. */
  ghost predicate StoppedWith(order: seq<string>, tables: map<string, DataFrame>, rows: map<string, seq<Row>>,
                              rows0: map<string, seq<Row>>, columns0: map<string, set<string>>, i: nat,
                              e: CleanError, parse: DateParser)
    requires i < |order| && IsKeyOrder(order, tables)
    requires rows.Keys == tables.Keys && rows0.Keys == tables.Keys && columns0.Keys == tables.Keys
  {
    && FailedWith(rows0[order[i]], columns0[order[i]], rows[order[i]], e, parse)
    && (forall j :: 0 <= j < i ==> Cleanable(columns0[order[j]], rows0[order[j]], parse))
    && (forall j :: 0 <= j < i ==> CleanedFrom(rows[order[j]], rows0[order[j]], parse))
    && (forall k :: k in tables && Unreached(order, tables, i, tables[k]) && tables[k] != tables[order[i]] ==>
          rows[k] == rows0[k])
  }

  /** The same, read off the tables themselves. */
  ghost predicate StoppedAt(order: seq<string>, tables: map<string, DataFrame>, rows0: map<string, seq<Row>>,
                            i: nat, e: CleanError, parse: DateParser)
    requires i < |order| && IsKeyOrder(order, tables) && rows0.Keys == tables.Keys
    reads tables.Values
  {
    && FailedWith(rows0[order[i]], tables[order[i]].columns, tables[order[i]].rows, e, parse)
    && (forall j :: 0 <= j < i ==> Cleanable(tables[order[j]].columns, rows0[order[j]], parse))
    && (forall j :: 0 <= j < i ==> CleanedFrom(tables[order[j]].rows, rows0[order[j]], parse))
    && (forall k :: k in tables && Unreached(order, tables, i, tables[k]) && tables[k] != tables[order[i]] ==>
          tables[k].rows == rows0[k])
  }

  /** A table left as a failure leaves it was not cleanable. */
  lemma FailedNotCleanable(before: seq<Row>, columns: set<string>, after: seq<Row>, e: CleanError,
                           parse: DateParser)
    requires FailedWith(before, columns, after, e, parse)
    ensures !Cleanable(columns, before, parse)
  {
    if e.UnparsableDate? {
      UnparsableNotCleanable(before, columns, e.text, parse);
    }
  }

  /** A stop is at the first table that cannot be cleaned, so two stops
      describing the same tables are at the same name. */
  lemma StopIsUnique(order: seq<string>, tables: map<string, DataFrame>, rows0: map<string, seq<Row>>,
                     i: nat, e: CleanError, i': nat, e': CleanError, parse: DateParser)
    requires i < |order| && i' < |order| && IsKeyOrder(order, tables) && rows0.Keys == tables.Keys
    requires StoppedAt(order, tables, rows0, i, e, parse) && StoppedAt(order, tables, rows0, i', e', parse)
    ensures i == i'
  {
    if i < i' {
      FailedNotCleanable(rows0[order[i]], tables[order[i]].columns, tables[order[i]].rows, e, parse);
    } else if i' < i {
      FailedNotCleanable(rows0[order[i']], tables[order[i']].columns, tables[order[i']].rows, e', parse);
    }
  }

  /** A failure in the table under the `i`-th name stops processing there:
      that table has not been cleaned before, so it started from its
      original rows, and those rows are not cleanable. */
  lemma StoppedStep(order: seq<string>, tables: map<string, DataFrame>, rows: map<string, seq<Row>>,
                    rows0: map<string, seq<Row>>, columns0: map<string, set<string>>, i: nat,
                    done: set<DataFrame>, result: map<string, DataFrame>, e: CleanError, newRows: seq<Row>,
                    parse: DateParser)
    requires ReachedWith(order, tables, rows, rows0, columns0, i, done, result, parse) && i < |order|
    requires tables[order[i]] !in done && FailedWith(rows0[order[i]], columns0[order[i]], newRows, e, parse)
    ensures StoppedWith(order, tables, WithRows(tables, rows, tables[order[i]], newRows), rows0, columns0, i, e, parse)
    ensures !Cleanable(columns0[order[i]], rows0[order[i]], parse)
  {
    var df := tables[order[i]];
    var rows' := WithRows(tables, rows, df, newRows);
    assert rows'[order[i]] == newRows && rows[order[i]] == rows0[order[i]];
    forall j | 0 <= j < i
      ensures Cleanable(columns0[order[j]], rows0[order[j]], parse)
      ensures CleanedFrom(rows'[order[j]], rows0[order[j]], parse)
    {
      assert tables[order[j]] in done;
    }
    forall k | k in tables && Unreached(order, tables, i, tables[k]) && tables[k] != df
      ensures rows'[k] == rows0[k]
    {
      assert tables[k] !in done;
    }
    if e.UnparsableDate? {
      UnparsableNotCleanable(rows0[order[i]], columns0[order[i]], e.text, parse);
    }
  }

  /** process_data: cleans every table in iteration order and returns a new
      dictionary with the same keys and the same table objects. On success
      every table is cleaned, in place. On the first table that cannot be
      cleaned processing stops: the tables before it could be and are
      cleaned, that table is left as FailedWith says, and every table not yet
      reached is unchanged. A table stored under two names is cleaned twice,
      which stays a cleaning of the original rows. */
  method ProcessData(order: seq<string>, tables: map<string, DataFrame>, parse: DateParser)
    returns (r: Result<map<string, DataFrame>, CleanError>)
    requires IsKeyOrder(order, tables) && Distinct(order)
    requires forall k :: k in tables ==> tables[k].Valid()
    modifies tables.Values
    ensures forall k :: k in tables ==> tables[k].Valid() && tables[k].columns == old(tables[k].columns)
    ensures r.Success? <==> forall k :: k in tables ==> Cleanable(old(tables[k].columns), old(tables[k].rows), parse)
    ensures r.Success? ==> r.value == tables
    ensures r.Success? ==> forall k :: k in tables ==> CleanedFrom(tables[k].rows, old(tables[k].rows), parse)
    ensures r.Failure? ==> exists i ::
              && 0 <= i < |order| && StoppedAt(order, tables, old(RowsOf(tables)), i, r.error, parse)
              && (forall j :: 0 <= j < i ==> Cleanable(old(tables[order[j]].columns), old(tables[order[j]].rows), parse))
  {
    ghost var rows0 := RowsOf(tables);
    ghost var columns0 := ColumnsOf(tables);
    ghost var rows := rows0;
    ghost var done: set<DataFrame> := {};
    var result: map<string, DataFrame> := map[];
    var i := 0;
    while i < |order|
      invariant Tracks(tables, rows, columns0)
      invariant ReachedWith(order, tables, rows, rows0, columns0, i, done, result, parse)
    {
      var bad;
      bad, result, rows := Visit(order, tables, rows, rows0, columns0, i, done, result, parse);
      if bad.Some? {
        TrackedValid(tables, rows, columns0);
        StoppedRead(order, tables, rows, rows0, columns0, i, bad.value, parse);
        r := Failure(bad.value);
        return;
      }
      done := done + {tables[order[i]]};
      i := i + 1;
    }
    TrackedValid(tables, rows, columns0);
    ReachedEnd(order, tables, rows, rows0, columns0, done, result, parse);
    r := Success(result);
  }

  /** Tables whose tracked rows fit their tracked columns are well formed. */
  lemma TrackedValid(tables: map<string, DataFrame>, rows: map<string, seq<Row>>,
                     columns0: map<string, set<string>>)
    requires Tracks(tables, rows, columns0) && ShapedAll(tables, rows, columns0)
    ensures forall k :: k in tables ==> tables[k].Valid() && tables[k].columns == columns0[k]
  {
  }

  /** Once every name is reached, the result is the dictionary itself and
      every table is cleaned. */
  lemma ReachedEnd(order: seq<string>, tables: map<string, DataFrame>, rows: map<string, seq<Row>>,
                   rows0: map<string, seq<Row>>, columns0: map<string, set<string>>, done: set<DataFrame>,
                   result: map<string, DataFrame>, parse: DateParser)
    requires ReachedWith(order, tables, rows, rows0, columns0, |order|, done, result, parse)
    ensures result == tables
    ensures forall k :: k in tables ==> CleanedFrom(rows[k], rows0[k], parse) && Cleanable(columns0[k], rows0[k], parse)
  {
  }

  /** A stop recorded in `rows` is a stop of the tables those rows track. */
  lemma StoppedRead(order: seq<string>, tables: map<string, DataFrame>, rows: map<string, seq<Row>>,
                    rows0: map<string, seq<Row>>, columns0: map<string, set<string>>, i: nat, e: CleanError,
                    parse: DateParser)
    requires i < |order| && IsKeyOrder(order, tables) && rows0.Keys == tables.Keys
    requires Tracks(tables, rows, columns0) && StoppedWith(order, tables, rows, rows0, columns0, i, e, parse)
    ensures StoppedAt(order, tables, rows0, i, e, parse)
  {
  }

  /** One iteration of process_data: cleans the table under the `i`-th name
      and records it in the result; `rows'` tracks the rows afterwards. */
  method Visit(order: seq<string>, tables: map<string, DataFrame>, ghost rows: map<string, seq<Row>>,
               ghost rows0: map<string, seq<Row>>, ghost columns0: map<string, set<string>>, i: nat,
               ghost done: set<DataFrame>, result: map<string, DataFrame>, parse: DateParser)
    returns (bad: Option<CleanError>, result': map<string, DataFrame>, ghost rows': map<string, seq<Row>>)
    requires Tracks(tables, rows, columns0)
    requires ReachedWith(order, tables, rows, rows0, columns0, i, done, result, parse) && i < |order|
    modifies tables[order[i]]
    ensures Tracks(tables, rows', columns0)
    ensures bad.None? ==> ReachedWith(order, tables, rows', rows0, columns0, i + 1, done + {tables[order[i]]}, result', parse)
    ensures bad.Some? ==> ShapedAll(tables, rows', columns0)
    ensures bad.Some? ==> StoppedWith(order, tables, rows', rows0, columns0, i, bad.value, parse)
    ensures bad.Some? ==> !Cleanable(columns0[order[i]], rows0[order[i]], parse)
  {
    var df := tables[order[i]];
    assert forall k :: k in tables && tables[k] == df ==> rows[k] == rows[order[i]] && columns0[k] == columns0[order[i]];
    bad := CleanStep(df, rows0[order[i]], df in done, parse);
    result' := result[order[i] := df];
    rows' := WithRows(tables, rows, df, df.rows);
    if bad.None? {
      ReachedStep(order, tables, rows, rows0, columns0, i, done, result, df.rows, parse);
    } else {
      ShapedStep(tables, rows, columns0, order[i], df.rows);
      StoppedStep(order, tables, rows, rows0, columns0, i, done, result, bad.value, df.rows, parse);
    }
    forall k | k in tables
      ensures tables[k].rows == rows'[k] && tables[k].columns == columns0[k]
    {
      if tables[k] != df {
        assert tables[k].rows == rows[k];
      }
    }
  }

  /** Cleans a table whose rows are either still `origin` or already a
      cleaning of it (`seen`, when it stands under an earlier name too). A
      table cleaned before is cleaned again without failing. */
  method CleanStep(df: DataFrame, ghost origin: seq<Row>, ghost seen: bool, parse: DateParser)
    returns (bad: Option<CleanError>)
    requires df.Valid()
    requires seen ==> DateColumn in df.columns && CleanedFrom(df.rows, origin, parse)
    requires !seen ==> df.rows == origin
    modifies df
    ensures df.Valid() && df.columns == old(df.columns)
    ensures bad.None? ==> DateColumn in df.columns && CleanedFrom(df.rows, origin, parse)
    ensures bad.Some? ==> !seen && FailedWith(origin, df.columns, df.rows, bad.value, parse)
  {
    ghost var before := df.rows;
    if seen {
      CleanedRowsParse(before, origin, parse);
    }
    bad := CleanTable(df, parse);
    if bad.None? && seen {
      CleanedTwice(df.rows, before, origin, parse);
    }
  }

  // ---------------------------------------------------------------------
  // A worked example: three tables with missing cells
  // ---------------------------------------------------------------------

  /** Only the complete rows among `a`, `b`, `c` stay, in their order. */
  lemma DropThree(a: Row, b: Row, c: Row)
    ensures DropIncomplete([a, b, c]) ==
            (if Complete(a) then [a] else []) + (if Complete(b) then [b] else []) + (if Complete(c) then [c] else [])
  {
    assert [a, b, c][..2] == [a, b];
    assert [a, b][..1] == [a];
    assert [a][..0] == [];
    assert DropIncomplete([a]) == DropIncomplete([]) + (if Complete(a) then [a] else []);
    assert DropIncomplete([a, b]) == DropIncomplete([a]) + (if Complete(b) then [b] else []);
  }

  /** The gold table of the example: the row whose Date and Price are both
      missing goes, the two full rows stay. */
  lemma ExampleGold(parse: DateParser, d1: string, d2: string, p1: string, p2: string, out: seq<Row>)
    requires parse(d1).At? && parse(d2).At?
    requires CleanedFrom(out, [map[DateColumn := Text(d1), "Price" := Text(p1)],
                               map[DateColumn := Text(d2), "Price" := Text(p2)],
                               map[DateColumn := Null, "Price" := Null]], parse)
    ensures |out| == 2
    ensures forall i :: 0 <= i < |out| ==> Complete(out[i])
  {
    var input := [map[DateColumn := Text(d1), "Price" := Text(p1)],
                  map[DateColumn := Text(d2), "Price" := Text(p2)],
                  map[DateColumn := Null, "Price" := Null]];
    var conv := Converted(input, parse);
    assert conv == [conv[0], conv[1], conv[2]];
    assert Complete(conv[0]) && Complete(conv[1]) && !Complete(conv[2]);
    DropThree(conv[0], conv[1], conv[2]);
    CleanedSize(out, input, parse);
    CleanedRowsComplete(out, input, parse);
  }

  /** Only the complete rows among `a`, `b` stay. */
  lemma DropTwo(a: Row, b: Row)
    ensures DropIncomplete([a, b]) == (if Complete(a) then [a] else []) + (if Complete(b) then [b] else [])
  {
    assert [a, b][..1] == [a];
    assert [a][..0] == [];
    assert DropIncomplete([a]) == DropIncomplete([]) + (if Complete(a) then [a] else []);
  }

  /** The Tesla table of the example: the row without an opening price goes. */
  lemma ExampleTesla(parse: DateParser, d1: string, d2: string, o1: string, c1: string, c2: string, out: seq<Row>)
    requires parse(d1).At? && parse(d2).At?
    requires CleanedFrom(out, [map[DateColumn := Text(d1), "Open" := Text(o1), "Close" := Text(c1)],
                               map[DateColumn := Text(d2), "Open" := Null, "Close" := Text(c2)]], parse)
    ensures |out| == 1
    ensures forall i :: 0 <= i < |out| ==> Complete(out[i])
  {
    var input := [map[DateColumn := Text(d1), "Open" := Text(o1), "Close" := Text(c1)],
                  map[DateColumn := Text(d2), "Open" := Null, "Close" := Text(c2)]];
    var conv := Converted(input, parse);
    assert conv == [conv[0], conv[1]];
    assert conv[1]["Open"] == Null;
    assert Complete(conv[0]) && !Complete(conv[1]);
    DropTwo(conv[0], conv[1]);
    CleanedSize(out, input, parse);
    CleanedRowsComplete(out, input, parse);
  }

  /** The S&P 500 table of the example: the row without a closing price goes. */
  lemma ExampleSp500(parse: DateParser, d1: string, d2: string, o1: string, o2: string, c1: string, out: seq<Row>)
    requires parse(d1).At? && parse(d2).At?
    requires CleanedFrom(out, [map[DateColumn := Text(d1), "Open" := Text(o1), "Close" := Text(c1)],
                               map[DateColumn := Text(d2), "Open" := Text(o2), "Close" := Null]], parse)
    ensures |out| == 1
    ensures forall i :: 0 <= i < |out| ==> Complete(out[i])
  {
    var input := [map[DateColumn := Text(d1), "Open" := Text(o1), "Close" := Text(c1)],
                  map[DateColumn := Text(d2), "Open" := Text(o2), "Close" := Null]];
    var conv := Converted(input, parse);
    assert conv == [conv[0], conv[1]];
    assert conv[1]["Close"] == Null;
    assert Complete(conv[0]) && !Complete(conv[1]);
    DropTwo(conv[0], conv[1]);
    CleanedSize(out, input, parse);
    CleanedRowsComplete(out, input, parse);
  }
}
