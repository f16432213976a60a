/** `DataSet.load_data`: turns the primary source into a numeric series plus
    one warning per record that would not convert. Loading starts from an
    empty series. The numeric conversion (Python's `float`) is a parameter
    `parse`; `NumericParser.ParseFloat` is the one the program uses, and
    `None` stands for the `ValueError` it raises. */
module DatasetLoader {
  import opened Wrappers
  import opened Strings
  import NumericParser

  /** The contents of a source, in the framing its file name selects: the
      lines of a text file, or the rows of a CSV file already split into
      fields. A non-empty CSV file always yields at least one row. */
  datatype Source = TextLines(lines: seq<string>) | CsvRows(rows: seq<seq<string>>)

  /** A dropped record: its 1-based line number and the offending text. */
  datatype Warning = Warning(line: nat, token: string)

  /** The values kept, in input order, and the warnings emitted. */
  datatype Batch = Batch(values: seq<real>, warnings: seq<Warning>)

  /** Why a load failed: no file; a file without lines; a CSV file whose
      first row has no field (so looking at its header field raises); or no
      record converted (the warnings were still emitted). */
  datatype LoadError =
    | SourceNotFound
    | EmptySource
    | FirstRowEmpty
    | NoValidData(warnings: seq<Warning>)

  function Join(a: Batch, b: Batch): Batch {
    Batch(a.values + b.values, a.warnings + b.warnings)
  }

  /** Joining batches is associative. */
  lemma JoinAssociative(a: Batch, b: Batch, c: Batch)
    ensures Join(a, Join(b, c)) == Join(Join(a, b), c)
  {
    assert a.values + (b.values + c.values) == (a.values + b.values) + c.values;
    assert a.warnings + (b.warnings + c.warnings) == (a.warnings + b.warnings) + c.warnings;
  }

  /** Warnings appear in increasing line order, so no line warns twice. */
  predicate LinesIncrease(ws: seq<Warning>) {
    forall a, b :: 0 <= a < b < |ws| ==> ws[a].line < ws[b].line
  }

  /** Warnings of an earlier stretch of input may go in front of those of
      a later one. */
  lemma JoinIncreasing(a: seq<Warning>, b: seq<Warning>)
    requires LinesIncrease(a) && LinesIncrease(b)
    requires forall x, y :: x in a && y in b ==> x.line < y.line
    ensures LinesIncrease(a + b)
  {
    var ab := a + b;
    forall i, j | 0 <= i < j < |ab|
      ensures ab[i].line < ab[j].line
    {
      if j < |a| {
        assert ab[i] == a[i] && ab[j] == a[j];
      } else if i >= |a| {
        assert ab[i] == b[i - |a|] && ab[j] == b[j - |a|];
      } else {
        assert ab[i] == a[i] && ab[j] == b[j - |a|];
      }
    }
  }

  // ----- text files -----

  /** One text line, numbered `number`: nothing if it is blank, else the
      value of the stripped line if it converts, else one warning with the
      stripped line. */
  function LineRecord(raw: string, number: nat, parse: string -> Option<real>): (r: Batch)
    ensures |r.values| + |r.warnings| == if IsBlank(raw) then 0 else 1
    ensures r.values == if !IsBlank(raw) && parse(Trim(raw)).Some? then [parse(Trim(raw)).value] else []
    ensures r.warnings == if !IsBlank(raw) && parse(Trim(raw)).None? then [Warning(number, Trim(raw))] else []
  {
    var line := Trim(raw);
    if line == [] then Batch([], [])
    else
      match parse(line)
      case Some(v) => Batch([v], [])
      case None => Batch([], [Warning(number, line)])
  }

  /** The text-file loop over `lines`, the first of which is line `first`:
      blank lines are skipped and every other line either contributes its
      value or one warning, so together they number the non-blank lines. */
  function ScanLines(lines: seq<string>, first: nat, parse: string -> Option<real>): (r: Batch)
    ensures |r.values| + |r.warnings| <= |lines|
    decreases |lines|
  {
    if |lines| == 0 then Batch([], [])
    else Join(LineRecord(lines[0], first, parse), ScanLines(lines[1..], first + 1, parse))
  }

  /** Every non-blank line is accounted for exactly once, as a value or as
      a warning. */
  lemma {:induction false} ScanLinesCount(lines: seq<string>, first: nat, parse: string -> Option<real>)
    ensures |ScanLines(lines, first, parse).values| + |ScanLines(lines, first, parse).warnings|
            == |NonBlankLines(lines)|
    decreases |lines|
  {
    if |lines| > 0 {
      ScanLinesCount(lines[1..], first + 1, parse);
    }
  }

  /** Loading a concatenation loads each part in turn: the values of the
      first part come first, and the second part's lines are numbered on
      from where the first part's stop. */
  lemma {:induction false} ScanLinesAppend(a: seq<string>, b: seq<string>, first: nat, parse: string -> Option<real>)
    ensures ScanLines(a + b, first, parse) == Join(ScanLines(a, first, parse), ScanLines(b, first + |a|, parse))
    decreases |a|
  {
    if |a| == 0 {
      assert a + b == b;
    } else {
      var ab := a + b;
      assert ab[0] == a[0] && ab[1..] == a[1..] + b;
      ScanLinesAppend(a[1..], b, first + 1, parse);
      var h := LineRecord(a[0], first, parse);
      var x := ScanLines(a[1..], first + 1, parse);
      var y := ScanLines(b, first + |a|, parse);
      assert ScanLines(ab, first, parse) == Join(h, Join(x, y));
      assert ScanLines(a, first, parse) == Join(h, x);
      JoinAssociative(h, x, y);
    }
  }

  /** A file whose lines all convert loads every value, in file order, and
      warns about nothing. */
  lemma {:induction false} ScanLinesAllNumeric(lines: seq<string>, first: nat, parse: string -> Option<real>)
    requires forall i :: 0 <= i < |lines| ==> !IsBlank(lines[i]) && parse(Trim(lines[i])).Some?
    ensures ScanLines(lines, first, parse).warnings == []
    ensures |ScanLines(lines, first, parse).values| == |lines|
    ensures forall i :: 0 <= i < |lines| ==>
              ScanLines(lines, first, parse).values[i] == parse(Trim(lines[i])).value
    decreases |lines|
  {
    if |lines| > 0 {
      assert forall i :: 1 <= i < |lines| ==> lines[1..][i - 1] == lines[i];
      ScanLinesAllNumeric(lines[1..], first + 1, parse);
    }
  }

  /** Each warning of a text load names a non-blank line that does not
      convert, by its number and its stripped text. */
  lemma {:induction false} ScanLinesWarningsSound(lines: seq<string>, first: nat, parse: string -> Option<real>)
    ensures forall w :: w in ScanLines(lines, first, parse).warnings ==>
              && first <= w.line < first + |lines|
              && w.token == Trim(lines[w.line - first])
              && !IsBlank(lines[w.line - first])
              && parse(w.token).None?
    decreases |lines|
  {
    if |lines| > 0 {
      var head := LineRecord(lines[0], first, parse);
      var rest := ScanLines(lines[1..], first + 1, parse);
      ScanLinesWarningsSound(lines[1..], first + 1, parse);
      forall w | w in rest.warnings
        ensures lines[w.line - first] == lines[1..][w.line - (first + 1)]
      {
      }
      assert ScanLines(lines, first, parse).warnings == head.warnings + rest.warnings;
    }
  }

  /** Every non-blank text line that does not convert warns, with its number
      and its stripped text. */
  lemma {:induction false} ScanLinesWarningsComplete(lines: seq<string>, first: nat, parse: string -> Option<real>)
    ensures forall i :: 0 <= i < |lines| && !IsBlank(lines[i]) && parse(Trim(lines[i])).None? ==>
              Warning(first + i, Trim(lines[i])) in ScanLines(lines, first, parse).warnings
    decreases |lines|
  {
    if |lines| > 0 {
      var head := LineRecord(lines[0], first, parse);
      var rest := ScanLines(lines[1..], first + 1, parse);
      ScanLinesWarningsComplete(lines[1..], first + 1, parse);
      forall i | 1 <= i < |lines| && !IsBlank(lines[i]) && parse(Trim(lines[i])).None?
        ensures Warning(first + i, Trim(lines[i])) in rest.warnings
      {
        assert lines[1..][i - 1] == lines[i];
      }
      assert ScanLines(lines, first, parse).warnings == head.warnings + rest.warnings;
    }
  }

  /** The warnings of a text load come in line order, one per line at most. */
  lemma {:induction false} ScanLinesOrdered(lines: seq<string>, first: nat, parse: string -> Option<real>)
    ensures LinesIncrease(ScanLines(lines, first, parse).warnings)
    decreases |lines|
  {
    if |lines| > 0 {
      ScanLinesOrdered(lines[1..], first + 1, parse);
      ScanLinesWarningsSound(lines[1..], first + 1, parse);
      JoinIncreasing(LineRecord(lines[0], first, parse).warnings, ScanLines(lines[1..], first + 1, parse).warnings);
    }
  }

  /** The values of a text load are exactly the values of the lines that
      convert. */
  lemma {:induction false} ScanLinesValues(lines: seq<string>, first: nat, parse: string -> Option<real>)
    ensures forall i :: 0 <= i < |lines| && !IsBlank(lines[i]) && parse(Trim(lines[i])).Some? ==>
              parse(Trim(lines[i])).value in ScanLines(lines, first, parse).values
    ensures forall x :: x in ScanLines(lines, first, parse).values ==>
              exists i :: 0 <= i < |lines| && !IsBlank(lines[i]) && parse(Trim(lines[i])) == Some(x)
    decreases |lines|
  {
    if |lines| > 0 {
      ScanLinesValues(lines[1..], first + 1, parse);
      assert forall i :: 1 <= i < |lines| ==> lines[1..][i - 1] == lines[i];
    }
  }

  // ----- CSV files -----

  /** The first fields of the rows that have any field, in row order. */
  function FirstFields(rows: seq<seq<string>>): (r: seq<string>)
    ensures |r| <= |rows|
    decreases |rows|
  {
    if |rows| == 0 then []
    else if |rows[0]| == 0 then FirstFields(rows[1..])
    else [rows[0][0]] + FirstFields(rows[1..])
  }

  /** The first fields are exactly those of the rows that have a field. */
  lemma {:induction false} FirstFieldsMembers(rows: seq<seq<string>>)
    ensures forall x :: x in FirstFields(rows) <==> exists i :: 0 <= i < |rows| && |rows[i]| > 0 && rows[i][0] == x
    decreases |rows|
  {
    if |rows| > 0 {
      var rest := rows[1..];
      FirstFieldsMembers(rest);
      forall x | x in FirstFields(rest)
        ensures exists i :: 0 <= i < |rows| && |rows[i]| > 0 && rows[i][0] == x
      {
        var j :| 0 <= j < |rest| && |rest[j]| > 0 && rest[j][0] == x;
        assert rows[j + 1] == rest[j];
      }
      forall x | exists i :: 0 <= i < |rows| && |rows[i]| > 0 && rows[i][0] == x
        ensures x in FirstFields(rows)
      {
        var i :| 0 <= i < |rows| && |rows[i]| > 0 && rows[i][0] == x;
        if i > 0 {
          assert rest[i - 1] == rows[i];
        }
      }
    }
  }

  /** One CSV row, numbered `number`: nothing if it has no field, else the
      value of its stripped first field if that converts, else one warning
      with the first field as written. A blank first field warns. */
  function RowRecord(row: seq<string>, number: nat, parse: string -> Option<real>): (r: Batch)
    ensures |r.values| + |r.warnings| == if |row| == 0 then 0 else 1
    ensures r.values == if |row| > 0 && parse(Trim(row[0])).Some? then [parse(Trim(row[0])).value] else []
    ensures r.warnings == if |row| > 0 && parse(Trim(row[0])).None? then [Warning(number, row[0])] else []
  {
    if |row| == 0 then Batch([], [])
    else
      match parse(Trim(row[0]))
      case Some(v) => Batch([v], [])
      case None => Batch([], [Warning(number, row[0])])
  }

  /** The CSV loop over `rows`, the first of which is line `first`: rows
      without fields are skipped and every other row either contributes a
      value or one warning. */
  function ScanRows(rows: seq<seq<string>>, first: nat, parse: string -> Option<real>): (r: Batch)
    ensures |r.values| + |r.warnings| <= |rows|
    decreases |rows|
  {
    if |rows| == 0 then Batch([], [])
    else Join(RowRecord(rows[0], first, parse), ScanRows(rows[1..], first + 1, parse))
  }

  /** Loading a concatenation of rows loads each part in turn: the values of
      the first part come first, in row order, and the second part's rows
      are numbered on from where the first part's stop. */
  lemma {:induction false} ScanRowsAppend(a: seq<seq<string>>, b: seq<seq<string>>, first: nat, parse: string -> Option<real>)
    ensures ScanRows(a + b, first, parse) == Join(ScanRows(a, first, parse), ScanRows(b, first + |a|, parse))
    decreases |a|
  {
    if |a| == 0 {
      assert a + b == b;
    } else {
      var ab := a + b;
      assert ab[0] == a[0] && ab[1..] == a[1..] + b;
      ScanRowsAppend(a[1..], b, first + 1, parse);
      var h := RowRecord(a[0], first, parse);
      var x := ScanRows(a[1..], first + 1, parse);
      var y := ScanRows(b, first + |a|, parse);
      assert ScanRows(ab, first, parse) == Join(h, Join(x, y));
      assert ScanRows(a, first, parse) == Join(h, x);
      JoinAssociative(h, x, y);
    }
  }

  /** Each warning of a CSV load names a row with a field whose stripped
      first field does not convert, quoting that field as written. */
  lemma {:induction false} ScanRowsWarningsSound(rows: seq<seq<string>>, first: nat, parse: string -> Option<real>)
    ensures forall w :: w in ScanRows(rows, first, parse).warnings ==>
              && first <= w.line < first + |rows|
              && |rows[w.line - first]| > 0
              && w.token == rows[w.line - first][0]
              && parse(Trim(w.token)).None?
    decreases |rows|
  {
    if |rows| > 0 {
      var head := RowRecord(rows[0], first, parse);
      var rest := ScanRows(rows[1..], first + 1, parse);
      ScanRowsWarningsSound(rows[1..], first + 1, parse);
      forall w | w in rest.warnings
        ensures rows[w.line - first] == rows[1..][w.line - (first + 1)]
      {
      }
      assert ScanRows(rows, first, parse).warnings == head.warnings + rest.warnings;
    }
  }

  /** Every row with a field whose stripped first field does not convert
      warns, with its number and its first field as written. */
  lemma {:induction false} ScanRowsWarningsComplete(rows: seq<seq<string>>, first: nat, parse: string -> Option<real>)
    ensures forall i :: 0 <= i < |rows| && |rows[i]| > 0 && parse(Trim(rows[i][0])).None? ==>
              Warning(first + i, rows[i][0]) in ScanRows(rows, first, parse).warnings
    decreases |rows|
  {
    if |rows| > 0 {
      var head := RowRecord(rows[0], first, parse);
      var rest := ScanRows(rows[1..], first + 1, parse);
      ScanRowsWarningsComplete(rows[1..], first + 1, parse);
      forall i | 1 <= i < |rows| && |rows[i]| > 0 && parse(Trim(rows[i][0])).None?
        ensures Warning(first + i, rows[i][0]) in rest.warnings
      {
        assert rows[1..][i - 1] == rows[i];
      }
      assert ScanRows(rows, first, parse).warnings == head.warnings + rest.warnings;
    }
  }

  /** The warnings of a CSV load come in line order, one per line at most. */
  lemma {:induction false} ScanRowsOrdered(rows: seq<seq<string>>, first: nat, parse: string -> Option<real>)
    ensures LinesIncrease(ScanRows(rows, first, parse).warnings)
    decreases |rows|
  {
    if |rows| > 0 {
      ScanRowsOrdered(rows[1..], first + 1, parse);
      ScanRowsWarningsSound(rows[1..], first + 1, parse);
      JoinIncreasing(RowRecord(rows[0], first, parse).warnings, ScanRows(rows[1..], first + 1, parse).warnings);
    }
  }

  /** Every row with a field is accounted for exactly once, as a value or as
      a warning. */
  lemma {:induction false} ScanRowsCount(rows: seq<seq<string>>, first: nat, parse: string -> Option<real>)
    ensures |ScanRows(rows, first, parse).values| + |ScanRows(rows, first, parse).warnings|
            == |FirstFields(rows)|
    decreases |rows|
  {
    if |rows| > 0 {
      ScanRowsCount(rows[1..], first + 1, parse);
    }
  }

  /** The values of a CSV load are exactly the values of the rows whose
      stripped first field converts. */
  lemma {:induction false} ScanRowsValues(rows: seq<seq<string>>, first: nat, parse: string -> Option<real>)
    ensures forall i :: 0 <= i < |rows| && |rows[i]| > 0 && parse(Trim(rows[i][0])).Some? ==>
              parse(Trim(rows[i][0])).value in ScanRows(rows, first, parse).values
    ensures forall x :: x in ScanRows(rows, first, parse).values ==>
              exists i :: 0 <= i < |rows| && |rows[i]| > 0 && parse(Trim(rows[i][0])) == Some(x)
    decreases |rows|
  {
    if |rows| > 0 {
      ScanRowsValues(rows[1..], first + 1, parse);
      assert forall i :: 1 <= i < |rows| ==> rows[1..][i - 1] == rows[i];
    }
  }

  // ----- the load -----

  /** The final check of `load_data`: a load that kept no value fails. */
  function Finish(b: Batch): (r: Result<Batch, LoadError>)
    ensures r.Success? <==> |b.values| > 0
    ensures r.Success? ==> r.value == b
    ensures r.Failure? ==> r.error == NoValidData(b.warnings)
  {
    if |b.values| == 0 then Failure(NoValidData(b.warnings)) else Success(b)
  }

  /** Where the CSV loop starts: at the first row if its first field, as
      written, converts; otherwise that row is a header and is skipped. */
  function CsvStart(rows: seq<seq<string>>, parse: string -> Option<real>): (start: nat)
    requires |rows| > 0 && |rows[0]| > 0
    ensures start == 0 <==> parse(rows[0][0]).Some?
    ensures start <= 1
  {
    if parse(rows[0][0]).Some? then 0 else 1
  }

  /** `load_data`, from an empty series. `None` stands for a file that
      could not be opened. */
  function LoadData(file: Option<Source>, parse: string -> Option<real>): (r: Result<Batch, LoadError>)
    ensures file.None? ==> r == Failure(SourceNotFound)
    ensures file == Some(TextLines([])) || file == Some(CsvRows([])) ==> r == Failure(EmptySource)
    ensures (file.Some? && file.value.CsvRows? && |file.value.rows| > 0 && |file.value.rows[0]| == 0)
            ==> r == Failure(FirstRowEmpty)
    ensures r.Success? ==> |r.value.values| > 0
  {
    match file
    case None => Failure(SourceNotFound)
    case Some(TextLines(lines)) =>
      if |lines| == 0 then Failure(EmptySource)
      else Finish(ScanLines(lines, 1, parse))
    case Some(CsvRows(rows)) =>
      if |rows| == 0 then Failure(EmptySource)
      else if |rows[0]| == 0 then Failure(FirstRowEmpty)
      else
        var start := CsvStart(rows, parse);
        Finish(ScanRows(rows[start..], start + 1, parse))
  }

  /** Loading a non-empty text file: it succeeds exactly when some line
      converts, and every non-blank line is accounted for once, as a value or
      as a warning, whether or not the load succeeds. */
  lemma LoadTextOutcome(lines: seq<string>, parse: string -> Option<real>)
    requires |lines| > 0
    ensures var r := LoadData(Some(TextLines(lines)), parse);
            && (r.Success? <==> exists i :: 0 <= i < |lines| && !IsBlank(lines[i]) && parse(Trim(lines[i])).Some?)
            && (r.Success? ==> |r.value.values| + |r.value.warnings| == |NonBlankLines(lines)|)
            && (r.Failure? ==> r.error.NoValidData? && |r.error.warnings| == |NonBlankLines(lines)|)
  {
    var b := ScanLines(lines, 1, parse);
    assert LoadData(Some(TextLines(lines)), parse) == Finish(b);
    ScanLinesValues(lines, 1, parse);
    ScanLinesCount(lines, 1, parse);
    if |b.values| > 0 {
      var x := b.values[0];
      assert x in b.values;
      var i :| 0 <= i < |lines| && !IsBlank(lines[i]) && parse(Trim(lines[i])) == Some(x);
      assert parse(Trim(lines[i])).Some?;
    }
    if exists i :: 0 <= i < |lines| && !IsBlank(lines[i]) && parse(Trim(lines[i])).Some? {
      var i :| 0 <= i < |lines| && !IsBlank(lines[i]) && parse(Trim(lines[i])).Some?;
      assert parse(Trim(lines[i])).value in b.values;
    }
  }

  /** The CSV loop runs over the rows after the header, if there is one. */
  lemma LoadCsvScan(rows: seq<seq<string>>, parse: string -> Option<real>)
    requires |rows| > 0 && |rows[0]| > 0
    ensures var start := CsvStart(rows, parse);
            && LoadData(Some(CsvRows(rows)), parse) == Finish(ScanRows(rows[start..], start + 1, parse))
            && |FirstFields(rows[start..])| == |FirstFields(rows)| - start
  {
    assert FirstFields(rows) == [rows[0][0]] + FirstFields(rows[1..]);
  }

  /** Loading a CSV file whose first row has a field succeeds exactly when
      some row after the header (the first row, if its first field does not
      convert) has a first field that converts. */
  lemma LoadCsvSucceeds(rows: seq<seq<string>>, parse: string -> Option<real>)
    requires |rows| > 0 && |rows[0]| > 0
    ensures var start := if parse(rows[0][0]).None? then 1 else 0;
            LoadData(Some(CsvRows(rows)), parse).Success? <==>
              exists i :: start <= i < |rows| && |rows[i]| > 0 && parse(Trim(rows[i][0])).Some?
  {
    LoadCsvScan(rows, parse);
    ScanRowsAnyValue(rows, CsvStart(rows, parse), parse);
  }

  /** The CSV loop from row `start` on keeps some value exactly when some
      row from there on has a stripped first field that converts. */
  lemma {:induction false} ScanRowsAnyValue(rows: seq<seq<string>>, start: nat, parse: string -> Option<real>)
    requires start <= |rows|
    ensures |ScanRows(rows[start..], start + 1, parse).values| > 0 <==>
              exists i :: start <= i < |rows| && |rows[i]| > 0 && parse(Trim(rows[i][0])).Some?
    decreases |rows| - start
  {
    if start < |rows| {
      ScanRowsAnyValue(rows, start + 1, parse);
      assert rows[start..][1..] == rows[start + 1..];
      assert rows[start..][0] == rows[start];
    }
  }

  /** Loading a CSV file whose first row has a field: its first row is data
      if its first field converts and a skipped header otherwise, so no
      warning then names line 1; every row with a field after the header is
      accounted for once, as a value or a warning. */
  lemma LoadCsvAccounting(rows: seq<seq<string>>, parse: string -> Option<real>)
    requires |rows| > 0 && |rows[0]| > 0
    ensures var r := LoadData(Some(CsvRows(rows)), parse);
            var start := if parse(rows[0][0]).None? then 1 else 0;
            && (r.Success? ==> forall w :: w in r.value.warnings ==> w.line > start)
            && (r.Success? ==> |r.value.values| + |r.value.warnings| == |FirstFields(rows)| - start)
            && (r.Failure? ==> r.error.NoValidData? && |r.error.warnings| == |FirstFields(rows)| - start)
  {
    var start := CsvStart(rows, parse);
    var rest := rows[start..];
    var b := ScanRows(rest, start + 1, parse);
    LoadCsvScan(rows, parse);
    assert LoadData(Some(CsvRows(rows)), parse) == Finish(b);
    ScanRowsCount(rest, start + 1, parse);
    ScanRowsLinesFrom(rest, start + 1, parse);
    FinishAccounting(b, |FirstFields(rest)|, start);
  }

  /** When the first field of the first row converts as written, that row is
      data, not a header: it is the first record of the load, a value if its
      stripped field converts and otherwise the first warning, on line 1. */
  lemma LoadCsvFirstRow(rows: seq<seq<string>>, parse: string -> Option<real>)
    requires |rows| > 0 && |rows[0]| > 0 && parse(rows[0][0]).Some?
    ensures var r := LoadData(Some(CsvRows(rows)), parse);
            var f := Trim(rows[0][0]);
            && (parse(f).Some? ==> r.Success? && r.value.values[0] == parse(f).value)
            && (parse(f).None? && r.Success? ==> |r.value.warnings| > 0 && r.value.warnings[0] == Warning(1, rows[0][0]))
            && (parse(f).None? && r.Failure? ==>
                  r.error.NoValidData? && |r.error.warnings| > 0 && r.error.warnings[0] == Warning(1, rows[0][0]))
  {
    assert rows[0..] == rows;
    var b := ScanRows(rows, 1, parse);
    assert LoadData(Some(CsvRows(rows)), parse) == Finish(b);
    assert b == Join(RowRecord(rows[0], 1, parse), ScanRows(rows[1..], 2, parse));
  }

  /** The header rule with the program's own test, `_is_numeric`: a first row
      whose first field is numeric loads as the first value; otherwise it is
      skipped and the load is that of the later rows, numbered from line 2. */
  lemma CsvHeaderRule(rows: seq<seq<string>>)
    requires |rows| > 0 && |rows[0]| > 0
    ensures var r := LoadData(Some(CsvRows(rows)), NumericParser.ParseFloat);
            && (NumericParser.IsNumeric(rows[0][0]) ==>
                  r.Success? && r.value.values[0] == NumericParser.ParseFloat(rows[0][0]).value)
            && (!NumericParser.IsNumeric(rows[0][0]) ==> r == Finish(ScanRows(rows[1..], 2, NumericParser.ParseFloat)))
  {
    if NumericParser.IsNumeric(rows[0][0]) {
      NumericParser.ParseFloatTrim(rows[0][0]);
      LoadCsvFirstRow(rows, NumericParser.ParseFloat);
    } else {
      LoadCsvScan(rows, NumericParser.ParseFloat);
    }
  }

  /** A CSV loop numbers its warnings from its first row on. */
  lemma {:induction false} ScanRowsLinesFrom(rows: seq<seq<string>>, first: nat, parse: string -> Option<real>)
    ensures forall w :: w in ScanRows(rows, first, parse).warnings ==> w.line >= first
    decreases |rows|
  {
    if |rows| > 0 {
      ScanRowsLinesFrom(rows[1..], first + 1, parse);
    }
  }

  /** What the final check passes on: the warnings, and whether they
      together with the values account for `n` records. */
  lemma FinishAccounting(b: Batch, n: int, start: nat)
    requires |b.values| + |b.warnings| == n
    requires forall w :: w in b.warnings ==> w.line > start
    ensures var r := Finish(b);
            && (r.Success? ==> forall w :: w in r.value.warnings ==> w.line > start)
            && (r.Success? ==> |r.value.values| + |r.value.warnings| == n)
            && (r.Failure? ==> r.error.NoValidData? && |r.error.warnings| == n)
  {
  }
}
