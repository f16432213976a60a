/** `extract_unique_categories`: the distinct stripped labels of a secondary
    source. Any failure to read it yields the empty set. */
module CategoryExtractor {
  import opened Wrappers
  import opened Strings
  import opened DatasetLoader

  /** The set the loop builds by adding each label in turn. */
  function AddAll(labels: seq<string>): (r: set<string>)
    ensures forall x :: x in r <==> x in labels
    ensures |r| <= |labels|
    decreases |labels|
  {
    if |labels| == 0 then {}
    else
      var prefix := labels[..|labels| - 1];
      var last := labels[|labels| - 1];
      assert forall x :: x in labels <==> x in prefix || x == last;
      AddAll(prefix) + {last}
  }

  /** The stripped first fields of the rows that have a field: `Trim` over
      `FirstFields`, position by position. A blank first field strips to the
      empty label, which is kept. */
  function StrippedFirstFields(rows: seq<seq<string>>): (r: seq<string>)
    ensures |r| == |FirstFields(rows)|
  {
    var fields := FirstFields(rows);
    seq(|fields|, i requires 0 <= i < |fields| => Trim(fields[i]))
  }

  lemma StrippedFirstFieldsMembers(rows: seq<seq<string>>)
    ensures forall x :: x in StrippedFirstFields(rows) <==>
              exists i :: 0 <= i < |rows| && |rows[i]| > 0 && Trim(rows[i][0]) == x
  {
    var fields := FirstFields(rows);
    var stripped := StrippedFirstFields(rows);
    FirstFieldsMembers(rows);
    forall x | x in stripped
      ensures exists i :: 0 <= i < |rows| && |rows[i]| > 0 && Trim(rows[i][0]) == x
    {
      var j :| 0 <= j < |stripped| && stripped[j] == x;
      assert fields[j] in fields;
      var i :| 0 <= i < |rows| && |rows[i]| > 0 && rows[i][0] == fields[j];
      assert Trim(rows[i][0]) == x;
    }
    forall x | exists i :: 0 <= i < |rows| && |rows[i]| > 0 && Trim(rows[i][0]) == x
      ensures x in stripped
    {
      var i :| 0 <= i < |rows| && |rows[i]| > 0 && Trim(rows[i][0]) == x;
      assert rows[i][0] in fields;
      var j :| 0 <= j < |fields| && fields[j] == rows[i][0];
      assert stripped[j] == x;
    }
  }

  /** The labels a source contributes: for a CSV file, the stripped first
      field of every row with a field after the first row, which is skipped
      whatever it holds; for a text file, the stripped non-blank lines. */
  function Labels(file: Source): seq<string> {
    match file
    case CsvRows(rows) => if |rows| == 0 then [] else StrippedFirstFields(rows[1..])
    case TextLines(lines) => NonBlankLines(lines)
  }

  /** `extract_unique_categories`: `None` stands for a file that could not be
      read, which gives the empty set. No more categories than labels are
      found. */
  function ExtractUniqueCategories(file: Option<Source>): (r: set<string>)
    ensures file.None? ==> r == {}
    ensures file.Some? ==> (forall x :: x in r <==> x in Labels(file.value)) && |r| <= |Labels(file.value)|
  {
    match file
    case None => {}
    case Some(source) => AddAll(Labels(source))
  }

  /** The categories of a text file are exactly its non-empty stripped lines. */
  lemma TextCategories(lines: seq<string>)
    ensures var r := ExtractUniqueCategories(Some(TextLines(lines)));
            && |r| <= |lines|
            && forall x :: x in r <==> x != [] && exists i :: 0 <= i < |lines| && Trim(lines[i]) == x
  {
    NonBlankLinesMembers(lines);
    forall x | x != [] && exists i :: 0 <= i < |lines| && Trim(lines[i]) == x
      ensures x in NonBlankLines(lines)
    {
      var i :| 0 <= i < |lines| && Trim(lines[i]) == x;
      assert !IsBlank(lines[i]);
    }
  }

  /** The categories of a CSV file are exactly the stripped first fields of
      its rows after the first; there are fewer of them than rows. An empty
      file has none. */
  lemma CsvCategories(rows: seq<seq<string>>)
    ensures var r := ExtractUniqueCategories(Some(CsvRows(rows)));
            && (|rows| > 0 ==> |r| < |rows|)
            && forall x :: x in r <==> exists i :: 1 <= i < |rows| && |rows[i]| > 0 && Trim(rows[i][0]) == x
  {
    if |rows| == 0 {
      return;
    }
    var rest := rows[1..];
    StrippedFirstFieldsMembers(rest);
    forall x | x in StrippedFirstFields(rest)
      ensures exists i :: 1 <= i < |rows| && |rows[i]| > 0 && Trim(rows[i][0]) == x
    {
      var j :| 0 <= j < |rest| && |rest[j]| > 0 && Trim(rest[j][0]) == x;
      assert rest[j] == rows[j + 1];
    }
    forall i | 1 <= i < |rows| && |rows[i]| > 0
      ensures Trim(rows[i][0]) in StrippedFirstFields(rest)
    {
      assert rest[i - 1] == rows[i];
    }
  }
}
