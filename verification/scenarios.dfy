/** Concrete runs of the pipeline on the program's own sample data and on
    the small cases its behaviour is usually explained by. */
module Scenarios {
  import opened Wrappers
  import opened Strings
  import opened NumericParser
  import opened SeriesReducer
  import opened DatasetLoader
  import opened CategoryExtractor
  import opened AnalysisEngine

  /** A line holding the decimal rendering of `x` loads as `x`. */
  lemma IntRecord(x: int, number: nat)
    ensures LineRecord(FormatInt(x) + "\n", number, ParseFloat) == Batch([x as real], [])
  {
    TrimLineBreak(FormatInt(x));
    FormatIntRoundTrip(x);
  }

  /** A line holding a word warns, quoting the word. */
  lemma WordRecord(w: string, number: nat)
    requires IsWord(w)
    ensures LineRecord(w + "\n", number, ParseFloat) == Batch([], [Warning(number, w)])
  {
    TrimLineBreak(w);
    NonDecimalCharRejected(w, 0);
  }

  /** A word is non-empty, made of ASCII letters, and not one of the names
      Python's `float()` reads as a special value: "nan", "inf" and
      "infinity", in any mix of cases. */
  predicate IsWord(w: string) {
    && |w| > 0
    && (forall i :: 0 <= i < |w| ==> 'a' <= w[i] <= 'z' || 'A' <= w[i] <= 'Z')
    && LowerAscii(w) !in {"nan", "inf", "infinity"}
  }

  /** `w` with its ASCII capitals made small. */
  function LowerAscii(w: string): (r: string)
    ensures |r| == |w|
    ensures forall i :: 0 <= i < |w| ==>
              r[i] == if 'A' <= w[i] <= 'Z' then (w[i] as int + 32) as char else w[i]
  {
    seq(|w|, i requires 0 <= i < |w| => if 'A' <= w[i] <= 'Z' then (w[i] as int + 32) as char else w[i])
  }

  /** The batches of consecutive stretches of input, joined in order. */
  function JoinAll(batches: seq<Batch>): Batch
    decreases |batches|
  {
    if |batches| == 0 then Batch([], []) else Join(batches[0], JoinAll(batches[1..]))
  }

  /** The text loop is the per-line records joined in line order. */
  lemma {:induction false} ScanLinesRecords(lines: seq<string>, first: nat, parse: string -> Option<real>, records: seq<Batch>)
    requires |records| == |lines|
    requires forall i :: 0 <= i < |lines| ==> LineRecord(lines[i], first + i, parse) == records[i]
    ensures ScanLines(lines, first, parse) == JoinAll(records)
    decreases |lines|
  {
    if |lines| > 0 {
      var rest, later := lines[1..], records[1..];
      forall i | 0 <= i < |rest|
        ensures LineRecord(rest[i], first + 1 + i, parse) == later[i]
      {
        assert rest[i] == lines[i + 1] && later[i] == records[i + 1];
      }
      ScanLinesRecords(rest, first + 1, parse, later);
      assert LineRecord(lines[0], first, parse) == records[0];
    }
  }

  /** Four batches joined. */
  lemma JoinAllFour(batches: seq<Batch>)
    requires |batches| == 4
    ensures JoinAll(batches) == Join(batches[0], Join(batches[1], Join(batches[2], Join(batches[3], Batch([], [])))))
  {
    assert JoinAll(batches[4..]) == Batch([], []);
    assert JoinAll(batches[3..]) == Join(batches[3], JoinAll(batches[4..])) by { assert batches[3..][1..] == batches[4..]; }
    assert JoinAll(batches[2..]) == Join(batches[2], JoinAll(batches[3..])) by { assert batches[2..][1..] == batches[3..]; }
    assert JoinAll(batches[1..]) == Join(batches[1], JoinAll(batches[2..])) by { assert batches[1..][1..] == batches[2..]; }
  }

  /** A warning, a value, a warning and a value, joined. */
  lemma JoinWarnValueWarnValue(t1: string, x: real, t3: string, y: real)
    ensures Join(Batch([], [Warning(1, t1)]), Join(Batch([x], []), Join(Batch([], [Warning(3, t3)]), Join(Batch([y], []), Batch([], [])))))
            == Batch([x, y], [Warning(1, t1), Warning(3, t3)])
  {
  }

  /** Lines `w1`, `x`, `w2`, `y` (words and integers, each ending in a line
      break): the two numbers load in order and each word warns once, with
      its line number. */
  lemma MixedTextFile(w1: string, x: int, w2: string, y: int)
    requires IsWord(w1) && IsWord(w2)
    ensures LoadData(Some(TextLines([w1 + "\n", FormatInt(x) + "\n", w2 + "\n", FormatInt(y) + "\n"])), ParseFloat)
            == Success(Batch([x as real, y as real], [Warning(1, w1), Warning(3, w2)]))
  {
    var lines := [w1 + "\n", FormatInt(x) + "\n", w2 + "\n", FormatInt(y) + "\n"];
    var records := [Batch([], [Warning(1, w1)]), Batch([x as real], []), Batch([], [Warning(3, w2)]), Batch([y as real], [])];
    MixedRecords(w1, x, w2, y);
    ScanLinesRecords(lines, 1, ParseFloat, records);
    JoinAllFour(records);
    JoinWarnValueWarnValue(w1, x as real, w2, y as real);
    assert ScanLines(lines, 1, ParseFloat) == Batch([x as real, y as real], [Warning(1, w1), Warning(3, w2)]);
  }

  /** The record of each line of the mixed file. */
  lemma MixedRecords(w1: string, x: int, w2: string, y: int)
    requires IsWord(w1) && IsWord(w2)
    ensures var lines := [w1 + "\n", FormatInt(x) + "\n", w2 + "\n", FormatInt(y) + "\n"];
            var records := [Batch([], [Warning(1, w1)]), Batch([x as real], []), Batch([], [Warning(3, w2)]), Batch([y as real], [])];
            forall i :: 0 <= i < 4 ==> LineRecord(lines[i], 1 + i, ParseFloat) == records[i]
  {
    var lines := [w1 + "\n", FormatInt(x) + "\n", w2 + "\n", FormatInt(y) + "\n"];
    var records := [Batch([], [Warning(1, w1)]), Batch([x as real], []), Batch([], [Warning(3, w2)]), Batch([y as real], [])];
    forall i | 0 <= i < 4
      ensures LineRecord(lines[i], 1 + i, ParseFloat) == records[i]
    {
      if i == 0 { WordRecord(w1, 1); }
      else if i == 1 { IntRecord(x, 2); }
      else if i == 2 { WordRecord(w2, 3); }
      else { IntRecord(y, 4); }
    }
  }

  /** The renderings of 10 and 20. */
  lemma FormatTenTwenty()
    ensures FormatInt(10) == "10" && FormatInt(20) == "20"
  {
    assert FormatNat(1) == "1" && FormatNat(2) == "2";
  }

  /** "abc" and "xyz" are words: their first letters rule out the special
      float names. */
  lemma AbcXyzWords()
    ensures IsWord("abc") && IsWord("xyz")
  {
    assert LowerAscii("abc")[0] == 'a';
    assert LowerAscii("xyz")[0] == 'x';
  }

  /** The sample: lines `abc`, `10`, `xyz`, `20`. */
  lemma AbcTenXyzTwenty()
    ensures LoadData(Some(TextLines(["abc\n", "10\n", "xyz\n", "20\n"])), ParseFloat)
            == Success(Batch([10.0, 20.0], [Warning(1, "abc"), Warning(3, "xyz")]))
  {
    AbcXyzWords();
    AbcTenXyzTwentyLines();
    MixedTextFile("abc", 10, "xyz", 20);
  }

  /** The sample's lines are those of the mixed file for "abc", 10, "xyz", 20. */
  lemma AbcTenXyzTwentyLines()
    ensures ["abc\n", "10\n", "xyz\n", "20\n"] == ["abc" + "\n", FormatInt(10) + "\n", "xyz" + "\n", FormatInt(20) + "\n"]
  {
    FormatTenTwenty();
    assert "abc" + "\n" == "abc\n" && "10" + "\n" == "10\n";
    assert "xyz" + "\n" == "xyz\n" && "20" + "\n" == "20\n";
  }

  /** A text file written one label per line, as the sample writer does. */
  function LabelLines(names: seq<string>): (r: seq<string>)
    ensures |r| == |names|
  {
    seq(|names|, i requires 0 <= i < |names| => names[i] + "\n")
  }

  /** A label the sample writer can put on a line of its own: not empty and
      not starting or ending in whitespace. */
  predicate IsLabel(name: string) {
    |name| > 0 && !IsSpace(name[0]) && !IsSpace(name[|name| - 1])
  }

  /** Written one per line, labels come back as exactly the set of labels. */
  lemma LabelLinesCategories(names: seq<string>)
    requires forall i :: 0 <= i < |names| ==> IsLabel(names[i])
    ensures ExtractUniqueCategories(Some(TextLines(LabelLines(names)))) == set x | x in names
  {
    var lines := LabelLines(names);
    TextCategories(lines);
    forall i | 0 <= i < |names|
      ensures Trim(lines[i]) == names[i]
    {
      TrimLineBreak(names[i]);
    }
  }

  /** The sample course list. */
  const Courses: seq<string> :=
    ["Mathematics", "Physics", "Chemistry", "Biology", "Mathematics", "Physics", "Computer Science", "Mathematics"]

  /** The five distinct courses. */
  const CourseSet: set<string> := {"Mathematics", "Physics", "Chemistry", "Biology", "Computer Science"}

  /** The sample course file has five distinct courses. */
  lemma CoursesCategories()
    ensures ExtractUniqueCategories(Some(TextLines(LabelLines(Courses)))) == CourseSet
    ensures |ExtractUniqueCategories(Some(TextLines(LabelLines(Courses))))| == 5
  {
    CoursesAreLabels();
    LabelLinesCategories(Courses);
    CoursesSet();
  }

  /** Every sample course fits on a line of its own. */
  lemma CoursesAreLabels()
    ensures forall i :: 0 <= i < |Courses| ==> IsLabel(Courses[i])
  {
  }

  /** The distinct courses of the list, of which there are five. */
  lemma CoursesSet()
    ensures (set x | x in Courses) == CourseSet
    ensures |CourseSet| == 5
  {
  }

  /** The sample marks. */
  const Marks: seq<real> := [85.0, 92.0, 78.0, 95.0, 88.0, 76.0, 91.0, 84.0, 89.0, 93.0]

  /** The sample run: the marks against a threshold of 85 with the course
      file give total 871, average 87.1, minimum 76, maximum 95, ten values,
      high performance and five categories. */
  lemma MarksStatistics()
    ensures CalculateStatistics(Marks, 85.0, Some(CategoryFile("courses.txt", Some(TextLines(LabelLines(Courses))))))
            == Some(Analysis(Statistics(871.0, 87.1, 76.0, 95.0, 10, HighPerformance, Some(5)),
                             CourseSet))
  {
    assert Marks[..1][..0] == Marks[..0];
    assert CalculateTotal(Marks[..1]) == 85.0;
    assert Marks[..2][..1] == Marks[..1];
    assert CalculateTotal(Marks[..2]) == 177.0;
    assert Marks[..3][..2] == Marks[..2];
    assert CalculateTotal(Marks[..3]) == 255.0;
    assert Marks[..4][..3] == Marks[..3];
    assert CalculateTotal(Marks[..4]) == 350.0;
    assert Marks[..5][..4] == Marks[..4];
    assert CalculateTotal(Marks[..5]) == 438.0;
    assert Marks[..6][..5] == Marks[..5];
    assert CalculateTotal(Marks[..6]) == 514.0;
    assert Marks[..7][..6] == Marks[..6];
    assert CalculateTotal(Marks[..7]) == 605.0;
    assert Marks[..8][..7] == Marks[..7];
    assert CalculateTotal(Marks[..8]) == 689.0;
    assert Marks[..9][..8] == Marks[..8];
    assert CalculateTotal(Marks[..9]) == 778.0;
    assert Marks[..10][..9] == Marks[..9];
    assert CalculateTotal(Marks[..10]) == 871.0;
    assert Marks[..10] == Marks;
    CoursesCategories();
  }

  /** A CSV file written one integer per row, as the sample writer does. */
  function IntRows(xs: seq<int>): (r: seq<seq<string>>)
    ensures |r| == |xs|
  {
    seq(|xs|, i requires 0 <= i < |xs| => [FormatInt(xs[i])])
  }

  /** The integers as values. */
  function AsReals(xs: seq<int>): (r: seq<real>)
    ensures |r| == |xs|
  {
    seq(|xs|, i requires 0 <= i < |xs| => xs[i] as real)
  }

  /** Rows whose first fields all convert load those values, in order,
      without warnings. */
  lemma {:induction false} ScanConvertingRows(rows: seq<seq<string>>, values: seq<real>, first: nat,
                                              parse: string -> Option<real>)
    requires |rows| == |values|
    requires forall i :: 0 <= i < |rows| ==> |rows[i]| > 0 && parse(Trim(rows[i][0])) == Some(values[i])
    ensures ScanRows(rows, first, parse) == Batch(values, [])
    decreases |rows|
  {
    if |rows| > 0 {
      var rest, later := rows[1..], values[1..];
      forall i | 0 <= i < |rest|
        ensures |rest[i]| > 0 && parse(Trim(rest[i][0])) == Some(later[i])
      {
        assert rest[i] == rows[i + 1] && later[i] == values[i + 1];
      }
      ScanConvertingRows(rest, later, first + 1, parse);
      assert RowRecord(rows[0], first, parse) == Batch([values[0]], []);
      assert [values[0]] + later == values;
    }
  }

  /** Rows of integers load as those integers, in order, without warnings. */
  lemma ScanIntRows(xs: seq<int>, first: nat)
    ensures ScanRows(IntRows(xs), first, ParseFloat) == Batch(AsReals(xs), [])
  {
    var rows := IntRows(xs);
    forall i | 0 <= i < |rows|
      ensures |rows[i]| > 0 && ParseFloat(Trim(rows[i][0])) == Some(AsReals(xs)[i])
    {
      TrimUnchanged(FormatInt(xs[i]));
      FormatIntRoundTrip(xs[i]);
    }
    ScanConvertingRows(rows, AsReals(xs), first, ParseFloat);
  }

  /** A header word over rows of integers: the header is skipped and the
      integers load in order, without warnings. */
  lemma HeaderIntRows(header: string, xs: seq<int>)
    requires IsWord(header) && |xs| > 0
    ensures LoadData(Some(CsvRows([[header]] + IntRows(xs))), ParseFloat) == Success(Batch(AsReals(xs), []))
  {
    var rows := [[header]] + IntRows(xs);
    NonDecimalCharRejected(header, 0);
    assert rows[0][0] == header;
    assert CsvStart(rows, ParseFloat) == 1;
    assert rows[1..] == IntRows(xs);
    ScanIntRows(xs, 2);
  }

  /** The sample marks as the writer writes them. */
  const MarkInts: seq<int> := [85, 92, 78, 95, 88, 76, 91, 84, 89, 93]

  /** The sample run end to end: the marks file loads the ten marks and the
      analysis is the one the sample promises. */
  lemma SampleRun()
    ensures Run(Some(CsvRows([["Marks"]] + IntRows(MarkInts))),
                Some(CategoryFile("courses.txt", Some(TextLines(LabelLines(Courses))))), 85.0)
            == Success((Batch(Marks, []),
                        Analysis(Statistics(871.0, 87.1, 76.0, 95.0, 10, HighPerformance, Some(5)),
                                 CourseSet)))
  {
    var marksFile := Some(CsvRows([["Marks"]] + IntRows(MarkInts)));
    var courseFile := Some(CategoryFile("courses.txt", Some(TextLines(LabelLines(Courses)))));
    SampleMarksLoad();
    assert LoadData(marksFile, ParseFloat) == Success(Batch(Marks, []));
    MarksStatistics();
  }

  /** The sample marks file loads the ten marks. */
  lemma SampleMarksLoad()
    ensures LoadData(Some(CsvRows([["Marks"]] + IntRows(MarkInts))), ParseFloat) == Success(Batch(Marks, []))
  {
    assert IsWord("Marks");
    HeaderIntRows("Marks", MarkInts);
    MarksAsReals();
  }

  /** The written marks, read back as values, are the sample marks. */
  lemma MarksAsReals()
    ensures AsReals(MarkInts) == Marks
  {
  }
}
