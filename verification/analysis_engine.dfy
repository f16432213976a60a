/** `DataSet.calculate_statistics` and the load-then-analyse run of the
    program's main flow. */
module AnalysisEngine {
  import opened Wrappers
  import opened SeriesReducer
  import opened DatasetLoader
  import opened CategoryExtractor
  import NumericParser

  datatype Performance = HighPerformance | NeedsImprovement

  /** The statistics dictionary. `uniqueCategories` is `None` when the key
      is absent. */
  datatype Statistics = Statistics(
    total: real,
    average: real,
    minimum: real,
    maximum: real,
    count: nat,
    performance: Performance,
    uniqueCategories: Option<nat>)

  /** What a run produces: the statistics and the category set. */
  datatype Analysis = Analysis(statistics: Statistics, categories: set<string>)

  /** The optional category file: the name it was given by, and its
      contents, `None` when it cannot be read. */
  datatype CategoryFile = CategoryFile(name: string, contents: Option<Source>)

  /** The performance rule: strictly above the threshold is high. */
  function Classify(average: real, threshold: real): Performance {
    if average > threshold then HighPerformance else NeedsImprovement
  }

  /** Whether category analysis runs: a category file name was given and it
      is not the empty string (Python's truth test on the name). */
  predicate WantsCategories(categoryFile: Option<CategoryFile>) {
    categoryFile.Some? && categoryFile.value.name != []
  }

  /** `calculate_statistics` on the loaded series. An empty series gives no
      statistics and leaves the categories empty. Otherwise the record counts
      the series, bounds its average by its extremes, classifies strictly
      against the threshold, and carries the number of distinct categories
      exactly when a category file name was given, even if the file is
      missing or holds no labels. */
  function CalculateStatistics(data: seq<real>, threshold: real, categoryFile: Option<CategoryFile>): (r: Option<Analysis>)
    ensures r.None? <==> |data| == 0
    ensures r.Some? ==>
              var s := r.value.statistics;
              && s.count == |data|
              && s.total == CalculateTotal(data)
              && s.average * |data| as real == s.total
              && s.minimum in data && s.maximum in data
              && (forall i :: 0 <= i < |data| ==> s.minimum <= data[i] <= s.maximum)
              && s.minimum <= s.average <= s.maximum
              && (s.performance == HighPerformance <==> s.average > threshold)
    ensures r.Some? ==> (r.value.statistics.uniqueCategories.Some? <==> WantsCategories(categoryFile))
    ensures r.Some? && WantsCategories(categoryFile) ==>
              && r.value.categories == ExtractUniqueCategories(categoryFile.value.contents)
              && r.value.statistics.uniqueCategories == Some(|r.value.categories|)
    ensures r.Some? && !WantsCategories(categoryFile) ==> r.value.categories == {}
  {
    if |data| == 0 then None
    else
      MinMaxBound(data);
      MinLeAverageLeMax(data);
      var average := CalculateAverage(data);
      var categories :=
        if WantsCategories(categoryFile) then ExtractUniqueCategories(categoryFile.value.contents) else {};
      var stats := Statistics(
        CalculateTotal(data),
        average,
        CalculateMinimum(data).value,
        CalculateMaximum(data).value,
        |data|,
        Classify(average, threshold),
        if WantsCategories(categoryFile) then Some(|categories|) else None);
      Some(Analysis(stats, categories))
  }

  /** The main flow: load the primary source with Python's `float`, and only
      if that succeeds compute the statistics of exactly the loaded values,
      so every guarantee of `CalculateStatistics` holds of the run. */
  function Run(dataFile: Option<Source>, categoryFile: Option<CategoryFile>, threshold: real)
    : (r: Result<(Batch, Analysis), LoadError>)
    ensures r.Failure? <==> LoadData(dataFile, NumericParser.ParseFloat).Failure?
    ensures r.Failure? ==> r.error == LoadData(dataFile, NumericParser.ParseFloat).error
    ensures r.Success? ==>
              && r.value.0 == LoadData(dataFile, NumericParser.ParseFloat).value
              && r.value.1.statistics.count == |r.value.0.values| > 0
              && CalculateStatistics(r.value.0.values, threshold, categoryFile) == Some(r.value.1)
  {
    match LoadData(dataFile, NumericParser.ParseFloat)
    case Failure(e) => Failure(e)
    case Success(batch) =>
      var analysis := CalculateStatistics(batch.values, threshold, categoryFile);
      Success((batch, analysis.value))
  }

  /** The rule is strict: an average equal to the threshold needs
      improvement, and any amount above it is high performance. */
  lemma ClassifyStrict(threshold: real, excess: real)
    requires excess > 0.0
    ensures Classify(threshold, threshold) == NeedsImprovement
    ensures Classify(threshold + excess, threshold) == HighPerformance
  {
  }
}
