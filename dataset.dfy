/** The `DataSet` class: readings, category labels and the statistics table, the methods
    that fill them, the performance verdict of the report and the run of `main`. */
module DatasetAnalysis {
  import opened Wrappers
  import opened Text
  import opened Reductions
  import opened Loading

  /** The keys of the `statistics` table. */
  datatype Stat = Total | Average | Minimum | Maximum | Count

  const AllStats: set<Stat> := {Total, Average, Minimum, Maximum, Count}

  /** The threshold `main` passes, which is also the constructor's default. */
  const DefaultThreshold: real := 85.0

  /** The table `calculate_statistics` writes for a non-empty data list; `count` is stored
      as a number like the other entries. */
  function StatisticsOf(data: seq<real>): map<Stat, real>
    requires data != []
  {
    map[Total := Sum(data), Average := Mean(data), Minimum := Min(data),
        Maximum := Max(data), Count := |data| as real]
  }

  /** Writing the five entries one by one over a table that is empty or has those
      five keys gives exactly the table of `data`. */
  lemma WritesEveryEntry(st: map<Stat, real>, data: seq<real>)
    requires data != []
    requires st == map[] || st.Keys == AllStats
    ensures st[Total := Sum(data)][Average := Mean(data)][Minimum := Min(data)]
              [Maximum := Max(data)][Count := |data| as real] == StatisticsOf(data)
  {
  }

  /** The two performance lines of the report. */
  datatype Performance = HighPerformance | NeedsImprovement

  /** The report's verdict on an average. */
  function Verdict(average: real, threshold: real): Performance {
    if average > threshold then HighPerformance else NeedsImprovement
  }

  /** What `display_results` prints, before formatting: the statistics, the verdict and
      the categories (which the report lists sorted). `save_results` writes the same and
      also the two input paths, which are not part of this value. */
  datatype Report = Report(statistics: map<Stat, real>, performance: Performance,
                           categories: set<string>)

  class DataSet {
    const dataFile: string
    const categoricalFile: string
    const threshold: real
    var data: seq<real>
    var categories: set<string>
    var statistics: map<Stat, real>

    /** Every category is a non-empty trimmed line, and the statistics table is either
        still empty or holds all five entries. */
    predicate Valid()
      reads this
    {
      (forall c | c in categories :: c != [] && Trim(c) == c) &&
      (statistics == map[] || statistics.Keys == AllStats)
    }

    /** `DataSet(data_file, categorical_file, threshold)`: everything starts empty. */
    constructor (dataFile: string, categoricalFile: string, threshold: real)
      ensures Valid()
      ensures this.dataFile == dataFile && this.categoricalFile == categoricalFile
      ensures this.threshold == threshold
      ensures data == [] && categories == {} && statistics == map[]
    {
      this.dataFile := dataFile;
      this.categoricalFile := categoricalFile;
      this.threshold := threshold;
      data := [];
      categories := {};
      statistics := map[];
    }

    /** `load_data`, given the file's lines (or `None` when it does not exist) and the
        number parser: appends each parsed line to `data` as it goes, so an error raised
        part-way leaves the values before it appended. */
    method LoadData(file: Option<seq<string>>, parse: string -> Option<real>)
      returns (outcome: Outcome)
      requires Valid()
      modifies this`data
      ensures Valid()
      ensures (data, outcome) == LoadNumbers(old(data), dataFile, file, parse)
    {
      if file.None? {
        return Fail(FileNotFound(dataFile));
      }
      var lines := file.value;
      if lines == [] {
        return Fail(EmptyFile);
      }
      for i := 0 to |lines|
        invariant ScanNumbers(lines[..i], parse).bad == None
        invariant data == old(data) + ScanNumbers(lines[..i], parse).values
      {
        assert lines[..i + 1][..i] == lines[..i];
        var line := Trim(lines[i]);
        if line != [] {
          match parse(line) {
            case Some(value) =>
              data := data + [value];
            case None =>
              ScanStopsAtBad(lines, parse, i + 1);
              return Fail(InvalidData(line));
          }
        }
      }
      assert lines[..|lines|] == lines;
      if data == [] {
        return Fail(NoValidData);
      }
      outcome := Pass;
    }

    /** `calculate_statistics`: nothing changes without data; otherwise the five entries
        are written from the four reductions and the length of `data`. */
    method CalculateStatistics()
      requires Valid()
      modifies this`statistics
      ensures Valid()
      ensures data == [] ==> statistics == old(statistics)
      ensures data != [] ==> statistics == StatisticsOf(data)
    {
      if data == [] {
        return;
      }
      var total := CalculateTotal(data);
      var average := CalculateAverage(data);
      var minimum := CalculateMinimum(data);
      var maximum := CalculateMaximum(data);
      statistics := statistics[Total := total];
      statistics := statistics[Average := average];
      statistics := statistics[Minimum := minimum.value];
      statistics := statistics[Maximum := maximum.value];
      statistics := statistics[Count := |data| as real];
      WritesEveryEntry(old(statistics), data);
    }

    /** `load_categories`, given the file's lines (or `None` when it does not exist):
        adds every non-blank trimmed line to `categories`. */
    method LoadCategories(file: Option<seq<string>>) returns (outcome: Outcome)
      requires Valid()
      modifies this`categories
      ensures Valid()
      ensures (categories, outcome) == LoadLabels(old(categories), categoricalFile, file)
    {
      if file.None? {
        return Fail(FileNotFound(categoricalFile));
      }
      var lines := file.value;
      if lines == [] {
        return Fail(EmptyCategoricalFile);
      }
      for i := 0 to |lines|
        invariant categories == old(categories) + CategorySet(lines[..i])
        invariant forall c | c in categories :: c != [] && Trim(c) == c
      {
        assert lines[..i + 1][..i] == lines[..i];
        var line := Trim(lines[i]);
        if line != [] {
          TrimIdempotent(lines[i]);
          categories := categories + {line};
        }
      }
      assert lines[..|lines|] == lines;
      if categories == {} {
        return Fail(NoValidCategories);
      }
      outcome := Pass;
    }

    /** The content of `display_results`: nothing while the statistics table is empty,
        otherwise the table, the verdict on its average against the threshold, and the
        categories. `save_results` writes the same and also the two input paths. */
    method Results() returns (report: Option<Report>)
      requires Valid()
      ensures report.None? <==> statistics == map[]
      ensures report.Some? ==>
                report.value.statistics == statistics &&
                report.value.categories == categories &&
                (report.value.performance == HighPerformance <==> statistics[Average] > threshold)
    {
      if statistics == map[] {
        return None;
      }
      var performance := Verdict(statistics[Average], threshold);
      report := Some(Report(statistics, performance, categories));
    }
  }

  /** `main`: a data set on "student_marks.csv" and "courses.csv" with threshold 85. A
      failed numeric load ends the run with no report; a failed category load is ignored. */
  method RunAnalysis(numbers: Option<seq<string>>, labels: Option<seq<string>>,
                     parse: string -> Option<real>)
    returns (report: Option<Report>)
    ensures var (data, loaded) := LoadNumbers([], "student_marks.csv", numbers, parse);
            (report.None? <==> loaded.Fail?) &&
            (report.Some? ==>
               data != [] &&
               report.value == Report(StatisticsOf(data), Verdict(Mean(data), DefaultThreshold),
                                      LoadLabels({}, "courses.csv", labels).0))
  {
    var dataset := new DataSet("student_marks.csv", "courses.csv", DefaultThreshold);
    var loaded := dataset.LoadData(numbers, parse);
    if loaded.Fail? {
      return None;
    }
    ghost var data := dataset.data;
    assert data != [];
    dataset.CalculateStatistics();
    assert dataset.statistics == StatisticsOf(data) && Total in dataset.statistics;
    var _ := dataset.LoadCategories(labels);
    assert dataset.categories == LoadLabels({}, "courses.csv", labels).0;
    report := dataset.Results();
    assert report.Some? && report.value.statistics == StatisticsOf(data);
  }

  /** The statistics table is consistent: all five entries, the average between the
      minimum and the maximum, and the average times the count equal to the total. */
  lemma StatisticsConsistent(data: seq<real>)
    requires data != []
    ensures StatisticsOf(data).Keys == AllStats
    ensures StatisticsOf(data)[Count] >= 1.0
    ensures StatisticsOf(data)[Minimum] <= StatisticsOf(data)[Average] <= StatisticsOf(data)[Maximum]
    ensures StatisticsOf(data)[Average] * StatisticsOf(data)[Count] == StatisticsOf(data)[Total]
  {
    var st := StatisticsOf(data);
    assert st[Minimum] <= st[Average] <= st[Maximum] by {
      MeanBetweenExtremes(data);
    }
    assert st[Average] * st[Count] == st[Total] by {
      MeanTimesCount(data);
    }
  }

  /** "High Performance" exactly when the total exceeds threshold times count. */
  lemma VerdictByTotal(data: seq<real>, threshold: real)
    requires data != []
    ensures Verdict(Mean(data), threshold) == HighPerformance <==>
            Sum(data) > threshold * (|data| as real)
  {
  }

  /** Readings all above the threshold give "High Performance"; readings none of which
      exceeds it give "Needs Improvement". */
  lemma VerdictByExtremes(data: seq<real>, threshold: real)
    requires data != []
    ensures Min(data) > threshold ==> Verdict(Mean(data), threshold) == HighPerformance
    ensures Max(data) <= threshold ==> Verdict(Mean(data), threshold) == NeedsImprovement
  {
    MeanBetweenExtremes(data);
  }

  /** The comparison is strict: an average equal to the threshold needs improvement. */
  lemma VerdictAtThreshold(threshold: real)
    ensures Verdict(threshold, threshold) == NeedsImprovement
  {
  }

  /** Marks 90, 80, 95 against 85: count 3, total 265, minimum 80, maximum 95, an average
      of 88.33... and "High Performance". */
  lemma HighPerformanceExample()
    ensures StatisticsOf([90.0, 80.0, 95.0]) ==
            map[Total := 265.0, Average := 265.0 / 3.0, Minimum := 80.0, Maximum := 95.0,
                Count := 3.0]
    ensures Verdict(Mean([90.0, 80.0, 95.0]), DefaultThreshold) == HighPerformance
  {
    var marks := [90.0, 80.0, 95.0];
    assert marks[..2] == [90.0, 80.0] && marks[..2][..1] == [90.0] && marks[..2][..1][..0] == [];
    assert Sum([90.0]) == 90.0;
    assert Sum([90.0, 80.0]) == 170.0;
    assert Sum(marks) == 265.0;
    assert Min(marks) == 80.0;
    assert Max(marks) == 95.0;
  }

  /** Marks 70, 75 against 85: an average of 72.5 and "Needs Improvement". */
  lemma NeedsImprovementExample()
    ensures Mean([70.0, 75.0]) == 72.5
    ensures Verdict(Mean([70.0, 75.0]), DefaultThreshold) == NeedsImprovement
  {
    var marks := [70.0, 75.0];
    assert marks[..1] == [70.0] && marks[..1][..0] == [];
    assert Sum(marks) == 145.0;
  }
}
