/** What `load_data` and `load_categories` do with the lines of their input files, as
    functions of the lines. The file itself is given as `Option<seq<string>>`: `None` when
    opening it raises `FileNotFoundError`, otherwise the list `readlines()` returns. */
module Loading {
  import opened Wrappers
  import opened Text

  /** The errors the loaders raise; each `ValueError` message is its own kind. */
  datatype LoadError =
    | FileNotFound(path: string)   // `FileNotFoundError` for the file at `path`
    | EmptyFile                    // "File is empty"
    | InvalidData(line: string)    // "Invalid data found: '<line>' is not a number"
    | NoValidData                  // "No valid numerical data found in file"
    | EmptyCategoricalFile         // "Categorical file is empty"
    | NoValidCategories            // "No valid categories found in file"

  /** A load returns normally or raises one of the errors above. */
  datatype Outcome = Pass | Fail(error: LoadError)

  /** The state of the numeric scan: the values appended so far and, once a non-blank
      trimmed line fails to parse, that line (after which nothing more is read). */
  datatype Scan = Scan(values: seq<real>, bad: Option<string>)

  /** One pass of the `load_data` loop: once the scan has stopped, or on a blank line,
      nothing changes; otherwise the trimmed line is parsed and its value appended, or
      the line is reported. */
  function ScanLine(prev: Scan, line: string, parse: string -> Option<real>): Scan {
    var t := Trim(line);
    if prev.bad.Some? || t == [] then prev
    else match parse(t)
      case Some(v) => Scan(prev.values + [v], None)
      case None => Scan(prev.values, Some(t))
  }

  /** The loop of `load_data` over `lines`, with `parse` standing for `float`. */
  function ScanNumbers(lines: seq<string>, parse: string -> Option<real>): Scan {
    if lines == [] then Scan([], None)
    else ScanLine(ScanNumbers(lines[..|lines| - 1], parse), lines[|lines| - 1], parse)
  }

  /** One pass of the `load_categories` loop: a non-blank trimmed line joins the set. */
  function AddLabel(prev: set<string>, line: string): set<string> {
    var t := Trim(line);
    if t == [] then prev else prev + {t}
  }

  /** The loop of `load_categories`: the non-blank trimmed lines, as a set. */
  function CategorySet(lines: seq<string>): set<string> {
    if lines == [] then {}
    else AddLabel(CategorySet(lines[..|lines| - 1]), lines[|lines| - 1])
  }

  /** `load_data` on a `data` list that already holds `existing`: the list afterwards and
      what the call does. Values parsed before a bad line stay appended. */
  function LoadNumbers(existing: seq<real>, path: string, file: Option<seq<string>>,
                       parse: string -> Option<real>): (seq<real>, Outcome)
  {
    match file
    case None => (existing, Fail(FileNotFound(path)))
    case Some(lines) =>
      if lines == [] then (existing, Fail(EmptyFile))
      else
        var sc := ScanNumbers(lines, parse);
        var data := existing + sc.values;
        if sc.bad.Some? then (data, Fail(InvalidData(sc.bad.value)))
        else if data == [] then (data, Fail(NoValidData))
        else (data, Pass)
  }

  /** `load_categories` on a `categories` set that already holds `existing`. */
  function LoadLabels(existing: set<string>, path: string, file: Option<seq<string>>)
    : (set<string>, Outcome)
  {
    match file
    case None => (existing, Fail(FileNotFound(path)))
    case Some(lines) =>
      if lines == [] then (existing, Fail(EmptyCategoricalFile))
      else
        var categories := existing + CategorySet(lines);
        if categories == {} then (categories, Fail(NoValidCategories))
        else (categories, Pass)
  }

  /** Once a bad line has stopped the scan of a prefix, the rest of the lines change
      nothing: the first unparseable line is the one reported. */
  lemma {:induction false} ScanStopsAtBad(lines: seq<string>, parse: string -> Option<real>, k: nat)
    requires k <= |lines|
    requires ScanNumbers(lines[..k], parse).bad.Some?
    ensures ScanNumbers(lines, parse) == ScanNumbers(lines[..k], parse)
  {
    if k < |lines| {
      assert lines[..|lines| - 1][..k] == lines[..k];
      ScanStopsAtBad(lines[..|lines| - 1], parse, k);
    } else {
      assert lines[..k] == lines;
    }
  }

  /** The scan reaches the end exactly when every non-blank trimmed line parses. */
  lemma {:induction false} ScanCompleteIff(lines: seq<string>, parse: string -> Option<real>)
    ensures ScanNumbers(lines, parse).bad == None <==>
            forall i | 0 <= i < |lines| && Trim(lines[i]) != [] :: parse(Trim(lines[i])).Some?
  {
    if lines != [] {
      var init := lines[..|lines| - 1];
      ScanCompleteIff(init, parse);
      assert forall i | 0 <= i < |init| :: init[i] == lines[i];
    }
  }

  /** The reported line is the first non-blank line that does not parse: it is a trimmed
      line of the file, and the values kept are those of the lines before it. */
  lemma {:induction false} ScanBadIsFirst(lines: seq<string>, parse: string -> Option<real>)
    requires ScanNumbers(lines, parse).bad.Some?
    ensures exists k | 0 <= k < |lines| ::
              Trim(lines[k]) == ScanNumbers(lines, parse).bad.value &&
              Trim(lines[k]) != [] && parse(Trim(lines[k])).None? &&
              ScanNumbers(lines[..k], parse).bad == None &&
              ScanNumbers(lines, parse).values == ScanNumbers(lines[..k], parse).values
  {
    var init := lines[..|lines| - 1];
    if ScanNumbers(init, parse).bad.Some? {
      ScanBadIsFirst(init, parse);
      var k :| 0 <= k < |init| &&
               Trim(init[k]) == ScanNumbers(init, parse).bad.value &&
               Trim(init[k]) != [] && parse(Trim(init[k])).None? &&
               ScanNumbers(init[..k], parse).bad == None &&
               ScanNumbers(init, parse).values == ScanNumbers(init[..k], parse).values;
      assert init[..k] == lines[..k];
      assert init[k] == lines[k];
    } else {
      assert lines[..|lines| - 1] == init;
    }
  }

  /** Values are appended in file order: the values scanned from two runs of lines are
      those of the first run followed by those of the second, unless the first run stops. */
  lemma {:induction false} ScanAppend(a: seq<string>, b: seq<string>, parse: string -> Option<real>)
    requires ScanNumbers(a, parse).bad == None
    ensures ScanNumbers(a + b, parse).values ==
            ScanNumbers(a, parse).values + ScanNumbers(b, parse).values
    ensures ScanNumbers(a + b, parse).bad == ScanNumbers(b, parse).bad
  {
    if b == [] {
      assert a + b == a;
    } else {
      var bi := b[..|b| - 1];
      assert (a + b)[..|a + b| - 1] == a + bi;
      ScanAppend(a, bi, parse);
    }
  }

  /** A string is a category exactly when it is the non-empty trimmed form of some line. */
  lemma {:induction false} CategorySetMembers(lines: seq<string>, c: string)
    ensures c in CategorySet(lines) <==>
            c != [] && exists i | 0 <= i < |lines| :: Trim(lines[i]) == c
  {
    if lines != [] {
      var init := lines[..|lines| - 1];
      var last := |lines| - 1;
      CategorySetMembers(init, c);
      assert CategorySet(lines) == CategorySet(init) + if Trim(lines[last]) == [] then {} else {Trim(lines[last])};
      if c in CategorySet(init) {
        var i :| 0 <= i < |init| && Trim(init[i]) == c;
        assert lines[i] == init[i];
      }
    }
  }

  /** Every category is non-empty and equal to its own trimmed form. */
  lemma CategoriesAreTrimmed(lines: seq<string>)
    ensures forall c | c in CategorySet(lines) :: c != [] && Trim(c) == c
  {
  }

  /** The category set is empty exactly when every line is blank. */
  lemma CategorySetEmptyIff(lines: seq<string>)
    ensures CategorySet(lines) == {} <==> forall i | 0 <= i < |lines| :: IsBlank(lines[i])
  {
    if CategorySet(lines) == {} {
      forall i | 0 <= i < |lines| ensures IsBlank(lines[i]) {
        CategorySetMembers(lines, Trim(lines[i]));
        TrimEmptyIffBlank(lines[i]);
      }
    } else {
      var c :| c in CategorySet(lines);
      CategorySetMembers(lines, c);
      var i :| 0 <= i < |lines| && Trim(lines[i]) == c;
      TrimEmptyIffBlank(lines[i]);
    }
  }

  /** `load_data` keeps what `data` held and only appends; it leaves `data` untouched when
      the file is missing or has no lines, and succeeds exactly when the file has lines,
      every non-blank one parses, and `data` is non-empty afterwards. */
  lemma LoadNumbersOutcome(existing: seq<real>, path: string, file: Option<seq<string>>,
                           parse: string -> Option<real>)
    ensures var (data, outcome) := LoadNumbers(existing, path, file, parse);
            |existing| <= |data| && data[..|existing|] == existing &&
            (file.None? || file == Some([]) ==> data == existing) &&
            (outcome == Pass <==>
               file.Some? && file.value != [] && data != [] &&
               forall i | 0 <= i < |file.value| && Trim(file.value[i]) != [] ::
                 parse(Trim(file.value[i])).Some?)
  {
    if file.Some? && file.value != [] {
      ScanCompleteIff(file.value, parse);
      var (data, _) := LoadNumbers(existing, path, file, parse);
      assert data[..|existing|] == existing;
    }
  }

  /** `load_categories` only adds to `categories`, every label it adds is non-empty and
      trimmed, and it succeeds exactly when the file has lines and the set is non-empty. */
  lemma LoadLabelsOutcome(existing: set<string>, path: string, file: Option<seq<string>>)
    ensures var (categories, outcome) := LoadLabels(existing, path, file);
            existing <= categories &&
            (forall c | c in categories && c !in existing :: c != [] && Trim(c) == c) &&
            (outcome == Pass <==> file.Some? && file.value != [] && categories != {})
  {
    if file.Some? {
      CategoriesAreTrimmed(file.value);
    }
  }

  /** Scanning one more line is one more pass of the loop. */
  lemma ScanSnoc(lines: seq<string>, line: string, parse: string -> Option<real>)
    ensures ScanNumbers(lines + [line], parse) == ScanLine(ScanNumbers(lines, parse), line, parse)
  {
  }

  /** Reading one more line is one more pass of the loop. */
  lemma CategorySetSnoc(lines: seq<string>, line: string)
    ensures CategorySet(lines + [line]) == AddLabel(CategorySet(lines), line)
  {
  }

  /** Three non-blank lines of which only the third fails to parse (the file "10", "20",
      "abc"): the load reports the third and leaves the first two values appended. */
  lemma InvalidLineKeepsEarlierValues(l1: string, l2: string, l3: string, u: real, v: real,
                                      parse: string -> Option<real>)
    requires Trim(l1) != [] && Trim(l2) != [] && Trim(l3) != []
    requires parse(Trim(l1)) == Some(u) && parse(Trim(l2)) == Some(v) && parse(Trim(l3)) == None
    ensures LoadNumbers([], "student_marks.csv", Some([l1, l2, l3]), parse)
            == ([u, v], Fail(InvalidData(Trim(l3))))
  {
    ScanSnoc([], l1, parse);
    assert [] + [l1] == [l1];
    assert ScanNumbers([l1], parse) == Scan([u], None);
    ScanSnoc([l1], l2, parse);
    assert [l1] + [l2] == [l1, l2];
    assert [u] + [v] == [u, v];
    assert ScanNumbers([l1, l2], parse) == Scan([u, v], None);
    ScanSnoc([l1, l2], l3, parse);
    assert [l1, l2] + [l3] == [l1, l2, l3];
    assert ScanNumbers([l1, l2, l3], parse) == Scan([u, v], Some(Trim(l3)));
    assert [] + [u, v] == [u, v];
  }

  /** Lines reading "math", "science", "math" yield the two labels once each. */
  lemma DuplicateLabelsCollapse(l1: string, l2: string, l3: string)
    requires Trim(l1) != [] && Trim(l2) != [] && Trim(l3) == Trim(l1)
    ensures LoadLabels({}, "courses.csv", Some([l1, l2, l3])) == ({Trim(l1), Trim(l2)}, Pass)
  {
    CategorySetSnoc([], l1);
    assert [] + [l1] == [l1];
    assert CategorySet([l1]) == {Trim(l1)};
    CategorySetSnoc([l1], l2);
    assert [l1] + [l2] == [l1, l2];
    assert CategorySet([l1, l2]) == {Trim(l1), Trim(l2)};
    CategorySetSnoc([l1, l2], l3);
    assert [l1, l2] + [l3] == [l1, l2, l3];
    assert CategorySet([l1, l2, l3]) == {Trim(l1), Trim(l2)};
    assert {} + CategorySet([l1, l2, l3]) == {Trim(l1), Trim(l2)};
  }
}
