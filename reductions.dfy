/** The four reductions `calculate_total`, `calculate_average`, `calculate_minimum` and
    `calculate_maximum`: loops over a sequence of readings, each proved against a
    specification function whose meaning is stated and proved here. */
module Reductions {
  import opened Wrappers

  /** The sum of the readings, accumulated from left to right. */
  function Sum(s: seq<real>): real {
    if s == [] then 0.0 else Sum(s[..|s| - 1]) + s[|s| - 1]
  }

  /** The average as `calculate_average` defines it: 0 for no readings. */
  function Mean(s: seq<real>): real {
    if s == [] then 0.0 else Sum(s) / (|s| as real)
  }

  /** The running minimum seeded with the first reading: an element that bounds all others. */
  function Min(s: seq<real>): (m: real)
    requires s != []
    ensures m in s
    ensures forall i | 0 <= i < |s| :: m <= s[i]
  {
    if |s| == 1 then s[0]
    else
      var m := Min(s[..|s| - 1]);
      if s[|s| - 1] < m then s[|s| - 1] else m
  }

  /** The running maximum seeded with the first reading: an element that bounds all others. */
  function Max(s: seq<real>): (m: real)
    requires s != []
    ensures m in s
    ensures forall i | 0 <= i < |s| :: s[i] <= m
  {
    if |s| == 1 then s[0]
    else
      var m := Max(s[..|s| - 1]);
      if s[|s| - 1] > m then s[|s| - 1] else m
  }

  /** `calculate_total`: 0 for no readings, otherwise their sum. */
  method CalculateTotal(dataset: seq<real>) returns (total: real)
    ensures total == Sum(dataset)
  {
    total := 0.0;
    for i := 0 to |dataset|
      invariant total == Sum(dataset[..i])
    {
      assert dataset[..i + 1][..i] == dataset[..i];
      total := total + dataset[i];
    }
    assert dataset[..|dataset|] == dataset;
  }

  /** `calculate_average`: 0 for no readings, otherwise the total over a count that a
      second loop computes and that equals the number of readings. */
  method CalculateAverage(dataset: seq<real>) returns (average: real)
    ensures dataset == [] ==> average == 0.0
    ensures dataset != [] ==> average * (|dataset| as real) == Sum(dataset)
    ensures average == Mean(dataset)
  {
    if dataset == [] {
      return 0.0;
    }
    var count := 0;
    for i := 0 to |dataset|
      invariant count == i
    {
      count := count + 1;
    }
    var total := CalculateTotal(dataset);
    average := total / (count as real);
  }

  /** `calculate_minimum`: `None` for no readings, otherwise a reading no larger than any. */
  method CalculateMinimum(dataset: seq<real>) returns (minimum: Option<real>)
    ensures minimum.None? <==> dataset == []
    ensures minimum.Some? ==> minimum.value in dataset
    ensures minimum.Some? ==> forall i | 0 <= i < |dataset| :: minimum.value <= dataset[i]
    ensures dataset != [] ==> minimum == Some(Min(dataset))
  {
    if dataset == [] {
      return None;
    }
    var m := dataset[0];
    for i := 0 to |dataset|
      invariant m == Min(dataset[..if i == 0 then 1 else i])
    {
      assert dataset[..i + 1][..i] == dataset[..i];
      if dataset[i] < m {
        m := dataset[i];
      }
    }
    assert dataset[..|dataset|] == dataset;
    minimum := Some(m);
  }

  /** `calculate_maximum`: `None` for no readings, otherwise a reading no smaller than any. */
  method CalculateMaximum(dataset: seq<real>) returns (maximum: Option<real>)
    ensures maximum.None? <==> dataset == []
    ensures maximum.Some? ==> maximum.value in dataset
    ensures maximum.Some? ==> forall i | 0 <= i < |dataset| :: dataset[i] <= maximum.value
    ensures dataset != [] ==> maximum == Some(Max(dataset))
  {
    if dataset == [] {
      return None;
    }
    var m := dataset[0];
    for i := 0 to |dataset|
      invariant m == Max(dataset[..if i == 0 then 1 else i])
    {
      assert dataset[..i + 1][..i] == dataset[..i];
      if dataset[i] > m {
        m := dataset[i];
      }
    }
    assert dataset[..|dataset|] == dataset;
    maximum := Some(m);
  }

  /** Summing two runs of readings one after the other gives the sum of the whole. */
  lemma {:induction false} SumAppend(a: seq<real>, b: seq<real>)
    ensures Sum(a + b) == Sum(a) + Sum(b)
  {
    if b != [] {
      assert (a + b)[..|a + b| - 1] == a + b[..|b| - 1];
      SumAppend(a, b[..|b| - 1]);
    } else {
      assert a + b == a;
    }
  }

  /** A lower bound of every reading bounds the sum from below by count times itself. */
  lemma {:induction false} SumAtLeast(s: seq<real>, lo: real)
    requires forall i | 0 <= i < |s| :: lo <= s[i]
    ensures (|s| as real) * lo <= Sum(s)
  {
    if s != [] {
      SumAtLeast(s[..|s| - 1], lo);
      assert (|s| as real) * lo == ((|s| - 1) as real) * lo + lo;
    }
  }

  /** An upper bound of every reading bounds the sum from above by count times itself. */
  lemma {:induction false} SumAtMost(s: seq<real>, hi: real)
    requires forall i | 0 <= i < |s| :: s[i] <= hi
    ensures Sum(s) <= (|s| as real) * hi
  {
    if s != [] {
      SumAtMost(s[..|s| - 1], hi);
      assert (|s| as real) * hi == ((|s| - 1) as real) * hi + hi;
    }
  }

  /** The average of at least one reading lies between the minimum and the maximum,
      so `minimum <= average <= maximum` in every computed statistics table. */
  lemma MeanBetweenExtremes(s: seq<real>)
    requires s != []
    ensures Min(s) <= Mean(s) <= Max(s)
  {
    var n := |s| as real;
    SumAtLeast(s, Min(s));
    SumAtMost(s, Max(s));
    QuotientBetween(Sum(s), n, Min(s), Max(s));
  }

  /** Dividing `lo * n <= total <= hi * n` by a positive count. */
  lemma QuotientBetween(total: real, n: real, lo: real, hi: real)
    requires n > 0.0
    requires n * lo <= total <= n * hi
    ensures lo <= total / n <= hi
  {
  }

  /** The average times the number of readings is the total. */
  lemma MeanTimesCount(s: seq<real>)
    requires s != []
    ensures Mean(s) * (|s| as real) == Sum(s)
  {
  }

  /** Every reading lies between the minimum and the maximum. */
  lemma ExtremesBound(s: seq<real>, x: real)
    requires x in s
    ensures Min(s) <= x <= Max(s)
  {
  }
}
