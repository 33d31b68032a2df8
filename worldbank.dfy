/** The reshaping done by `lib/worldbank.ts` on the records the statistics service
    returns (element 1 of its `[metadata, records]` envelope). The HTTP requests
    themselves are not modelled: the record list is a parameter. */
module WorldBank {
  import opened Wrappers
  import opened Rounding
  import opened Windowing

  /** One observation record: its `date` label and its possibly-null `value`. */
  datatype Observation<T> = Observation(date: string, value: Option<T>)

  /** What `getWorldPopulation` returns: populations in tenths of a billion (the
      number `toFixed(1)` prints), the year labels, and `current`, which is `undefined`
      when there are no records. */
  datatype WorldPopulation = WorldPopulation(population: seq<int>, years: seq<string>, current: Option<int>)

  /** `(item.value / 1_000_000_000).toFixed(1)`, in tenths. JavaScript divides `null`
      as if it were 0, so a missing value prints as "0.0". */
  function PopulationTenths(value: Option<int>): (r: int)
    ensures value.None? ==> r == 0
    ensures value.Some? && value.value >= 0 ==> r == (value.value + 50000000) / 100000000
  {
    var v := value.GetOr(0);
    ToFixedTenthsOfBillion(if v >= 0 then v else 0);
    ToFixedUnits(v as real / 1000000000.0, 1)
  }

  /** `getWorldPopulation` after the fetch: two arrays parallel to the records and
      the first population value. */
  function GetWorldPopulation(records: seq<Observation<int>>): (w: WorldPopulation)
    ensures |w.population| == |records| && |w.years| == |records|
    ensures forall i :: 0 <= i < |records| ==>
      w.years[i] == records[i].date && w.population[i] == PopulationTenths(records[i].value)
    ensures w.current.None? <==> |records| == 0
    ensures w.current.Some? ==> w.current.value == w.population[0]
  {
    var population := seq(|records|, i requires 0 <= i < |records| => PopulationTenths(records[i].value));
    var years := seq(|records|, i requires 0 <= i < |records| => records[i].date);
    WorldPopulation(population, years, if |population| == 0 then None else Some(population[0]))
  }

  /** When the first record holds a non-negative count, `current` is that count rounded
      to the nearest tenth of a billion. */
  lemma CurrentIsNewestRecord(records: seq<Observation<int>>, count: int)
    requires |records| > 0 && records[0].value == Some(count) && count >= 0
    ensures GetWorldPopulation(records).current == Some((count + 50000000) / 100000000)
  {
  }

  /** Windowing the two arrays keeps them tied to the records: with `n` the smaller
      of the year range and the record count, both windows have length `n` and entry
      `i` of both comes from record `n - 1 - i`. */
  lemma WindowedRecord(records: seq<Observation<int>>, yearRange: nat, i: nat)
    ensures var w := GetWorldPopulation(records);
      var n := Min(yearRange, |records|);
      && |Window(w.years, yearRange)| == n && |Window(w.population, yearRange)| == n
      && (i < n ==>
            && Window(w.years, yearRange)[i] == records[n - 1 - i].date
            && Window(w.population, yearRange)[i] == PopulationTenths(records[n - 1 - i].value))
  {
    var w := GetWorldPopulation(records);
    var n := Min(yearRange, |records|);
    if i < n {
      assert Window(w.years, yearRange)[i] == w.years[n - 1 - i];
      assert Window(w.population, yearRange)[i] == w.population[n - 1 - i];
    }
  }

  /** The `values` kept by `.filter(value => value !== null)`, in order. */
  function NonNull(values: seq<Option<real>>): (r: seq<real>)
    ensures |r| <= |values|
    ensures forall x :: x in r <==> Some(x) in values
  {
    if |values| == 0 then []
    else (if values[0].Some? then [values[0].value] else []) + NonNull(values[1..])
  }

  /** The filter keeps every non-null value as many times as it occurs. */
  lemma {:induction false} NonNullKeepsMultiplicity(values: seq<Option<real>>)
    ensures forall x :: multiset(NonNull(values))[x] == multiset(values)[Some(x)]
  {
    if |values| > 0 {
      var head := if values[0].Some? then [values[0].value] else [];
      NonNullKeepsMultiplicity(values[1..]);
      assert values == [values[0]] + values[1..];
      assert NonNull(values) == head + NonNull(values[1..]);
      assert multiset(values) == multiset([values[0]]) + multiset(values[1..]);
      assert multiset(NonNull(values)) == multiset(head) + multiset(NonNull(values[1..]));
    }
  }

  /** Filtering distributes over concatenation. */
  lemma {:induction false} NonNullAppend(a: seq<Option<real>>, b: seq<Option<real>>)
    ensures NonNull(a + b) == NonNull(a) + NonNull(b)
  {
    if |a| == 0 {
      assert a + b == b;
    } else {
      assert (a + b)[1..] == a[1..] + b;
      NonNullAppend(a[1..], b);
    }
  }

  /** `xs.reduce((sum, value) => sum + value, 0)`: a left fold, so the last value is
      added last. */
  function Sum(xs: seq<real>): real
  {
    if |xs| == 0 then 0.0 else Sum(xs[..|xs| - 1]) + xs[|xs| - 1]
  }

  /** The mean of the non-null density values, or `None` (the source's `null`) when
      none is left. */
  function AverageDensity(values: seq<Option<real>>): (r: Option<real>)
    ensures r.None? <==> forall i :: 0 <= i < |values| ==> values[i].None?
    ensures r.Some? ==> r.value == Sum(NonNull(values)) / |NonNull(values)| as real
  {
    var kept := NonNull(values);
    if |kept| == 0 then
      None
    else
      assert Some(kept[0]) in values;
      Some(Sum(kept) / |kept| as real)
  }

  /** The `value` of each record, in order. */
  function Values(records: seq<Observation<real>>): (values: seq<Option<real>>)
    ensures |values| == |records| && forall i :: 0 <= i < |records| ==> values[i] == records[i].value
  {
    seq(|records|, i requires 0 <= i < |records| => records[i].value)
  }

  /** `getAveragePopulationDensity` after the fetch: the mean printed with
      `toFixed(2)`, in hundredths, or `None` when every value is null. */
  function GetAveragePopulationDensity(records: seq<Observation<real>>): (r: Option<int>)
    ensures r.None? <==> forall i :: 0 <= i < |records| ==> records[i].value.None?
    ensures r.Some? ==>
      AverageDensity(Values(records)).Some? && r.value == ToFixedUnits(AverageDensity(Values(records)).value, 2)
  {
    match AverageDensity(Values(records))
    case None => None
    case Some(mean) => Some(ToFixedUnits(mean, 2))
  }

  /** A null observation has no influence on the average, wherever it is inserted
      (and so removing one has none either). */
  lemma NullsDoNotAffectAverage(a: seq<Option<real>>, b: seq<Option<real>>)
    ensures AverageDensity(a + [None] + b) == AverageDensity(a + b)
  {
    NonNullAppend(a + [None], b);
    NonNullAppend(a, [None]);
    NonNullAppend(a, b);
    assert NonNull([None]) == [];
    assert NonNull(a + [None]) == NonNull(a);
    assert NonNull(a + [None] + b) == NonNull(a + b);
  }

  function MinOf(xs: seq<real>): (r: real)
    requires |xs| > 0
    ensures r in xs && forall i :: 0 <= i < |xs| ==> r <= xs[i]
  {
    if |xs| == 1 then xs[0]
    else var m := MinOf(xs[..|xs| - 1]); if xs[|xs| - 1] < m then xs[|xs| - 1] else m
  }

  function MaxOf(xs: seq<real>): (r: real)
    requires |xs| > 0
    ensures r in xs && forall i :: 0 <= i < |xs| ==> xs[i] <= r
  {
    if |xs| == 1 then xs[0]
    else var m := MaxOf(xs[..|xs| - 1]); if xs[|xs| - 1] > m then xs[|xs| - 1] else m
  }

  lemma {:induction false} SumBounds(xs: seq<real>, lo: real, hi: real)
    requires forall i :: 0 <= i < |xs| ==> lo <= xs[i] <= hi
    ensures |xs| as real * lo <= Sum(xs) <= |xs| as real * hi
  {
    if |xs| > 0 {
      var init := xs[..|xs| - 1];
      assert forall i :: 0 <= i < |init| ==> init[i] == xs[i];
      SumBounds(init, lo, hi);
      assert |xs| as real * lo == |init| as real * lo + lo;
      assert |xs| as real * hi == |init| as real * hi + hi;
    }
  }

  /** When there is an average, it lies between the smallest and largest non-null
      value. */
  lemma AverageWithinRange(values: seq<Option<real>>)
    requires AverageDensity(values).Some?
    ensures var kept := NonNull(values);
      |kept| > 0 && MinOf(kept) <= AverageDensity(values).value <= MaxOf(kept)
  {
    var kept := NonNull(values);
    assert |kept| > 0 by {
      var i :| 0 <= i < |values| && values[i].Some?;
      assert values[i].value in kept;
    }
    MeanWithinRange(kept);
  }

  lemma {:induction false} MeanWithinRange(xs: seq<real>)
    requires |xs| > 0
    ensures MinOf(xs) <= Sum(xs) / |xs| as real <= MaxOf(xs)
  {
    SumBounds(xs, MinOf(xs), MaxOf(xs));
    QuotientBounds(Sum(xs), |xs|, MinOf(xs), MaxOf(xs));
  }

  lemma {:induction false} QuotientBounds(total: real, n: nat, lo: real, hi: real)
    requires n > 0 && n as real * lo <= total <= n as real * hi
    ensures lo <= total / n as real <= hi
  {
    var m := n as real;
    assert (total / m) * m == total;
  }

  lemma ExampleKept()
    ensures NonNull([None, Some(10.0), Some(20.0)]) == [10.0, 20.0]
  {
    var values: seq<Option<real>> := [None, Some(10.0), Some(20.0)];
    assert values[1..] == [Some(10.0), Some(20.0)];
    assert values[1..][1..] == [Some(20.0)];
    assert values[1..][1..][1..] == [];
  }

  /** `[null, 10, 20]` averages to 15 and prints as "15.00". */
  lemma AverageDensityExample()
    ensures GetAveragePopulationDensity([Observation("1960", None), Observation("1961", Some(10.0)),
                                         Observation("1962", Some(20.0))]) == Some(1500)
  {
    var records := [Observation("1960", None), Observation("1961", Some(10.0)), Observation("1962", Some(20.0))];
    var values := [None, Some(10.0), Some(20.0)];
    assert Values(records) == values;
    ExampleKept();
    assert Sum([10.0, 20.0]) == 30.0 by {
      assert [10.0, 20.0][..1] == [10.0];
      assert [10.0][..0] == [];
    }
    assert AverageDensity(values) == Some(15.0);
    assert Pow10(2) == 100;
    assert ToFixedUnits(15.0, 2) == Round(1500.0);
  }
}
