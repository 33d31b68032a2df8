/** The chart window `xs.slice(0, yearRange).reverse()` used by every chart of the
    dashboard. Series arrive newest-first (the statistics service is queried with
    `sort=date:desc`); the window keeps the `yearRange` most recent points and puts
    them in chronological order for display. */
module Windowing {

  function Min(a: nat, b: nat): (r: nat)
    ensures r <= a && r <= b && (r == a || r == b)
  {
    if a <= b then a else b
  }

  /** `Array.prototype.reverse` on a copy. */
  function Reverse<T>(s: seq<T>): (r: seq<T>)
    ensures |r| == |s|
    ensures forall i :: 0 <= i < |s| ==> r[i] == s[|s| - 1 - i]
  {
    if |s| == 0 then [] else Reverse(s[1..]) + [s[0]]
  }

  /** Reversing twice gives back the original sequence. */
  lemma ReverseReverse<T>(s: seq<T>)
    ensures Reverse(Reverse(s)) == s
  {
    var r := Reverse(Reverse(s));
    assert |r| == |s|;
    forall i | 0 <= i < |s|
      ensures r[i] == s[i]
    {
      assert r[i] == Reverse(s)[|s| - 1 - i];
    }
  }

  /** `xs.slice(0, yearRange).reverse()`: `slice` with an end past the length stops at
      the length. */
  function Window<T>(xs: seq<T>, yearRange: nat): (r: seq<T>)
    ensures |r| == Min(yearRange, |xs|)
    ensures forall i :: 0 <= i < |r| ==> r[i] == xs[|r| - 1 - i]
  {
    Reverse(xs[..Min(yearRange, |xs|)])
  }

  /** Undoing the reversal gives exactly the first `min(yearRange, |xs|)` points. */
  lemma WindowIsReversedPrefix<T>(xs: seq<T>, yearRange: nat)
    ensures Reverse(Window(xs, yearRange)) == xs[..Min(yearRange, |xs|)]
  {
    ReverseReverse(xs[..Min(yearRange, |xs|)]);
  }

  /** Pairs the points of two parallel arrays; truncates to the shorter one. */
  function Zip<A, B>(xs: seq<A>, ys: seq<B>): (r: seq<(A, B)>)
    ensures |r| == Min(|xs|, |ys|)
    ensures forall i :: 0 <= i < |r| ==> r[i] == (xs[i], ys[i])
  {
    seq(Min(|xs|, |ys|), i requires 0 <= i < Min(|xs|, |ys|) => (xs[i], ys[i]))
  }

  /** Windowing the x values and the y values separately keeps them index-aligned:
      it is the same as windowing the pairs. */
  lemma WindowKeepsAlignment<A, B>(xs: seq<A>, ys: seq<B>, yearRange: nat)
    requires |xs| == |ys|
    ensures |Window(xs, yearRange)| == |Window(ys, yearRange)|
    ensures Zip(Window(xs, yearRange), Window(ys, yearRange)) == Window(Zip(xs, ys), yearRange)
  {
    var l := Window(Zip(xs, ys), yearRange);
    var r := Zip(Window(xs, yearRange), Window(ys, yearRange));
    forall i | 0 <= i < |l|
      ensures i < |r| && l[i] == r[i]
    {
      WindowedPair(xs, ys, yearRange, i);
    }
  }

  lemma WindowedPair<A, B>(xs: seq<A>, ys: seq<B>, yearRange: nat, i: nat)
    requires |xs| == |ys| && i < Min(yearRange, |xs|)
    ensures |Window(Zip(xs, ys), yearRange)| == |Zip(Window(xs, yearRange), Window(ys, yearRange))|
    ensures Window(Zip(xs, ys), yearRange)[i] == Zip(Window(xs, yearRange), Window(ys, yearRange))[i]
  {
    var n := Min(yearRange, |xs|);
    assert Window(Zip(xs, ys), yearRange)[i] == Zip(xs, ys)[n - 1 - i] == (xs[n - 1 - i], ys[n - 1 - i]);
    assert Window(xs, yearRange)[i] == xs[n - 1 - i] && Window(ys, yearRange)[i] == ys[n - 1 - i];
  }

  /** A wider window shows more of the past: the narrower window is its most
      recent (last) part. */
  lemma WiderWindowExtendsIntoThePast<T>(xs: seq<T>, narrow: nat, wide: nat)
    requires narrow <= wide
    ensures |Window(xs, narrow)| <= |Window(xs, wide)|
    ensures Window(xs, wide)[|Window(xs, wide)| - |Window(xs, narrow)|..] == Window(xs, narrow)
  {
    var n := Window(xs, narrow);
    var w := Window(xs, wide);
    var d := |w| - |n|;
    assert |w[d..]| == |n|;
    forall i | 0 <= i < |n|
      ensures w[d..][i] == n[i]
    {
      assert w[d..][i] == w[d + i];
    }
  }

  /** A newest-first series (strictly decreasing keys) is shown oldest-first. */
  lemma WindowIsChronological(keys: seq<int>, yearRange: nat)
    requires forall i, j :: 0 <= i < j < |keys| ==> keys[i] > keys[j]
    ensures forall i, j :: 0 <= i < j < |Window(keys, yearRange)| ==>
      Window(keys, yearRange)[i] < Window(keys, yearRange)[j]
  {
  }

  /** One ApexCharts series: its name and its y values. The values are scaled
      integers: the number plotted is `data[i] / 10^d`, where `d` is the number of
      decimals the values were rounded to (one for populations in billions, so 153
      stands for 15.3; in the population detail chart, the `decimals` of its chart
      data, two for density, so 6000 stands for 60.00). */
  datatype Series = Series(name: string, data: seq<int>)

  /** The parts of a chart configuration that carry data: the x-axis categories and
      the series list. Styling options are not modelled. */
  datatype ChartConfig = ChartConfig(categories: seq<string>, series: seq<Series>)

  /** The series name every chart of the dashboard uses. */
  const TotalPopulation := "Total Population"

  /** A chart of one series over parallel x and y arrays, both windowed: the
      categories are the most recent `yearRange` labels oldest-first, and the one
      series holds the matching values at the same positions. */
  function WindowedChart(xs: seq<string>, ys: seq<int>, yearRange: nat): (c: ChartConfig)
    ensures |c.series| == 1 && c.series[0].name == TotalPopulation
    ensures c.categories == Window(xs, yearRange) && c.series[0].data == Window(ys, yearRange)
    ensures |xs| == |ys| ==>
      |c.categories| == |c.series[0].data| == Min(yearRange, |xs|) &&
      forall i :: 0 <= i < |c.categories| ==>
        c.categories[i] == xs[|c.categories| - 1 - i] && c.series[0].data[i] == ys[|c.categories| - 1 - i]
  {
    ChartConfig(Window(xs, yearRange), [Series(TotalPopulation, Window(ys, yearRange))])
  }
}
