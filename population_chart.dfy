/** The population detail chart (`components/population-chart.tsx`): the per-year
    world totals summed over the countries' series, the per-metric rounding, and the
    chart state the component keeps. */
module PopulationChart {
  import opened Wrappers
  import opened Rounding
  import opened Windowing

  /** The year ranges the selector offers, and the initial one. */
  const YearOptions: seq<nat> := [5, 10, 20, 50, 100]
  const DefaultYearRange: nat := 5

  /** The metrics the selector offers, in its order ("Population", "Population
      Density", "Growth Rate", "Life Exp. at birth", "Birth Rate", "Death Rate",
      "Fertility Rate"); the first one is selected initially. */
  datatype ChartOption =
    | Population | PopulationDensity | GrowthRate | LifeExpAtBirth | BirthRate | DeathRate | FertilityRate

  const ChartOptions: seq<ChartOption> :=
    [Population, PopulationDensity, GrowthRate, LifeExpAtBirth, BirthRate, DeathRate, FertilityRate]
  const DefaultChartOption: ChartOption := Population

  /** The initial selections are the first entries of their selectors. */
  lemma DefaultsAreOffered()
    ensures DefaultYearRange == YearOptions[0] && DefaultChartOption == ChartOptions[0]
  {
  }

  // ---------------------------------------------------------------------------
  // Per-year world totals

  /** One entry of the per-country population map: the country's year labels and
      the matching population counts. */
  datatype CountrySeries = CountrySeries(name: string, years: seq<string>, population: seq<int>)

  /** Every country's two arrays are parallel. */
  predicate Parallel(countries: seq<CountrySeries>)
  {
    forall c :: 0 <= c < |countries| ==> |countries[c].years| == |countries[c].population|
  }

  /** A (year label, value) observation, as the traversal visits it. */
  type Obs = (string, int)

  /** The observations of one country in `forEach` order. */
  function Pairs(country: CountrySeries): (r: seq<Obs>)
    requires |country.years| == |country.population|
    ensures |r| == |country.years|
  {
    Zip(country.years, country.population)
  }

  /** Every observation in the order the loop visits them: country by country (in
      the map's key order), and index by index inside a country. */
  function Traversal(countries: seq<CountrySeries>): seq<Obs>
    requires Parallel(countries)
  {
    if |countries| == 0 then []
    else Traversal(countries[..|countries| - 1]) + Pairs(countries[|countries| - 1])
  }

  /** The traversal of two lists of countries is that of the first, then that of
      the second: the countries are visited one after the other, each one whole. */
  lemma {:induction false} TraversalAppend(a: seq<CountrySeries>, b: seq<CountrySeries>)
    requires Parallel(a) && Parallel(b)
    ensures Parallel(a + b) && Traversal(a + b) == Traversal(a) + Traversal(b)
  {
    assert forall c :: 0 <= c < |a + b| ==> (a + b)[c] == if c < |a| then a[c] else b[c - |a|];
    if |b| > 0 {
      var init := b[..|b| - 1];
      assert Parallel(init);
      TraversalAppend(a, init);
      assert (a + b)[..|a + b| - 1] == a + init;
    } else {
      assert a + b == a;
    }
  }

  /** The year labels of a list of observations. */
  function Labels(obs: seq<Obs>): (r: seq<string>)
    ensures |r| == |obs| && forall k :: 0 <= k < |obs| ==> r[k] == obs[k].0
  {
    seq(|obs|, k requires 0 <= k < |obs| => obs[k].0)
  }

  /** The sum of the values observed for year label `year` (exact string equality). */
  function SumFor(obs: seq<Obs>, year: string): int
  {
    if |obs| == 0 then 0
    else SumFor(obs[..|obs| - 1], year) + (if obs[|obs| - 1].0 == year then obs[|obs| - 1].1 else 0)
  }

  /** `Array.prototype.indexOf` on strings: the first position of `x`, or -1. */
  function IndexOf(s: seq<string>, x: string): (r: int)
    ensures -1 <= r < |s|
    ensures r == -1 <==> x !in s
    ensures 0 <= r ==> s[r] == x && x !in s[..r]
  {
    if |s| == 0 then -1
    else if s[0] == x then 0
    else
      var k := IndexOf(s[1..], x);
      assert k >= 0 ==> s[1..][..k] == s[1..k + 1];
      if k == -1 then -1 else k + 1
  }

  /** The two output arrays of the loop, `years` and `population`. */
  datatype Totals = Totals(years: seq<string>, population: seq<int>)

  /** One loop step: a year not seen yet is pushed on both arrays; a known year has
      the value added to its slot. Existing years never move. */
  function Add(t: Totals, o: Obs): (r: Totals)
    requires |t.years| == |t.population|
    ensures |r.years| == |r.population|
  {
    var yearIndex := IndexOf(t.years, o.0);
    if yearIndex == -1 then Totals(t.years + [o.0], t.population + [o.1])
    else Totals(t.years, t.population[yearIndex := t.population[yearIndex] + o.1])
  }

  /** The loop's result on a list of observations, starting from two empty arrays. */
  function Group(obs: seq<Obs>): (r: Totals)
    ensures |r.years| == |r.population|
  {
    if |obs| == 0 then Totals([], [])
    else Add(Group(obs[..|obs| - 1]), obs[|obs| - 1])
  }

  /** Each year appears at most once. */
  ghost predicate DistinctYears(years: seq<string>)
  {
    forall i, j :: 0 <= i < j < |years| ==> years[i] != years[j]
  }

  /** Exactly the observed years appear. */
  ghost predicate SameYears(years: seq<string>, obs: seq<Obs>)
  {
    forall y :: y in years <==> y in Labels(obs)
  }

  /** Each slot holds the sum of its year's values. */
  ghost predicate SlotSums(t: Totals, obs: seq<Obs>)
    requires |t.years| == |t.population|
  {
    forall i :: 0 <= i < |t.years| ==> t.population[i] == SumFor(obs, t.years[i])
  }

  /** The years are in the order of their first observation. */
  ghost predicate FirstSeenOrder(years: seq<string>, obs: seq<Obs>)
  {
    forall i, j :: 0 <= i < j < |years| ==> IndexOf(Labels(obs), years[i]) < IndexOf(Labels(obs), years[j])
  }

  /** What the world totals promise about a list of observations: the two arrays are
      parallel, each year appears once, exactly the observed years appear, in the
      order of their first observation, and each slot holds its year's sum. */
  ghost predicate IsPerYearTotal(t: Totals, obs: seq<Obs>)
  {
    && |t.years| == |t.population|
    && DistinctYears(t.years)
    && SameYears(t.years, obs)
    && SlotSums(t, obs)
    && FirstSeenOrder(t.years, obs)
  }

  lemma {:induction false} SumForAbsent(obs: seq<Obs>, year: string)
    requires year !in Labels(obs)
    ensures SumFor(obs, year) == 0
  {
    if |obs| > 0 {
      var init := obs[..|obs| - 1];
      assert Labels(init) == Labels(obs)[..|obs| - 1];
      SumForAbsent(init, year);
    }
  }

  lemma {:induction false} IndexOfAppend(s: seq<string>, x: string, y: string)
    ensures x in s ==> IndexOf(s + [y], x) == IndexOf(s, x)
    ensures x !in s && y == x ==> IndexOf(s + [y], x) == |s|
  {
    if |s| > 0 {
      assert (s + [y])[1..] == s[1..] + [y];
      IndexOfAppend(s[1..], x, y);
    } else {
      assert s + [y] == [y];
    }
  }

  lemma SumForSnoc(obs: seq<Obs>, o: Obs, z: string)
    ensures SumFor(obs + [o], z) == SumFor(obs, z) + (if z == o.0 then o.1 else 0)
  {
    assert (obs + [o])[..|obs|] == obs;
  }

  lemma IndexOfLabelsSnoc(obs: seq<Obs>, o: Obs)
    ensures Labels(obs + [o]) == Labels(obs) + [o.0]
    ensures forall z :: z in Labels(obs) ==> IndexOf(Labels(obs + [o]), z) == IndexOf(Labels(obs), z)
    ensures o.0 !in Labels(obs) ==> IndexOf(Labels(obs + [o]), o.0) == |obs|
  {
    assert Labels(obs + [o]) == Labels(obs) + [o.0];
    forall z | z in Labels(obs)
      ensures IndexOf(Labels(obs + [o]), z) == IndexOf(Labels(obs), z)
    {
      IndexOfAppend(Labels(obs), z, o.0);
    }
    IndexOfAppend(Labels(obs), o.0, o.0);
  }

  lemma {:induction false} KnownYearSums(obs: seq<Obs>, t: Totals, o: Obs, k: nat)
    requires IsPerYearTotal(t, obs) && k < |t.years| && t.years[k] == o.0
    ensures SlotSums(Totals(t.years, t.population[k := t.population[k] + o.1]), obs + [o])
  {
    var p := t.population[k := t.population[k] + o.1];
    forall i | 0 <= i < |t.years|
      ensures p[i] == SumFor(obs + [o], t.years[i])
    {
      SumForSnoc(obs, o, t.years[i]);
      if i != k {
        assert t.years[i] != t.years[k];
      }
    }
  }

  lemma {:induction false} KnownYearOrder(obs: seq<Obs>, t: Totals, o: Obs)
    requires IsPerYearTotal(t, obs)
    ensures FirstSeenOrder(t.years, obs + [o])
  {
    IndexOfLabelsSnoc(obs, o);
    forall i, j | 0 <= i < j < |t.years|
      ensures IndexOf(Labels(obs + [o]), t.years[i]) < IndexOf(Labels(obs + [o]), t.years[j])
    {
      assert t.years[i] in Labels(obs) && t.years[j] in Labels(obs);
    }
  }

  lemma {:induction false} NewYearSums(obs: seq<Obs>, t: Totals, o: Obs)
    requires IsPerYearTotal(t, obs) && o.0 !in t.years
    ensures SlotSums(Totals(t.years + [o.0], t.population + [o.1]), obs + [o])
  {
    var ys, ps := t.years + [o.0], t.population + [o.1];
    SumForAbsent(obs, o.0);
    forall i | 0 <= i < |ys|
      ensures ps[i] == SumFor(obs + [o], ys[i])
    {
      SumForSnoc(obs, o, ys[i]);
      if i < |t.years| {
        assert ys[i] == t.years[i] != o.0;
      }
    }
  }

  lemma {:induction false} NewYearOrder(obs: seq<Obs>, t: Totals, o: Obs)
    requires IsPerYearTotal(t, obs) && o.0 !in t.years
    ensures FirstSeenOrder(t.years + [o.0], obs + [o])
  {
    var ys := t.years + [o.0];
    IndexOfLabelsSnoc(obs, o);
    forall i, j | 0 <= i < j < |ys|
      ensures IndexOf(Labels(obs + [o]), ys[i]) < IndexOf(Labels(obs + [o]), ys[j])
    {
      assert ys[i] == t.years[i] && ys[i] in Labels(obs);
      if j < |t.years| {
        assert ys[j] == t.years[j] && ys[j] in Labels(obs);
      }
    }
  }

  lemma {:induction false} KnownYearKeeps(obs: seq<Obs>, t: Totals, o: Obs, k: nat)
    requires IsPerYearTotal(t, obs) && k < |t.years| && t.years[k] == o.0
    ensures IsPerYearTotal(Totals(t.years, t.population[k := t.population[k] + o.1]), obs + [o])
  {
    IndexOfLabelsSnoc(obs, o);
    KnownYearSums(obs, t, o, k);
    KnownYearOrder(obs, t, o);
  }

  lemma {:induction false} NewYearKeeps(obs: seq<Obs>, t: Totals, o: Obs)
    requires IsPerYearTotal(t, obs) && o.0 !in t.years
    ensures IsPerYearTotal(Totals(t.years + [o.0], t.population + [o.1]), obs + [o])
  {
    IndexOfLabelsSnoc(obs, o);
    NewYearSums(obs, t, o);
    NewYearOrder(obs, t, o);
  }

  /** One loop step keeps the per-year-total property. */
  lemma {:induction false} AddKeepsPerYearTotal(obs: seq<Obs>, t: Totals, o: Obs)
    requires IsPerYearTotal(t, obs)
    ensures IsPerYearTotal(Add(t, o), obs + [o])
  {
    var k := IndexOf(t.years, o.0);
    if k == -1 {
      NewYearKeeps(obs, t, o);
    } else {
      KnownYearKeeps(obs, t, o, k);
    }
  }

  /** Appending one observation is one step of the loop. */
  lemma GroupSnoc(obs: seq<Obs>, o: Obs)
    ensures Group(obs + [o]) == Add(Group(obs), o)
  {
    assert (obs + [o])[..|obs|] == obs;
  }

  /** A step never moves a year: the old years are a prefix of the new ones. */
  lemma AddKeepsYearPositions(t: Totals, o: Obs)
    requires |t.years| == |t.population|
    ensures t.years <= Add(t, o).years
    ensures |Add(t, o).years| <= |t.years| + 1
  {
  }

  lemma GroupStepKeepsYearPositions(obs: seq<Obs>, o: Obs)
    ensures Group(obs).years <= Group(obs + [o]).years
  {
    GroupSnoc(obs, o);
    AddKeepsYearPositions(Group(obs), o);
  }

  /** Over the whole traversal, a year keeps the slot it was first given: the years
      known after a prefix of the observations are a prefix of the final years. */
  lemma {:induction false} GroupKeepsYearPositions(obs: seq<Obs>, more: seq<Obs>)
    ensures Group(obs).years <= Group(obs + more).years
  {
    if |more| > 0 {
      var init := more[..|more| - 1];
      var last := more[|more| - 1];
      GroupKeepsYearPositions(obs, init);
      GroupStepKeepsYearPositions(obs + init, last);
      assert obs + more == (obs + init) + [last];
    } else {
      assert obs + more == obs;
    }
  }

  /** The loop computes per-year world totals. */
  lemma {:induction false} GroupIsPerYearTotal(obs: seq<Obs>)
    ensures IsPerYearTotal(Group(obs), obs)
  {
    if |obs| == 0 {
    } else {
      var init := obs[..|obs| - 1];
      GroupIsPerYearTotal(init);
      AddKeepsPerYearTotal(init, Group(init), obs[|obs| - 1]);
      assert init + [obs[|obs| - 1]] == obs;
    }
  }

  /** Country A's two observations are visited before country B's one. */
  lemma ExampleTraversal()
    ensures Traversal([CountrySeries("A", ["2020", "2021"], [10, 20]), CountrySeries("B", ["2020"], [5])])
         == [("2020", 10), ("2021", 20), ("2020", 5)]
  {
    var a, b := CountrySeries("A", ["2020", "2021"], [10, 20]), CountrySeries("B", ["2020"], [5]);
    var cs: seq<CountrySeries> := [a, b];
    assert Pairs(a) == [("2020", 10), ("2021", 20)];
    assert Pairs(b) == [("2020", 5)];
    assert cs[..1] == [a] && |[a][..0]| == 0;
    assert Traversal(cs[..1]) == Pairs(a);
  }

  /** Two observations of "2020" share one slot; "2021" gets the next one. */
  lemma ExampleGroup()
    ensures Group([("2020", 10), ("2021", 20), ("2020", 5)]) == Totals(["2020", "2021"], [15, 20])
  {
    var o1: Obs, o2: Obs, o3: Obs := ("2020", 10), ("2021", 20), ("2020", 5);
    GroupSnoc([], o1);
    assert [] + [o1] == [o1];
    assert Group([o1]) == Totals(["2020"], [10]);
    GroupSnoc([o1], o2);
    assert [o1] + [o2] == [o1, o2];
    assert IndexOf(["2020"], "2021") == -1;
    assert Group([o1, o2]) == Totals(["2020", "2021"], [10, 20]);
    GroupSnoc([o1, o2], o3);
    assert [o1, o2] + [o3] == [o1, o2, o3];
    assert IndexOf(["2020", "2021"], "2020") == 0;
  }

  /** The example of two countries: A has 10 in "2020" and 20 in "2021", B has 5 in
      "2020"; the totals are 15 for "2020" and 20 for "2021", in that order. */
  lemma WorldTotalsExample()
    ensures Group(Traversal([CountrySeries("A", ["2020", "2021"], [10, 20]),
                             CountrySeries("B", ["2020"], [5])]))
         == Totals(["2020", "2021"], [15, 20])
  {
    ExampleTraversal();
    ExampleGroup();
  }

  /** The aggregation loop of the population branch: walks the countries and their
      years, pushing a new year on both arrays or adding to the existing slot. */
  method AggregateWorldTotals(countries: seq<CountrySeries>) returns (years: seq<string>, population: seq<int>)
    requires Parallel(countries)
    ensures Totals(years, population) == Group(Traversal(countries))
    ensures IsPerYearTotal(Totals(years, population), Traversal(countries))
  {
    years, population := [], [];
    var c := 0;
    while c < |countries|
      invariant 0 <= c <= |countries|
      invariant Totals(years, population) == Group(Traversal(countries[..c]))
    {
      var countryData := countries[c];
      ghost var visited := Traversal(countries[..c]);
      var index := 0;
      ghost var done := visited;
      NextObservation(visited, countryData, 0);
      while index < |countryData.years|
        invariant 0 <= index <= |countryData.years|
        invariant done == visited + Pairs(countryData)[..index]
        invariant Totals(years, population) == Group(done)
      {
        var year := countryData.years[index];
        var value := countryData.population[index];
        years, population := AddObservation(years, population, year, value);
        GroupSnoc(done, (year, value));
        NextObservation(visited, countryData, index + 1);
        done := done + [(year, value)];
        index := index + 1;
      }
      assert Pairs(countryData)[..index] == Pairs(countryData);
      NextCountry(countries, c);
      c := c + 1;
    }
    assert countries[..c] == countries;
    GroupIsPerYearTotal(Traversal(countries));
  }

  /** The body of the `forEach` callback: a year not seen yet is pushed on both
      arrays, a known year has the value added to its slot. */
  method AddObservation(years0: seq<string>, population0: seq<int>, year: string, value: int)
    returns (years: seq<string>, population: seq<int>)
    requires |years0| == |population0|
    ensures Totals(years, population) == Add(Totals(years0, population0), (year, value))
  {
    years, population := years0, population0;
    var yearIndex := IndexOf(years, year);
    if yearIndex == -1 {
      years := years + [year];
      population := population + [value];
    } else {
      population := population[yearIndex := population[yearIndex] + value];
    }
  }

  /** The observations visited after `index` years of `country`, after those of the
      countries before it. */
  lemma NextObservation(visited: seq<Obs>, country: CountrySeries, index: nat)
    requires |country.years| == |country.population| && index <= |country.years|
    ensures index == 0 ==> visited + Pairs(country)[..index] == visited
    ensures 0 < index ==>
      visited + Pairs(country)[..index]
        == visited + Pairs(country)[..index - 1] + [(country.years[index - 1], country.population[index - 1])]
  {
    if index > 0 {
      assert Pairs(country)[..index] == Pairs(country)[..index - 1] + [Pairs(country)[index - 1]];
    }
  }

  /** After the last year of country `c`, the visited list is the traversal of the
      first `c + 1` countries. */
  lemma NextCountry(countries: seq<CountrySeries>, c: nat)
    requires Parallel(countries) && c < |countries|
    ensures Traversal(countries[..c]) + Pairs(countries[c]) == Traversal(countries[..c + 1])
  {
    assert countries[..c + 1][..c] == countries[..c];
  }

  /** `Math.round((e / 1_000_000_000) * 10) / 10`, kept in tenths of a billion. */
  function TenthsOfBillion(e: int): (r: int)
    ensures r == (e + 50000000) / 100000000
  {
    RoundTenthsOfBillion(e);
    Round((e as real / 1000000000.0) * 10.0)
  }

  /** The billions conversion of the totals, element by element. */
  function Billions(population: seq<int>): (r: seq<int>)
    ensures |r| == |population|
    ensures forall i :: 0 <= i < |r| ==> r[i] == (population[i] + 50000000) / 100000000
  {
    seq(|population|, i requires 0 <= i < |population| => TenthsOfBillion(population[i]))
  }

  // ---------------------------------------------------------------------------
  // Per-metric chart data

  /** The x labels and y values shown, with y scaled by 10^decimals (y = 153 with
      decimals = 1 stands for 15.3). */
  datatype ChartData = ChartData(xAxisData: seq<string>, yAxisData: seq<int>, decimals: nat)

  /** A fetched metric series other than population: years and raw values. */
  datatype MetricSeries = MetricSeries(years: seq<string>, values: seq<real>)

  /** The component's loaded data slots; a slot whose fetch failed stays `None`. */
  datatype Sources = Sources(
    countryPopulation: Option<seq<CountrySeries>>,
    density: Option<MetricSeries>,
    growthRate: Option<MetricSeries>,
    lifeExp: Option<MetricSeries>,
    birthRate: Option<MetricSeries>,
    deathRate: Option<MetricSeries>,
    fertilityRate: Option<MetricSeries>)

  predicate WellFormed(s: Sources)
  {
    s.countryPopulation.Some? ==> Parallel(s.countryPopulation.value)
  }

  /** The slot a metric other than population is read from. */
  function SeriesFor(option: ChartOption, s: Sources): Option<MetricSeries>
    requires option != Population
  {
    match option
    case PopulationDensity => s.density
    case GrowthRate => s.growthRate
    case LifeExpAtBirth => s.lifeExp
    case BirthRate => s.birthRate
    case DeathRate => s.deathRate
    case FertilityRate => s.fertilityRate
  }

  /** How many decimals each metric keeps. */
  function Decimals(option: ChartOption): nat
  {
    match option
    case LifeExpAtBirth => 0
    case PopulationDensity => 2
    case _ => 1
  }

  /** The per-metric rounding: life expectancy is floored, density rounded to two
      decimals, the other rates to one; the result is scaled by 10^Decimals(option). */
  function RoundMetric(option: ChartOption, e: real): (r: int)
    requires option != Population
    ensures option == LifeExpAtBirth ==> r as real <= e < r as real + 1.0
    ensures option == PopulationDensity ==> r as real - 0.5 <= e * 100.0 < r as real + 0.5
    ensures option != LifeExpAtBirth && option != PopulationDensity ==>
      r as real - 0.5 <= e * 10.0 < r as real + 0.5
  {
    match option
    case LifeExpAtBirth => Floor(e)
    case PopulationDensity => Round(e * 100.0)
    case _ => Round(e * 10.0)
  }

  /** The chart data of the population branch. */
  function PopulationChartData(countries: seq<CountrySeries>): (d: ChartData)
    requires Parallel(countries)
    ensures d.decimals == 1 && |d.xAxisData| == |d.yAxisData|
    ensures d.xAxisData == Group(Traversal(countries)).years
    ensures forall i :: 0 <= i < |d.yAxisData| ==>
      d.yAxisData[i] == (SumFor(Traversal(countries), d.xAxisData[i]) + 50000000) / 100000000
  {
    var t := Group(Traversal(countries));
    GroupIsPerYearTotal(Traversal(countries));
    ChartData(t.years, Billions(t.population), 1)
  }

  /** The chart data of a non-population branch: the series' years, and its values
      rounded for the metric. */
  function MetricChartData(option: ChartOption, series: MetricSeries): (d: ChartData)
    requires option != Population
    ensures d.xAxisData == series.years && d.decimals == Decimals(option)
    ensures |d.yAxisData| == |series.values|
    ensures forall i :: 0 <= i < |d.yAxisData| ==> d.yAxisData[i] == RoundMetric(option, series.values[i])
  {
    ChartData(series.years,
              seq(|series.values|, i requires 0 <= i < |series.values| => RoundMetric(option, series.values[i])),
              Decimals(option))
  }

  /** The second effect of the component: the population branch always sets
      `chartData` (an absent country map iterates over nothing); any other metric
      sets it only when its series has loaded, and otherwise leaves it unchanged. */
  function NextChartData(option: ChartOption, s: Sources, current: Option<ChartData>): (r: Option<ChartData>)
    requires WellFormed(s)
    ensures option == Population ==> r == Some(PopulationChartData(s.countryPopulation.GetOr([])))
    ensures option != Population && SeriesFor(option, s).None? ==> r == current
    ensures option != Population && SeriesFor(option, s).Some? ==>
      r == Some(MetricChartData(option, SeriesFor(option, s).value))
  {
    if option == Population then Some(PopulationChartData(s.countryPopulation.GetOr([])))
    else match SeriesFor(option, s)
      case Some(series) => Some(MetricChartData(option, series))
      case None => current
  }

  // ---------------------------------------------------------------------------
  // When the chart-data effect runs

  /** React runs the chart-data effect again after a render in which one of its
      listed dependencies changed. The list as written names the selected metric
      and every slot except the life-expectancy one. */
  predicate RerunsAsWritten(option0: ChartOption, s0: Sources, option1: ChartOption, s1: Sources)
  {
    || option0 != option1
    || s0.countryPopulation != s1.countryPopulation
    || s0.density != s1.density
    || s0.growthRate != s1.growthRate
    || s0.birthRate != s1.birthRate
    || s0.deathRate != s1.deathRate
    || s0.fertilityRate != s1.fertilityRate
  }

  /** The list with the life-expectancy slot added, as the other six branches have
      theirs. */
  predicate Reruns(option0: ChartOption, s0: Sources, option1: ChartOption, s1: Sources)
  {
    RerunsAsWritten(option0, s0, option1, s1) || s0.lifeExp != s1.lifeExp
  }

  /** The chart data after a render: recomputed when the effect runs, kept
      otherwise. */
  function AfterRender(rerun: bool, option: ChartOption, s: Sources, current: Option<ChartData>): (r: Option<ChartData>)
    requires WellFormed(s)
    ensures rerun ==> r == NextChartData(option, s, current)
    ensures !rerun ==> r == current
  {
    if rerun then NextChartData(option, s, current) else current
  }

  /** With the dependencies as written, a life-expectancy series that arrives while
      that metric is selected is not drawn: the chart keeps the data it had. */
  lemma LifeExpArrivalIgnoredAsWritten(s0: Sources, series: MetricSeries, current: Option<ChartData>)
    requires WellFormed(s0) && s0.lifeExp.None?
    ensures !RerunsAsWritten(LifeExpAtBirth, s0, LifeExpAtBirth, s0.(lifeExp := Some(series)))
    ensures AfterRender(RerunsAsWritten(LifeExpAtBirth, s0, LifeExpAtBirth, s0.(lifeExp := Some(series))),
                        LifeExpAtBirth, s0.(lifeExp := Some(series)), current) == current
  {
  }

  /** A concrete instance: the density series has loaded and is on screen; the
      life-expectancy series for 2020 arrives and the chart still shows density. */
  lemma LifeExpArrivalExample()
    ensures var density := MetricSeries(["2020"], [60.0]);
      var s0 := Sources(None, Some(density), None, None, None, None, None);
      var shown := Some(MetricChartData(PopulationDensity, density));
      var series := MetricSeries(["2020"], [72.4]);
      AfterRender(RerunsAsWritten(LifeExpAtBirth, s0, LifeExpAtBirth, s0.(lifeExp := Some(series))),
                  LifeExpAtBirth, s0.(lifeExp := Some(series)), shown)
        == shown
        != Some(MetricChartData(LifeExpAtBirth, series))
  {
    var density := MetricSeries(["2020"], [60.0]);
    var s0 := Sources(None, Some(density), None, None, None, None, None);
    var series := MetricSeries(["2020"], [72.4]);
    LifeExpArrivalIgnoredAsWritten(s0, series, Some(MetricChartData(PopulationDensity, density)));
    assert MetricChartData(PopulationDensity, density).decimals == 2;
    assert MetricChartData(LifeExpAtBirth, series).decimals == 0;
  }

  /** With every slot listed, the selected metric's series is drawn as soon as it
      arrives, whichever metric it is. */
  lemma ArrivingSeriesIsDrawn(option: ChartOption, s0: Sources, s1: Sources, current: Option<ChartData>)
    requires option != Population && WellFormed(s1)
    requires SeriesFor(option, s0).None? && SeriesFor(option, s1).Some?
    ensures Reruns(option, s0, option, s1)
    ensures AfterRender(Reruns(option, s0, option, s1), option, s1, current)
         == Some(MetricChartData(option, SeriesFor(option, s1).value))
  {
  }

  /** The chart configuration: with no chart data, no categories and no series;
      otherwise the windowed x and y data as one series. */
  function ChartView(chartData: Option<ChartData>, yearRange: nat): (c: ChartConfig)
    ensures chartData.None? ==> c.categories == [] && c.series == []
    ensures chartData.Some? ==>
      c == WindowedChart(chartData.value.xAxisData, chartData.value.yAxisData, yearRange)
  {
    match chartData
    case None => ChartConfig([], [])
    case Some(d) => WindowedChart(d.xAxisData, d.yAxisData, yearRange)
  }

  /** What the component renders. */
  datatype View = Loading | Shown(config: ChartConfig)

  /** The population chart's state: the selected metric and year range, and the chart
      data derived from the loaded series. */
  class PopulationChartState {
    var chartData: Option<ChartData>
    var yearRange: nat
    var chartOption: ChartOption

    /** The year range is always one the selector offers. */
    predicate Valid()
      reads this
    {
      yearRange in YearOptions
    }

    constructor ()
      ensures Valid()
      ensures chartData == None && yearRange == DefaultYearRange && chartOption == DefaultChartOption
    {
      chartData := None;
      yearRange := DefaultYearRange;
      chartOption := DefaultChartOption;
    }

    method SelectYearRange(r: nat)
      requires r in YearOptions
      modifies this`yearRange
      ensures Valid()
      ensures yearRange == r
    {
      yearRange := r;
    }

    method SelectChartOption(o: ChartOption)
      requires Valid()
      modifies this`chartOption
      ensures Valid()
      ensures chartOption == o
    {
      chartOption := o;
    }

    /** Runs the chart-data effect on the loaded slots. */
    method RefreshChartData(s: Sources)
      requires Valid() && WellFormed(s)
      modifies this`chartData
      ensures Valid()
      ensures chartData == NextChartData(chartOption, s, old(chartData))
    {
      if chartOption == Population {
        var years, population := AggregateWorldTotals(s.countryPopulation.GetOr([]));
        chartData := Some(ChartData(years, Billions(population), 1));
      } else {
        match SeriesFor(chartOption, s)
        case Some(series) =>
          chartData := Some(MetricChartData(chartOption, series));
        case None =>
      }
    }

    /** "Loading..." until chart data exists, then the chart. */
    function Render(): (v: View)
      reads this
      ensures v.Loading? <==> chartData.None?
      ensures v.Shown? ==> v.config == ChartView(chartData, yearRange)
    {
      if chartData.None? then Loading else Shown(ChartView(chartData, yearRange))
    }
  }
}
