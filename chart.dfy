/** The stand-alone population chart (`components/chart.tsx`): the categories and
    series it derives from the fetched world population, and what it renders. */
module Chart {
  import opened Wrappers
  import opened Windowing
  import opened WorldBank

  /** The year ranges the selector offers, and the initial one. */
  const YearOptions: seq<nat> := [5, 10, 20, 50]

  /** A year range the selector can set. */
  type YearRange = r: nat | r == 5 || r == 10 || r == 20 || r == 50 witness 5

  const DefaultYearRange: YearRange := 5

  /** The initial range is the first option, and the year ranges are exactly the
      options. */
  lemma DefaultYearRangeIsOffered()
    ensures DefaultYearRange in YearOptions && DefaultYearRange == YearOptions[0]
    ensures forall r: nat :: r in YearOptions <==> (r == 5 || r == 10 || r == 20 || r == 50)
  {
  }

  /** The `categories` and `series` of the component: empty until the data has
      loaded, then the newest `yearRange` years, oldest first, and one series of the
      matching populations. */
  function Options(populationData: Option<WorldPopulation>, yearRange: YearRange): (c: ChartConfig)
    ensures populationData.None? ==> c.categories == [] && c.series == []
    ensures populationData.Some? ==>
      && c.categories == Window(populationData.value.years, yearRange)
      && |c.series| == 1 && c.series[0].name == TotalPopulation
      && c.series[0].data == Window(populationData.value.population, yearRange)
  {
    match populationData
    case None => ChartConfig([], [])
    case Some(data) => WindowedChart(data.years, data.population, yearRange)
  }

  /** What the component shows: "Loading..." until the data is there (also for good,
      when the fetch failed), then the chart. */
  datatype View = Loading | Shown(config: ChartConfig)

  function Render(populationData: Option<WorldPopulation>, yearRange: YearRange): (v: View)
    ensures v.Loading? <==> populationData.None?
    ensures v.Shown? ==> v.config == Options(populationData, yearRange) && |v.config.series| == 1
  {
    if populationData.None? then Loading else Shown(Options(populationData, yearRange))
  }

  /** Once the records have loaded, the categories and the series data have the same
      length, the smaller of the year range and the record count, and point `i`
      belongs to the same record as category `i`. */
  lemma OptionsOfRecords(records: seq<Observation<int>>, yearRange: YearRange, i: nat)
    ensures var c := Options(Some(GetWorldPopulation(records)), yearRange);
      var n := Min(yearRange, |records|);
      && |c.categories| == n && |c.series[0].data| == n
      && (i < n ==>
            && c.categories[i] == records[n - 1 - i].date
            && c.series[0].data[i] == PopulationTenths(records[n - 1 - i].value))
  {
    WindowedRecord(records, yearRange, i);
  }
}
