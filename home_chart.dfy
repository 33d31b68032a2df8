/** The home page chart (`components/home-chart.tsx`): the `usePopulationData` hook's
    three state slots, the order in which the component picks what to render, and
    the chart configuration it builds from the world population. */
module HomeChart {
  import opened Wrappers
  import opened Windowing
  import opened WorldBank

  /** The year ranges the selector offers, and the initial one. */
  const YearOptions: seq<nat> := [5, 10, 20, 50]

  type YearRange = r: nat | r == 5 || r == 10 || r == 20 || r == 50 witness 5

  const DefaultYearRange: YearRange := 5

  /** Every year range is one the selector offers, and every offered one is a year
      range. */
  lemma YearRangesAreTheOptions()
    ensures forall r: nat :: r in YearOptions <==> (r == 5 || r == 10 || r == 20 || r == 50)
  {
  }

  /** `createChartConfig`: the newest `yearRange` years, oldest first, as the
      categories, and the matching populations as the one series. */
  function CreateChartConfig(data: WorldPopulation, yearRange: YearRange): (c: ChartConfig)
    ensures c.categories == Window(data.years, yearRange)
    ensures |c.series| == 1 && c.series[0].name == TotalPopulation
    ensures c.series[0].data == Window(data.population, yearRange)
  {
    WindowedChart(data.years, data.population, yearRange)
  }

  /** From the statistics service's records to the chart: category `i` is the date of
      record `n - 1 - i` and data point `i` is that record's population in tenths of
      a billion, where `n` is the smaller of the year range and the record count. */
  lemma ChartOfRecords(records: seq<Observation<int>>, yearRange: YearRange, i: nat)
    ensures var c := CreateChartConfig(GetWorldPopulation(records), yearRange);
      var n := Min(yearRange, |records|);
      && |c.categories| == n && |c.series[0].data| == n
      && (i < n ==>
            && c.categories[i] == records[n - 1 - i].date
            && c.series[0].data[i] == PopulationTenths(records[n - 1 - i].value))
  {
    WindowedRecord(records, yearRange, i);
  }

  /** How the fetch of the world population ends: with its result, or by throwing. */
  datatype Outcome = Fetched(result: WorldPopulation) | Failed

  const FetchErrorMessage := "Failed to fetch population data"

  /** The state of `usePopulationData`: no data, no error, loading. */
  class PopulationDataHook {
    var data: Option<WorldPopulation>
    var error: Option<string>
    var isLoading: bool

    constructor ()
      ensures data == None && error == None && isLoading
    {
      data := None;
      error := None;
      isLoading := true;
    }

    /** The effect's `try`/`catch`/`finally`: the result is stored on success, the
        error message on failure, and loading ends either way. */
    method Settle(outcome: Outcome)
      modifies this
      ensures outcome.Fetched? ==> data == Some(outcome.result) && error == old(error)
      ensures outcome.Failed? ==> data == old(data) && error == Some(FetchErrorMessage)
      ensures !isLoading
    {
      match outcome {
        case Fetched(result) =>
          data := Some(result);
        case Failed =>
          error := Some(FetchErrorMessage);
      }
      isLoading := false;
    }
  }

  /** The four things `HomeChart` can render. */
  datatype HomeView = LoadingState | ErrorState(message: string) | Nothing | ChartShown(config: ChartConfig)

  /** A JavaScript string in a condition: `null` and `""` are false. */
  predicate Truthy(s: Option<string>)
  {
    s.Some? && s.value != ""
  }

  /** The render precedence: loading first, then an error, then no data, then the
      chart. */
  function HomeChartView(isLoading: bool, error: Option<string>, data: Option<WorldPopulation>,
                         yearRange: YearRange): (v: HomeView)
    ensures v.LoadingState? <==> isLoading
    ensures v.ErrorState? <==> !isLoading && Truthy(error)
    ensures v.ErrorState? ==> v.message == error.value
    ensures v.Nothing? <==> !isLoading && !Truthy(error) && data.None?
    ensures v.ChartShown? <==> !isLoading && !Truthy(error) && data.Some?
    ensures v.ChartShown? ==> v.config == CreateChartConfig(data.value, yearRange)
  {
    if isLoading then LoadingState
    else if Truthy(error) then ErrorState(error.value)
    else if data.None? then Nothing
    else ChartShown(CreateChartConfig(data.value, yearRange))
  }

  /** A mount of the component followed by the end of its one fetch: the loading
      state first, then the chart on success or the error on failure; the empty
      render never follows a settled fetch. */
  method MountAndFetch(outcome: Outcome, yearRange: YearRange) returns (before: HomeView, after: HomeView)
    ensures before == LoadingState
    ensures outcome.Fetched? ==> after == ChartShown(CreateChartConfig(outcome.result, yearRange))
    ensures outcome.Failed? ==> after == ErrorState(FetchErrorMessage)
    ensures !after.Nothing? && !after.LoadingState?
  {
    var hook := new PopulationDataHook();
    before := HomeChartView(hook.isLoading, hook.error, hook.data, yearRange);
    hook.Settle(outcome);
    after := HomeChartView(hook.isLoading, hook.error, hook.data, yearRange);
  }
}
