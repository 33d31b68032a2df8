/** The country table (`components/population-table.tsx`): the cell display rule,
    the rows built from the table data, the year selector and the loading
    placeholder. */
module PopulationTable {
  import opened Wrappers
  import opened Rounding
  import WorldBank

  /** The years the selector offers, newest first, and the initial one. */
  const TableOptions: seq<string> := ["2023", "2022", "2021", "2020", "2019", "2018"]
  const DefaultTableOption: string := "2023"

  lemma DefaultIsOffered()
    ensures DefaultTableOption == TableOptions[0] && DefaultTableOption in TableOptions
  {
  }

  /** A displayed cell: "N/A", or a number with one decimal, kept in tenths. */
  datatype Cell = NotAvailable | OneDecimal(tenths: int)

  /** The cell rule: a null value shows "N/A" in any column; column 0 (population)
      shows the value in billions to one decimal; any other column shows the value
      itself to one decimal. */
  function CellFor(value: Option<real>, index: nat): (c: Cell)
    ensures c.NotAvailable? <==> value.None?
    ensures value.Some? && index == 0 && value.value >= 0.0 ==>
      c.tenths as real - 0.5 <= value.value / 100000000.0 < c.tenths as real + 0.5
    ensures value.Some? && index == 0 && value.value < 0.0 ==>
      c.tenths as real - 0.5 < value.value / 100000000.0 <= c.tenths as real + 0.5
    ensures value.Some? && index != 0 && value.value >= 0.0 ==>
      c.tenths as real - 0.5 <= value.value * 10.0 < c.tenths as real + 0.5
    ensures value.Some? && index != 0 && value.value < 0.0 ==>
      c.tenths as real - 0.5 < value.value * 10.0 <= c.tenths as real + 0.5
  {
    match value
    case None => NotAvailable
    case Some(v) =>
      assert Pow10(1) == 10;
      if index == 0 then OneDecimal(ToFixedUnits(v / 1000000000.0, 1))
      else OneDecimal(ToFixedUnits(v, 1))
  }

  /** A population count in the first column shows as the same figure the home page
      shows for the world: the count rounded to the nearest tenth of a billion. */
  lemma PopulationCellOfCount(count: int)
    requires count >= 0
    ensures CellFor(Some(count as real), 0) == OneDecimal((count + 50000000) / 100000000)
    ensures CellFor(Some(count as real), 0) == OneDecimal(WorldBank.PopulationTenths(Some(count)))
  {
    ToFixedTenthsOfBillion(count);
  }

  /** One table row: the country name cell, then one cell per value. */
  datatype Row = Row(country: string, cells: seq<Cell>)

  /** The cells of one row, each shown by the rule for its column. */
  function Cells(values: seq<Option<real>>): (r: seq<Cell>)
    ensures |r| == |values|
    ensures forall j :: 0 <= j < |r| ==> r[j] == CellFor(values[j], j)
  {
    seq(|values|, j requires 0 <= j < |values| => CellFor(values[j], j))
  }

  /** The rows of `tableData`, one per entry, in the order of its entries. */
  function TableRows(entries: seq<(string, seq<Option<real>>)>): (rows: seq<Row>)
    ensures |rows| == |entries|
    ensures forall k :: 0 <= k < |rows| ==>
      rows[k].country == entries[k].0 && rows[k].cells == Cells(entries[k].1)
  {
    seq(|entries|, k requires 0 <= k < |entries| => Row(entries[k].0, Cells(entries[k].1)))
  }

  /** The rows of two lists of entries are the rows of the first, then those of the
      second. */
  lemma TableRowsAppend(a: seq<(string, seq<Option<real>>)>, b: seq<(string, seq<Option<real>>)>)
    ensures TableRows(a + b) == TableRows(a) + TableRows(b)
  {
    var l, r := TableRows(a + b), TableRows(a) + TableRows(b);
    forall k | 0 <= k < |l|
      ensures l[k] == r[k]
    {
      if k >= |a| {
        assert (a + b)[k] == b[k - |a|];
      }
    }
  }

  /** How many values are null. */
  function NullCount(values: seq<Option<real>>): nat
  {
    if |values| == 0 then 0
    else NullCount(values[..|values| - 1]) + (if values[|values| - 1].None? then 1 else 0)
  }

  /** How many cells show "N/A". */
  function NotAvailableCount(cells: seq<Cell>): nat
  {
    if |cells| == 0 then 0
    else NotAvailableCount(cells[..|cells| - 1]) + (if cells[|cells| - 1].NotAvailable? then 1 else 0)
  }

  /** A row shows exactly as many "N/A" cells as its entry has null values. */
  lemma {:induction false} NotAvailableCountIsNullCount(values: seq<Option<real>>)
    ensures NotAvailableCount(Cells(values)) == NullCount(values)
  {
    if |values| > 0 {
      var init := values[..|values| - 1];
      assert Cells(init) == Cells(values)[..|values| - 1];
      NotAvailableCountIsNullCount(init);
    }
  }

  /** What the component renders: the placeholder, or the table's rows. */
  datatype TableView = TableLoading | Table(rows: seq<Row>)

  /** The placeholder is shown while loading or while there is no table data. */
  function Render(isLoading: bool, tableData: Option<seq<(string, seq<Option<real>>)>>): (v: TableView)
    ensures v.TableLoading? <==> isLoading || tableData.None?
    ensures v.Table? ==> v.rows == TableRows(tableData.value)
  {
    if isLoading || tableData.None? then TableLoading else Table(TableRows(tableData.value))
  }
}
