/**
 * The three report strategies. Each groups the sales lines by EmployeeID,
 * reduces each group to one number, attaches the employee's first-seen
 * name, sorts by a column of the table as it stands BEFORE the renaming,
 * and renames the three columns to fixed labels.
 */
module Strategies {
  import opened Wrappers
  import opened Sorting
  import opened Sales

  const IdLabel: string := "IDVendedor"
  const NameLabel: string := "Nombre Apellido Vendedor"

  datatype Strategy = TotalSalesByEmployee | AverageSalesByEmployee | ProductSalesByEmployee

  /** `strategy.__class__.__name__`, the key of the strategy's report. */
  function ClassName(s: Strategy): string {
    match s
    case TotalSalesByEmployee => "TotalSalesByEmployee"
    case AverageSalesByEmployee => "AverageSalesByEmployee"
    case ProductSalesByEmployee => "ProductSalesByEmployee"
  }

  /** The input column the metric is computed from. */
  function SourceColumn(s: Strategy): string {
    match s
    case TotalSalesByEmployee => TotalPriceColumn
    case AverageSalesByEmployee => TotalPriceColumn
    case ProductSalesByEmployee => ProductIdColumn
  }

  /** The label the metric column gets after the renaming. */
  function MetricLabel(s: Strategy): string {
    match s
    case TotalSalesByEmployee => "TotalVentas"
    case AverageSalesByEmployee => "Promedio de ventas"
    case ProductSalesByEmployee => "Cantidad de productos vendidos"
  }

  lemma ClassNameInjective(s: Strategy, t: Strategy)
    ensures ClassName(s) == ClassName(t) <==> s == t
  {
  }

  /** Round to the nearest integer, ties to the even one (numpy's rint). */
  function RoundHalfEven(y: real): (n: int)
    ensures n as real - 0.5 <= y <= n as real + 0.5
    ensures y - y.Floor as real == 0.5 ==> n % 2 == 0
    ensures y == y.Floor as real ==> n == y.Floor
  {
    var f := y.Floor;
    var d := y - f as real;
    if d < 0.5 then f
    else if d > 0.5 then f + 1
    else if f % 2 == 0 then f
    else f + 1
  }

  /**
   * `.round(2)`: the nearest multiple of 0.01, ties to even; it moves x by
   * at most half a cent and leaves a value already in cents unchanged.
   */
  function Round2(x: real): (r: real)
    ensures x - 0.005 <= r <= x + 0.005
    ensures (r * 100.0).Floor as real == r * 100.0
    ensures (x * 100.0).Floor as real == x * 100.0 ==> r == x
  {
    var n := RoundHalfEven(x * 100.0);
    assert (n as real / 100.0) * 100.0 == n as real;
    n as real / 100.0
  }

  /**
   * The metric of employee e: group sum, rounded mean, or count. An
   * employee without rows gets 0 (GroupSizePositive: one that does not
   * occur); the mean is within half a cent of the
   * exact one; the count is at most the size of the group.
   */
  function Metric(s: Strategy, rows: seq<SaleRow>, e: int): (r: real)
    ensures GroupSize(rows, e) == 0 ==> r == 0.0
    ensures s == AverageSalesByEmployee && GroupSize(rows, e) > 0 ==>
      var exact := GroupSum(rows, e, Price) / GroupSize(rows, e) as real;
      exact - 0.005 <= r <= exact + 0.005
    ensures s == ProductSalesByEmployee ==> 0.0 <= r <= GroupSize(rows, e) as real
  {
    match s
    case TotalSalesByEmployee => GroupSum(rows, e, Price)
    case AverageSalesByEmployee =>
      var n := GroupSize(rows, e);
      if n == 0 then 0.0 else Round2(GroupSum(rows, e, Price) / n as real)
    case ProductSalesByEmployee => CountProducts(rows, e) as real
  }

  /** One report line: IDVendedor, Nombre Apellido Vendedor, metric. */
  datatype ReportRow = ReportRow(id: int, name: string, value: real)

  /** A strategy's DataFrame: its column labels and its rows. */
  datatype Report = Report(columns: seq<string>, rows: seq<ReportRow>)

  /** The report line of employee e, before sorting. */
  function Summary(s: Strategy, rows: seq<SaleRow>, e: int): ReportRow {
    ReportRow(e, FirstName(rows, e), Metric(s, rows, e))
  }

  /** The grouped, merged and selected frame: one line per id, in order. */
  function Groups(s: Strategy, rows: seq<SaleRow>, ids: seq<int>): (g: seq<ReportRow>)
    ensures |g| == |ids|
    ensures forall i :: 0 <= i < |ids| ==> g[i] == Summary(s, rows, ids[i])
  {
    if |ids| == 0 then [] else [Summary(s, rows, ids[0])] + Groups(s, rows, ids[1..])
  }

  /** The column `key` names, among the three the frame has before renaming. */
  datatype SortField = ById | ByName | ByValue

  function SortFieldFor(s: Strategy, key: Option<string>): (f: Option<SortField>)
    ensures f.Some? <==> key.Some? && key.value in {EmployeeIdColumn, EmployeeNameColumn, SourceColumn(s)}
  {
    if key == Some(EmployeeIdColumn) then Some(ById)
    else if key == Some(EmployeeNameColumn) then Some(ByName)
    else if key == Some(SourceColumn(s)) then Some(ByValue)
    else None
  }

  /** a may precede b when sorting by `field` in the given direction. */
  predicate RowBefore(field: SortField, ascending: bool, a: ReportRow, b: ReportRow) {
    match field
    case ById => if ascending then a.id <= b.id else b.id <= a.id
    case ByName => if ascending then LexLe(a.name, b.name) else LexLe(b.name, a.name)
    case ByValue => if ascending then a.value <= b.value else b.value <= a.value
  }

  lemma RowBeforeTotal(field: SortField, ascending: bool)
    ensures Total((a: ReportRow, b: ReportRow) => RowBefore(field, ascending, a, b))
  {
    forall a: ReportRow, b: ReportRow
      ensures RowBefore(field, ascending, a, b) || RowBefore(field, ascending, b, a)
    {
      LexTotal(a.name, b.name);
    }
  }

  /** `sort_values(key, ascending=...)`: the same lines, ordered by `field`. */
  function SortRows(rows: seq<ReportRow>, field: SortField, ascending: bool): (r: seq<ReportRow>)
    ensures SortedRows(r, field, ascending)
    ensures multiset(r) == multiset(rows)
  {
    RowBeforeTotal(field, ascending);
    SortSorted(rows, (a: ReportRow, b: ReportRow) => RowBefore(field, ascending, a, b));
    Sort(rows, (a: ReportRow, b: ReportRow) => RowBefore(field, ascending, a, b))
  }

  /** Adjacent lines are non-decreasing (ascending) or non-increasing in `field`. */
  predicate SortedRows(rows: seq<ReportRow>, field: SortField, ascending: bool) {
    forall i :: 0 < i < |rows| ==> RowBefore(field, ascending, rows[i - 1], rows[i])
  }

  /** pandas' KeyError: a column the code selects or sorts by is missing. */
  datatype ReportError = MissingColumn(column: string) | NoSortKey

  /** The columns the strategy reads, in the order the code reads them. */
  predicate HasColumns(s: Strategy, t: Table) {
    EmployeeIdColumn in t.columns && SourceColumn(s) in t.columns && EmployeeNameColumn in t.columns
  }

  /** `generate_report(df, key, ascending)` of strategy s. */
  function GenerateReport(s: Strategy, t: Table, key: Option<string>, ascending: bool): (r: Result<Report, ReportError>)
    ensures r.Success? <==> HasColumns(s, t) && SortFieldFor(s, key).Some?
    ensures EmployeeIdColumn !in t.columns ==> r == Failure(MissingColumn(EmployeeIdColumn))
    ensures EmployeeIdColumn in t.columns && SourceColumn(s) !in t.columns ==>
              r == Failure(MissingColumn(SourceColumn(s)))
    ensures EmployeeIdColumn in t.columns && SourceColumn(s) in t.columns && EmployeeNameColumn !in t.columns ==>
              r == Failure(MissingColumn(EmployeeNameColumn))
    ensures HasColumns(s, t) && key.None? ==> r == Failure(NoSortKey)
    ensures HasColumns(s, t) && key.Some? && SortFieldFor(s, key).None? ==> r == Failure(MissingColumn(key.value))
    ensures r.Success? ==> r.value.columns == [IdLabel, NameLabel, MetricLabel(s)]
    ensures r.Success? ==> SortedRows(r.value.rows, SortFieldFor(s, key).value, ascending)
    ensures r.Success? ==> multiset(r.value.rows) == multiset(Groups(s, t.rows, DistinctIds(t.rows)))
  {
    if EmployeeIdColumn !in t.columns then Failure(MissingColumn(EmployeeIdColumn))
    else if SourceColumn(s) !in t.columns then Failure(MissingColumn(SourceColumn(s)))
    else if EmployeeNameColumn !in t.columns then Failure(MissingColumn(EmployeeNameColumn))
    else
      match SortFieldFor(s, key)
      case None => Failure(if key.None? then NoSortKey else MissingColumn(key.value))
      case Some(field) =>
        var grouped := Groups(s, t.rows, DistinctIds(t.rows));
        Success(Report([IdLabel, NameLabel, MetricLabel(s)], SortRows(grouped, field, ascending)))
  }

  /** The employee ids of a report's lines. */
  function ReportIds(rows: seq<ReportRow>): set<int> {
    set x | x in rows :: x.id
  }

  /** No two lines of a report share an id. */
  predicate UniqueReportIds(rows: seq<ReportRow>) {
    forall i, j :: 0 <= i < j < |rows| ==> rows[i].id != rows[j].id
  }

  /**
   * Every line of a report is the summary of its own employee, and the
   * report has exactly one line per employee that occurs in the table.
   */
  lemma ReportOnePerEmployee(s: Strategy, t: Table, key: Option<string>, ascending: bool)
    requires GenerateReport(s, t, key, ascending).Success?
    ensures var rows := GenerateReport(s, t, key, ascending).value.rows;
      && (forall x :: x in rows ==> x == Summary(s, t.rows, x.id))
      && ReportIds(rows) == IdsOf(t.rows)
      && UniqueReportIds(rows)
      && |rows| == |IdsOf(t.rows)|
  {
    PermutedGroups(s, t.rows, GenerateReport(s, t, key, ascending).value.rows);
  }

  /** Any reordering of the groups has one line per employee, each its summary. */
  lemma PermutedGroups(s: Strategy, table: seq<SaleRow>, rows: seq<ReportRow>)
    requires multiset(rows) == multiset(Groups(s, table, DistinctIds(table)))
    ensures forall x :: x in rows ==> x == Summary(s, table, x.id)
    ensures ReportIds(rows) == IdsOf(table)
    ensures UniqueReportIds(rows)
    ensures |rows| == |IdsOf(table)|
  {
    PermutedGroupsMembers(s, table, rows);
    PermutedGroupsUnique(s, table, rows);
  }

  /** The lines of a reordering of the groups are the summaries of exactly the employees present. */
  lemma PermutedGroupsMembers(s: Strategy, table: seq<SaleRow>, rows: seq<ReportRow>)
    requires multiset(rows) == multiset(Groups(s, table, DistinctIds(table)))
    ensures forall x :: x in rows ==> x == Summary(s, table, x.id)
    ensures ReportIds(rows) == IdsOf(table)
  {
    var ids := DistinctIds(table);
    var grouped := Groups(s, table, ids);
    forall x | x in rows ensures x == Summary(s, table, x.id) && x.id in IdsOf(table) {
      assert x in multiset(grouped);
      var i :| 0 <= i < |grouped| && grouped[i] == x;
      assert ids[i] in ids;
    }
    forall e | e in IdsOf(table) ensures e in ReportIds(rows) {
      assert e in ids;
      var i :| 0 <= i < |ids| && ids[i] == e;
      assert grouped[i] in multiset(rows);
    }
  }

  /** A reordering of the groups repeats no id and has one line per distinct id. */
  lemma PermutedGroupsUnique(s: Strategy, table: seq<SaleRow>, rows: seq<ReportRow>)
    requires multiset(rows) == multiset(Groups(s, table, DistinctIds(table)))
    ensures UniqueReportIds(rows)
    ensures |rows| == |IdsOf(table)|
  {
    var ids := DistinctIds(table);
    var grouped := Groups(s, table, ids);
    assert Distinct(grouped) by {
      forall i, j | 0 <= i < j < |grouped| ensures grouped[i] != grouped[j] {
        assert grouped[i].id == ids[i] && grouped[j].id == ids[j];
      }
    }
    PermutationDistinct(rows, grouped);
    forall i, j | 0 <= i < j < |rows| ensures rows[i].id != rows[j].id {
      assert rows[i] in multiset(grouped) && rows[j] in multiset(grouped);
      var k :| 0 <= k < |grouped| && grouped[k] == rows[i];
      var l :| 0 <= l < |grouped| && grouped[l] == rows[j];
      assert k != l;
    }
    assert |rows| == |multiset(rows)| == |multiset(grouped)| == |grouped|;
    DistinctIdsCard(table);
  }

  /** There are as many groups as distinct employee ids. */
  lemma DistinctIdsCard(rows: seq<SaleRow>)
    ensures |DistinctIds(rows)| == |IdsOf(rows)|
  {
    var ids := DistinctIds(rows);
    DistinctSeqCard(ids);
    assert (set e | e in ids) == IdsOf(rows);
  }

  lemma {:induction false} DistinctSeqCard(ids: seq<int>)
    requires Distinct(ids)
    ensures |set e | e in ids| == |ids|
  {
    if |ids| > 0 {
      assert Distinct(ids[1..]) by {
        forall i, j | 0 <= i < j < |ids[1..]| ensures ids[1..][i] != ids[1..][j] {
          assert ids[1..][i] == ids[i + 1] && ids[1..][j] == ids[j + 1];
        }
      }
      DistinctSeqCard(ids[1..]);
      assert ids == [ids[0]] + ids[1..];
      assert (set e | e in ids) == {ids[0]} + (set e | e in ids[1..]);
      assert ids[0] !in ids[1..] by {
        forall k | 0 <= k < |ids[1..]| ensures ids[1..][k] != ids[0] {
          assert ids[1..][k] == ids[k + 1];
        }
      }
    }
  }

  /** Each line's metric, in the terms of the strategy that made it. */
  lemma ReportMetrics(s: Strategy, t: Table, key: Option<string>, ascending: bool)
    requires GenerateReport(s, t, key, ascending).Success?
    ensures forall x :: x in GenerateReport(s, t, key, ascending).value.rows ==>
      && GroupSize(t.rows, x.id) > 0
      && (s == TotalSalesByEmployee ==> x.value == GroupSum(t.rows, x.id, Price))
      && (s == AverageSalesByEmployee ==>
            x.value == Round2(GroupSum(t.rows, x.id, Price) / GroupSize(t.rows, x.id) as real))
      && (s == ProductSalesByEmployee ==> x.value == CountProducts(t.rows, x.id) as real)
  {
    ReportOnePerEmployee(s, t, key, ascending);
    var rows := GenerateReport(s, t, key, ascending).value.rows;
    forall x | x in rows ensures GroupSize(t.rows, x.id) > 0 {
      assert x.id in ReportIds(rows);
      GroupSizePositive(t.rows, x.id);
    }
  }

  /** Each line's name is the EmployeeName on the employee's first row. */
  lemma ReportNamesFirstSeen(s: Strategy, t: Table, key: Option<string>, ascending: bool, x: ReportRow, i: nat)
    requires GenerateReport(s, t, key, ascending).Success?
    requires x in GenerateReport(s, t, key, ascending).value.rows
    requires i < |t.rows| && t.rows[i].employeeId == x.id
    requires forall j :: 0 <= j < i ==> t.rows[j].employeeId != x.id
    ensures x.name == t.rows[i].employeeName
  {
    ReportOnePerEmployee(s, t, key, ascending);
    FirstNameIsFirst(t.rows, x.id, i);
  }

  /** Sum of the metric column. */
  function SumValues(rows: seq<ReportRow>): real {
    if |rows| == 0 then 0.0 else rows[0].value + SumValues(rows[1..])
  }

  lemma {:induction false} SumValuesInsert(x: ReportRow, rows: seq<ReportRow>, le: (ReportRow, ReportRow) -> bool)
    ensures SumValues(Insert(x, rows, le)) == x.value + SumValues(rows)
  {
    if |rows| > 0 && !le(x, rows[0]) {
      SumValuesInsert(x, rows[1..], le);
    }
  }

  lemma {:induction false} SumValuesSort(rows: seq<ReportRow>, le: (ReportRow, ReportRow) -> bool)
    ensures SumValues(Sort(rows, le)) == SumValues(rows)
  {
    if |rows| > 0 {
      SumValuesSort(rows[1..], le);
      SumValuesInsert(rows[0], Sort(rows[1..], le), le);
    }
  }

  lemma {:induction false} SumValuesGroups(s: Strategy, rows: seq<SaleRow>, ids: seq<int>, w: SaleRow -> real)
    requires forall e :: Metric(s, rows, e) == GroupSum(rows, e, w)
    ensures SumValues(Groups(s, rows, ids)) == SumOver(rows, ids, w)
  {
    if |ids| > 0 {
      SumValuesGroups(s, rows, ids[1..], w);
      assert Groups(s, rows, ids)[1..] == Groups(s, rows, ids[1..]);
    }
  }

  /** The TotalVentas column adds up to the TotalPrice column of the table. */
  lemma TotalReportConservesSales(t: Table, key: Option<string>, ascending: bool)
    requires GenerateReport(TotalSalesByEmployee, t, key, ascending).Success?
    ensures SumValues(GenerateReport(TotalSalesByEmployee, t, key, ascending).value.rows) == Sum(t.rows, Price)
  {
    var field := SortFieldFor(TotalSalesByEmployee, key).value;
    var grouped := Groups(TotalSalesByEmployee, t.rows, DistinctIds(t.rows));
    SumValuesSort(grouped, (a: ReportRow, b: ReportRow) => RowBefore(field, ascending, a, b));
    SumValuesGroups(TotalSalesByEmployee, t.rows, DistinctIds(t.rows), Price);
    SumOverDistinctIds(t.rows, Price);
  }

  /** The counts add up to the number of rows with a non-null ProductID. */
  lemma CountReportConservesProducts(t: Table, key: Option<string>, ascending: bool)
    requires GenerateReport(ProductSalesByEmployee, t, key, ascending).Success?
    ensures SumValues(GenerateReport(ProductSalesByEmployee, t, key, ascending).value.rows) == ProductRows(t.rows) as real
  {
    var field := SortFieldFor(ProductSalesByEmployee, key).value;
    var grouped := Groups(ProductSalesByEmployee, t.rows, DistinctIds(t.rows));
    SumValuesSort(grouped, (a: ReportRow, b: ReportRow) => RowBefore(field, ascending, a, b));
    forall e ensures Metric(ProductSalesByEmployee, t.rows, e) == GroupSum(t.rows, e, HasProduct) {
      CountProductsIsGroupSum(t.rows, e);
    }
    SumValuesGroups(ProductSalesByEmployee, t.rows, DistinctIds(t.rows), HasProduct);
    SumOverDistinctIds(t.rows, HasProduct);
    ProductRowsIsSum(t.rows);
  }

  /** The five sales lines of three employees the strategy tests use. */
  const ExampleRows: seq<SaleRow> :=
    [SaleRow(1, "Alice Smith", 100.0, Some(101)), SaleRow(2, "Bob Johnson", 200.0, Some(102)),
     SaleRow(1, "Alice Smith", 150.0, Some(103)), SaleRow(3, "Charlie Brown", 300.0, Some(104)),
     SaleRow(2, "Bob Johnson", 250.0, Some(105))]

  /** The example lines with the columns of the test DataFrame. */
  const ExampleSales: Table := Table(
    {EmployeeIdColumn, EmployeeNameColumn, TotalPriceColumn, ProductIdColumn,
     "ProductName", "Quantity", "CustomerID", "CustomerName"},
    ExampleRows)

  /** On the example sales: totals 250, 450 and 300, with the names of the first rows. */
  lemma ExampleTotals()
    ensures Summary(TotalSalesByEmployee, ExampleRows, 1) == ReportRow(1, "Alice Smith", 250.0)
    ensures Summary(TotalSalesByEmployee, ExampleRows, 2) == ReportRow(2, "Bob Johnson", 450.0)
    ensures Summary(TotalSalesByEmployee, ExampleRows, 3) == ReportRow(3, "Charlie Brown", 300.0)
  {
    var rows := ExampleRows;
    assert rows[1..][1..][1..][1..][1..] == [];
  }

  /** On the example sales: means 125, 225 and 300. */
  lemma ExampleMeans()
    ensures Metric(AverageSalesByEmployee, ExampleRows, 1) == 125.0
    ensures Metric(AverageSalesByEmployee, ExampleRows, 2) == 225.0
    ensures Metric(AverageSalesByEmployee, ExampleRows, 3) == 300.0
  {
    var rows := ExampleRows;
    assert rows[1..][1..][1..][1..][1..] == [];
    assert GroupSize(rows, 1) == 2 && GroupSize(rows, 2) == 2 && GroupSize(rows, 3) == 1;
    assert GroupSum(rows, 1, Price) == 250.0 && GroupSum(rows, 2, Price) == 450.0 && GroupSum(rows, 3, Price) == 300.0;
    assert Round2(125.0) == 125.0 && Round2(225.0) == 225.0 && Round2(300.0) == 300.0;
  }

  /** On the example sales: counts 2, 2 and 1. */
  lemma ExampleCounts()
    ensures Metric(ProductSalesByEmployee, ExampleRows, 1) == 2.0
    ensures Metric(ProductSalesByEmployee, ExampleRows, 2) == 2.0
    ensures Metric(ProductSalesByEmployee, ExampleRows, 3) == 1.0
  {
    var rows := ExampleRows;
    assert rows[1..][1..][1..][1..][1..] == [];
  }

  /** Each strategy, sorted by any of its columns, gives the three example employees one line each. */
  lemma ExampleReportLength(s: Strategy, key: string, ascending: bool)
    requires key in {EmployeeIdColumn, EmployeeNameColumn, SourceColumn(s)}
    ensures GenerateReport(s, ExampleSales, Some(key), ascending).Success?
    ensures |GenerateReport(s, ExampleSales, Some(key), ascending).value.rows| == 3
    ensures GenerateReport(s, ExampleSales, Some(key), ascending).value.columns == [IdLabel, NameLabel, MetricLabel(s)]
  {
    ExampleIds();
    ReportOnePerEmployee(s, ExampleSales, Some(key), ascending);
  }

  lemma ExampleIds()
    ensures IdsOf(ExampleSales.rows) == {1, 2, 3}
    ensures |IdsOf(ExampleSales.rows)| == 3
  {
    var rows := ExampleSales.rows;
    forall e | e in IdsOf(rows) ensures e in {1, 2, 3} {
      var i :| 0 <= i < |rows| && rows[i].employeeId == e;
    }
    assert rows[0] in rows && rows[1] in rows && rows[3] in rows;
  }
}
