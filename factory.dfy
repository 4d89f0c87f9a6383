/**
 * The row-to-record factories (`src/design_patterns/factory.py`):
 * `from_series` reads a fixed list of column labels from one pandas row and
 * passes the values, unchanged, to the record's constructor. Python
 * evaluates the keyword arguments left to right, so a row that lacks some of
 * the labels raises a KeyError naming the first missing one, and no record
 * is built.
 */
module Factory {
  import opened Wrappers
  import opened Sorting

  /** A cell of a pandas row: the factories copy it without looking inside. */
  datatype Value = IntValue(i: int) | RealValue(x: real) | StrValue(s: string) | NullValue

  /** A pandas Series used as a row: column label to cell. */
  type Series = map<string, Value>

  /** A raised KeyError and the label that was looked up. */
  datatype FactoryError = KeyError(key: string)

  const SalesIdLabel: string := "SalesID"
  const ProductIdLabel: string := "ProductID"
  const ProductNameLabel: string := "ProductName"
  const QuantityLabel: string := "Quantity"
  const TotalPriceLabel: string := "TotalPrice"
  const CustomerIdLabel: string := "CustomerID"
  const CustomerNameLabel: string := "CustomerName"
  const EmployeeIdLabel: string := "EmployeeID"
  const EmployeeNameLabel: string := "EmployeeName"
  const FirstNameLabel: string := "FirstName"
  const MiddleInitialLabel: string := "MiddleInitial"
  const LastNameLabel: string := "LastName"
  const AddressLabel: string := "Address"
  const CityNameLabel: string := "CityName"
  const CountryNameLabel: string := "CountryName"

  /** The labels `SalesSummary.from_series` reads, in argument order. */
  const SalesSummaryColumns: seq<string> :=
    [SalesIdLabel, ProductIdLabel, ProductNameLabel, QuantityLabel, TotalPriceLabel,
     CustomerIdLabel, CustomerNameLabel, EmployeeIdLabel, EmployeeNameLabel]

  /** The labels `CustomerLocationInfo.from_series` reads, in argument order. */
  const CustomerLocationColumns: seq<string> :=
    [CustomerIdLabel, FirstNameLabel, MiddleInitialLabel, LastNameLabel, AddressLabel, CityNameLabel, CountryNameLabel]

  /** A sale, with its product, customer and employee. */
  datatype SalesSummary = SalesSummary(
    saleId: Value, productId: Value, productName: Value, quantity: Value, totalPrice: Value,
    customerId: Value, customerName: Value, employeeId: Value, employeeName: Value)

  /** A customer and where they live; there is no state field. */
  datatype CustomerLocationInfo = CustomerLocationInfo(
    customerId: Value, firstName: Value, middleInitial: Value, lastName: Value,
    address: Value, cityName: Value, countryName: Value)

  /** Every label is in the row. */
  predicate HasAll(serie: Series, keys: seq<string>) {
    forall k :: k in keys ==> k in serie
  }

  /** `key` is the first of the labels that the row lacks. */
  predicate FirstMissing(serie: Series, keys: seq<string>, key: string) {
    exists i :: 0 <= i < |keys| && keys[i] == key && key !in serie && HasAll(serie, keys[..i])
  }

  /**
   * Looks the labels up one after the other: the cells in label order, or a
   * KeyError for the first label that is missing.
   */
  function Fetch(serie: Series, keys: seq<string>): (r: Result<seq<Value>, FactoryError>)
    ensures r.Success? <==> HasAll(serie, keys)
    ensures r.Success? ==> |r.value| == |keys| && forall i :: 0 <= i < |keys| ==> keys[i] in serie && r.value[i] == serie[keys[i]]
    ensures r.Failure? ==> FirstMissing(serie, keys, r.error.key)
  {
    if |keys| == 0 then Success([])
    else if keys[0] !in serie then
      assert keys[..0] == [];
      Failure(KeyError(keys[0]))
    else
      match Fetch(serie, keys[1..])
      case Failure(e) =>
        assert FirstMissing(serie, keys, e.key) by {
          var j :| 0 <= j < |keys[1..]| && keys[1..][j] == e.key && keys[1..][j] !in serie && HasAll(serie, keys[1..][..j]);
          assert keys[..j + 1] == [keys[0]] + keys[1..][..j];
        }
        Failure(e)
      case Success(rest) =>
        assert keys == [keys[0]] + keys[1..];
        Success([serie[keys[0]]] + rest)
  }

  /** Rows that agree on the labels (presence and cells) give the same lookup. */
  lemma {:induction false} FetchLocal(s1: Series, s2: Series, keys: seq<string>)
    requires forall k :: k in keys ==> (k in s1 <==> k in s2)
    requires forall k :: k in keys && k in s1 ==> s1[k] == s2[k]
    ensures Fetch(s1, keys) == Fetch(s2, keys)
  {
    if |keys| > 0 {
      FetchLocal(s1, s2, keys[1..]);
    }
  }

  /** `SalesSummary.from_series`. */
  function SalesSummaryFromSeries(serie: Series): (r: Result<SalesSummary, FactoryError>)
    ensures r.Success? <==> HasAll(serie, SalesSummaryColumns)
    ensures r.Success? ==> SalesSummaryIn(serie, r.value)
    ensures r.Failure? ==> FirstMissing(serie, SalesSummaryColumns, r.error.key)
  {
    match Fetch(serie, SalesSummaryColumns)
    case Failure(e) => Failure(e)
    case Success(v) => Success(SalesSummary(v[0], v[1], v[2], v[3], v[4], v[5], v[6], v[7], v[8]))
  }

  /** Every field of the summary is the cell under its label. */
  predicate SalesSummaryIn(serie: Series, x: SalesSummary) {
    && SalesIdLabel in serie && x.saleId == serie[SalesIdLabel]
    && ProductIdLabel in serie && x.productId == serie[ProductIdLabel]
    && ProductNameLabel in serie && x.productName == serie[ProductNameLabel]
    && QuantityLabel in serie && x.quantity == serie[QuantityLabel]
    && TotalPriceLabel in serie && x.totalPrice == serie[TotalPriceLabel]
    && CustomerIdLabel in serie && x.customerId == serie[CustomerIdLabel]
    && CustomerNameLabel in serie && x.customerName == serie[CustomerNameLabel]
    && EmployeeIdLabel in serie && x.employeeId == serie[EmployeeIdLabel]
    && EmployeeNameLabel in serie && x.employeeName == serie[EmployeeNameLabel]
  }

  /** `CustomerLocationInfo.from_series`. */
  function CustomerLocationFromSeries(serie: Series): (r: Result<CustomerLocationInfo, FactoryError>)
    ensures r.Success? <==> HasAll(serie, CustomerLocationColumns)
    ensures r.Success? ==> CustomerLocationIn(serie, r.value)
    ensures r.Failure? ==> FirstMissing(serie, CustomerLocationColumns, r.error.key)
  {
    match Fetch(serie, CustomerLocationColumns)
    case Failure(e) => Failure(e)
    case Success(v) => Success(CustomerLocationInfo(v[0], v[1], v[2], v[3], v[4], v[5], v[6]))
  }

  /** Every field of the customer record is the cell under its label. */
  predicate CustomerLocationIn(serie: Series, x: CustomerLocationInfo) {
    && CustomerIdLabel in serie && x.customerId == serie[CustomerIdLabel]
    && FirstNameLabel in serie && x.firstName == serie[FirstNameLabel]
    && MiddleInitialLabel in serie && x.middleInitial == serie[MiddleInitialLabel]
    && LastNameLabel in serie && x.lastName == serie[LastNameLabel]
    && AddressLabel in serie && x.address == serie[AddressLabel]
    && CityNameLabel in serie && x.cityName == serie[CityNameLabel]
    && CountryNameLabel in serie && x.countryName == serie[CountryNameLabel]
  }

  /** The row holding each cell under the label at the same position. */
  function Zip(keys: seq<string>, cells: seq<Value>): Series
    requires |keys| == |cells|
  {
    if |keys| == 0 then map[] else Zip(keys[1..], cells[1..])[keys[0] := cells[0]]
  }

  /** Looking distinct labels up in a row that holds them gives back their cells. */
  lemma {:induction false} FetchZip(extra: Series, keys: seq<string>, cells: seq<Value>)
    requires |keys| == |cells| && Distinct(keys)
    ensures Fetch(extra + Zip(keys, cells), keys) == Success(cells)
  {
    if |keys| > 0 {
      assert Distinct(keys[1..]) by {
        forall i, j | 0 <= i < j < |keys[1..]| ensures keys[1..][i] != keys[1..][j] {
          assert keys[1..][i] == keys[i + 1] && keys[1..][j] == keys[j + 1];
        }
      }
      FetchZip(extra, keys[1..], cells[1..]);
      var row := extra + Zip(keys, cells);
      var rest := extra + Zip(keys[1..], cells[1..]);
      assert keys[0] !in keys[1..] by {
        forall k | 0 <= k < |keys[1..]| ensures keys[1..][k] != keys[0] {
          assert keys[1..][k] == keys[k + 1];
        }
      }
      FetchLocal(row, rest, keys[1..]);
      assert cells == [cells[0]] + cells[1..];
    }
  }

  /** No label is read twice. */
  lemma ColumnsDistinct()
    ensures Distinct(SalesSummaryColumns)
    ensures Distinct(CustomerLocationColumns)
  {
  }

  /** The row a summary is read back from: its fields under their labels. */
  function SalesSummaryRow(x: SalesSummary): Series {
    Zip(SalesSummaryColumns, [x.saleId, x.productId, x.productName, x.quantity, x.totalPrice,
                              x.customerId, x.customerName, x.employeeId, x.employeeName])
  }

  /** The row a customer record is read back from: its fields under their labels. */
  function CustomerLocationRow(x: CustomerLocationInfo): Series {
    Zip(CustomerLocationColumns, [x.customerId, x.firstName, x.middleInitial, x.lastName,
                                  x.address, x.cityName, x.countryName])
  }

  /** Reading a summary back from its own row, with any extra columns, gives it back. */
  lemma SalesSummaryRoundTrip(x: SalesSummary, extra: Series)
    ensures SalesSummaryFromSeries(extra + SalesSummaryRow(x)) == Success(x)
  {
    ColumnsDistinct();
    FetchZip(extra, SalesSummaryColumns, [x.saleId, x.productId, x.productName, x.quantity, x.totalPrice,
                                          x.customerId, x.customerName, x.employeeId, x.employeeName]);
  }

  /** Reading a customer back from its own row, with any extra columns, gives it back. */
  lemma CustomerLocationRoundTrip(x: CustomerLocationInfo, extra: Series)
    ensures CustomerLocationFromSeries(extra + CustomerLocationRow(x)) == Success(x)
  {
    ColumnsDistinct();
    FetchZip(extra, CustomerLocationColumns, [x.customerId, x.firstName, x.middleInitial, x.lastName,
                                              x.address, x.cityName, x.countryName]);
  }

  /** Only the listed labels matter: other columns never change the outcome. */
  lemma SalesSummaryLocal(s1: Series, s2: Series)
    requires forall k :: k in SalesSummaryColumns ==> (k in s1 <==> k in s2)
    requires forall k :: k in SalesSummaryColumns && k in s1 ==> s1[k] == s2[k]
    ensures SalesSummaryFromSeries(s1) == SalesSummaryFromSeries(s2)
  {
    FetchLocal(s1, s2, SalesSummaryColumns);
  }

  /** Only the listed labels matter: other columns, a state among them, never change the outcome. */
  lemma CustomerLocationLocal(s1: Series, s2: Series)
    requires forall k :: k in CustomerLocationColumns ==> (k in s1 <==> k in s2)
    requires forall k :: k in CustomerLocationColumns && k in s1 ==> s1[k] == s2[k]
    ensures CustomerLocationFromSeries(s1) == CustomerLocationFromSeries(s2)
  {
    FetchLocal(s1, s2, CustomerLocationColumns);
  }

  /**
   * A customer row with only CustomerID, FirstName and LastName fails on
   * MiddleInitial, the first label it lacks.
   */
  lemma MissingMiddleInitial(id: Value, first: Value, last: Value)
    ensures CustomerLocationFromSeries(map[CustomerIdLabel := id, FirstNameLabel := first, LastNameLabel := last])
      == Failure(KeyError(MiddleInitialLabel))
  {
    var row := map[CustomerIdLabel := id, FirstNameLabel := first, LastNameLabel := last];
    assert MiddleInitialLabel !in row;
    assert Fetch(row, CustomerLocationColumns[2..]) == Failure(KeyError(MiddleInitialLabel));
    assert Fetch(row, CustomerLocationColumns[1..]) == Failure(KeyError(MiddleInitialLabel));
  }
}
