/**
 * The sales DataFrame the reports read, and the pandas grouping operations
 * on it: `groupby("EmployeeID")` with sum, mean and count, and
 * `drop_duplicates(subset="EmployeeID")`, which keeps the first row of each
 * employee.
 */
module Sales {
  import opened Wrappers
  import opened Sorting

  const EmployeeIdColumn: string := "EmployeeID"
  const EmployeeNameColumn: string := "EmployeeName"
  const TotalPriceColumn: string := "TotalPrice"
  const ProductIdColumn: string := "ProductID"

  /**
   * One sales line, restricted to the columns the reports read. ProductID
   * may be null: the count report counts only non-null cells.
   */
  datatype SaleRow = SaleRow(employeeId: int, employeeName: string, totalPrice: real, productId: Option<int>)

  /**
   * A DataFrame of sales lines: the labels of the columns it has, and its
   * rows. A field of a row whose column is not in `columns` is never read.
   */
  datatype Table = Table(columns: set<string>, rows: seq<SaleRow>)

  /** The employee ids that occur in the rows. */
  function IdsOf(rows: seq<SaleRow>): set<int> {
    set r | r in rows :: r.employeeId
  }

  lemma IdsOfCons(rows: seq<SaleRow>)
    requires |rows| > 0
    ensures IdsOf(rows) == {rows[0].employeeId} + IdsOf(rows[1..])
  {
    assert rows == [rows[0]] + rows[1..];
    forall e | e in IdsOf(rows) ensures e in {rows[0].employeeId} + IdsOf(rows[1..]) {
      var r :| r in rows && r.employeeId == e;
      if r != rows[0] {
        assert r in rows[1..];
      }
    }
  }

  /** The groups of `groupby("EmployeeID")`: each employee id once. */
  function DistinctIds(rows: seq<SaleRow>): (ids: seq<int>)
    ensures Distinct(ids)
    ensures forall e :: e in ids <==> e in IdsOf(rows)
  {
    if |rows| == 0 then []
    else
      var rest := DistinctIds(rows[1..]);
      var e := rows[0].employeeId;
      IdsOfCons(rows);
      if e in rest then rest
      else
        var ids := [e] + rest;
        assert forall i, j :: 0 <= i < j < |ids| ==> ids[i] != ids[j] by {
          forall i, j | 0 <= i < j < |ids| ensures ids[i] != ids[j] {
            if i > 0 {
              assert ids[i] == rest[i - 1] && ids[j] == rest[j - 1];
            } else {
              assert ids[j] == rest[j - 1];
            }
          }
        }
        ids
  }

  /** A per-row quantity that a group reduction adds up. */
  function Price(r: SaleRow): real {
    r.totalPrice
  }

  /** 1 for a row whose ProductID is not null, else 0 (pandas' count). */
  function HasProduct(r: SaleRow): real {
    if r.productId.Some? then 1.0 else 0.0
  }

  /**
   * Sum of w over the rows of employee e: nothing for an employee without
   * rows (how the group sums add up to the whole table is
   * SumOverDistinctIds).
   */
  function GroupSum(rows: seq<SaleRow>, e: int, w: SaleRow -> real): (r: real)
    ensures GroupSize(rows, e) == 0 ==> r == 0.0
  {
    if |rows| == 0 then 0.0
    else (if rows[0].employeeId == e then w(rows[0]) else 0.0) + GroupSum(rows[1..], e, w)
  }

  /** Sum of w over all rows. */
  function Sum(rows: seq<SaleRow>, w: SaleRow -> real): real {
    if |rows| == 0 then 0.0 else w(rows[0]) + Sum(rows[1..], w)
  }

  /** Sum of the group sums of the given ids. */
  function SumOver(rows: seq<SaleRow>, ids: seq<int>, w: SaleRow -> real): real {
    if |ids| == 0 then 0.0 else GroupSum(rows, ids[0], w) + SumOver(rows, ids[1..], w)
  }

  /** Number of rows of employee e (the divisor of pandas' mean). */
  function GroupSize(rows: seq<SaleRow>, e: int): (n: nat)
    ensures n <= |rows|
  {
    if |rows| == 0 then 0
    else (if rows[0].employeeId == e then 1 else 0) + GroupSize(rows[1..], e)
  }

  /**
   * Number of rows of employee e with a non-null ProductID: at most the
   * size of e's group, and all of it when no ProductID is null.
   */
  function CountProducts(rows: seq<SaleRow>, e: int): (n: nat)
    ensures n <= GroupSize(rows, e)
    ensures (forall i :: 0 <= i < |rows| ==> rows[i].productId.Some?) ==> n == GroupSize(rows, e)
  {
    if |rows| == 0 then 0
    else (if rows[0].employeeId == e && rows[0].productId.Some? then 1 else 0) + CountProducts(rows[1..], e)
  }

  /** Number of rows with a non-null ProductID. */
  function ProductRows(rows: seq<SaleRow>): nat {
    if |rows| == 0 then 0
    else (if rows[0].productId.Some? then 1 else 0) + ProductRows(rows[1..])
  }

  /**
   * The name on the first row of employee e, and "" when e has no row: a
   * name some row of e carries (which row it is, is FirstNameIsFirst).
   */
  function FirstName(rows: seq<SaleRow>, e: int): (name: string)
    ensures GroupSize(rows, e) == 0 ==> name == ""
    ensures GroupSize(rows, e) > 0 ==> name in NamesOf(rows, e)
  {
    if |rows| == 0 then ""
    else if rows[0].employeeId == e then rows[0].employeeName
    else
      var name := FirstName(rows[1..], e);
      assert name in NamesOf(rows[1..], e) ==> name in NamesOf(rows, e) by {
        if name in NamesOf(rows[1..], e) {
          var r :| r in rows[1..] && r.employeeId == e && r.employeeName == name;
          assert r in rows;
        }
      }
      name
  }

  /** The names written on the rows of employee e. */
  function NamesOf(rows: seq<SaleRow>, e: int): set<string> {
    set r | r in rows && r.employeeId == e :: r.employeeName
  }

  /** An employee has rows in the table exactly when it occurs in it. */
  lemma {:induction false} GroupSizePositive(rows: seq<SaleRow>, e: int)
    ensures GroupSize(rows, e) > 0 <==> e in IdsOf(rows)
  {
    if |rows| > 0 {
      IdsOfCons(rows);
      GroupSizePositive(rows[1..], e);
    }
  }

  /** Taking the first row off: its weight leaves exactly its own group. */
  lemma {:induction false} SumOverPeel(rows: seq<SaleRow>, ids: seq<int>, w: SaleRow -> real)
    requires |rows| > 0 && Distinct(ids)
    ensures SumOver(rows, ids, w) == SumOver(rows[1..], ids, w) + (if rows[0].employeeId in ids then w(rows[0]) else 0.0)
  {
    if |ids| > 0 {
      assert Distinct(ids[1..]) by {
        forall i, j | 0 <= i < j < |ids[1..]| ensures ids[1..][i] != ids[1..][j] {
          assert ids[1..][i] == ids[i + 1] && ids[1..][j] == ids[j + 1];
        }
      }
      SumOverPeel(rows, ids[1..], w);
      assert rows[0].employeeId in ids <==> rows[0].employeeId == ids[0] || rows[0].employeeId in ids[1..] by {
        assert ids == [ids[0]] + ids[1..];
      }
      if rows[0].employeeId == ids[0] {
        assert ids[0] !in ids[1..] by {
          forall k | 0 <= k < |ids[1..]| ensures ids[1..][k] != ids[0] {
            assert ids[1..][k] == ids[k + 1];
          }
        }
      }
    }
  }

  /**
   * Conservation: the group sums of all employees add up to the sum over the
   * whole table.
   */
  lemma {:induction false} SumOverDistinctIds(rows: seq<SaleRow>, w: SaleRow -> real)
    ensures SumOver(rows, DistinctIds(rows), w) == Sum(rows, w)
  {
    if |rows| > 0 {
      var rest := DistinctIds(rows[1..]);
      var e := rows[0].employeeId;
      SumOverDistinctIds(rows[1..], w);
      SumOverPeel(rows, rest, w);
      if e !in rest {
        var ids := [e] + rest;
        assert ids[1..] == rest;
        IdsOfCons(rows);
        GroupSizePositive(rows[1..], e);
        assert GroupSum(rows, e, w) == w(rows[0]);
      }
    }
  }

  /** The count of an employee is the group sum of HasProduct. */
  lemma {:induction false} CountProductsIsGroupSum(rows: seq<SaleRow>, e: int)
    ensures CountProducts(rows, e) as real == GroupSum(rows, e, HasProduct)
  {
    if |rows| > 0 {
      CountProductsIsGroupSum(rows[1..], e);
    }
  }

  /** The number of non-null ProductIDs is the sum of HasProduct. */
  lemma {:induction false} ProductRowsIsSum(rows: seq<SaleRow>)
    ensures ProductRows(rows) as real == Sum(rows, HasProduct)
  {
    if |rows| > 0 {
      ProductRowsIsSum(rows[1..]);
    }
  }

  /**
   * drop_duplicates keeps the first row: FirstName is the name on the row
   * of e that no earlier row of e precedes.
   */
  lemma {:induction false} FirstNameIsFirst(rows: seq<SaleRow>, e: int, i: nat)
    requires i < |rows| && rows[i].employeeId == e
    requires forall j :: 0 <= j < i ==> rows[j].employeeId != e
    ensures FirstName(rows, e) == rows[i].employeeName
  {
    if i > 0 {
      FirstNameIsFirst(rows[1..], e, i - 1);
    }
  }
}
