/**
 * The combined report as the builder assembles it: a DataFrame keyed by
 * IDVendedor whose other cells may be null. Name columns (every column whose
 * label contains "Nombre Apellido Vendedor") and metric columns are kept
 * apart, in their left-to-right order, because the cleaning step treats them
 * differently.
 */
module Frames {
  import opened Wrappers
  import opened Sorting
  import opened Strategies

  /** One line: the IDVendedor key, then the name cells, then the metric cells. */
  datatype Row = Row(id: int, names: seq<Option<string>>, metrics: seq<Option<real>>)

  datatype Frame = Frame(nameLabels: seq<string>, metricLabels: seq<string>, rows: seq<Row>)

  /** The column labels of a frame with its name columns first. */
  function Columns(f: Frame): seq<string> {
    [IdLabel] + f.nameLabels + f.metricLabels
  }

  /** Every line has one cell per column. */
  predicate Shaped(f: Frame) {
    forall r :: r in f.rows ==> |r.names| == |f.nameLabels| && |r.metrics| == |f.metricLabels|
  }

  function RowIds(rows: seq<Row>): set<int> {
    set r | r in rows :: r.id
  }

  predicate UniqueIds(rows: seq<Row>) {
    forall i, j :: 0 <= i < j < |rows| ==> rows[i].id != rows[j].id
  }

  lemma RowIdsCons(rows: seq<Row>)
    requires |rows| > 0
    ensures RowIds(rows) == {rows[0].id} + RowIds(rows[1..])
  {
    assert rows == [rows[0]] + rows[1..];
    forall e | e in RowIds(rows) ensures e in {rows[0].id} + RowIds(rows[1..]) {
      var r :| r in rows && r.id == e;
      if r != rows[0] {
        assert r in rows[1..];
      }
    }
  }

  /** A strategy's report as a DataFrame: every cell is present. */
  function ToFrame(rep: Report): (f: Frame)
    requires |rep.columns| == 3
    ensures Shaped(f) && |f.rows| == |rep.rows|
    ensures Columns(f) == [IdLabel] + rep.columns[1..]
    ensures forall i :: 0 <= i < |rep.rows| ==>
      f.rows[i] == Row(rep.rows[i].id, [Some(rep.rows[i].name)], [Some(rep.rows[i].value)])
  {
    assert rep.columns == [rep.columns[0]] + [rep.columns[1]] + [rep.columns[2]];
    Frame([rep.columns[1]], [rep.columns[2]],
          seq(|rep.rows|, i requires 0 <= i < |rep.rows| =>
            Row(rep.rows[i].id, [Some(rep.rows[i].name)], [Some(rep.rows[i].value)])))
  }

  /** n null cells. */
  function Nulls<T>(n: nat): (r: seq<Option<T>>)
    ensures |r| == n && forall i :: 0 <= i < n ==> r[i] == None
  {
    seq(n, i => None)
  }

  /** The first line with the given key, if any. */
  function Lookup(rows: seq<Row>, id: int): (m: Option<Row>)
    ensures m.Some? ==> m.value in rows && m.value.id == id
    ensures m.None? <==> id !in RowIds(rows)
  {
    if |rows| == 0 then None
    else
      RowIdsCons(rows);
      if rows[0].id == id then Some(rows[0]) else Lookup(rows[1..], id)
  }

  /** A line of the left frame, extended with the matching right line or nulls. */
  function JoinLeft(l: Row, m: Option<Row>, nameWidth: nat, metricWidth: nat): Row {
    match m
    case Some(r) => Row(l.id, l.names + r.names, l.metrics + r.metrics)
    case None => Row(l.id, l.names + Nulls(nameWidth), l.metrics + Nulls(metricWidth))
  }

  /** The right frame's lines whose key the left frame lacks, padded on the left. */
  function RightOnly(rows: seq<Row>, leftIds: set<int>, nameWidth: nat, metricWidth: nat): (r: seq<Row>)
    ensures forall x :: x in r ==> x.id !in leftIds
    ensures forall x :: x in r ==> exists y :: y in rows && x == Row(y.id, Nulls(nameWidth) + y.names, Nulls(metricWidth) + y.metrics)
    ensures RowIds(r) == RowIds(rows) - leftIds
    ensures |r| <= |rows|
  {
    if |rows| == 0 then []
    else
      RowIdsCons(rows);
      var rest := RightOnly(rows[1..], leftIds, nameWidth, metricWidth);
      if rows[0].id in leftIds then rest
      else
        var x := Row(rows[0].id, Nulls(nameWidth) + rows[0].names, Nulls(metricWidth) + rows[0].metrics);
        RowIdsCons([x] + rest);
        assert ([x] + rest)[1..] == rest;
        [x] + rest
  }

  /**
   * `pd.merge(left, right, on="IDVendedor", how="outer")`: the left's lines
   * in their order, then the right-only lines; the column labels are the
   * left's followed by the right's, and every key of either side occurs.
   */
  function Merge(left: Frame, right: Frame): (m: Frame)
    ensures m.nameLabels == left.nameLabels + right.nameLabels
    ensures m.metricLabels == left.metricLabels + right.metricLabels
    ensures RowIds(m.rows) == RowIds(left.rows) + RowIds(right.rows)
    ensures |left.rows| <= |m.rows| <= |left.rows| + |right.rows|
  {
    OuterJoinIds(left, right);
    Frame(left.nameLabels + right.nameLabels, left.metricLabels + right.metricLabels,
          LeftJoined(left, right) + RightOnly(right.rows, RowIds(left.rows), |left.nameLabels|, |left.metricLabels|))
  }

  /**
   * The outer-join line of key `id`, stated per key: the cells of the
   * matching left and right lines side by side, nulls for a side that lacks
   * the key.
   */
  function JoinedRow(left: Frame, right: Frame, id: int): Row {
    match (Lookup(left.rows, id), Lookup(right.rows, id))
    case (Some(l), Some(r)) => Row(id, l.names + r.names, l.metrics + r.metrics)
    case (Some(l), None) => Row(id, l.names + Nulls(|right.nameLabels|), l.metrics + Nulls(|right.metricLabels|))
    case (None, Some(r)) => Row(id, Nulls(|left.nameLabels|) + r.names, Nulls(|left.metricLabels|) + r.metrics)
    case (None, None) => Row(id, [], [])
  }

  lemma LookupUnique(rows: seq<Row>, x: Row)
    requires UniqueIds(rows) && x in rows
    ensures Lookup(rows, x.id) == Some(x)
  {
    var m := Lookup(rows, x.id);
    var i :| 0 <= i < |rows| && rows[i] == x;
    var j :| 0 <= j < |rows| && rows[j] == m.value;
  }

  function LeftJoined(left: Frame, right: Frame): (r: seq<Row>)
    ensures |r| == |left.rows|
    ensures forall i :: 0 <= i < |left.rows| ==>
      r[i] == JoinLeft(left.rows[i], Lookup(right.rows, left.rows[i].id), |right.nameLabels|, |right.metricLabels|)
  {
    seq(|left.rows|, i requires 0 <= i < |left.rows| =>
      JoinLeft(left.rows[i], Lookup(right.rows, left.rows[i].id), |right.nameLabels|, |right.metricLabels|))
  }

  /** Each line of an outer join is the joined line of its key. */
  lemma MergeRowsJoined(left: Frame, right: Frame)
    requires UniqueIds(left.rows) && UniqueIds(right.rows)
    ensures forall x :: x in Merge(left, right).rows ==> x == JoinedRow(left, right, x.id)
  {
    var lw, rw := |left.nameLabels|, |left.metricLabels|;
    var joined := LeftJoined(left, right);
    var extra := RightOnly(right.rows, RowIds(left.rows), lw, rw);
    assert Merge(left, right).rows == joined + extra;
    forall x: Row | x in joined + extra ensures x == JoinedRow(left, right, x.id) {
      if x in joined {
        var i :| 0 <= i < |joined| && joined[i] == x;
        LookupUnique(left.rows, left.rows[i]);
      } else {
        assert x in extra;
        var y :| y in right.rows && x == Row(y.id, Nulls(lw) + y.names, Nulls(rw) + y.metrics);
        LookupUnique(right.rows, y);
      }
    }
  }

  /**
   * The lines of an outer join keep every key of either side, and there are
   * at most as many of them as lines on both sides.
   */
  lemma OuterJoinIds(left: Frame, right: Frame)
    ensures var m := LeftJoined(left, right) + RightOnly(right.rows, RowIds(left.rows), |left.nameLabels|, |left.metricLabels|);
      && RowIds(m) == RowIds(left.rows) + RowIds(right.rows)
      && |left.rows| <= |m| <= |left.rows| + |right.rows|
  {
    var lw, rw := |left.nameLabels|, |left.metricLabels|;
    var joined := LeftJoined(left, right);
    var extra := RightOnly(right.rows, RowIds(left.rows), lw, rw);
    var m := joined + extra;
    forall e | e in RowIds(left.rows) + RowIds(right.rows) ensures e in RowIds(m) {
      if e in RowIds(left.rows) {
        var l :| l in left.rows && l.id == e;
        var i :| 0 <= i < |left.rows| && left.rows[i] == l;
        assert m[i] == joined[i];
      } else {
        assert e in RowIds(extra);
        var x :| x in extra && x.id == e;
        assert x in m;
      }
    }
    forall e | e in RowIds(m) ensures e in RowIds(left.rows) + RowIds(right.rows) {
      var x :| x in m && x.id == e;
      if x in joined {
        var i :| 0 <= i < |joined| && joined[i] == x;
        assert left.rows[i] in left.rows;
      } else {
        assert x in extra;
        assert x.id in RowIds(extra);
      }
    }
  }

  /** An outer join of two frames with unique keys has unique keys. */
  lemma MergeUnique(left: Frame, right: Frame)
    requires UniqueIds(left.rows) && UniqueIds(right.rows)
    ensures UniqueIds(Merge(left, right).rows)
  {
    var lw, rw := |left.nameLabels|, |left.metricLabels|;
    var joined := LeftJoined(left, right);
    var extra := RightOnly(right.rows, RowIds(left.rows), lw, rw);
    assert Merge(left, right).rows == joined + extra;
    RightOnlyUnique(right.rows, RowIds(left.rows), lw, rw);
    var m := joined + extra;
    forall i, j | 0 <= i < j < |m| ensures m[i].id != m[j].id {
      if j < |joined| {
        assert m[i].id == left.rows[i].id && m[j].id == left.rows[j].id;
      } else if i < |joined| {
        assert m[i].id == left.rows[i].id;
        assert left.rows[i] in left.rows;
        assert m[j] == extra[j - |joined|];
      } else {
        assert m[i] == extra[i - |joined|] && m[j] == extra[j - |joined|];
      }
    }
  }

  /**
   * The outer join keeps every key of either side, once, and each line is
   * the joined line of its key; the column labels are the left's, then the
   * right's.
   */
  lemma MergeOuterJoin(left: Frame, right: Frame)
    requires UniqueIds(left.rows) && UniqueIds(right.rows)
    ensures var m := Merge(left, right);
      && m.nameLabels == left.nameLabels + right.nameLabels
      && m.metricLabels == left.metricLabels + right.metricLabels
      && RowIds(m.rows) == RowIds(left.rows) + RowIds(right.rows)
      && UniqueIds(m.rows)
      && (forall x :: x in m.rows ==> x == JoinedRow(left, right, x.id))
  {
    MergeRowsJoined(left, right);
    MergeUnique(left, right);
  }

  lemma {:induction false} RightOnlyUnique(rows: seq<Row>, leftIds: set<int>, nameWidth: nat, metricWidth: nat)
    requires UniqueIds(rows)
    ensures UniqueIds(RightOnly(rows, leftIds, nameWidth, metricWidth))
  {
    if |rows| > 0 {
      assert UniqueIds(rows[1..]) by {
        forall i, j | 0 <= i < j < |rows[1..]| ensures rows[1..][i].id != rows[1..][j].id {
          assert rows[1..][i] == rows[i + 1] && rows[1..][j] == rows[j + 1];
        }
      }
      RightOnlyUnique(rows[1..], leftIds, nameWidth, metricWidth);
      RowIdsCons(rows);
      assert rows[0].id !in RowIds(rows[1..]) by {
        forall y | y in rows[1..] ensures y.id != rows[0].id {
          var k :| 0 <= k < |rows[1..]| && rows[1..][k] == y;
          assert y == rows[k + 1];
        }
      }
      var rest := RightOnly(rows[1..], leftIds, nameWidth, metricWidth);
      if rows[0].id !in leftIds {
        var r := RightOnly(rows, leftIds, nameWidth, metricWidth);
        assert r[1..] == rest;
        forall i, j | 0 <= i < j < |r| ensures r[i].id != r[j].id {
          if i == 0 {
            assert r[j] in rest;
            assert r[j].id in RowIds(rest);
          } else {
            assert r[i] == rest[i - 1] && r[j] == rest[j - 1];
          }
        }
      }
    }
  }

  /** `fillna`: keep a, or take b when a is null; null only when both are. */
  function FillNa(a: Option<string>, b: Option<string>): (r: Option<string>)
    ensures r == a || r == b
    ensures a.Some? ==> r == a
    ensures r.None? <==> a.None? && b.None?
  {
    if a.Some? then a else b
  }

  /**
   * The first non-null cell, left to right: one of the cells, and null
   * exactly when every cell is null.
   */
  function Coalesce(cells: seq<Option<string>>): (r: Option<string>)
    ensures r.Some? ==> r in cells
    ensures r.None? <==> forall j :: 0 <= j < |cells| ==> cells[j].None?
  {
    if |cells| == 0 then None
    else if cells[0].Some? then cells[0]
    else
      var rest := Coalesce(cells[1..]);
      assert forall j :: 0 < j < |cells| ==> cells[j] == cells[1..][j - 1];
      rest
  }

  /** Coalesce picks the first non-null cell. */
  lemma {:induction false} CoalesceFirst(cells: seq<Option<string>>, k: nat)
    requires k < |cells| && cells[k].Some?
    requires forall j :: 0 <= j < k ==> cells[j].None?
    ensures Coalesce(cells) == cells[k]
  {
    if k > 0 {
      CoalesceFirst(cells[1..], k - 1);
    }
  }

  /** Filling the running coalesced cell from the next column extends the coalescing. */
  lemma {:induction false} CoalesceSnoc(cells: seq<Option<string>>, c: Option<string>)
    ensures Coalesce(cells + [c]) == FillNa(Coalesce(cells), c)
  {
    if |cells| > 0 {
      assert (cells + [c])[1..] == cells[1..] + [c];
      CoalesceSnoc(cells[1..], c);
    } else {
      assert (cells + [c])[1..] == [];
    }
  }

  /** A line whose name columns are merged into one. */
  function CoalesceRow(r: Row): Row {
    Row(r.id, [Coalesce(r.names)], r.metrics)
  }

  /** The sort key of a line: its first name cell. */
  function NameKey(r: Row): Option<string> {
    if |r.names| == 0 then None else r.names[0]
  }

  /** a may precede b by name in the given direction; nulls go last. */
  predicate NameBefore(ascending: bool, a: Row, b: Row) {
    match (NameKey(a), NameKey(b))
    case (_, None) => true
    case (None, Some(_)) => false
    case (Some(x), Some(y)) => if ascending then LexLe(x, y) else LexLe(y, x)
  }

  lemma NameBeforeTotal(ascending: bool)
    ensures Total((a: Row, b: Row) => NameBefore(ascending, a, b))
  {
    forall a: Row, b: Row ensures NameBefore(ascending, a, b) || NameBefore(ascending, b, a) {
      if NameKey(a).Some? && NameKey(b).Some? {
        LexTotal(NameKey(a).value, NameKey(b).value);
      }
    }
  }

  /**
   * `sort_values("Nombre Apellido Vendedor", ascending=...)`: the same
   * lines, ordered by name with the nulls last.
   */
  function SortByName(rows: seq<Row>, ascending: bool): (r: seq<Row>)
    ensures multiset(r) == multiset(rows)
    ensures SortedByName(r, ascending)
  {
    NameBeforeTotal(ascending);
    SortSorted(rows, (a: Row, b: Row) => NameBefore(ascending, a, b));
    Sort(rows, (a: Row, b: Row) => NameBefore(ascending, a, b))
  }

  predicate SortedByName(rows: seq<Row>, ascending: bool) {
    forall i :: 0 < i < |rows| ==> NameBefore(ascending, rows[i - 1], rows[i])
  }

  /** The frame after its name columns are merged and the survivor renamed. */
  function Coalesced(f: Frame): Frame {
    Frame([NameLabel], f.metricLabels, seq(|f.rows|, i requires 0 <= i < |f.rows| => CoalesceRow(f.rows[i])))
  }

  /**
   * `_clean_combined_df` as a pair: the frame as the in-place edits leave
   * it (merged name columns, same line order), and the frame returned
   * (sorted by name, renumbered). With at most one name column both are
   * the input.
   */
  function Clean(f: Frame, ascending: bool): (r: (Frame, Frame))
    ensures |f.nameLabels| <= 1 ==> r == (f, f)
    ensures |f.nameLabels| > 1 ==>
      && r.0.nameLabels == [NameLabel] && r.1.nameLabels == [NameLabel]
      && r.0.metricLabels == f.metricLabels && r.1.metricLabels == f.metricLabels
      && |r.0.rows| == |f.rows|
      && (forall i :: 0 <= i < |f.rows| ==> r.0.rows[i] == Row(f.rows[i].id, [Coalesce(f.rows[i].names)], f.rows[i].metrics))
      && r.1.rows == SortByName(r.0.rows, ascending)
      && multiset(r.1.rows) == multiset(r.0.rows)
      && SortedByName(r.1.rows, ascending)
  {
    if |f.nameLabels| > 1 then
      var c := Coalesced(f);
      (c, Frame(c.nameLabels, c.metricLabels, SortByName(c.rows, ascending)))
    else (f, f)
  }

  /**
   * One pass of the cleaning loop: fill the main name cell from the next
   * name column, then drop that column.
   */
  function FillFromNext(r: Row): (x: Row)
    requires |r.names| >= 2
    ensures x.id == r.id && x.metrics == r.metrics && |x.names| == |r.names| - 1
  {
    Row(r.id, [FillNa(r.names[0], r.names[1])] + r.names[2..], r.metrics)
  }

  /** An outer join of rectangular frames is rectangular. */
  lemma MergeShaped(left: Frame, right: Frame)
    requires Shaped(left) && Shaped(right)
    ensures Shaped(Merge(left, right))
  {
    var joined := LeftJoined(left, right);
    var extra := RightOnly(right.rows, RowIds(left.rows), |left.nameLabels|, |left.metricLabels|);
    assert Merge(left, right).rows == joined + extra;
    forall x: Row | x in joined + extra
      ensures |x.names| == |left.nameLabels| + |right.nameLabels|
      ensures |x.metrics| == |left.metricLabels| + |right.metricLabels|
    {
      if x in joined {
        var i :| 0 <= i < |joined| && joined[i] == x;
        assert left.rows[i] in left.rows;
      }
    }
  }

  /** Cleaning keeps a frame rectangular, and keeps its keys. */
  lemma CleanShaped(f: Frame, ascending: bool)
    requires Shaped(f)
    ensures Shaped(Clean(f, ascending).0) && Shaped(Clean(f, ascending).1)
    ensures RowIds(Clean(f, ascending).0.rows) == RowIds(f.rows)
    ensures UniqueIds(f.rows) ==> UniqueIds(Clean(f, ascending).0.rows)
  {
    if |f.nameLabels| > 1 {
      var c := Clean(f, ascending).0;
      var d := Clean(f, ascending).1;
      forall x | x in c.rows ensures |x.names| == 1 && |x.metrics| == |c.metricLabels| {
        var i :| 0 <= i < |c.rows| && c.rows[i] == x;
        assert f.rows[i] in f.rows;
      }
      forall x | x in d.rows ensures |x.names| == 1 && |x.metrics| == |d.metricLabels| {
        assert x in multiset(c.rows);
      }
      forall e | e in RowIds(f.rows) ensures e in RowIds(c.rows) {
        var x :| x in f.rows && x.id == e;
        var i :| 0 <= i < |f.rows| && f.rows[i] == x;
        assert c.rows[i] in c.rows;
      }
      forall e | e in RowIds(c.rows) ensures e in RowIds(f.rows) {
        var x :| x in c.rows && x.id == e;
        var i :| 0 <= i < |c.rows| && c.rows[i] == x;
        assert f.rows[i] in f.rows;
      }
    }
  }
}
