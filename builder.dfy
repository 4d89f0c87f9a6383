/**
 * The report builder: it holds a sales DataFrame and an ordered list of
 * strategies, runs every strategy with the builder's own sort key and
 * direction, keeps each report under the strategy's class name, and folds
 * the reports into a combined report by outer joins on IDVendedor, merging
 * the duplicated name columns after every join.
 */
module Builder {
  import opened Wrappers
  import opened Sorting
  import opened Sales
  import opened Strategies
  import opened Frames

  const CombinedReportName: string := "CombinedReport"

  /**
   * The builder's ValueErrors, and a strategy's KeyError, which build_all
   * lets through unchanged.
   */
  datatype BuildError =
    | NoDataFrame            // add_report before set_dataframe
    | MissingConfiguration   // build_all without a DataFrame or without strategies
    | ReportFailed(cause: ReportError)

  /** What build_all has accumulated: the result dict and the running combined frame. */
  datatype BuildState = BuildState(reports: map<string, Frame>, combined: Option<Frame>)

  const Start: BuildState := BuildState(map[], None)

  /**
   * `strategy.generate_report(df, key, ascending)` as the builder sees it:
   * a report, or the KeyError the strategy raised.
   */
  type Generator = Strategy -> Result<Report, ReportError>

  /** The builder's strategies on a fixed DataFrame, sort key and direction. */
  function Reports(t: Table, key: Option<string>, ascending: bool): Generator {
    s => GenerateReport(s, t, key, ascending)
  }

  /** Every report a strategy returns has three columns: IDVendedor, the name, the metric. */
  predicate ThreeColumns(gen: Generator) {
    forall s :: gen(s).Success? ==> |gen(s).value.columns| == 3
  }

  /**
   * The body of build_all's loop once strategy s returned the frame f:
   * store f, join it onto the combined frame, clean the result, store the
   * cleaned frame and keep the in-place coalesced one for the next join.
   */
  function Advance(st: BuildState, s: Strategy, f: Frame, ascending: bool): (r: BuildState)
    ensures r.reports.Keys == st.reports.Keys + {ClassName(s), CombinedReportName}
    ensures r.reports[ClassName(s)] == f
    ensures forall k :: k in st.reports && k != ClassName(s) && k != CombinedReportName ==> r.reports[k] == st.reports[k]
    ensures r.combined.Some?
    ensures r.combined.value.metricLabels ==
      if st.combined.None? then f.metricLabels else st.combined.value.metricLabels + f.metricLabels
    ensures st.combined.None? && |f.nameLabels| <= 1 ==> r.combined == Some(f) && r.reports[CombinedReportName] == f
  {
    ClassNameNotCombined(s);
    var merged := if st.combined.None? then f else Merge(st.combined.value, f);
    var cleaned := Clean(merged, ascending);
    BuildState(st.reports[ClassName(s) := f][CombinedReportName := cleaned.1], Some(cleaned.0))
  }

  /** What the loop does with a strategy's report frame. */
  type Advancer = (BuildState, Strategy, Frame) -> BuildState

  /** build_all's loop body with the builder's sort direction. */
  function Advancing(ascending: bool): Advancer {
    (st, s, f) => Advance(st, s, f, ascending)
  }

  /** One iteration of build_all's loop. */
  function Step(gen: Generator, adv: Advancer, st: BuildState, s: Strategy): Result<BuildState, ReportError>
    requires ThreeColumns(gen)
  {
    match gen(s)
    case Failure(e) => Failure(e)
    case Success(rep) => Success(adv(st, s, ToFrame(rep)))
  }

  /** The loop over the remaining strategies; the first failure aborts it. */
  function Run(gen: Generator, adv: Advancer, st: BuildState, ss: seq<Strategy>): Result<BuildState, ReportError>
    requires ThreeColumns(gen)
    decreases |ss|
  {
    if |ss| == 0 then Success(st)
    else
      match Step(gen, adv, st, ss[0])
      case Failure(e) => Failure(e)
      case Success(next) => Run(gen, adv, next, ss[1..])
  }

  /**
   * build_all as a function of the builder's four fields. It fails for a
   * missing DataFrame or an empty list of strategies, otherwise fails
   * exactly when a strategy does, with the error of the first one that
   * fails.
   */
  function Build(df: Option<Table>, ss: seq<Strategy>, key: Option<string>, ascending: bool): (r: Result<map<string, Frame>, BuildError>)
    ensures df.None? || |ss| == 0 ==> r == Failure(MissingConfiguration)
    ensures r.Success? <==>
      df.Some? && |ss| > 0 && forall s :: s in ss ==> GenerateReport(s, df.value, key, ascending).Success?
    ensures df.Some? && |ss| > 0 && r.Failure? ==>
      exists k :: 0 <= k < |ss|
        && GenerateReport(ss[k], df.value, key, ascending).Failure?
        && (forall j :: 0 <= j < k ==> GenerateReport(ss[j], df.value, key, ascending).Success?)
        && r.error == ReportFailed(GenerateReport(ss[k], df.value, key, ascending).error)
  {
    if df.None? || |ss| == 0 then Failure(MissingConfiguration)
    else
      RunOutcome(Reports(df.value, key, ascending), Advancing(ascending), Start, ss);
      match Run(Reports(df.value, key, ascending), Advancing(ascending), Start, ss)
      case Failure(e) => Failure(ReportFailed(e))
      case Success(st) => Success(st.reports)
  }

  class ReportBuilder {
    var df: Option<Table>
    var reportConfigs: seq<Strategy>
    var combinedSortKey: Option<string>
    var combinedSortAscending: bool

    constructor ()
      ensures df == None && reportConfigs == []
      ensures combinedSortKey == None && combinedSortAscending
    {
      df := None;
      reportConfigs := [];
      combinedSortKey := None;
      combinedSortAscending := true;
    }

    /** Replaces the DataFrame; earlier registrations stay. */
    method SetDataframe(t: Table)
      modifies this
      ensures df == Some(t)
      ensures reportConfigs == old(reportConfigs)
      ensures combinedSortKey == old(combinedSortKey) && combinedSortAscending == old(combinedSortAscending)
    {
      df := Some(t);
    }

    /** Sets the sort key and direction together. */
    method SetCombinedSorting(key: string, ascending: bool)
      modifies this
      ensures combinedSortKey == Some(key) && combinedSortAscending == ascending
      ensures df == old(df) && reportConfigs == old(reportConfigs)
    {
      combinedSortKey := Some(key);
      combinedSortAscending := ascending;
    }

    /** Appends a strategy; refused, with nothing changed, before a DataFrame is set. */
    method AddReport(s: Strategy) returns (r: Outcome<BuildError>)
      modifies this
      ensures old(df).None? ==> r == Fail(NoDataFrame) && reportConfigs == old(reportConfigs)
      ensures old(df).Some? ==> r == Pass && reportConfigs == old(reportConfigs) + [s]
      ensures df == old(df)
      ensures combinedSortKey == old(combinedSortKey) && combinedSortAscending == old(combinedSortAscending)
    {
      if df.None? {
        return Fail(NoDataFrame);
      }
      reportConfigs := reportConfigs + [s];
      return Pass;
    }

    /**
     * `_clean_combined_df`: with several name columns, fill the first from
     * each later one and drop it, rename the survivor, then sort by name
     * and renumber. `coalesced` is the frame the in-place edits leave
     * behind; `cleaned` is the frame returned.
     */
    method CleanCombinedDf(f: Frame) returns (coalesced: Frame, cleaned: Frame)
      requires Shaped(f)
      ensures (coalesced, cleaned) == Clean(f, combinedSortAscending)
    {
      if |f.nameLabels| <= 1 {
        return f, f;
      }
      var labels := f.nameLabels;
      var rows := f.rows;
      var k := 1;
      while k < |f.nameLabels|
        invariant 1 <= k <= |f.nameLabels|
        invariant labels == [f.nameLabels[0]] + f.nameLabels[k..]
        invariant |rows| == |f.rows|
        invariant forall i :: 0 <= i < |rows| ==>
          rows[i] == Row(f.rows[i].id, [Coalesce(f.rows[i].names[..k])] + f.rows[i].names[k..], f.rows[i].metrics)
      {
        forall i | 0 <= i < |rows| ensures |rows[i].names| >= 2 {
          assert f.rows[i] in f.rows;
        }
        var next := seq(|rows|, i requires 0 <= i < |rows| => FillFromNext(rows[i]));
        forall i | 0 <= i < |rows|
          ensures next[i] == Row(f.rows[i].id, [Coalesce(f.rows[i].names[..k + 1])] + f.rows[i].names[k + 1..], f.rows[i].metrics)
        {
          var ns := f.rows[i].names;
          assert f.rows[i] in f.rows;
          assert ns[..k + 1] == ns[..k] + [ns[k]];
          CoalesceSnoc(ns[..k], ns[k]);
          assert rows[i].names[1] == ns[k];
          assert rows[i].names[2..] == ns[k + 1..];
        }
        rows := next;
        labels := [labels[0]] + labels[2..];
        k := k + 1;
      }
      forall i | 0 <= i < |rows| ensures rows[i] == CoalesceRow(f.rows[i]) {
        assert f.rows[i] in f.rows;
        assert f.rows[i].names[..k] == f.rows[i].names;
      }
      assert rows == Coalesced(f).rows;
      coalesced := Frame([NameLabel], f.metricLabels, rows);
      cleaned := Frame([NameLabel], f.metricLabels, SortByName(rows, combinedSortAscending));
    }

    /**
     * `build_all`: the result of Build on the builder's fields; the
     * builder itself is left unchanged, so building again gives the same.
     */
    method BuildAll() returns (r: Result<map<string, Frame>, BuildError>)
      ensures r == Build(df, reportConfigs, combinedSortKey, combinedSortAscending)
    {
      if df.None? || |reportConfigs| == 0 {
        return Failure(MissingConfiguration);
      }
      var t := df.value;
      var gen := Reports(t, combinedSortKey, combinedSortAscending);
      var result: map<string, Frame> := map[];
      var combined: Option<Frame> := None;
      var i := 0;
      while i < |reportConfigs|
        invariant 0 <= i <= |reportConfigs|
        invariant combined.Some? ==> Shaped(combined.value)
        invariant Run(gen, Advancing(combinedSortAscending), BuildState(result, combined), reportConfigs[i..])
               == Run(gen, Advancing(combinedSortAscending), Start, reportConfigs)
      {
        var s := reportConfigs[i];
        assert reportConfigs[i..][0] == s && reportConfigs[i..][1..] == reportConfigs[i + 1..];
        var name := ClassName(s);
        var report := GenerateReport(s, t, combinedSortKey, combinedSortAscending);
        if report.Failure? {
          return Failure(ReportFailed(report.error));
        }
        var f := ToFrame(report.value);
        result := result[name := f];
        var merged := f;
        if combined.Some? {
          MergeShaped(combined.value, f);
          merged := Merge(combined.value, f);
        }
        var coalesced, cleaned := CleanCombinedDf(merged);
        CleanShaped(merged, combinedSortAscending);
        result := result[CombinedReportName := cleaned];
        combined := Some(coalesced);
        i := i + 1;
      }
      return Success(result);
    }
  }

  /** The metric labels of the strategies, in build order. */
  function MetricLabels(ss: seq<Strategy>): (ls: seq<string>)
    ensures |ls| == |ss| && forall k :: 0 <= k < |ss| ==> ls[k] == MetricLabel(ss[k])
  {
    seq(|ss|, k requires 0 <= k < |ss| => MetricLabel(ss[k]))
  }

  /**
   * The line of key e after the strategies ss, given the name every report
   * shows for a key and the value each strategy computes for it.
   */
  function ExpectedRow(ss: seq<Strategy>, name: int -> string, value: (Strategy, int) -> real, e: int): (x: Row)
    ensures x.id == e && x.names == [Some(name(e))] && |x.metrics| == |ss|
    ensures forall k :: 0 <= k < |ss| ==> x.metrics[k] == Some(value(ss[k], e))
  {
    Row(e, [Some(name(e))], seq(|ss|, k requires 0 <= k < |ss| => Some(value(ss[k], e))))
  }

  /**
   * A strategy's report lists, once each, the keys `ids`, every line
   * carrying the name `name` gives its key and the value `value` gives it.
   */
  predicate ReportUniform(rep: Report, s: Strategy, ids: set<int>, name: int -> string, value: (Strategy, int) -> real) {
    && rep.columns == [IdLabel, NameLabel, MetricLabel(s)]
    && (forall y :: y in rep.rows ==> y == ReportRow(y.id, name(y.id), value(s, y.id)))
    && ReportIds(rep.rows) == ids
    && UniqueReportIds(rep.rows)
  }

  /** Every report the strategies return is uniform over the same keys and names. */
  predicate Uniform(gen: Generator, ids: set<int>, name: int -> string, value: (Strategy, int) -> real) {
    forall s :: gen(s).Success? ==> ReportUniform(gen(s).value, s, ids, name, value)
  }

  /**
   * A combined frame after the strategies `done`: one name column, one
   * metric column per strategy, and one line per key, the expected one.
   */
  predicate CombinedHolds(c: Frame, done: seq<Strategy>, ids: set<int>, name: int -> string, value: (Strategy, int) -> real) {
    && c.nameLabels == [NameLabel]
    && c.metricLabels == MetricLabels(done)
    && (forall x :: x in c.rows ==> x == ExpectedRow(done, name, value, x.id))
    && RowIds(c.rows) == ids
    && UniqueIds(c.rows)
  }

  /** The frame stored under "CombinedReport": the sorted one once a join took place. */
  function Published(done: seq<Strategy>, c: Frame, ascending: bool): Frame {
    if |done| == 1 then c else Frame(c.nameLabels, c.metricLabels, SortByName(c.rows, ascending))
  }

  /** The class names of the strategies. */
  function ClassNames(ss: seq<Strategy>): set<string> {
    set s | s in ss :: ClassName(s)
  }

  /** The result dict holds each strategy's report frame under its class name, and the combined one. */
  predicate Entries(gen: Generator, done: seq<Strategy>, reports: map<string, Frame>)
    requires ThreeColumns(gen)
  {
    && reports.Keys == ClassNames(done) + {CombinedReportName}
    && forall s :: s in done ==> gen(s).Success? && reports[ClassName(s)] == ToFrame(gen(s).value)
  }

  /** The loop invariant of build_all after the (all successful) strategies `done`. */
  predicate Accumulated(gen: Generator, ascending: bool, done: seq<Strategy>, st: BuildState,
                        ids: set<int>, name: int -> string, value: (Strategy, int) -> real)
    requires ThreeColumns(gen)
  {
    && |done| > 0
    && st.combined.Some?
    && CombinedHolds(st.combined.value, done, ids, name, value)
    && Entries(gen, done, st.reports)
    && st.reports[CombinedReportName] == Published(done, st.combined.value, ascending)
    && (|done| == 1 ==> st.reports[CombinedReportName] == st.reports[ClassName(done[0])])
  }

  /** No report is stored under the combined report's key. */
  lemma ClassNameNotCombined(s: Strategy)
    ensures ClassName(s) != CombinedReportName
  {
    assert ClassName(s)[0] != CombinedReportName[0];
  }

  /**
   * The loop stops at the first failing strategy and reports its error; it
   * succeeds exactly when every strategy does.
   */
  lemma {:induction false} RunOutcome(gen: Generator, adv: Advancer, st: BuildState, ss: seq<Strategy>)
    requires ThreeColumns(gen)
    ensures Run(gen, adv, st, ss).Success? <==> forall s :: s in ss ==> gen(s).Success?
    ensures Run(gen, adv, st, ss).Failure? ==>
      exists k :: 0 <= k < |ss|
        && gen(ss[k]).Failure?
        && (forall j :: 0 <= j < k ==> gen(ss[j]).Success?)
        && Run(gen, adv, st, ss).error == gen(ss[k]).error
    decreases |ss|
  {
    if |ss| > 0 {
      assert ss == [ss[0]] + ss[1..];
      var step := Step(gen, adv, st, ss[0]);
      if step.Success? {
        RunOutcome(gen, adv, step.value, ss[1..]);
        if Run(gen, adv, st, ss).Failure? {
          var k :| 0 <= k < |ss[1..]|
            && gen(ss[1..][k]).Failure?
            && (forall j :: 0 <= j < k ==> gen(ss[1..][j]).Success?)
            && Run(gen, adv, step.value, ss[1..]).error == gen(ss[1..][k]).error;
          forall j | 0 <= j < k + 1 ensures gen(ss[j]).Success? {
            if j > 0 {
              assert ss[j] == ss[1..][j - 1];
            }
          }
          assert ss[k + 1] == ss[1..][k];
        }
      }
    }
  }

  /** A strategy's report seen as a frame holds the expected lines for that one strategy. */
  lemma ReportFrameHolds(gen: Generator, s: Strategy, ids: set<int>, name: int -> string, value: (Strategy, int) -> real)
    requires Uniform(gen, ids, name, value) && gen(s).Success?
    ensures CombinedHolds(ToFrame(gen(s).value), [s], ids, name, value)
  {
    var rep := gen(s).value;
    assert ReportUniform(rep, s, ids, name, value);
    var f := ToFrame(rep);
    assert Columns(f) == [IdLabel, NameLabel, MetricLabel(s)];
    assert f.nameLabels == [NameLabel] && f.metricLabels == [MetricLabel(s)];
    forall x | x in f.rows ensures x == ExpectedRow([s], name, value, x.id) {
      var i :| 0 <= i < |f.rows| && f.rows[i] == x;
      assert rep.rows[i] in rep.rows;
    }
    forall e | e in RowIds(f.rows) ensures e in ids {
      var x :| x in f.rows && x.id == e;
      var i :| 0 <= i < |f.rows| && f.rows[i] == x;
      assert rep.rows[i] in rep.rows;
    }
    forall e | e in ids ensures e in RowIds(f.rows) {
      var y :| y in rep.rows && y.id == e;
      var i :| 0 <= i < |rep.rows| && rep.rows[i] == y;
      assert f.rows[i] in f.rows;
    }
    forall i, j | 0 <= i < j < |f.rows| ensures f.rows[i].id != f.rows[j].id {
      assert f.rows[i].id == rep.rows[i].id && f.rows[j].id == rep.rows[j].id;
    }
  }

  /** The labels of a frame with the one name column. */
  lemma CombinedColumns(c: Frame, metricLabels: seq<string>)
    requires c.nameLabels == [NameLabel] && c.metricLabels == metricLabels
    ensures Columns(c) == [IdLabel, NameLabel] + metricLabels
  {
  }

  /** A combined frame that holds is rectangular. */
  lemma HoldsShaped(c: Frame, done: seq<Strategy>, ids: set<int>, name: int -> string, value: (Strategy, int) -> real)
    requires CombinedHolds(c, done, ids, name, value)
    ensures Shaped(c)
  {
    forall x | x in c.rows ensures |x.names| == |c.nameLabels| && |x.metrics| == |c.metricLabels| {
      assert x == ExpectedRow(done, name, value, x.id);
    }
  }

  /**
   * The published combined frame holds too, and once a join took place its
   * lines are in name order.
   */
  lemma PublishedHolds(c: Frame, done: seq<Strategy>, ascending: bool, ids: set<int>, name: int -> string, value: (Strategy, int) -> real)
    requires |done| > 0 && CombinedHolds(c, done, ids, name, value)
    ensures CombinedHolds(Published(done, c, ascending), done, ids, name, value)
    ensures |done| > 1 ==> SortedByName(Published(done, c, ascending).rows, ascending)
  {
    if |done| > 1 {
      var p := Published(done, c, ascending);
      assert multiset(p.rows) == multiset(c.rows);
      forall x | x in p.rows ensures x in c.rows {
        assert x in multiset(p.rows);
      }
      forall e | e in RowIds(c.rows) ensures e in RowIds(p.rows) {
        var x :| x in c.rows && x.id == e;
        assert x in multiset(p.rows);
      }
      assert Distinct(c.rows) by {
        forall i, j | 0 <= i < j < |c.rows| ensures c.rows[i] != c.rows[j] {
        }
      }
      PermutationDistinct(p.rows, c.rows);
      forall i, j | 0 <= i < j < |p.rows| ensures p.rows[i].id != p.rows[j].id {
        var x, y := p.rows[i], p.rows[j];
        assert x in c.rows && y in c.rows;
        assert x == ExpectedRow(done, name, value, x.id) && y == ExpectedRow(done, name, value, y.id);
        assert x != y;
      }
    }
  }

  /** The metric cells of one more strategy are the old cells followed by the new one. */
  lemma MetricsSnoc(done: seq<Strategy>, s: Strategy, name: int -> string, value: (Strategy, int) -> real, e: int)
    ensures ExpectedRow(done, name, value, e).metrics + ExpectedRow([s], name, value, e).metrics
         == ExpectedRow(done + [s], name, value, e).metrics
  {
  }

  /**
   * When both frames list the same keys with the same names, the outer-join
   * line of a key carries the name twice and the cells of both sides.
   */
  lemma JoinedRowSame(c: Frame, f: Frame, done: seq<Strategy>, s: Strategy, e: int,
                      ids: set<int>, name: int -> string, value: (Strategy, int) -> real)
    requires CombinedHolds(c, done, ids, name, value)
    requires CombinedHolds(f, [s], ids, name, value)
    requires e in ids
    ensures JoinedRow(c, f, e) == Row(e, [Some(name(e)), Some(name(e))], ExpectedRow(done + [s], name, value, e).metrics)
  {
    var l := Lookup(c.rows, e);
    var r := Lookup(f.rows, e);
    assert l.value == ExpectedRow(done, name, value, e);
    assert r.value == ExpectedRow([s], name, value, e);
    MetricsSnoc(done, s, name, value, e);
  }

  /** The outer join of the combined frame and the next strategy's frame. */
  lemma JoinNextRows(c: Frame, f: Frame, done: seq<Strategy>, s: Strategy,
                     ids: set<int>, name: int -> string, value: (Strategy, int) -> real)
    requires CombinedHolds(c, done, ids, name, value)
    requires CombinedHolds(f, [s], ids, name, value)
    ensures var m := Merge(c, f);
      && m.nameLabels == [NameLabel, NameLabel]
      && m.metricLabels == MetricLabels(done + [s])
      && (forall x :: x in m.rows ==> x == Row(x.id, [Some(name(x.id)), Some(name(x.id))], ExpectedRow(done + [s], name, value, x.id).metrics))
      && RowIds(m.rows) == ids
      && UniqueIds(m.rows)
  {
    MergeOuterJoin(c, f);
    JoinedRows(c, f, Merge(c, f), done, s, ids, name, value);
  }

  /** Every line of a frame made of joined lines of the two frames is the expected one. */
  lemma JoinedRows(c: Frame, f: Frame, m: Frame, done: seq<Strategy>, s: Strategy,
                   ids: set<int>, name: int -> string, value: (Strategy, int) -> real)
    requires CombinedHolds(c, done, ids, name, value)
    requires CombinedHolds(f, [s], ids, name, value)
    requires m.metricLabels == c.metricLabels + f.metricLabels
    requires RowIds(m.rows) == RowIds(c.rows) + RowIds(f.rows)
    requires forall x :: x in m.rows ==> x == JoinedRow(c, f, x.id)
    ensures m.metricLabels == MetricLabels(done + [s])
    ensures forall x :: x in m.rows ==> x == Row(x.id, [Some(name(x.id)), Some(name(x.id))], ExpectedRow(done + [s], name, value, x.id).metrics)
  {
    assert m.metricLabels == MetricLabels(done + [s]);
    forall x | x in m.rows
      ensures x == Row(x.id, [Some(name(x.id)), Some(name(x.id))], ExpectedRow(done + [s], name, value, x.id).metrics)
    {
      assert x.id in RowIds(m.rows);
      JoinedRowSame(c, f, done, s, x.id, ids, name, value);
    }
  }

  /** Cleaning a joined frame whose two name columns agree leaves the expected lines. */
  lemma CleanJoined(m: Frame, ss: seq<Strategy>, ascending: bool, ids: set<int>, name: int -> string, value: (Strategy, int) -> real)
    requires |ss| > 1
    requires m.nameLabels == [NameLabel, NameLabel] && m.metricLabels == MetricLabels(ss)
    requires forall x :: x in m.rows ==> x == Row(x.id, [Some(name(x.id)), Some(name(x.id))], ExpectedRow(ss, name, value, x.id).metrics)
    requires RowIds(m.rows) == ids && UniqueIds(m.rows)
    ensures CombinedHolds(Clean(m, ascending).0, ss, ids, name, value)
    ensures Clean(m, ascending).1 == Published(ss, Clean(m, ascending).0, ascending)
  {
    var d := Clean(m, ascending).0;
    forall x | x in d.rows ensures x == ExpectedRow(ss, name, value, x.id) {
      var i :| 0 <= i < |d.rows| && d.rows[i] == x;
      assert m.rows[i] in m.rows;
    }
    assert Shaped(m) by {
      forall x | x in m.rows ensures |x.names| == |m.nameLabels| && |x.metrics| == |m.metricLabels| {
      }
    }
    CleanShaped(m, ascending);
  }

  /** Storing the next strategy's frame, and any combined frame, extends the entries. */
  lemma EntriesNext(gen: Generator, done: seq<Strategy>, reports: map<string, Frame>, s: Strategy, g: Frame)
    requires ThreeColumns(gen) && gen(s).Success? && Entries(gen, done, reports)
    ensures Entries(gen, done + [s], reports[ClassName(s) := ToFrame(gen(s).value)][CombinedReportName := g])
  {
    var next := reports[ClassName(s) := ToFrame(gen(s).value)][CombinedReportName := g];
    ClassNameNotCombined(s);
    assert ClassNames(done + [s]) == ClassNames(done) + {ClassName(s)};
    forall x | x in done + [s] ensures gen(x).Success? && next[ClassName(x)] == ToFrame(gen(x).value) {
      ClassNameNotCombined(x);
      if x != s {
        ClassNameInjective(x, s);
        assert x in done;
      }
    }
  }

  /** The first strategy establishes the invariant. */
  lemma AdvanceFirst(gen: Generator, ascending: bool, s: Strategy, ids: set<int>, name: int -> string, value: (Strategy, int) -> real)
    requires Uniform(gen, ids, name, value) && ThreeColumns(gen) && gen(s).Success?
    ensures Accumulated(gen, ascending, [s], Advance(Start, s, ToFrame(gen(s).value), ascending), ids, name, value)
  {
    var f := ToFrame(gen(s).value);
    ReportFrameHolds(gen, s, ids, name, value);
    ClassNameNotCombined(s);
    assert Clean(f, ascending) == (f, f);
    assert ClassNames([s]) == {ClassName(s)};
  }

  /** Every further strategy keeps the invariant. */
  lemma AdvanceNext(gen: Generator, ascending: bool, done: seq<Strategy>, st: BuildState, s: Strategy,
                    ids: set<int>, name: int -> string, value: (Strategy, int) -> real)
    requires Uniform(gen, ids, name, value) && ThreeColumns(gen) && gen(s).Success?
    requires Accumulated(gen, ascending, done, st, ids, name, value)
    ensures Accumulated(gen, ascending, done + [s], Advance(st, s, ToFrame(gen(s).value), ascending), ids, name, value)
  {
    var c := st.combined.value;
    var f := ToFrame(gen(s).value);
    ReportFrameHolds(gen, s, ids, name, value);
    JoinNextRows(c, f, done, s, ids, name, value);
    CleanJoined(Merge(c, f), done + [s], ascending, ids, name, value);
    var cl := Clean(Merge(c, f), ascending);
    EntriesNext(gen, done, st.reports, s, cl.1);
  }

  /** The loop body keeps the invariant, from the first strategy on. */
  ghost predicate Preserves(gen: Generator, adv: Advancer, ascending: bool, ids: set<int>, name: int -> string, value: (Strategy, int) -> real)
    requires ThreeColumns(gen)
  {
    && (forall s :: gen(s).Success? ==>
          Accumulated(gen, ascending, [s], Step(gen, adv, Start, s).value, ids, name, value))
    && (forall done, st, s {:trigger Accumulated(gen, ascending, done, st, ids, name, value), Step(gen, adv, st, s)} ::
          Accumulated(gen, ascending, done, st, ids, name, value) && gen(s).Success? ==>
          Accumulated(gen, ascending, done + [s], Step(gen, adv, st, s).value, ids, name, value))
  }

  /** build_all's loop body keeps the invariant for uniform strategies. */
  lemma AdvancingPreserves(gen: Generator, ascending: bool, ids: set<int>, name: int -> string, value: (Strategy, int) -> real)
    requires Uniform(gen, ids, name, value) && ThreeColumns(gen)
    ensures Preserves(gen, Advancing(ascending), ascending, ids, name, value)
  {
    forall s | gen(s).Success?
      ensures Accumulated(gen, ascending, [s], Step(gen, Advancing(ascending), Start, s).value, ids, name, value)
    {
      AdvanceFirst(gen, ascending, s, ids, name, value);
    }
    forall done, st, s | Accumulated(gen, ascending, done, st, ids, name, value) && gen(s).Success?
      ensures Accumulated(gen, ascending, done + [s], Step(gen, Advancing(ascending), st, s).value, ids, name, value)
    {
      AdvanceNext(gen, ascending, done, st, s, ids, name, value);
    }
  }

  /** Moving the first remaining strategy to the done ones keeps their concatenation. */
  lemma ShiftFirst(done: seq<Strategy>, rest: seq<Strategy>)
    ensures |rest| == 0 ==> done + rest == done
    ensures |rest| > 0 ==> done + [rest[0]] + rest[1..] == done + rest
    ensures |rest| > 0 ==> [rest[0]] + rest[1..] == rest
  {
    if |rest| > 0 {
      assert rest == [rest[0]] + rest[1..];
    }
  }

  /** The invariant holds after the whole loop. */
  lemma {:induction false} RunAccumulated(gen: Generator, adv: Advancer, ascending: bool, done: seq<Strategy>, st: BuildState, rest: seq<Strategy>,
                                          ids: set<int>, name: int -> string, value: (Strategy, int) -> real)
    requires ThreeColumns(gen) && Preserves(gen, adv, ascending, ids, name, value)
    requires Accumulated(gen, ascending, done, st, ids, name, value)
    requires Run(gen, adv, st, rest).Success?
    ensures Accumulated(gen, ascending, done + rest, Run(gen, adv, st, rest).value, ids, name, value)
    decreases |rest|
  {
    ShiftFirst(done, rest);
    if |rest| > 0 {
      var next := Step(gen, adv, st, rest[0]).value;
      RunAccumulated(gen, adv, ascending, done + [rest[0]], next, rest[1..], ids, name, value);
    }
  }

  /** The name every strategy's report gives an employee: the first one seen. */
  function NameOf(t: Table): int -> string {
    e => FirstName(t.rows, e)
  }

  /** The value a strategy's report gives an employee. */
  function ValueOf(t: Table): (Strategy, int) -> real {
    (s, e) => Metric(s, t.rows, e)
  }

  /** The three strategies are uniform over the employees of the table. */
  lemma ReportsUniform(t: Table, key: Option<string>, ascending: bool)
    ensures ThreeColumns(Reports(t, key, ascending))
    ensures Uniform(Reports(t, key, ascending), IdsOf(t.rows), NameOf(t), ValueOf(t))
  {
    var gen := Reports(t, key, ascending);
    forall s | gen(s).Success? ensures ReportUniform(gen(s).value, s, IdsOf(t.rows), NameOf(t), ValueOf(t)) {
      ReportOnePerEmployee(s, t, key, ascending);
    }
  }

  /**
   * With the default sort key (None) build_all always fails: the first
   * strategy raises, a KeyError for None when the columns are there.
   */
  lemma DefaultKeyFails(t: Table, ss: seq<Strategy>, ascending: bool)
    requires |ss| > 0
    ensures Build(Some(t), ss, None, ascending).Failure?
    ensures HasColumns(ss[0], t) ==> Build(Some(t), ss, None, ascending) == Failure(ReportFailed(NoSortKey))
  {
    assert ss[0] in ss && GenerateReport(ss[0], t, None, ascending).Failure?;
    var k :| 0 <= k < |ss|
      && GenerateReport(ss[k], t, None, ascending).Failure?
      && (forall j :: 0 <= j < k ==> GenerateReport(ss[j], t, None, ascending).Success?)
      && Build(Some(t), ss, None, ascending).error == ReportFailed(GenerateReport(ss[k], t, None, ascending).error);
    assert k == 0;
  }

  /** A successful build_all satisfies the invariant for all its strategies. */
  lemma BuildAccumulated(t: Table, ss: seq<Strategy>, key: Option<string>, ascending: bool)
    requires Build(Some(t), ss, key, ascending).Success?
    ensures ThreeColumns(Reports(t, key, ascending))
    ensures Accumulated(Reports(t, key, ascending), ascending, ss, Run(Reports(t, key, ascending), Advancing(ascending), Start, ss).value,
                        IdsOf(t.rows), NameOf(t), ValueOf(t))
  {
    var gen := Reports(t, key, ascending);
    ReportsUniform(t, key, ascending);
    var adv := Advancing(ascending);
    RunOutcome(gen, adv, Start, ss);
    assert ss[0] in ss;
    AdvancingPreserves(gen, ascending, IdsOf(t.rows), NameOf(t), ValueOf(t));
    RunAccumulated(gen, adv, ascending, [ss[0]], Step(gen, adv, Start, ss[0]).value, ss[1..], IdsOf(t.rows), NameOf(t), ValueOf(t));
    ShiftFirst([], ss);
  }

  /**
   * The dictionary build_all returns: one entry per strategy class, under
   * its class name, holding that strategy's report, plus "CombinedReport".
   */
  lemma BuildEntries(t: Table, ss: seq<Strategy>, key: Option<string>, ascending: bool)
    requires Build(Some(t), ss, key, ascending).Success?
    ensures var reports := Build(Some(t), ss, key, ascending).value;
      && reports.Keys == ClassNames(ss) + {CombinedReportName}
      && forall s :: s in ss ==>
           GenerateReport(s, t, key, ascending).Success? && reports[ClassName(s)] == ToFrame(GenerateReport(s, t, key, ascending).value)
  {
    BuildAccumulated(t, ss, key, ascending);
  }

  /**
   * The combined report: the IDVendedor column, one name column, one
   * metric column per strategy in build order; one line per employee of the
   * table, holding the employee's first-seen name and every strategy's
   * value for them; sorted by name once two or more reports were joined,
   * and the single report itself otherwise.
   */
  lemma BuildCombined(t: Table, ss: seq<Strategy>, key: Option<string>, ascending: bool)
    requires Build(Some(t), ss, key, ascending).Success?
    ensures var reports := Build(Some(t), ss, key, ascending).value;
      && CombinedReportName in reports
      && var combined := reports[CombinedReportName];
      && Columns(combined) == [IdLabel, NameLabel] + MetricLabels(ss)
      && Shaped(combined)
      && (forall x :: x in combined.rows ==>
            && x.names == [Some(FirstName(t.rows, x.id))]
            && |x.metrics| == |ss|
            && forall k :: 0 <= k < |ss| ==> x.metrics[k] == Some(Metric(ss[k], t.rows, x.id)))
      && RowIds(combined.rows) == IdsOf(t.rows)
      && UniqueIds(combined.rows)
      && (|ss| > 1 ==> SortedByName(combined.rows, ascending))
      && (|ss| == 1 ==> ClassName(ss[0]) in reports && combined == reports[ClassName(ss[0])])
  {
    BuildAccumulated(t, ss, key, ascending);
    var gen := Reports(t, key, ascending);
    var st := Run(gen, Advancing(ascending), Start, ss).value;
    var c := st.combined.value;
    var combined := st.reports[CombinedReportName];
    assert ss[0] in ss;
    PublishedHolds(c, ss, ascending, IdsOf(t.rows), NameOf(t), ValueOf(t));
    HoldsShaped(combined, ss, IdsOf(t.rows), NameOf(t), ValueOf(t));
    CombinedColumns(combined, MetricLabels(ss));
    forall x | x in combined.rows
      ensures x.names == [Some(FirstName(t.rows, x.id))] && |x.metrics| == |ss|
      ensures forall k :: 0 <= k < |ss| ==> x.metrics[k] == Some(Metric(ss[k], t.rows, x.id))
    {
      assert x == ExpectedRow(ss, NameOf(t), ValueOf(t), x.id);
    }
  }

  /**
   * The combined report agrees with every strategy's own report: the cell
   * of strategy k on an employee's line is the value that strategy's
   * report gives that employee, and the name is the one it gives.
   */
  lemma CombinedAgreesWithReports(t: Table, ss: seq<Strategy>, key: Option<string>, ascending: bool, x: Row, k: nat, y: ReportRow)
    requires Build(Some(t), ss, key, ascending).Success?
    requires CombinedReportName in Build(Some(t), ss, key, ascending).value
    requires x in Build(Some(t), ss, key, ascending).value[CombinedReportName].rows
    requires k < |ss| && GenerateReport(ss[k], t, key, ascending).Success?
    requires y in GenerateReport(ss[k], t, key, ascending).value.rows && y.id == x.id
    ensures |x.metrics| == |ss| && x.metrics[k] == Some(y.value)
    ensures x.names == [Some(y.name)]
  {
    BuildCombined(t, ss, key, ascending);
    ReportOnePerEmployee(ss[k], t, key, ascending);
  }

  /** The three strategies have three different class names, none of them "CombinedReport". */
  lemma AllClassNames()
    ensures |ClassNames([TotalSalesByEmployee, AverageSalesByEmployee, ProductSalesByEmployee]) + {CombinedReportName}| == 4
  {
    var ss := [TotalSalesByEmployee, AverageSalesByEmployee, ProductSalesByEmployee];
    var names := {ClassName(TotalSalesByEmployee), ClassName(AverageSalesByEmployee), ClassName(ProductSalesByEmployee)};
    forall n | n in ClassNames(ss) ensures n in names {
      var x :| x in ss && ClassName(x) == n;
    }
    assert ss[0] in ss && ss[1] in ss && ss[2] in ss;
    assert ClassNames(ss) == names;
    ClassNameNotCombined(TotalSalesByEmployee);
    ClassNameNotCombined(AverageSalesByEmployee);
    ClassNameNotCombined(ProductSalesByEmployee);
    ClassNameInjective(TotalSalesByEmployee, AverageSalesByEmployee);
    ClassNameInjective(TotalSalesByEmployee, ProductSalesByEmployee);
    ClassNameInjective(AverageSalesByEmployee, ProductSalesByEmployee);
  }

  /** Three different strategies give four entries: their three reports and the combined one. */
  lemma ThreeStrategiesFourEntries(t: Table, key: Option<string>, ascending: bool)
    requires Build(Some(t), [TotalSalesByEmployee, AverageSalesByEmployee, ProductSalesByEmployee], key, ascending).Success?
    ensures |Build(Some(t), [TotalSalesByEmployee, AverageSalesByEmployee, ProductSalesByEmployee], key, ascending).value.Keys| == 4
  {
    BuildEntries(t, [TotalSalesByEmployee, AverageSalesByEmployee, ProductSalesByEmployee], key, ascending);
    AllClassNames();
  }
}
