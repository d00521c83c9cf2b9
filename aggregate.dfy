/** Post-processing of the deconvolution results (lollipop/cli/deconvolute.py,
    lines 444-527; deconvolute.py, lines 197-212): the tagged tables are
    concatenated, NaN becomes 0 when there is no confidence interval, the
    variant columns are melted into long rows, the long rows are aggregated
    per (location, variant, date), sorted, and the bounds are mapped back from
    the logit scale. Mean and quantiles of the bootstrap draws and `exp` are
    parameters. */
module Aggregate {
  import opened Common
  import opened TallyModel
  import opened Driver

  datatype AggError =
    | NoObjects                              // `pd.concat([])`
    | MissingValueColumns(missing: set<string>) // `melt` with value columns the frame lacks (KeyError)
    | DuplicateEntries                       // `pivot` on an index with duplicate entries (ValueError)
    | MissingScale                           // `confint_params["scale"]` (KeyError)

  /** One row of `deconv_df`: the date index, the id columns and the fitted values. */
  datatype FlatRow<L> = FlatRow(location: L, estimate: Option<string>, date: int, values: map<string, Option<real>>)

  datatype Frame<L> = Frame(columns: set<string>, rows: seq<FlatRow<L>>)

  /** A cell of the frame: a column the row does not carry reads as NaN. */
  function ValueOf<L>(x: FlatRow<L>, c: string): Option<real> {
    if c in x.values then x.values[c] else None
  }

  // ---------------------------------------------------------------------
  // pd.concat(all_deconv)

  function Stamp<L>(t: Tagged<L>): seq<FlatRow<L>> {
    seq(|t.table.rows|, i requires 0 <= i < |t.table.rows| =>
      FlatRow(t.location, t.estimate, t.table.rows[i].date, t.table.rows[i].values))
  }

  function ConcatRows<L>(ts: seq<Tagged<L>>): seq<FlatRow<L>> {
    if |ts| == 0 then [] else ConcatRows(ts[..|ts| - 1]) + Stamp(ts[|ts| - 1])
  }

  function ConcatColumns<L>(ts: seq<Tagged<L>>): set<string> {
    if |ts| == 0 then {} else ConcatColumns(ts[..|ts| - 1]) + ts[|ts| - 1].table.columns
  }

  /** Concatenation fails on an empty list; otherwise the columns are the union
      and the rows are those of every table in turn, stamped with its tags. */
  function Concat<L>(ts: seq<Tagged<L>>): (r: Result<Frame<L>, AggError>)
    ensures r.Failure? <==> |ts| == 0
    ensures r.Failure? ==> r.error == NoObjects
    ensures r.Success? ==> r.value.columns == ConcatColumns(ts) && r.value.rows == ConcatRows(ts)
  {
    if |ts| == 0 then Failure(NoObjects) else Success(Frame(ConcatColumns(ts), ConcatRows(ts)))
  }

  /** A column of the concatenation is a column of some table. */
  lemma {:induction false} ConcatColumnsUnion<L>(ts: seq<Tagged<L>>)
    ensures forall c :: c in ConcatColumns(ts) <==> exists k :: 0 <= k < |ts| && c in ts[k].table.columns
  {
    if |ts| > 0 {
      var n := |ts| - 1;
      ConcatColumnsUnion(ts[..n]);
      assert ConcatColumns(ts) == ConcatColumns(ts[..n]) + ts[n].table.columns;
      forall c | c in ConcatColumns(ts) ensures exists k :: 0 <= k < |ts| && c in ts[k].table.columns {
        if c !in ts[n].table.columns {
          var k :| 0 <= k < n && c in ts[..n][k].table.columns;
          assert ts[..n][k] == ts[k];
        }
      }
      forall c | exists k :: 0 <= k < |ts| && c in ts[k].table.columns ensures c in ConcatColumns(ts) {
        var k :| 0 <= k < |ts| && c in ts[k].table.columns;
        if k < n { assert ts[..n][k] == ts[k]; }
      }
    }
  }

  /** The concatenated rows are exactly the stamped rows of the tables. */
  lemma {:induction false} ConcatRowsContents<L>(ts: seq<Tagged<L>>)
    ensures forall x :: x in ConcatRows(ts) ==>
              exists k, i :: 0 <= k < |ts| && 0 <= i < |ts[k].table.rows| &&
                x == FlatRow(ts[k].location, ts[k].estimate, ts[k].table.rows[i].date, ts[k].table.rows[i].values)
    ensures forall k, i :: 0 <= k < |ts| && 0 <= i < |ts[k].table.rows| ==>
              FlatRow(ts[k].location, ts[k].estimate, ts[k].table.rows[i].date, ts[k].table.rows[i].values) in ConcatRows(ts)
  {
    if |ts| > 0 {
      var n := |ts| - 1;
      ConcatRowsContents(ts[..n]);
      var t := ts[n];
      assert ConcatRows(ts) == ConcatRows(ts[..n]) + Stamp(t);
      forall x | x in ConcatRows(ts)
        ensures exists k, i :: 0 <= k < |ts| && 0 <= i < |ts[k].table.rows| &&
                  x == FlatRow(ts[k].location, ts[k].estimate, ts[k].table.rows[i].date, ts[k].table.rows[i].values)
      {
        if x in Stamp(t) {
          var i :| 0 <= i < |Stamp(t)| && Stamp(t)[i] == x;
          assert x == FlatRow(ts[n].location, ts[n].estimate, ts[n].table.rows[i].date, ts[n].table.rows[i].values);
        } else {
          assert x in ConcatRows(ts[..n]);
          var k, i :| 0 <= k < n && 0 <= i < |ts[..n][k].table.rows| &&
            x == FlatRow(ts[..n][k].location, ts[..n][k].estimate, ts[..n][k].table.rows[i].date, ts[..n][k].table.rows[i].values);
          assert ts[..n][k] == ts[k];
        }
      }
      forall k, i | 0 <= k < |ts| && 0 <= i < |ts[k].table.rows|
        ensures FlatRow(ts[k].location, ts[k].estimate, ts[k].table.rows[i].date, ts[k].table.rows[i].values) in ConcatRows(ts)
      {
        if k < n {
          assert ts[..n][k] == ts[k];
        } else {
          assert Stamp(t)[i] == FlatRow(ts[k].location, ts[k].estimate, ts[k].table.rows[i].date, ts[k].table.rows[i].values);
        }
      }
    }
  }

  // ---------------------------------------------------------------------
  // fillna(0)

  /** `deconv_df.fillna(0)`: every NaN in a column of the frame becomes 0. */
  function FillMissing<L>(f: Frame<L>): (r: Frame<L>)
    ensures r.columns == f.columns && |r.rows| == |f.rows|
    ensures forall i :: 0 <= i < |r.rows| ==>
              && r.rows[i].location == f.rows[i].location
              && r.rows[i].estimate == f.rows[i].estimate
              && r.rows[i].date == f.rows[i].date
    ensures forall i, c :: 0 <= i < |r.rows| && c in f.columns ==>
              ValueOf(r.rows[i], c) == if ValueOf(f.rows[i], c).None? then Some(0.0) else ValueOf(f.rows[i], c)
  {
    Frame(f.columns, seq(|f.rows|, i requires 0 <= i < |f.rows| =>
      f.rows[i].(values := map c | c in f.columns :: Some(ValueOf(f.rows[i], c).GetOr(0.0)))))
  }

  // ---------------------------------------------------------------------
  // melt

  /** One row of `deconv_df_flat`. */
  datatype LongRow<L> = LongRow(location: L, estimate: Option<string>, variant: string, date: int, frac: Option<real>)

  function MeltColumn<L>(rows: seq<FlatRow<L>>, v: string): seq<LongRow<L>> {
    seq(|rows|, j requires 0 <= j < |rows| => LongRow(rows[j].location, rows[j].estimate, v, rows[j].date, ValueOf(rows[j], v)))
  }

  /** The long rows, one block per value column in the given order. */
  function MeltRows<L>(rows: seq<FlatRow<L>>, vs: seq<string>): seq<LongRow<L>> {
    if |vs| == 0 then [] else MeltRows(rows, vs[..|vs| - 1]) + MeltColumn(rows, vs[|vs| - 1])
  }

  /** `melt(id_vars=..., value_vars=vs)` fails when a value column is missing. */
  function Melt<L>(f: Frame<L>, vs: seq<string>): (r: Result<seq<LongRow<L>>, AggError>)
    ensures r.Failure? <==> exists v :: v in vs && v !in f.columns
    ensures r.Failure? ==> r.error == MissingValueColumns(set v | v in vs && v !in f.columns)
    ensures r.Success? ==> r.value == MeltRows(f.rows, vs)
  {
    if exists v :: v in vs && v !in f.columns then Failure(MissingValueColumns(set v | v in vs && v !in f.columns))
    else Success(MeltRows(f.rows, vs))
  }

  /** The long row that cell (j, v) of the wide frame becomes. */
  function Cell<L>(rows: seq<FlatRow<L>>, j: nat, v: string): LongRow<L>
    requires j < |rows|
  {
    LongRow(rows[j].location, rows[j].estimate, v, rows[j].date, ValueOf(rows[j], v))
  }

  /** Every long row is one cell of the wide frame: the row's ids, the column
      name as the variant and the cell as the fraction. */
  lemma {:induction false} MeltSound<L>(rows: seq<FlatRow<L>>, vs: seq<string>)
    ensures forall y :: y in MeltRows(rows, vs) ==> exists j, v :: 0 <= j < |rows| && v in vs && y == Cell(rows, j, v)
  {
    if |vs| > 0 {
      var n := |vs| - 1;
      MeltSound(rows, vs[..n]);
      var col := MeltColumn(rows, vs[n]);
      assert MeltRows(rows, vs) == MeltRows(rows, vs[..n]) + col;
      forall y | y in MeltRows(rows, vs) ensures exists j, v :: 0 <= j < |rows| && v in vs && y == Cell(rows, j, v) {
        if y in col {
          var j :| 0 <= j < |col| && col[j] == y;
          assert y == Cell(rows, j, vs[n]);
          assert vs[n] in vs;
        } else {
          assert y in MeltRows(rows, vs[..n]);
          var j, v :| 0 <= j < |rows| && v in vs[..n] && y == Cell(rows, j, v);
          assert v in vs;
        }
      }
    }
  }

  /** Every cell of the value columns becomes a long row. */
  lemma {:induction false} MeltComplete<L>(rows: seq<FlatRow<L>>, vs: seq<string>)
    ensures forall j, v :: 0 <= j < |rows| && v in vs ==> Cell(rows, j, v) in MeltRows(rows, vs)
  {
    if |vs| > 0 {
      var n := |vs| - 1;
      MeltComplete(rows, vs[..n]);
      var col := MeltColumn(rows, vs[n]);
      assert MeltRows(rows, vs) == MeltRows(rows, vs[..n]) + col;
      forall j, v | 0 <= j < |rows| && v in vs ensures Cell(rows, j, v) in MeltRows(rows, vs) {
        if v == vs[n] {
          assert col[j] == Cell(rows, j, v);
        } else {
          var k :| 0 <= k < |vs| && vs[k] == v;
          assert vs[..n][k] == v;
        }
      }
    }
  }

  /** `len(value_vars) * len(frame)` long rows. */
  lemma {:induction false} MeltLength<L>(rows: seq<FlatRow<L>>, vs: seq<string>)
    ensures |MeltRows(rows, vs)| == |vs| * |rows|
  {
    if |vs| > 0 {
      MeltLength(rows, vs[..|vs| - 1]);
      MulStep(|vs| - 1, |rows|);
    }
  }

  // ---------------------------------------------------------------------
  // Aggregation per (location, variant, date)

  /** One row of `deconv_df_agg` after the export renaming; `lower` and
      `upper` are `proportionLower` / `proportionUpper`. */
  datatype AggRow = AggRow(location: string, variant: string, date: int,
                           proportion: Option<real>, lower: Option<real>, upper: Option<real>)

  /** `hasBounds`: the table carries the two bound columns. */
  datatype Aggregated = Aggregated(hasBounds: bool, rows: seq<AggRow>)

  function KeyOf(y: LongRow<string>): OrderKey {
    OrderKey(y.location, y.variant, y.date)
  }

  function AggKey(a: AggRow): OrderKey {
    OrderKey(a.location, a.variant, a.date)
  }

  /** The groups of `groupby(["location", "variant", "index"])`, each once. */
  function GroupKeys(long: seq<LongRow<string>>): (r: seq<OrderKey>)
    ensures NoDuplicates(r)
    ensures forall k :: k in r <==> exists y :: y in long && KeyOf(y) == k
  {
    var ks := seq(|long|, i requires 0 <= i < |long| => KeyOf(long[i]));
    assert forall k :: k in ks <==> exists y :: y in long && KeyOf(y) == k by {
      forall k | k in ks ensures exists y :: y in long && KeyOf(y) == k {
        var i :| 0 <= i < |ks| && ks[i] == k;
        assert long[i] in long;
      }
      forall y | y in long ensures KeyOf(y) in ks {
        var i :| 0 <= i < |long| && long[i] == y;
        assert ks[i] == KeyOf(y);
      }
    }
    Distinct(ks)
  }

  /** The fractions of one group, in row order. */
  function GroupValues(long: seq<LongRow<string>>, k: OrderKey): (r: seq<Option<real>>)
    ensures forall v :: v in r <==> exists y :: y in long && KeyOf(y) == k && y.frac == v
  {
    if |long| == 0 then []
    else
      var rest := GroupValues(long[1..], k);
      assert forall y :: y in long <==> y == long[0] || y in long[1..];
      if KeyOf(long[0]) == k then [long[0].frac] + rest else rest
  }

  /** Mean, 2.5% and 97.5% quantile of a group's fractions. */
  type Summary = (Option<real>, Option<real>, Option<real>)

  /** Bootstrap mode: one row per group, summarised by `summarize`. */
  function Summarize(long: seq<LongRow<string>>, summarize: seq<Option<real>> -> Summary): seq<AggRow> {
    var ks := GroupKeys(long);
    seq(|ks|, i requires 0 <= i < |ks| =>
      var s := summarize(GroupValues(long, ks[i]));
      AggRow(ks[i].first, ks[i].second, ks[i].third, s.0, s.1, s.2))
  }

  /** No two rows share (location, variant, date). */
  predicate KeysDistinct(rows: seq<AggRow>) {
    forall i, j :: 0 <= i < j < |rows| ==> AggKey(rows[i]) != AggKey(rows[j])
  }

  /** The aggregated rows cover exactly the groups of the long rows. */
  ghost predicate SameGroups(rows: seq<AggRow>, long: seq<LongRow<string>>) {
    && (forall a :: a in rows ==> exists y :: y in long && KeyOf(y) == AggKey(a))
    && (forall y :: y in long ==> exists a :: a in rows && AggKey(a) == KeyOf(y))
  }

  /** Row `i` of the summary is group `i`, summarised. */
  lemma SummarizeAt(long: seq<LongRow<string>>, summarize: seq<Option<real>> -> Summary, i: nat)
    requires i < |GroupKeys(long)|
    ensures |Summarize(long, summarize)| == |GroupKeys(long)|
    ensures AggKey(Summarize(long, summarize)[i]) == GroupKeys(long)[i]
    ensures var a := Summarize(long, summarize)[i];
      (a.proportion, a.lower, a.upper) == summarize(GroupValues(long, GroupKeys(long)[i]))
  {
  }

  /** Each group yields exactly one row, and that row summarises all of the
      group's draws and nothing else. */
  lemma SummarizeGroups(long: seq<LongRow<string>>, summarize: seq<Option<real>> -> Summary)
    ensures KeysDistinct(Summarize(long, summarize))
    ensures SameGroups(Summarize(long, summarize), long)
    ensures forall a :: a in Summarize(long, summarize) ==>
              (a.proportion, a.lower, a.upper) == summarize(GroupValues(long, AggKey(a)))
  {
    var ks := GroupKeys(long);
    var r := Summarize(long, summarize);
    forall i | 0 <= i < |r|
      ensures AggKey(r[i]) == ks[i]
      ensures (r[i].proportion, r[i].lower, r[i].upper) == summarize(GroupValues(long, ks[i]))
    {
      SummarizeAt(long, summarize, i);
    }
    forall a | a in r
      ensures exists y :: y in long && KeyOf(y) == AggKey(a)
      ensures (a.proportion, a.lower, a.upper) == summarize(GroupValues(long, AggKey(a)))
    {
      var i :| 0 <= i < |r| && r[i] == a;
      assert ks[i] in ks;
    }
    forall y | y in long ensures exists a :: a in r && AggKey(a) == KeyOf(y) {
      assert KeyOf(y) in ks;
      var i :| 0 <= i < |ks| && ks[i] == KeyOf(y);
      assert r[i] in r;
    }
  }

  /** No two long rows share (location, variant, date) and estimate. */
  predicate UniqueEntries(long: seq<LongRow<string>>) {
    forall i, j :: 0 <= i < j < |long| ==> KeyOf(long[i]) != KeyOf(long[j]) || long[i].estimate != long[j].estimate
  }

  /** The cell ("frac", est) of group `k` in the pivot; NaN when absent. */
  function Lookup(long: seq<LongRow<string>>, k: OrderKey, est: string): Option<real> {
    if |long| == 0 then None
    else if KeyOf(long[0]) == k && long[0].estimate == Some(est) then long[0].frac
    else Lookup(long[1..], k, est)
  }

  lemma {:induction false} LookupFinds(long: seq<LongRow<string>>, y: LongRow<string>, est: string)
    requires UniqueEntries(long) && y in long && y.estimate == Some(est)
    ensures Lookup(long, KeyOf(y), est) == y.frac
  {
    var j :| 0 <= j < |long| && long[j] == y;
    if j > 0 {
      assert KeyOf(long[0]) != KeyOf(long[j]) || long[0].estimate != long[j].estimate;
      assert long[1..][j - 1] == y;
      assert UniqueEntries(long[1..]) by {
        forall i, i' | 0 <= i < i' < |long[1..]|
          ensures KeyOf(long[1..][i]) != KeyOf(long[1..][i']) || long[1..][i].estimate != long[1..][i'].estimate
        {
          assert long[1..][i] == long[i + 1] && long[1..][i'] == long[i' + 1];
        }
      }
      LookupFinds(long[1..], y, est);
    }
  }

  lemma {:induction false} LookupAbsent(long: seq<LongRow<string>>, k: OrderKey, est: string)
    requires forall y :: y in long ==> KeyOf(y) != k || y.estimate != Some(est)
    ensures Lookup(long, k, est) == None
  {
    if |long| > 0 {
      assert long[0] in long;
      assert forall y :: y in long[1..] ==> y in long;
      LookupAbsent(long[1..], k, est);
    }
  }

  /** One row of the pivot: group `k` with its three estimates. */
  function PivotRow(long: seq<LongRow<string>>, k: OrderKey, name: string): AggRow {
    AggRow(k.first, k.second, k.third,
           Lookup(long, k, "MSE"), Lookup(long, k, name + "_lower"), Lookup(long, k, name + "_upper"))
  }

  /** Interval mode: `pivot(index=[location, variant, index], columns="estimate")`,
      reading the "MSE", "<Name>_lower" and "<Name>_upper" columns. */
  function Pivot(long: seq<LongRow<string>>, name: string): (r: Result<seq<AggRow>, AggError>)
    ensures r.Failure? <==> !UniqueEntries(long)
    ensures r.Failure? ==> r.error == DuplicateEntries
    ensures r.Success? ==> (|r.value| == |GroupKeys(long)| &&
              forall i :: 0 <= i < |r.value| ==> r.value[i] == PivotRow(long, GroupKeys(long)[i], name))
  {
    if !UniqueEntries(long) then Failure(DuplicateEntries)
    else
      var ks := GroupKeys(long);
      Success(seq(|ks|, i requires 0 <= i < |ks| => PivotRow(long, ks[i], name)))
  }

  /** The pivot has one row per group. */
  lemma PivotGroups(long: seq<LongRow<string>>, name: string)
    requires UniqueEntries(long)
    ensures KeysDistinct(Pivot(long, name).value)
    ensures SameGroups(Pivot(long, name).value, long)
  {
    var ks := GroupKeys(long);
    var r := Pivot(long, name).value;
    assert forall i :: 0 <= i < |r| ==> AggKey(r[i]) == ks[i];
    forall a | a in r ensures exists y :: y in long && KeyOf(y) == AggKey(a) {
      var i :| 0 <= i < |r| && r[i] == a;
      assert ks[i] in ks;
    }
    forall y | y in long ensures exists a :: a in r && AggKey(a) == KeyOf(y) {
      assert KeyOf(y) in ks;
      var i :| 0 <= i < |ks| && ks[i] == KeyOf(y);
      assert r[i] in r;
    }
  }

  /** A group's proportion is its "MSE" estimate and its bounds the lower
      and upper estimates, NaN where the group has no such estimate. */
  lemma PivotEntries(long: seq<LongRow<string>>, name: string)
    requires UniqueEntries(long)
    ensures forall a, y :: a in Pivot(long, name).value && y in long && KeyOf(y) == AggKey(a) ==>
              && (y.estimate == Some("MSE") ==> a.proportion == y.frac)
              && (y.estimate == Some(name + "_lower") ==> a.lower == y.frac)
              && (y.estimate == Some(name + "_upper") ==> a.upper == y.frac)
    ensures forall a :: a in Pivot(long, name).value && (forall y :: y in long && KeyOf(y) == AggKey(a) ==> y.estimate != Some("MSE")) ==>
              a.proportion == None
  {
    var r := Pivot(long, name).value;
    forall a, y | a in r && y in long && KeyOf(y) == AggKey(a)
      ensures && (y.estimate == Some("MSE") ==> a.proportion == y.frac)
              && (y.estimate == Some(name + "_lower") ==> a.lower == y.frac)
              && (y.estimate == Some(name + "_upper") ==> a.upper == y.frac)
    {
      var i :| 0 <= i < |r| && r[i] == a;
      assert a == PivotRow(long, AggKey(a), name);
      if y.estimate.Some? { LookupFinds(long, y, y.estimate.value); }
    }
    forall a | a in r && (forall y :: y in long && KeyOf(y) == AggKey(a) ==> y.estimate != Some("MSE"))
      ensures a.proportion == None
    {
      var i :| 0 <= i < |r| && r[i] == a;
      assert a == PivotRow(long, AggKey(a), name);
      LookupAbsent(long, AggKey(a), "MSE");
    }
  }

  /** Neither mode: the long rows as they are, without bounds. */
  function PassThrough(long: seq<LongRow<string>>): (r: seq<AggRow>)
    ensures |r| == |long|
    ensures forall i :: 0 <= i < |r| ==> AggKey(r[i]) == KeyOf(long[i]) && r[i].proportion == long[i].frac
  {
    seq(|long|, i requires 0 <= i < |long| => AggRow(long[i].location, long[i].variant, long[i].date, long[i].frac, None, None))
  }

  /** Lines 467-510: group and summarise the draws when bootstrapping, pivot
      the estimates with a confidence interval, pass through otherwise. */
  function AggregateRows(p: DeconvParams, long: seq<LongRow<string>>, summarize: seq<Option<real>> -> Summary): (r: Result<Aggregated, AggError>)
    ensures r.Failure? <==> p.bootstrap <= 1 && HaveConfint(p) && !UniqueEntries(long)
    ensures r.Success? ==> (r.value.hasBounds <==> p.bootstrap > 1 || HaveConfint(p))
    ensures r.Success? && r.value.hasBounds ==> KeysDistinct(r.value.rows) && SameGroups(r.value.rows, long)
  {
    if p.bootstrap > 1 then
      SummarizeGroups(long, summarize);
      Success(Aggregated(true, Summarize(long, summarize)))
    else if HaveConfint(p) then
      match Pivot(long, ConfintName(p))
      case Failure(e) => Failure(e)
      case Success(rows) =>
        PivotGroups(long, ConfintName(p));
        Success(Aggregated(true, rows))
    else Success(Aggregated(false, PassThrough(long)))
  }

  // ---------------------------------------------------------------------
  // Logit back-transform

  function Clip(x: real, lo: real, hi: real): (r: real)
    requires lo <= hi
    ensures lo <= r <= hi
    ensures lo <= x <= hi ==> r == x
  {
    if x < lo then lo else if x > hi then hi else x
  }

  ghost predicate Positive(exp: real -> real) {
    forall z :: exp(z) > 0.0
  }

  /** `exp(clip(x, -100, 100)) / (1 + exp(clip(x, -100, 100)))`; NaN stays NaN. */
  function Logistic(exp: real -> real, x: Option<real>): (r: Option<real>)
    requires Positive(exp)
    ensures r.Some? <==> x.Some?
    ensures r.Some? ==> 0.0 < r.value < 1.0
  {
    match x
    case None => None
    case Some(v) =>
      var e := exp(Clip(v, -100.0, 100.0));
      assert e > 0.0;
      var q := e / (1.0 + e);
      assert q * (1.0 + e) == e;
      Some(q)
  }

  function MapBounds(rows: seq<AggRow>, exp: real -> real): (r: seq<AggRow>)
    requires Positive(exp)
    ensures |r| == |rows|
    ensures forall i :: 0 <= i < |r| ==>
              r[i] == rows[i].(lower := Logistic(exp, rows[i].lower), upper := Logistic(exp, rows[i].upper))
  {
    seq(|rows|, i requires 0 <= i < |rows| => rows[i].(lower := Logistic(exp, rows[i].lower), upper := Logistic(exp, rows[i].upper)))
  }

  /** Lines 521-527: only with a confidence interval is `scale` read; on the
      logit scale both bounds are mapped into (0, 1). */
  function BackTransform(p: DeconvParams, rows: seq<AggRow>, exp: real -> real): (r: Result<seq<AggRow>, AggError>)
    requires Positive(exp)
    ensures r.Failure? <==> HaveConfint(p) && "scale" !in p.confintParams
    ensures r.Failure? ==> r.error == MissingScale
    ensures r.Success? ==> (|r.value| == |rows| &&
              forall i :: 0 <= i < |rows| ==> AggKey(r.value[i]) == AggKey(rows[i]) && r.value[i].proportion == rows[i].proportion)
    ensures r.Success? && !(HaveConfint(p) && p.confintParams["scale"] == "logit") ==> r.value == rows
    ensures r.Success? && HaveConfint(p) && p.confintParams["scale"] == "logit" ==>
              forall a :: a in r.value ==> (a.lower.Some? ==> 0.0 < a.lower.value < 1.0) && (a.upper.Some? ==> 0.0 < a.upper.value < 1.0)
  {
    if HaveConfint(p) then
      if "scale" !in p.confintParams then Failure(MissingScale)
      else if p.confintParams["scale"] == "logit" then Success(MapBounds(rows, exp))
      else Success(rows)
    else Success(rows)
  }

  // ---------------------------------------------------------------------
  // The whole post-processing

  /** `list(set(variants_list) & set(deconv_df.columns))`. */
  function FoundVariants(variants: seq<string>, f: Frame<string>): (r: seq<string>)
    ensures forall v :: v in r <==> v in variants && v in f.columns
    ensures NoDuplicates(r)
  {
    PresentVariants(variants, f.columns)
  }

  /** Lines 444-527, from `all_deconv` to the sorted, back-transformed table. */
  function Postprocess(p: DeconvParams, variants: seq<string>, all: seq<Tagged<string>>,
                       summarize: seq<Option<real>> -> Summary, exp: real -> real): Result<Aggregated, AggError>
    requires Positive(exp)
  {
    match Concat(all)
    case Failure(e) => Failure(e)
    case Success(f0) =>
      var f := if HaveConfint(p) then f0 else FillMissing(f0);
      match Melt(f, FoundVariants(variants, f) + ["undetermined"])
      case Failure(e) => Failure(e)
      case Success(long) =>
        Finalize(p, long, summarize, exp)
  }

  /** Lines 467-527: aggregate, sort by (location, variant, date), back-transform. */
  function Finalize(p: DeconvParams, long: seq<LongRow<string>>,
                    summarize: seq<Option<real>> -> Summary, exp: real -> real): Result<Aggregated, AggError>
    requires Positive(exp)
  {
    match AggregateRows(p, long, summarize)
    case Failure(e) => Failure(e)
    case Success(agg) =>
      match BackTransform(p, SortBy(agg.rows, AggKey), exp)
      case Failure(e) => Failure(e)
      case Success(rows) => Success(Aggregated(agg.hasBounds, rows))
  }

  /** Sortedness survives a map that keeps every row's key. */
  lemma SameKeysSorted(a: seq<AggRow>, b: seq<AggRow>)
    requires SortedBy(a, AggKey) && |a| == |b|
    requires forall i :: 0 <= i < |a| ==> AggKey(b[i]) == AggKey(a[i])
    ensures SortedBy(b, AggKey)
  {
  }

  /** The result of the last steps is ascending by (location, variant, date),
      has one row per group when it has bounds, and has its bounds in (0, 1)
      on the logit scale. */
  lemma FinalizeResult(p: DeconvParams, long: seq<LongRow<string>>,
                       summarize: seq<Option<real>> -> Summary, exp: real -> real)
    requires Positive(exp)
    requires Finalize(p, long, summarize, exp).Success?
    ensures var agg := Finalize(p, long, summarize, exp).value;
      && SortedBy(agg.rows, AggKey)
      && (agg.hasBounds <==> p.bootstrap > 1 || HaveConfint(p))
      && (agg.hasBounds ==> KeysDistinct(agg.rows))
      && (HaveConfint(p) && p.confintParams["scale"] == "logit" ==>
            forall a :: a in agg.rows ==> (a.lower.Some? ==> 0.0 < a.lower.value < 1.0) && (a.upper.Some? ==> 0.0 < a.upper.value < 1.0))
  {
    var ag := AggregateRows(p, long, summarize).value;
    var sorted := SortBy(ag.rows, AggKey);
    var rows := BackTransform(p, sorted, exp).value;
    SameKeysSorted(sorted, rows);
    if ag.hasBounds {
      SortedDistinct(ag.rows, sorted);
      forall i, j | 0 <= i < j < |rows| ensures AggKey(rows[i]) != AggKey(rows[j]) {
        assert AggKey(rows[i]) == AggKey(sorted[i]) && AggKey(rows[j]) == AggKey(sorted[j]);
      }
    }
  }

  /** The post-processing fails on an empty result list, and when the
      results have no `undetermined` column. */
  lemma PostprocessFailures(p: DeconvParams, variants: seq<string>, all: seq<Tagged<string>>,
                            summarize: seq<Option<real>> -> Summary, exp: real -> real)
    requires Positive(exp)
    ensures |all| == 0 ==> Postprocess(p, variants, all, summarize, exp) == Failure(NoObjects)
    ensures |all| > 0 && "undetermined" !in ConcatColumns(all) ==>
              Postprocess(p, variants, all, summarize, exp) == Failure(MissingValueColumns({"undetermined"}))
  {
    if |all| > 0 {
      var f0 := Concat(all).value;
      var f := if HaveConfint(p) then f0 else FillMissing(f0);
      assert f.columns == ConcatColumns(all);
      if "undetermined" !in ConcatColumns(all) {
        OnlyUndeterminedMissing(FoundVariants(variants, f), f.columns);
      }
    }
  }

  /** When only `undetermined` is absent, the melt names it alone. */
  lemma OnlyUndeterminedMissing(found: seq<string>, columns: set<string>)
    requires forall v :: v in found ==> v in columns
    requires "undetermined" !in columns
    ensures (set v | v in found + ["undetermined"] && v !in columns) == {"undetermined"}
  {
    var vs := found + ["undetermined"];
    assert vs[|found|] == "undetermined";
    forall v | v in vs && v !in columns ensures v == "undetermined" {
      assert v !in found;
    }
  }

  /** A permutation of rows with distinct keys has distinct keys. */
  lemma SortedDistinct(rows: seq<AggRow>, perm: seq<AggRow>)
    requires KeysDistinct(rows) && multiset(perm) == multiset(rows)
    ensures KeysDistinct(perm)
  {
    forall i, j | 0 <= i < j < |perm| ensures AggKey(perm[i]) != AggKey(perm[j]) {
      assert perm[i] in multiset(rows) && perm[j] in multiset(rows);
      if perm[i] == perm[j] {
        SingleCopy(rows, perm[i]);
        TwoCopies(perm, i, j);
        assert false;
      }
      var i' :| 0 <= i' < |rows| && rows[i'] == perm[i];
      var j' :| 0 <= j' < |rows| && rows[j'] == perm[j];
      assert i' != j';
      if i' < j' {
        assert AggKey(rows[i']) != AggKey(rows[j']);
      } else {
        assert AggKey(rows[j']) != AggKey(rows[i']);
      }
    }
  }

  /** Rows with distinct keys occur once each. */
  lemma SingleCopy(rows: seq<AggRow>, x: AggRow)
    requires KeysDistinct(rows) && x in rows
    ensures multiset(rows)[x] == 1
  {
    var k :| 0 <= k < |rows| && rows[k] == x;
    assert rows == rows[..k] + [x] + rows[k + 1..];
    forall m | 0 <= m < k ensures rows[..k][m] != x {
      assert rows[..k][m] == rows[m];
      assert AggKey(rows[m]) != AggKey(rows[k]);
    }
    var tail := rows[k + 1..];
    forall m | 0 <= m < |tail| ensures tail[m] != x {
      assert tail[m] == rows[k + 1 + m];
      assert AggKey(rows[k]) != AggKey(rows[k + 1 + m]);
    }
    assert x !in rows[..k] && x !in rows[k + 1..];
  }

  /** A row at two positions occurs at least twice. */
  lemma TwoCopies(s: seq<AggRow>, i: nat, j: nat)
    requires i < j < |s| && s[i] == s[j]
    ensures multiset(s)[s[i]] >= 2
  {
    var x := s[i];
    assert s == s[..j] + [x] + s[j + 1..];
    assert s[..j][i] == x;
    assert multiset(s[..j])[x] >= 1;
  }
}
