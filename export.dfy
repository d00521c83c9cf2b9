/** Output of the command-line driver (lollipop/cli/deconvolute.py, lines
    529-596): the aggregated table in long or wide format with the columns
    that `no_loc` and `no_date` make meaningless dropped, and the JSON
    document nested by location and variant, with NaN written as `null`.
    Writing files and the rendering of values as text are left out; the JSON
    text of a document is a parameter. */
module Export {
  import opened Common
  import opened Aggregate

  /** A cell of an output table or JSON record. */
  datatype Field = Text(s: string) | Day(d: int) | Number(x: Option<real>)

  /** A table as written by `to_csv`: a header and rows of cells. */
  datatype Table = Table(header: seq<string>, rows: seq<seq<Field>>)

  predicate Rectangular(t: Table) {
    forall r :: r in t.rows ==> |r| == |t.header|
  }

  /** `set(export_columns.values()) - {"date"}`. */
  function ValueColumns(hasBounds: bool): (r: seq<string>)
    ensures "proportion" in r && "date" !in r
    ensures hasBounds <==> "proportionLower" in r
    ensures hasBounds <==> "proportionUpper" in r
  {
    if hasBounds then ["proportion", "proportionLower", "proportionUpper"] else ["proportion"]
  }

  function ValueField(a: AggRow, c: string): Option<real> {
    if c == "proportion" then a.proportion
    else if c == "proportionLower" then a.lower
    else if c == "proportionUpper" then a.upper
    else None
  }

  // ---------------------------------------------------------------------
  // Long format

  function LongCells(a: AggRow, vc: seq<string>): (r: seq<Field>)
    ensures |r| == 3 + |vc| && r[..3] == [Text(a.location), Text(a.variant), Day(a.date)]
    ensures forall k :: 0 <= k < |vc| ==> r[3 + k] == Number(ValueField(a, vc[k]))
  {
    [Text(a.location), Text(a.variant), Day(a.date)] + seq(|vc|, k requires 0 <= k < |vc| => Number(ValueField(a, vc[k])))
  }

  /** `deconv_df_agg` as it is: location, variant, date and the value columns. */
  function LongTable(agg: Aggregated): (t: Table)
    ensures Rectangular(t) && |t.rows| == |agg.rows|
    ensures t.header == ["location", "variant", "date"] + ValueColumns(agg.hasBounds)
    ensures forall i :: 0 <= i < |t.rows| ==> t.rows[i][..3] == [Text(agg.rows[i].location), Text(agg.rows[i].variant), Day(agg.rows[i].date)]
    ensures forall i, k :: 0 <= i < |t.rows| && 0 <= k < |ValueColumns(agg.hasBounds)| ==>
              t.rows[i][3 + k] == Number(ValueField(agg.rows[i], ValueColumns(agg.hasBounds)[k]))
  {
    var vc := ValueColumns(agg.hasBounds);
    Table(["location", "variant", "date"] + vc, LongRows(agg.rows, vc))
  }

  function LongRows(rows: seq<AggRow>, vc: seq<string>): (r: seq<seq<Field>>)
    ensures |r| == |rows|
    ensures forall i :: 0 <= i < |rows| ==> r[i] == LongCells(rows[i], vc)
    ensures forall x :: x in r ==> |x| == 3 + |vc|
  {
    seq(|rows|, i requires 0 <= i < |rows| => LongCells(rows[i], vc))
  }

  // ---------------------------------------------------------------------
  // Wide format

  /** Lines 540-555: the name of pivot column (c0, c1). */
  function WideName(c0: string, c1: string): string {
    if c0 == "proportion" then c1
    else if |c0| > |"proportion"| then c1 + "_" + c0[|"proportion"|..]
    else c0 + c1
  }

  /** The proportion column of a variant is named after it, its bounds get
      the suffixes `_Lower` and `_Upper`, and the index columns keep their names. */
  lemma WideNames(v: string)
    ensures WideName("proportion", v) == v
    ensures WideName("proportionLower", v) == v + "_Lower"
    ensures WideName("proportionUpper", v) == v + "_Upper"
    ensures WideName("location", "") == "location" && WideName("date", "") == "date"
  {
    assert "proportionLower"[10..] == "Lower";
    assert "proportionUpper"[10..] == "Upper";
  }

  /** No variant name is another's name with a bound suffix. */
  ghost predicate NoSuffixClash(vars: seq<string>) {
    forall v, w :: v in vars && w in vars ==> v != w + "_Lower" && v != w + "_Upper"
  }

  /** Under that condition, distinct value columns get distinct names. */
  lemma WideNamesDistinct(vars: seq<string>, c: string, v: string, d: string, w: string)
    requires NoSuffixClash(vars) && v in vars && w in vars
    requires c in ValueColumns(true) && d in ValueColumns(true)
    requires WideName(c, v) == WideName(d, w)
    ensures c == d && v == w
  {
    WideNames(v);
    WideNames(w);
    SuffixesDiffer(v, w);
    SuffixesDiffer(w, v);
    if c == "proportionLower" && d == "proportionLower" {
      assert v == (v + "_Lower")[..|v|];
      assert w == (w + "_Lower")[..|w|];
    } else if c == "proportionUpper" && d == "proportionUpper" {
      assert v == (v + "_Upper")[..|v|];
      assert w == (w + "_Upper")[..|w|];
    }
  }

  lemma SuffixesDiffer(v: string, w: string)
    ensures v + "_Lower" != w + "_Upper"
  {
    if |v| == |w| {
      assert (v + "_Lower")[|v| + 1] == 'L';
      assert (w + "_Upper")[|w| + 1] == 'U';
    } else {
      assert |v + "_Lower"| != |w + "_Upper"|;
    }
  }

  /** The (value column, variant) pairs of the pivot, value column major. */
  function Pairs(vals: seq<string>, vars: seq<string>): (r: seq<(string, string)>)
    ensures forall p :: p in r <==> p.0 in vals && p.1 in vars
  {
    if |vals| == 0 then []
    else
      var head := seq(|vars|, j requires 0 <= j < |vars| => (vals[0], vars[j]));
      var rest := Pairs(vals[1..], vars);
      assert forall p :: p in head <==> p.0 == vals[0] && p.1 in vars by {
        forall p: (string, string) | p.0 == vals[0] && p.1 in vars ensures p in head {
          var j :| 0 <= j < |vars| && vars[j] == p.1;
          assert head[j] == p;
        }
      }
      assert forall x :: x in vals <==> x == vals[0] || x in vals[1..] by {
        assert vals == [vals[0]] + vals[1..];
      }
      head + rest
  }

  function LocDate(a: AggRow): OrderKey {
    OrderKey(a.location, "", a.date)
  }

  function Identity(k: OrderKey): OrderKey {
    k
  }

  function VariantOrder(v: string): OrderKey {
    OrderKey(v, "", 0)
  }

  /** The index of the pivot: each (location, date) once, ascending. */
  function WideKeys(rows: seq<AggRow>): (r: seq<OrderKey>)
    ensures SortedBy(r, Identity)
    ensures forall k :: k in r <==> exists a :: a in rows && LocDate(a) == k
  {
    var ks := seq(|rows|, i requires 0 <= i < |rows| => LocDate(rows[i]));
    assert forall k :: k in ks <==> exists a :: a in rows && LocDate(a) == k by {
      forall k | k in ks ensures exists a :: a in rows && LocDate(a) == k {
        var i :| 0 <= i < |ks| && ks[i] == k;
        assert rows[i] in rows;
      }
      forall a | a in rows ensures LocDate(a) in ks {
        var i :| 0 <= i < |rows| && rows[i] == a;
        assert ks[i] == LocDate(a);
      }
    }
    var d := Distinct(ks);
    var r := SortBy(d, Identity);
    SortByMembers(d, Identity);
    r
  }

  /** The variant columns of the pivot, each once, ascending. */
  function WideVariants(rows: seq<AggRow>): (r: seq<string>)
    ensures SortedBy(r, VariantOrder)
    ensures forall v :: v in r <==> exists a :: a in rows && a.variant == v
  {
    var vs := seq(|rows|, i requires 0 <= i < |rows| => rows[i].variant);
    assert forall v :: v in vs <==> exists a :: a in rows && a.variant == v by {
      forall v | v in vs ensures exists a :: a in rows && a.variant == v {
        var i :| 0 <= i < |vs| && vs[i] == v;
        assert rows[i] in rows;
      }
      forall a | a in rows ensures a.variant in vs {
        var i :| 0 <= i < |rows| && rows[i] == a;
        assert vs[i] == a.variant;
      }
    }
    var d := Distinct(vs);
    var r := SortBy(d, VariantOrder);
    SortByMembers(d, VariantOrder);
    r
  }

  /** Cell (c, v) of the pivot row `k`: the value column `c` of the row of
      variant `v` at that location and date; NaN when there is none. */
  function CellValue(rows: seq<AggRow>, k: OrderKey, v: string, c: string): Option<real> {
    if |rows| == 0 then None
    else if LocDate(rows[0]) == k && rows[0].variant == v then ValueField(rows[0], c)
    else CellValue(rows[1..], k, v, c)
  }

  /** With one row per (location, variant, date), every cell of the pivot is
      the value of that row. */
  lemma {:induction false} CellValueFinds(rows: seq<AggRow>, a: AggRow, c: string)
    requires KeysDistinct(rows) && a in rows
    ensures CellValue(rows, LocDate(a), a.variant, c) == ValueField(a, c)
  {
    var j :| 0 <= j < |rows| && rows[j] == a;
    if j > 0 {
      assert AggKey(rows[0]) != AggKey(rows[j]);
      assert rows[1..][j - 1] == a;
      assert KeysDistinct(rows[1..]) by {
        forall i, i' | 0 <= i < i' < |rows[1..]| ensures AggKey(rows[1..][i]) != AggKey(rows[1..][i']) {
          assert rows[1..][i] == rows[i + 1] && rows[1..][i'] == rows[i' + 1];
        }
      }
      CellValueFinds(rows[1..], a, c);
    }
  }

  function WideCells(rows: seq<AggRow>, k: OrderKey, pairs: seq<(string, string)>): (r: seq<Field>)
    ensures |r| == 2 + |pairs| && r[..2] == [Text(k.first), Day(k.third)]
    ensures forall j :: 0 <= j < |pairs| ==> r[2 + j] == Number(CellValue(rows, k, pairs[j].1, pairs[j].0))
  {
    [Text(k.first), Day(k.third)] + seq(|pairs|, j requires 0 <= j < |pairs| => Number(CellValue(rows, k, pairs[j].1, pairs[j].0)))
  }

  /** Lines 531-556: `pivot(index=["location", "date"], columns="variant")`,
      which fails when a (location, date, variant) occurs twice. */
  function WideTable(agg: Aggregated): (r: Result<Table, AggError>)
    ensures r.Failure? <==> !KeysDistinct(agg.rows)
    ensures r.Failure? ==> r.error == DuplicateEntries
    ensures r.Success? ==> Rectangular(r.value)
  {
    if !KeysDistinct(agg.rows) then Failure(DuplicateEntries)
    else
      var pairs := Pairs(ValueColumns(agg.hasBounds), WideVariants(agg.rows));
      Success(Table(WideHeader(pairs), WideRows(agg.rows, WideKeys(agg.rows), pairs)))
  }

  function WideRows(rows: seq<AggRow>, keys: seq<OrderKey>, pairs: seq<(string, string)>): (r: seq<seq<Field>>)
    ensures |r| == |keys|
    ensures forall i :: 0 <= i < |keys| ==> r[i] == WideCells(rows, keys[i], pairs)
    ensures forall x :: x in r ==> |x| == 2 + |pairs|
  {
    seq(|keys|, i requires 0 <= i < |keys| => WideCells(rows, keys[i], pairs))
  }

  function WideHeader(pairs: seq<(string, string)>): (h: seq<string>)
    ensures |h| == 2 + |pairs| && h[..2] == ["location", "date"]
    ensures forall j :: 0 <= j < |pairs| ==> h[2 + j] == WideName(pairs[j].0, pairs[j].1)
  {
    ["location", "date"] + seq(|pairs|, j requires 0 <= j < |pairs| => WideName(pairs[j].0, pairs[j].1))
  }

  /** The wide table has one row per (location, date), ascending, and the
      column named after (c, v) holds value `c` of variant `v` there. */
  lemma WideTableCells(agg: Aggregated)
    requires KeysDistinct(agg.rows)
    ensures var t := WideTable(agg).value;
      var pairs := Pairs(ValueColumns(agg.hasBounds), WideVariants(agg.rows));
      var keys := WideKeys(agg.rows);
      && |t.rows| == |keys| && |t.header| == 2 + |pairs|
      && t.header[..2] == ["location", "date"]
      && (forall i :: 0 <= i < |keys| ==> t.rows[i][..2] == [Text(keys[i].first), Day(keys[i].third)])
      && (forall j :: 0 <= j < |pairs| ==> t.header[2 + j] == WideName(pairs[j].0, pairs[j].1))
      && (forall i, j :: 0 <= i < |keys| && 0 <= j < |pairs| ==>
            t.rows[i][2 + j] == Number(CellValue(agg.rows, keys[i], pairs[j].1, pairs[j].0)))
  {
    var t := WideTable(agg).value;
    var pairs := Pairs(ValueColumns(agg.hasBounds), WideVariants(agg.rows));
    var keys := WideKeys(agg.rows);
    assert t == Table(WideHeader(pairs), WideRows(agg.rows, keys, pairs));
  }

  // ---------------------------------------------------------------------
  // Dropping the location / date columns

  function DropCells(header: seq<string>, row: seq<Field>, names: set<string>): seq<Field> {
    if |header| == 0 || |row| == 0 then []
    else (if header[0] in names then [] else [row[0]]) + DropCells(header[1..], row[1..], names)
  }

  function NotDropped(names: set<string>): string -> bool {
    (h: string) => h !in names
  }

  function PairNotDropped(names: set<string>): ((string, Field)) -> bool {
    (p: (string, Field)) => p.0 !in names
  }

  /** `drop(names, axis=1, errors="ignore")`. */
  function Drop(t: Table, names: set<string>): Table {
    Table(Filter(t.header, NotDropped(names)),
          seq(|t.rows|, i requires 0 <= i < |t.rows| => DropCells(t.header, t.rows[i], names)))
  }

  /** The (name, cell) pairs of a row. */
  function Zip<A, B>(a: seq<A>, b: seq<B>): seq<(A, B)>
    requires |a| == |b|
  {
    if |a| == 0 then [] else [(a[0], b[0])] + Zip(a[1..], b[1..])
  }

  /** Dropping keeps exactly the other columns, cells aligned with their names. */
  lemma {:induction false} DropAligned(header: seq<string>, row: seq<Field>, names: set<string>)
    requires |header| == |row|
    ensures |DropCells(header, row, names)| == |Filter(header, NotDropped(names))|
    ensures Zip(Filter(header, NotDropped(names)), DropCells(header, row, names)) ==
            Filter(Zip(header, row), PairNotDropped(names))
  {
    if |header| > 0 {
      DropAligned(header[1..], row[1..], names);
      if header[0] in names {
        DropFirst(header, row, names);
      } else {
        KeepFirst(header, row, names);
      }
    }
  }

  /** A dropped first column: the rest of the row decides. */
  lemma DropFirst(header: seq<string>, row: seq<Field>, names: set<string>)
    requires |header| == |row| > 0 && header[0] in names
    requires |DropCells(header[1..], row[1..], names)| == |Filter(header[1..], NotDropped(names))|
    requires Zip(Filter(header[1..], NotDropped(names)), DropCells(header[1..], row[1..], names)) ==
             Filter(Zip(header[1..], row[1..]), PairNotDropped(names))
    ensures |DropCells(header, row, names)| == |Filter(header, NotDropped(names))|
    ensures Zip(Filter(header, NotDropped(names)), DropCells(header, row, names)) ==
            Filter(Zip(header, row), PairNotDropped(names))
  {
    var z := Zip(header, row);
    assert z == [(header[0], row[0])] + Zip(header[1..], row[1..]);
    assert z[1..] == Zip(header[1..], row[1..]);
    assert !PairNotDropped(names)(z[0]);
    assert Filter(z, PairNotDropped(names)) == Filter(z[1..], PairNotDropped(names));
    assert !NotDropped(names)(header[0]);
    assert Filter(header, NotDropped(names)) == Filter(header[1..], NotDropped(names));
    assert DropCells(header, row, names) == DropCells(header[1..], row[1..], names);
  }

  /** A kept first column: its name and cell head both sides. */
  lemma KeepFirst(header: seq<string>, row: seq<Field>, names: set<string>)
    requires |header| == |row| > 0 && header[0] !in names
    requires |DropCells(header[1..], row[1..], names)| == |Filter(header[1..], NotDropped(names))|
    requires Zip(Filter(header[1..], NotDropped(names)), DropCells(header[1..], row[1..], names)) ==
             Filter(Zip(header[1..], row[1..]), PairNotDropped(names))
    ensures |DropCells(header, row, names)| == |Filter(header, NotDropped(names))|
    ensures Zip(Filter(header, NotDropped(names)), DropCells(header, row, names)) ==
            Filter(Zip(header, row), PairNotDropped(names))
  {
    var hs := Filter(header[1..], NotDropped(names));
    var cs := DropCells(header[1..], row[1..], names);
    assert Zip(header, row)[1..] == Zip(header[1..], row[1..]);
    assert Filter(header, NotDropped(names)) == [header[0]] + hs;
    assert DropCells(header, row, names) == [row[0]] + cs;
    assert ([header[0]] + hs)[1..] == hs && ([row[0]] + cs)[1..] == cs;
  }

  /** The columns of the CSV output (lines 557-564). */
  function DroppedNames(noLoc: bool, noDate: bool): (r: set<string>)
    ensures "location" in r <==> noLoc
    ensures "date" in r <==> noDate
  {
    (if noLoc then {"location"} else {}) + (if noDate then {"date"} else {})
  }

  /** The table written to the CSV file, long or wide. */
  function OutputTable(agg: Aggregated, wide: bool, noLoc: bool, noDate: bool): (r: Result<Table, AggError>)
    ensures r.Failure? <==> wide && !KeysDistinct(agg.rows)
    ensures r.Success? ==> (noLoc ==> "location" !in r.value.header) && (noDate ==> "date" !in r.value.header)
  {
    var t := if wide then WideTable(agg) else Success(LongTable(agg));
    match t
    case Failure(e) => Failure(e)
    case Success(t) => Success(Drop(t, DroppedNames(noLoc, noDate)))
  }

  // ---------------------------------------------------------------------
  // JSON

  /** `json_columns`: the export columns, without the date in `no_date` mode. */
  function JsonColumns(hasBounds: bool, noDate: bool): (r: seq<string>)
    ensures "date" in r <==> !noDate
    ensures forall c :: c in r && c != "date" <==> c in ValueColumns(hasBounds)
  {
    (if noDate then [] else ["date"]) + ValueColumns(hasBounds)
  }

  /** `dict(tt_df.iloc[i,])`. */
  function Point(a: AggRow, cols: seq<string>): (r: map<string, Field>)
    ensures forall c :: c in r <==> c in cols
  {
    map c | c in cols :: if c == "date" then Day(a.date) else Number(ValueField(a, c))
  }

  function RowsOf(rows: seq<AggRow>, loc: string, v: string): (r: seq<AggRow>)
    ensures forall a :: a in r <==> a in rows && a.location == loc && a.variant == v
    ensures IsSubsequence(r, rows)
  {
    Filter(rows, (a: AggRow) => a.location == loc && a.variant == v)
  }

  /** `{"timeseriesSummary": [...]}` for one location and variant. */
  function Series(rows: seq<AggRow>, loc: string, v: string, cols: seq<string>): seq<map<string, Field>> {
    var sel := RowsOf(rows, loc, v);
    seq(|sel|, i requires 0 <= i < |sel| => Point(sel[i], cols))
  }

  function LocationsOf(rows: seq<AggRow>): (r: seq<string>)
    ensures NoDuplicates(r)
    ensures forall l :: l in r <==> exists a :: a in rows && a.location == l
  {
    var ls := seq(|rows|, i requires 0 <= i < |rows| => rows[i].location);
    assert forall l :: l in ls <==> exists a :: a in rows && a.location == l by {
      forall l | l in ls ensures exists a :: a in rows && a.location == l {
        var i :| 0 <= i < |ls| && ls[i] == l;
        assert rows[i] in rows;
      }
      forall a | a in rows ensures a.location in ls {
        var i :| 0 <= i < |rows| && rows[i] == a;
        assert ls[i] == a.location;
      }
    }
    Distinct(ls)
  }

  function VariantsOf(rows: seq<AggRow>): (r: seq<string>)
    ensures NoDuplicates(r)
    ensures forall v :: v in r <==> exists a :: a in rows && a.variant == v
  {
    var vs := seq(|rows|, i requires 0 <= i < |rows| => rows[i].variant);
    assert forall v :: v in vs <==> exists a :: a in rows && a.variant == v by {
      forall v | v in vs ensures exists a :: a in rows && a.variant == v {
        var i :| 0 <= i < |vs| && vs[i] == v;
        assert rows[i] in rows;
      }
      forall a | a in rows ensures a.variant in vs {
        var i :| 0 <= i < |rows| && rows[i] == a;
        assert vs[i] == a.variant;
      }
    }
    Distinct(vs)
  }

  /** `update_data`, with the insertion order of its keys. */
  type Document = seq<(string, seq<(string, seq<map<string, Field>>)>)>

  function LocationEntry(agg: Aggregated, loc: string, vars: seq<string>, noDate: bool): seq<(string, seq<map<string, Field>>)> {
    seq(|vars|, j requires 0 <= j < |vars| => (vars[j], Series(agg.rows, loc, vars[j], JsonColumns(agg.hasBounds, noDate))))
  }

  /** Lines 567-591: every location with every variant of the whole table. */
  function JsonDocument(agg: Aggregated, noDate: bool): Document {
    var locs := LocationsOf(agg.rows);
    var vars := VariantsOf(agg.rows);
    seq(|locs|, i requires 0 <= i < |locs| => (locs[i], LocationEntry(agg, locs[i], vars, noDate)))
  }

  /** The document lists each location once, each with every variant of the
      table (possibly with an empty series), and the series of (l, v) holds
      one record per aggregated row of l and v, in table order. */
  lemma DocumentShape(agg: Aggregated, noDate: bool)
    ensures var doc := JsonDocument(agg, noDate);
      && (forall l :: l in DocLocations(doc) <==> exists a :: a in agg.rows && a.location == l)
      && NoDuplicates(DocLocations(doc))
      && forall i :: 0 <= i < |doc| ==>
           && |doc[i].1| == |VariantsOf(agg.rows)|
           && forall j :: 0 <= j < |doc[i].1| ==>
                && doc[i].1[j].0 == VariantsOf(agg.rows)[j]
                && |doc[i].1[j].1| == |RowsOf(agg.rows, doc[i].0, doc[i].1[j].0)|
  {
    var doc := JsonDocument(agg, noDate);
    assert DocLocations(doc) == LocationsOf(agg.rows);
  }

  /** The top-level keys of a document, in order. */
  function DocLocations(doc: Document): seq<string> {
    seq(|doc|, i requires 0 <= i < |doc| => doc[i].0)
  }

  /** Each record carries the date unless in `no_date` mode, and the value columns. */
  lemma PointFields(a: AggRow, hasBounds: bool, noDate: bool)
    ensures var p := Point(a, JsonColumns(hasBounds, noDate));
      && ("date" in p <==> !noDate)
      && (!noDate ==> p["date"] == Day(a.date))
      && p["proportion"] == Number(a.proportion)
      && (hasBounds ==> p["proportionLower"] == Number(a.lower) && p["proportionUpper"] == Number(a.upper))
  {
  }

  /** Over a table sorted by (location, variant, date), every series is in date order. */
  lemma SeriesInDateOrder(rows: seq<AggRow>, loc: string, v: string)
    requires SortedBy(rows, AggKey)
    ensures var sel := RowsOf(rows, loc, v);
      forall i, j :: 0 <= i < j < |sel| ==> sel[i].date <= sel[j].date
  {
    var sel := RowsOf(rows, loc, v);
    SortedFilter(rows, AggKey, (a: AggRow) => a.location == loc && a.variant == v);
    forall i, j | 0 <= i < j < |sel| ensures sel[i].date <= sel[j].date {
      assert KeyLe(AggKey(sel[i]), AggKey(sel[j]));
      assert sel[i] in sel && sel[j] in sel;
      StrLtIrreflexive(loc);
      StrLtIrreflexive(v);
    }
  }

  /** `update_data[loc]`, built variant by variant. */
  method BuildLocation(agg: Aggregated, loc: string, vars: seq<string>, noDate: bool)
    returns (entry: seq<(string, seq<map<string, Field>>)>)
    ensures entry == LocationEntry(agg, loc, vars, noDate)
  {
    var cols := JsonColumns(agg.hasBounds, noDate);
    entry := [];
    var j := 0;
    while j < |vars|
      invariant 0 <= j <= |vars|
      invariant entry == LocationEntry(agg, loc, vars[..j], noDate)
    {
      entry := entry + [(vars[j], Series(agg.rows, loc, vars[j], cols))];
      j := j + 1;
    }
    assert vars[..j] == vars;
  }

  /** `update_data`, built location by location. */
  method BuildDocument(agg: Aggregated, noDate: bool) returns (doc: Document)
    ensures doc == JsonDocument(agg, noDate)
  {
    var locs := LocationsOf(agg.rows);
    var vars := VariantsOf(agg.rows);
    doc := [];
    var i := 0;
    while i < |locs|
      invariant 0 <= i <= |locs|
      invariant |doc| == i
      invariant forall k :: 0 <= k < i ==> doc[k] == (locs[k], LocationEntry(agg, locs[k], vars, noDate))
    {
      var entry := BuildLocation(agg, locs[i], vars, noDate);
      doc := doc + [(locs[i], entry)];
      i := i + 1;
    }
  }

  // ---------------------------------------------------------------------
  // NaN -> null

  /** `s` contains "NaN". */
  predicate HasNaN(s: string) {
    |s| >= 3 && (s[..3] == "NaN" || HasNaN(s[1..]))
  }

  /** `s.replace("NaN", "null")`: leftmost occurrences, left to right. */
  function NullForNaN(s: string): string {
    if |s| < 3 then s
    else if s[..3] == "NaN" then "null" + NullForNaN(s[3..])
    else [s[0]] + NullForNaN(s[1..])
  }

  lemma {:induction false} NullForNaNHead(s: string)
    ensures |NullForNaN(s)| > 0 <==> |s| > 0
    ensures |s| > 0 ==> NullForNaN(s)[0] == if |s| >= 3 && s[..3] == "NaN" then 'n' else s[0]
  {
  }

  /** After the replacement no "NaN" is left. */
  lemma {:induction false} NoNaNLeft(s: string)
    ensures !HasNaN(NullForNaN(s))
  {
    if |s| >= 3 {
      if s[..3] == "NaN" {
        NoNaNLeft(s[3..]);
        NullPrefixNoNaN(NullForNaN(s[3..]));
      } else {
        NoNaNLeft(s[1..]);
        HeadNotNaN(s);
        assert NullForNaN(s)[1..] == NullForNaN(s[1..]);
      }
    }
  }

  /** Text not starting with "NaN" still does not after the replacement: a
      kept character cannot join replaced or later characters into "NaN". */
  lemma HeadNotNaN(s: string)
    requires |s| >= 3 && s[..3] != "NaN"
    ensures !(|NullForNaN(s)| >= 3 && NullForNaN(s)[..3] == "NaN")
  {
    var r := NullForNaN(s);
    var rest := NullForNaN(s[1..]);
    assert r == [s[0]] + rest;
    NullForNaNHead(s[1..]);
    if s[0] == 'N' && s[1] == 'a' {
      assert s[2] != 'N';
      if |s[1..]| >= 3 {
        assert s[1..][..3] != "NaN";
        assert rest == [s[1]] + NullForNaN(s[2..]);
        NullForNaNHead(s[2..]);
        assert |r| >= 3 ==> r[2] != 'N';
      } else {
        assert rest == s[1..];
        assert |r| >= 3 ==> r[2] == s[2];
      }
    } else if s[0] == 'N' {
      assert |r| >= 3 ==> r[1] != 'a';
    } else {
      assert r[0] != 'N';
    }
  }

  /** "null" followed by text without "NaN" has no "NaN". */
  lemma NullPrefixNoNaN(rest: string)
    requires !HasNaN(rest)
    ensures !HasNaN("null" + rest)
  {
    NonNPrefix('l', rest);
    NonNPrefix('l', "l" + rest);
    assert "ll" + rest == ['l'] + ("l" + rest);
    NonNPrefix('u', "ll" + rest);
    assert "ull" + rest == ['u'] + ("ll" + rest);
    NonNPrefix('n', "ull" + rest);
    assert "null" + rest == ['n'] + ("ull" + rest);
  }

  /** A character other than 'N' in front of text without "NaN" adds none. */
  lemma NonNPrefix(c: char, rest: string)
    requires c != 'N' && !HasNaN(rest)
    ensures !HasNaN([c] + rest)
  {
    var t := [c] + rest;
    assert t[1..] == rest;
    if |t| >= 3 {
      assert t[..3][0] == c;
    }
  }

  /** Text without "NaN" is left alone. */
  lemma {:induction false} NaNFreeUnchanged(s: string)
    requires !HasNaN(s)
    ensures NullForNaN(s) == s
  {
    if |s| >= 3 {
      NaNFreeUnchanged(s[1..]);
      assert s == [s[0]] + s[1..];
    }
  }

  /** Lines 593-596: the JSON text of the document with NaN as `null`. */
  function JsonText(doc: Document, dumps: Document -> string): (r: string)
    ensures !HasNaN(r)
  {
    NoNaNLeft(dumps(doc));
    NullForNaN(dumps(doc))
  }
}
