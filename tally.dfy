/** The tally table: one row per (sample, mutation) measurement, with one
    categorical column per variant. Presence of the optional columns is a
    table-level fact, as it is for a data frame. */
module TallyModel {
  import opened Common

  /** A variant-column cell: NaN, a relationship label (`mut`, `subset`, ...) or a number. */
  datatype Cell = Missing | Label(tag: string) | Num(n: int)

  datatype Row = Row(
    sample: string,
    location: Option<string>,      // None is NaN
    locationCode: Option<string>,
    plantname: Option<string>,
    date: Option<int>,             // days since 1970-01-01; None is NaT
    frac: Option<real>,            // None is NaN
    pos: int,
    base: string,
    mutations: string,
    cells: map<string, Cell>,      // variant columns; an absent key reads as NaN
    undetermined: int,
    resampleValue: int)            // `resample_value`, written by the resampler

  datatype Tally = Tally(
    hasPos: bool,
    hasBase: bool,
    hasLocation: bool,
    hasLocationCode: bool,
    hasDate: bool,
    variantCols: set<string>,
    rows: seq<Row>)

  function CellOf(r: Row, v: string): Cell {
    if v in r.cells then r.cells[v] else Missing
  }

  function Value(c: Cell): int {
    if c.Num? then c.n else 0
  }

  /** Row-wise sum over the given variant columns (`df[cols].sum(axis=1)`). */
  function IndicatorSum(r: Row, cols: seq<string>): int {
    CellSum(r.cells, cols)
  }

  function CellSum(cells: map<string, Cell>, cols: seq<string>): int {
    if |cols| == 0 then 0
    else Value(if cols[0] in cells then cells[cols[0]] else Missing) + CellSum(cells, cols[1..])
  }

  predicate IsBit(c: Cell) {
    c == Num(0) || c == Num(1)
  }

  /** `list(set(vs) & set(cols))`: the variants of `vs` that are columns, each once. */
  function PresentVariants(vs: seq<string>, cols: set<string>): (r: seq<string>)
    ensures forall v :: v in r <==> v in vs && v in cols
    ensures NoDuplicates(r)
    ensures |r| <= |vs|
  {
    Distinct(Filter(vs, v => v in cols))
  }

  /** A row is informative over `cols` unless its indicator sum is 0 or |cols|. */
  predicate Informative(r: Row, cols: seq<string>) {
    IndicatorSum(r, cols) != 0 && IndicatorSum(r, cols) != |cols|
  }

  /** `df[cols].sum(axis=1)` is defined only when every summed cell is numeric. */
  predicate AllNumeric(rows: seq<Row>, cols: seq<string>) {
    forall r, v :: r in rows && v in cols ==> CellOf(r, v).Num?
  }

  /** Some summed cell of the row is a label (text). */
  predicate HasLabel(r: Row, cols: seq<string>) {
    exists v :: v in cols && CellOf(r, v).Label?
  }

  /** pandas 2 adds a row's cells one by one: a label meeting a number raises
      TypeError, while labels alone concatenate to a string. */
  predicate MixedSum(r: Row, cols: seq<string>) {
    HasLabel(r, cols) && exists v :: v in cols && !CellOf(r, v).Label?
  }

  /** `df[cols].sum(axis=1)` raises for the whole table. */
  predicate SumRaises(rows: seq<Row>, cols: seq<string>) {
    exists r :: r in rows && MixedSum(r, cols)
  }

  /** Some row holds a label among `cols`. */
  predicate AnyLabel(rows: seq<Row>, cols: seq<string>) {
    exists r :: r in rows && HasLabel(r, cols)
  }

  /** `~sum.isin([0, len(cols)])`: a string sum is neither, so a row of labels is kept. */
  predicate KeptBySum(r: Row, cols: seq<string>) {
    HasLabel(r, cols) || Informative(r, cols)
  }

  lemma {:induction false} BitsSumBounds(r: Row, cols: seq<string>)
    requires forall v :: v in cols ==> IsBit(CellOf(r, v))
    ensures 0 <= IndicatorSum(r, cols) <= |cols|
  {
    if |cols| > 0 {
      assert cols[0] in cols;
      BitsSumBounds(r, cols[1..]);
    }
  }

  /** On 0/1 indicators, informative means strictly between none and all. */
  lemma InformativeBits(r: Row, cols: seq<string>)
    requires forall v :: v in cols ==> IsBit(CellOf(r, v))
    ensures Informative(r, cols) <==> 0 < IndicatorSum(r, cols) < |cols|
  {
    BitsSumBounds(r, cols);
  }
}
