/** Tally preprocessing (`DataPreprocesser`): a chain of row filters and
    recodings that turns raw tally rows into 0/1 variant indicators plus one
    complement row per surviving row. Each step is a function with its own
    filter postcondition; `Preprocess` composes them; the class method
    `GeneralPreprocess` performs the same steps on its field in place. */
module Preprocessors {
  import opened Common
  import opened TallyModel

  /** The relationship labels that recode to indicator 1. */
  const TagWords: set<string> := {"extra", "mut", "shared", "revert", "subset"}

  datatype PreprocessConfig = PreprocessConfig(
    variantsList: seq<string>,
    variantsPangolin: map<string, string>,
    variantsNotReported: seq<string>,
    toDrop: seq<string>,
    startDate: Option<int>,
    endDate: Option<int>,
    noDate: bool,
    removeDeletions: bool,
    makeComplement: bool)

  datatype PreprocessError =
    | DuplicateCanonicalNames   // the renaming assertion (line 38)
    | MissingDateColumn         // no `date` column: KeyError at the NaN filter (lines 47-49), or at line 58 with `no_date`
    | NonNumericIndicator       // a label outside TagWords meets a number in the row-wise sum (lines 104-107)
    | LabelInComplement         // with `make_complement`, a surviving label reaches `1 - t_data[...]` (line 19)

  // ---------------------------------------------------------------------
  // Renaming and dropping variant columns

  /** No two lineage names are renamed to the same canonical name. */
  predicate InjectiveValues(m: map<string, string>) {
    forall a, b :: a in m && b in m && a != b ==> m[a] != m[b]
  }

  function RenameColumn(pg: map<string, string>, c: string): string {
    if c in pg then pg[c] else c
  }

  function RenameCells(pg: map<string, string>, cells: map<string, Cell>): (r: map<string, Cell>)
    requires InjectiveValues(pg)
    ensures forall k :: k in cells && k in pg ==> pg[k] in r && r[pg[k]] == cells[k]
    ensures forall k :: k in cells && k !in pg && k !in pg.Values ==> k in r && r[k] == cells[k]
    ensures forall k :: k in r ==> r[k] in cells.Values
  {
    var kept := map k | k in cells && k !in pg :: cells[k];
    var renamed := map k | k in cells && k in pg :: pg[k] := cells[k];
    kept + renamed
  }

  function Rename(t: Tally, pg: map<string, string>): (r: Tally)
    requires InjectiveValues(pg)
    ensures r.variantCols == set c | c in t.variantCols :: RenameColumn(pg, c)
    ensures |r.rows| == |t.rows|
    ensures forall i :: 0 <= i < |t.rows| ==> r.rows[i] == t.rows[i].(cells := r.rows[i].cells)
    ensures forall i, k :: 0 <= i < |t.rows| && k in t.rows[i].cells && k in pg ==>
              CellOf(r.rows[i], pg[k]) == t.rows[i].cells[k]
    ensures forall i, k :: 0 <= i < |t.rows| && k in r.rows[i].cells ==> r.rows[i].cells[k] in t.rows[i].cells.Values
  {
    t.(variantCols := set c | c in t.variantCols :: RenameColumn(pg, c),
       rows := RenameRows(pg, t.rows))
  }

  /** The rows with their cells renamed, one for one. */
  function RenameRows(pg: map<string, string>, rows: seq<Row>): (r: seq<Row>)
    requires InjectiveValues(pg)
    ensures |r| == |rows|
    ensures forall i :: 0 <= i < |rows| ==> r[i] == rows[i].(cells := RenameCells(pg, rows[i].cells))
  {
    seq(|rows|, i requires 0 <= i < |rows| => rows[i].(cells := RenameCells(pg, rows[i].cells)))
  }

  /** `drop(variants_not_reported, axis=1, errors="ignore")`. */
  function DropColumns(t: Tally, names: seq<string>): (r: Tally)
    ensures r.variantCols == t.variantCols - set n | n in names
    ensures |r.rows| == |t.rows|
    ensures forall i, v :: 0 <= i < |t.rows| && v !in names ==> CellOf(r.rows[i], v) == CellOf(t.rows[i], v)
    ensures forall i :: 0 <= i < |t.rows| ==> r.rows[i] == t.rows[i].(cells := r.rows[i].cells)
    ensures forall i :: 0 <= i < |t.rows| ==> r.rows[i].cells.Values <= t.rows[i].cells.Values
  {
    var gone := set n | n in names;
    t.(variantCols := t.variantCols - gone,
       rows := seq(|t.rows|, i requires 0 <= i < |t.rows| => t.rows[i].(cells := t.rows[i].cells - gone)))
  }

  // ---------------------------------------------------------------------
  // Row filters

  /** `dropna(subset=["frac", "date"] if not no_date else ["frac"])`. */
  function DropMissing(t: Tally, noDate: bool): (r: Tally)
    ensures r == t.(rows := r.rows)
    ensures forall x :: x in r.rows <==> x in t.rows && x.frac.Some? && (noDate || x.date.Some?)
    ensures IsSubsequence(r.rows, t.rows)
  {
    t.(rows := Filter(t.rows, (x: Row) => x.frac.Some? && (noDate || x.date.Some?)))
  }

  /** Keeps rows dated on or after `start` (a NaT date compares false and is dropped). */
  function KeepFrom(t: Tally, start: int): (r: Tally)
    ensures r == t.(rows := r.rows)
    ensures forall x :: x in r.rows <==> x in t.rows && x.date.Some? && x.date.value >= start
    ensures IsSubsequence(r.rows, t.rows)
  {
    t.(rows := Filter(t.rows, (x: Row) => x.date.Some? && x.date.value >= start))
  }

  /** Keeps rows dated strictly before `end`. */
  function KeepBefore(t: Tally, end: int): (r: Tally)
    ensures r == t.(rows := r.rows)
    ensures forall x :: x in r.rows <==> x in t.rows && x.date.Some? && x.date.value < end
    ensures IsSubsequence(r.rows, t.rows)
  {
    t.(rows := Filter(t.rows, (x: Row) => x.date.Some? && x.date.value < end))
  }

  /** The half-open configured date range `[start, end)`, either bound optional. */
  predicate InDateRange(d: Option<int>, start: Option<int>, end: Option<int>) {
    (start.None? || (d.Some? && d.value >= start.value)) && (end.None? || (d.Some? && d.value < end.value))
  }

  function FilterDates(t: Tally, noDate: bool, start: Option<int>, end: Option<int>): (r: Tally)
    ensures r == t.(rows := r.rows)
    ensures forall x :: x in r.rows <==> x in t.rows && (noDate || InDateRange(x.date, start, end))
    ensures IsSubsequence(r.rows, t.rows)
    ensures noDate ==> r == t
  {
    if noDate then
      SubsequenceReflexive(t.rows);
      t
    else
      var t1 := if start.Some? then KeepFrom(t, start.value) else t;
      var t2 := if end.Some? then KeepBefore(t1, end.value) else t1;
      SubsequenceReflexive(t.rows);
      SubsequenceReflexive(t1.rows);
      SubsequenceTransitive(t2.rows, t1.rows, t.rows);
      t2
  }

  function KeepNonDeletions(t: Tally): (r: Tally)
    ensures r == t.(rows := r.rows)
    ensures forall x :: x in r.rows <==> x in t.rows && x.base != "-"
    ensures IsSubsequence(r.rows, t.rows)
  {
    t.(rows := Filter(t.rows, (x: Row) => x.base != "-"))
  }

  /** Drops deletion rows (`base == "-"`) when asked to and a `base` column exists;
      otherwise the table is left as it is (the source only prints a warning). */
  function RemoveDeletions(t: Tally, removeDeletions: bool): (r: Tally)
    ensures r == t.(rows := r.rows)
    ensures forall x :: x in r.rows <==> x in t.rows && !(removeDeletions && t.hasBase && x.base == "-")
    ensures IsSubsequence(r.rows, t.rows)
    ensures !(removeDeletions && t.hasBase) ==> r == t
  {
    if removeDeletions && t.hasBase then KeepNonDeletions(t)
    else
      SubsequenceReflexive(t.rows);
      t
  }

  // ---------------------------------------------------------------------
  // Mutation signatures

  function DigitChar(d: int): char
    requires 0 <= d < 10
  {
    "0123456789"[d]
  }

  /** Decimal rendering of a non-negative integer (`str` of an int). */
  function NatString(n: nat): (s: string)
    ensures |s| > 0
    ensures forall c :: c in s ==> '0' <= c <= '9'
  {
    if n < 10 then [DigitChar(n)] else NatString(n / 10) + [DigitChar(n % 10)]
  }

  function IntString(n: int): (s: string)
    ensures |s| > 0
    ensures n >= 0 ==> forall c :: c in s ==> '0' <= c <= '9'
    ensures n < 0 ==> s[0] == '-'
  {
    if n >= 0 then NatString(n) else "-" + NatString(-n)
  }

  /** With both `pos` and `base` columns, each signature is `str(pos) + base`. */
  function BuildSignatures(t: Tally): (r: Tally)
    ensures r == t.(rows := r.rows)
    ensures |r.rows| == |t.rows|
    ensures forall i :: 0 <= i < |t.rows| ==>
              r.rows[i] == t.rows[i].(mutations := r.rows[i].mutations)
    ensures t.hasBase && t.hasPos ==> forall i :: 0 <= i < |t.rows| ==>
              r.rows[i].mutations == IntString(t.rows[i].pos) + t.rows[i].base
    ensures !(t.hasBase && t.hasPos) ==> r == t
  {
    if t.hasBase && t.hasPos then
      t.(rows := seq(|t.rows|, i requires 0 <= i < |t.rows| =>
                       t.rows[i].(mutations := IntString(t.rows[i].pos) + t.rows[i].base)))
    else t
  }

  // ---------------------------------------------------------------------
  // Dropping rows by relationship tag, one variant column at a time

  predicate DropTag(c: Cell, toDrop: seq<string>) {
    c.Label? && c.tag in toDrop
  }

  /** No present column among `vs` holds a tag listed in `toDrop`. */
  predicate KeepsTags(x: Row, vs: seq<string>, cols: set<string>, toDrop: seq<string>) {
    forall v :: v in vs && v in cols ==> !DropTag(CellOf(x, v), toDrop)
  }

  function DropTagged(t: Tally, v: string, toDrop: seq<string>): (r: Tally)
    ensures r == t.(rows := r.rows)
    ensures forall x :: x in r.rows <==> x in t.rows && !DropTag(CellOf(x, v), toDrop)
    ensures IsSubsequence(r.rows, t.rows)
  {
    t.(rows := Filter(t.rows, (x: Row) => !DropTag(CellOf(x, v), toDrop)))
  }

  /** The table after the loop over the first |vs| entries of `variants_list`. */
  function DropTaggedAll(t: Tally, vs: seq<string>, toDrop: seq<string>): (r: Tally)
    ensures r == t.(rows := r.rows)
    ensures forall x :: x in r.rows <==> x in t.rows && KeepsTags(x, vs, t.variantCols, toDrop)
    ensures IsSubsequence(r.rows, t.rows)
    decreases |vs|
  {
    if |vs| == 0 then
      SubsequenceReflexive(t.rows);
      t
    else
      var prev := DropTaggedAll(t, vs[..|vs| - 1], toDrop);
      var v := vs[|vs| - 1];
      assert vs == vs[..|vs| - 1] + [v];
      if v in prev.variantCols then
        var r := DropTagged(prev, v, toDrop);
        SubsequenceTransitive(r.rows, prev.rows, t.rows);
        r
      else prev
  }

  // ---------------------------------------------------------------------
  // Recoding tags to indicator bits

  /** NaN becomes 0, a relationship label becomes 1, anything else is left as it is. */
  function RecodeCell(c: Cell): Cell {
    match c
    case Missing => Num(0)
    case Label(s) => if s in TagWords then Num(1) else c
    case Num(_) => c
  }

  lemma RecodeCellBits(c: Cell)
    requires !c.Num?
    ensures IsBit(RecodeCell(c)) || (RecodeCell(c).Label? && RecodeCell(c).tag !in TagWords)
    ensures RecodeCell(c).Num? ==> IsBit(RecodeCell(c))
  {
  }

  /** A text column after the same replacement: NaN becomes 0 and a tag word
      becomes 1, and a number equals no location or plant name. The model
      writes such a cell as None; every other name is kept. */
  function RecodeText(o: Option<string>): (r: Option<string>)
    ensures r.Some? <==> o.Some? && o.value !in TagWords
    ensures r.Some? ==> r == o
  {
    if o.Some? && o.value !in TagWords then o else None
  }

  /** Lines 96-100 replace over the whole frame: the variant cells are
      recoded, and so are the `location`, `location_code` and `plantname`
      columns; the other fields of the row are kept. */
  function RecodeRow(x: Row, cols: set<string>): (r: Row)
    ensures r == x.(cells := r.cells, location := r.location, locationCode := r.locationCode, plantname := r.plantname)
    ensures forall v :: v in cols || v in x.cells ==> CellOf(r, v) == RecodeCell(CellOf(x, v))
    ensures r.location == RecodeText(x.location)
    ensures r.locationCode == RecodeText(x.locationCode)
    ensures r.plantname == RecodeText(x.plantname)
  {
    x.(cells := map k | k in x.cells.Keys + cols :: RecodeCell(CellOf(x, k)),
       location := RecodeText(x.location),
       locationCode := RecodeText(x.locationCode),
       plantname := RecodeText(x.plantname))
  }

  /** No location or plant name of the row is a tag word. */
  predicate NoTagNames(x: Row) {
    && (x.location.Some? ==> x.location.value !in TagWords)
    && (x.locationCode.Some? ==> x.locationCode.value !in TagWords)
    && (x.plantname.Some? ==> x.plantname.value !in TagWords)
  }

  function Recode(t: Tally): (r: Tally)
    ensures r == t.(rows := r.rows)
    ensures |r.rows| == |t.rows|
    ensures forall i :: 0 <= i < |t.rows| ==> r.rows[i] == RecodeRow(t.rows[i], t.variantCols)
  {
    t.(rows := seq(|t.rows|, i requires 0 <= i < |t.rows| => RecodeRow(t.rows[i], t.variantCols)))
  }

  /** Drops rows whose indicator sum over `pv` is 0 or |pv|; a row of labels sums
      to a string and is kept. */
  function RemoveUninformative(t: Tally, pv: seq<string>): (r: Tally)
    ensures r == t.(rows := r.rows)
    ensures forall x :: x in r.rows <==> x in t.rows && KeptBySum(x, pv)
    ensures IsSubsequence(r.rows, t.rows)
  {
    t.(rows := Filter(t.rows, (x: Row) => KeptBySum(x, pv)))
  }

  function AddUndetermined(t: Tally): (r: Tally)
    ensures r == t.(rows := r.rows)
    ensures |r.rows| == |t.rows|
    ensures forall i :: 0 <= i < |t.rows| ==> r.rows[i] == t.rows[i].(undetermined := 0)
  {
    t.(rows := seq(|t.rows|, i requires 0 <= i < |t.rows| => t.rows[i].(undetermined := 0)))
  }

  // ---------------------------------------------------------------------
  // Complement rows (`make_complement`)

  function FlipCell(c: Cell): Cell {
    if c.Num? then Num(1 - c.n) else c
  }

  /** The mirror of one row over the variant columns `pv`. */
  function ComplementRow(x: Row, pv: seq<string>): (r: Row)
    ensures r.mutations == "-" + x.mutations
    ensures r.frac.Some? <==> x.frac.Some?
    ensures x.frac.Some? ==> r.frac.value + x.frac.value == 1.0
    ensures forall v :: v in pv ==> CellOf(r, v) == FlipCell(CellOf(x, v))
    ensures forall v :: v !in pv ==> CellOf(r, v) == CellOf(x, v)
    ensures r.undetermined == 1
    ensures r == x.(mutations := r.mutations, frac := r.frac, cells := r.cells, undetermined := 1)
  {
    x.(mutations := "-" + x.mutations,
       frac := if x.frac.Some? then Some(1.0 - x.frac.value) else None,
       cells := x.cells + (map v | v in pv :: FlipCell(CellOf(x, v))),
       undetermined := 1)
  }

  function MakeComplement(rows: seq<Row>, pv: seq<string>): (r: seq<Row>)
    ensures |r| == |rows|
    ensures forall i :: 0 <= i < |rows| ==> r[i] == ComplementRow(rows[i], pv)
  {
    seq(|rows|, i requires 0 <= i < |rows| => ComplementRow(rows[i], pv))
  }

  /** `pd.concat([df, make_complement(df, pv)])`: originals first, then their mirrors. */
  function WithComplement(t: Tally, pv: seq<string>): (r: Tally)
    ensures r == t.(rows := r.rows)
    ensures |r.rows| == 2 * |t.rows|
    ensures r.rows[..|t.rows|] == t.rows
    ensures forall i :: 0 <= i < |t.rows| ==> r.rows[|t.rows| + i] == ComplementRow(t.rows[i], pv)
  {
    t.(rows := t.rows + MakeComplement(t.rows, pv))
  }

  /** Complementing twice restores frac and every indicator; only the signature keeps
      a doubled "-" prefix and the row stays marked undetermined. */
  lemma ComplementTwice(x: Row, pv: seq<string>)
    requires forall v :: v in pv ==> v in x.cells && x.cells[v].Num?
    ensures ComplementRow(ComplementRow(x, pv), pv) == x.(mutations := "--" + x.mutations, undetermined := 1)
  {
    var c := ComplementRow(x, pv);
    var cc := ComplementRow(c, pv);
    assert cc.cells == x.cells by {
      forall k | k in x.cells ensures k in cc.cells && cc.cells[k] == x.cells[k] {
        if k in pv {
          assert CellOf(cc, k) == FlipCell(FlipCell(CellOf(x, k)));
        } else {
          assert CellOf(cc, k) == CellOf(x, k);
        }
      }
      assert cc.cells.Keys == x.cells.Keys;
    }
    assert cc.frac == x.frac;
    assert cc.mutations == "--" + x.mutations;
  }

  /** Over numeric columns the complement's indicator sum is the column count minus the original's. */
  lemma {:induction false} ComplementIndicatorSum(x: Row, pv: seq<string>, cols: seq<string>)
    requires forall v :: v in cols ==> v in pv && CellOf(x, v).Num?
    ensures IndicatorSum(ComplementRow(x, pv), cols) == |cols| - IndicatorSum(x, cols)
  {
    if |cols| > 0 {
      assert cols[0] in cols;
      ComplementIndicatorSum(x, pv, cols[1..]);
    }
  }

  /** The mirror of an informative row is informative too. */
  lemma ComplementInformative(x: Row, pv: seq<string>)
    requires forall v :: v in pv ==> CellOf(x, v).Num?
    requires Informative(x, pv)
    ensures Informative(ComplementRow(x, pv), pv)
  {
    ComplementIndicatorSum(x, pv, pv);
  }

  // ---------------------------------------------------------------------
  // The whole chain

  /** The renaming and the dropped columns (lines 41-45). */
  function Renamed(t: Tally, cfg: PreprocessConfig): Tally
    requires InjectiveValues(cfg.variantsPangolin)
  {
    DropColumns(Rename(t, cfg.variantsPangolin), cfg.variantsNotReported)
  }

  /** Steps up to the signatures (lines 41-55). */
  function Signed(t: Tally, cfg: PreprocessConfig): Tally
    requires InjectiveValues(cfg.variantsPangolin)
  {
    BuildSignatures(DropMissing(Renamed(t, cfg), cfg.noDate))
  }

  /** Steps up to the deletion filter (lines 41-74). */
  function Cleaned(t: Tally, cfg: PreprocessConfig): Tally
    requires InjectiveValues(cfg.variantsPangolin)
  {
    var t4 := FilterDates(Signed(t, cfg), cfg.noDate, cfg.startDate, cfg.endDate);
    RemoveDeletions(t4, cfg.removeDeletions)
  }

  /** Steps up to the recoding (lines 41-100). */
  function Recoded(t: Tally, cfg: PreprocessConfig): Tally
    requires InjectiveValues(cfg.variantsPangolin)
  {
    Recode(DropTaggedAll(Cleaned(t, cfg), cfg.variantsList, cfg.toDrop))
  }

  /** The variant columns used for informativeness and complements. */
  function VariantColumns(t: Tally, cfg: PreprocessConfig): seq<string>
    requires InjectiveValues(cfg.variantsPangolin)
  {
    PresentVariants(cfg.variantsList, Recoded(t, cfg).variantCols)
  }

  /** The rows kept by the sum filter, with `undetermined` = 0, before complements are appended. */
  function Survivors(t: Tally, cfg: PreprocessConfig): Tally
    requires InjectiveValues(cfg.variantsPangolin)
  {
    AddUndetermined(RemoveUninformative(Recoded(t, cfg), VariantColumns(t, cfg)))
  }

  function Preprocess(t: Tally, cfg: PreprocessConfig): Result<Tally, PreprocessError> {
    if !InjectiveValues(cfg.variantsPangolin) then Failure(DuplicateCanonicalNames)
    else if !t.hasDate then Failure(MissingDateColumn)
    else if SumRaises(Recoded(t, cfg).rows, VariantColumns(t, cfg)) then Failure(NonNumericIndicator)
    else
      var s := Survivors(t, cfg);
      if !cfg.makeComplement then Success(s)
      else if AnyLabel(s.rows, VariantColumns(t, cfg)) then Failure(LabelInComplement)
      else Success(WithComplement(s, VariantColumns(t, cfg)))
  }

  /** The raw indicator cells hold only labels or NaN (no numbers). */
  ghost predicate LabelsOnly(t: Tally) {
    forall x, k :: x in t.rows && k in x.cells ==> !x.cells[k].Num?
  }

  /** What the filters promise of every row that survives preprocessing. */
  ghost predicate CleanRow(x: Row, cfg: PreprocessConfig, hasBase: bool) {
    && x.frac.Some?
    && (!cfg.noDate ==> x.date.Some? && InDateRange(x.date, cfg.startDate, cfg.endDate))
    && !(cfg.removeDeletions && hasBase && x.base == "-")
  }

  /** Building signatures changes only the `mutations` field of each row. */
  lemma SignaturesKeepRows(t2: Tally, noDate: bool)
    requires forall y :: y in t2.rows ==> y.frac.Some? && (noDate || y.date.Some?)
    ensures forall x :: x in BuildSignatures(t2).rows ==> x.frac.Some? && (noDate || x.date.Some?)
    ensures LabelsOnly(t2) ==> LabelsOnly(BuildSignatures(t2))
  {
    var t3 := BuildSignatures(t2);
    forall x | x in t3.rows ensures x.frac.Some? && (noDate || x.date.Some?) && (LabelsOnly(t2) ==> forall k :: k in x.cells ==> !x.cells[k].Num?) {
      var i :| 0 <= i < |t3.rows| && t3.rows[i] == x;
      assert t2.rows[i] in t2.rows;
    }
  }

  /** The row filters of lines 47-74 leave only clean rows, and keep a
      label-only table label-only. */
  lemma FilterSteps(t1: Tally, cfg: PreprocessConfig)
    ensures var t5 := RemoveDeletions(FilterDates(BuildSignatures(DropMissing(t1, cfg.noDate)), cfg.noDate, cfg.startDate, cfg.endDate), cfg.removeDeletions);
      && (forall x :: x in t5.rows ==> CleanRow(x, cfg, t1.hasBase))
      && t5.hasBase == t1.hasBase
      && (LabelsOnly(t1) ==> LabelsOnly(t5))
  {
    var t2 := DropMissing(t1, cfg.noDate);
    var t3 := BuildSignatures(t2);
    var t4 := FilterDates(t3, cfg.noDate, cfg.startDate, cfg.endDate);
    var t5 := RemoveDeletions(t4, cfg.removeDeletions);
    SignaturesKeepRows(t2, cfg.noDate);
    assert t5.hasBase == t1.hasBase;
    forall x | x in t5.rows ensures CleanRow(x, cfg, t1.hasBase) {
      assert x in t4.rows && x in t3.rows;
    }
  }

  /** Renaming and dropping columns invent no numeric cell. */
  lemma RenameKeepsLabels(t: Tally, cfg: PreprocessConfig)
    requires InjectiveValues(cfg.variantsPangolin)
    requires LabelsOnly(t)
    ensures LabelsOnly(DropColumns(Rename(t, cfg.variantsPangolin), cfg.variantsNotReported))
  {
    var t0 := Rename(t, cfg.variantsPangolin);
    var t1 := DropColumns(t0, cfg.variantsNotReported);
    forall x, k | x in t1.rows && k in x.cells ensures !x.cells[k].Num? {
      var i :| 0 <= i < |t1.rows| && t1.rows[i] == x;
      assert x.cells[k] in t0.rows[i].cells.Values;
      var k0 :| k0 in t0.rows[i].cells && t0.rows[i].cells[k0] == x.cells[k];
      assert t0.rows[i].cells[k0] in t.rows[i].cells.Values;
      assert t.rows[i] in t.rows;
    }
  }

  lemma CleanedRows(t: Tally, cfg: PreprocessConfig)
    requires InjectiveValues(cfg.variantsPangolin)
    ensures forall x :: x in Cleaned(t, cfg).rows ==> CleanRow(x, cfg, t.hasBase)
    ensures Cleaned(t, cfg).hasBase == t.hasBase
    ensures LabelsOnly(t) ==> LabelsOnly(Cleaned(t, cfg))
  {
    var t1 := DropColumns(Rename(t, cfg.variantsPangolin), cfg.variantsNotReported);
    FilterSteps(t1, cfg);
    if LabelsOnly(t) {
      RenameKeepsLabels(t, cfg);
    }
  }


  /** Only 0 and 1 occur among a row's numeric indicators. */
  ghost predicate NumsAreBits(y: Row) {
    forall v :: CellOf(y, v).Num? ==> IsBit(CellOf(y, v))
  }

  /** The tag drop and the recoding keep clean rows clean, and turn label-only
      cells into 0/1 indicators. */
  lemma RecodeStep(t5: Tally, cfg: PreprocessConfig, hasBase: bool, labels: bool)
    requires forall x :: x in t5.rows ==> CleanRow(x, cfg, hasBase)
    requires labels ==> forall x, k :: x in t5.rows && k in x.cells ==> !x.cells[k].Num?
    ensures forall y :: y in Recode(DropTaggedAll(t5, cfg.variantsList, cfg.toDrop)).rows ==> CleanRow(y, cfg, hasBase)
    ensures labels ==> forall y :: y in Recode(DropTaggedAll(t5, cfg.variantsList, cfg.toDrop)).rows ==> NumsAreBits(y)
  {
    var t6 := DropTaggedAll(t5, cfg.variantsList, cfg.toDrop);
    var t7 := Recode(t6);
    forall y | y in t7.rows ensures CleanRow(y, cfg, hasBase) && (labels ==> NumsAreBits(y)) {
      var j :| 0 <= j < |t7.rows| && t7.rows[j] == y;
      var z := t6.rows[j];
      assert z in t6.rows;
      assert y == RecodeRow(z, t6.variantCols);
      if labels {
        forall v | CellOf(y, v).Num? ensures IsBit(CellOf(y, v)) {
          if v in t6.variantCols || v in z.cells {
            assert CellOf(y, v) == RecodeCell(CellOf(z, v));
            if v in z.cells {
              assert !z.cells[v].Num?;
            }
          }
        }
      }
    }
  }

  lemma RecodedRows(t: Tally, cfg: PreprocessConfig)
    requires InjectiveValues(cfg.variantsPangolin)
    ensures forall y :: y in Recoded(t, cfg).rows ==> CleanRow(y, cfg, t.hasBase)
    ensures LabelsOnly(t) ==> forall y :: y in Recoded(t, cfg).rows ==> NumsAreBits(y)
  {
    CleanedRows(t, cfg);
    RecodeStep(Cleaned(t, cfg), cfg, t.hasBase, LabelsOnly(t));
  }

  /** The informative filter and `undetermined` = 0 keep clean rows clean and
      make them informative. */
  lemma SurvivorStep(t7: Tally, pv: seq<string>, cfg: PreprocessConfig, hasBase: bool, labels: bool)
    requires forall y :: y in t7.rows ==> CleanRow(y, cfg, hasBase)
    requires labels ==> forall y :: y in t7.rows ==> NumsAreBits(y)
    requires AllNumeric(t7.rows, pv)
    ensures forall x :: x in AddUndetermined(RemoveUninformative(t7, pv)).rows ==>
              && CleanRow(x, cfg, hasBase)
              && Informative(x, pv)
              && x.undetermined == 0
              && (labels ==> forall v :: v in pv ==> IsBit(CellOf(x, v)))
  {
    var t8 := RemoveUninformative(t7, pv);
    var s := AddUndetermined(t8);
    forall x | x in s.rows
      ensures CleanRow(x, cfg, hasBase) && Informative(x, pv) && x.undetermined == 0
      ensures labels ==> forall v :: v in pv ==> IsBit(CellOf(x, v))
    {
      var i :| 0 <= i < |s.rows| && s.rows[i] == x;
      var y := t8.rows[i];
      assert y in t8.rows;
      assert x == y.(undetermined := 0);
      assert x.cells == y.cells;
      assert !HasLabel(y, pv);
      if labels {
        forall v | v in pv ensures IsBit(CellOf(x, v)) {
          assert CellOf(y, v).Num?;
        }
      }
    }
  }

  lemma SurvivorRows(t: Tally, cfg: PreprocessConfig)
    requires InjectiveValues(cfg.variantsPangolin)
    requires AllNumeric(Recoded(t, cfg).rows, VariantColumns(t, cfg))
    ensures forall x :: x in Survivors(t, cfg).rows ==>
              && CleanRow(x, cfg, t.hasBase)
              && Informative(x, VariantColumns(t, cfg))
              && x.undetermined == 0
              && (LabelsOnly(t) ==> forall v :: v in VariantColumns(t, cfg) ==> IsBit(CellOf(x, v)))
  {
    RecodedRows(t, cfg);
    SurvivorStep(Recoded(t, cfg), VariantColumns(t, cfg), cfg, t.hasBase, LabelsOnly(t));
  }


  /** The shape of a successful run: the survivors, followed (when complements are on)
      by one mirror per survivor in the same order. */
  lemma PreprocessShape(t: Tally, cfg: PreprocessConfig)
    requires Preprocess(t, cfg).Success?
    ensures InjectiveValues(cfg.variantsPangolin)
    ensures var out := Preprocess(t, cfg).value; var s := Survivors(t, cfg).rows;
            var pv := VariantColumns(t, cfg);
            && out.variantCols == Recoded(t, cfg).variantCols
            && (cfg.makeComplement ==>
                  && |out.rows| == 2 * |s|
                  && out.rows[..|s|] == s
                  && (forall i :: 0 <= i < |s| ==> out.rows[|s| + i] == ComplementRow(s[i], pv))
                  && (forall x :: x in out.rows[..|s|] ==> x.undetermined == 0)
                  && (forall x :: x in out.rows[|s|..] ==> x.undetermined == 1))
            && (!cfg.makeComplement ==> out.rows == s)
  {
    var s := Survivors(t, cfg);
    var pv := VariantColumns(t, cfg);
    if cfg.makeComplement {
      var out := WithComplement(s, pv);
      forall i | 0 <= i < |s.rows| ensures out.rows[i].undetermined == 0 {
        assert out.rows[i] == s.rows[i];
      }
    }
  }

  /** After recoding, no row carries a tag word as location or plant name. */
  lemma RecodeHidesTagNames(t6: Tally)
    ensures forall y :: y in Recode(t6).rows ==> NoTagNames(y)
  {
    forall y | y in Recode(t6).rows ensures NoTagNames(y) {
      var j :| 0 <= j < |Recode(t6).rows| && Recode(t6).rows[j] == y;
      assert y == RecodeRow(t6.rows[j], t6.variantCols);
    }
  }

  /** The informative filter and `undetermined` keep only rows already present. */
  lemma SurvivorsNoTagNames(t7: Tally, pv: seq<string>)
    requires forall y :: y in t7.rows ==> NoTagNames(y)
    ensures forall x :: x in AddUndetermined(RemoveUninformative(t7, pv)).rows ==> NoTagNames(x)
  {
    var t8 := RemoveUninformative(t7, pv);
    var s := AddUndetermined(t8);
    forall x | x in s.rows ensures NoTagNames(x) {
      var i :| 0 <= i < |s.rows| && s.rows[i] == x;
      assert x == t8.rows[i].(undetermined := 0);
      assert t8.rows[i] in t8.rows;
    }
  }

  /** A mirror row keeps the names of its original. */
  lemma ComplementNoTagNames(s: Tally, pv: seq<string>)
    requires forall y :: y in s.rows ==> NoTagNames(y)
    ensures forall x :: x in WithComplement(s, pv).rows ==> NoTagNames(x)
  {
    var out := WithComplement(s, pv);
    forall x | x in out.rows ensures NoTagNames(x) {
      var k :| 0 <= k < |out.rows| && out.rows[k] == x;
      if k < |s.rows| {
        assert out.rows[..|s.rows|][k] == x;
        assert x in s.rows;
      } else {
        var y := s.rows[k - |s.rows|];
        assert x == ComplementRow(y, pv);
        assert y in s.rows;
      }
    }
  }

  /** No row of a successful run has a tag word as location or plant name. */
  lemma PreprocessNoTagNames(t: Tally, cfg: PreprocessConfig)
    requires Preprocess(t, cfg).Success?
    ensures forall x :: x in Preprocess(t, cfg).value.rows ==> NoTagNames(x)
  {
    RecodeHidesTagNames(DropTaggedAll(Cleaned(t, cfg), cfg.variantsList, cfg.toDrop));
    SurvivorsNoTagNames(Recoded(t, cfg), VariantColumns(t, cfg));
    if cfg.makeComplement {
      ComplementNoTagNames(Survivors(t, cfg), VariantColumns(t, cfg));
    }
  }

  /** The sum filter keeps every row holding a label, so a label survives to the
      complement exactly when one is present after recoding. */
  lemma LabelsSurvive(t7: Tally, pv: seq<string>)
    ensures AnyLabel(AddUndetermined(RemoveUninformative(t7, pv)).rows, pv) <==> AnyLabel(t7.rows, pv)
  {
    var t8 := RemoveUninformative(t7, pv);
    var s := AddUndetermined(t8);
    if AnyLabel(s.rows, pv) {
      var x :| x in s.rows && HasLabel(x, pv);
      var i :| 0 <= i < |s.rows| && s.rows[i] == x;
      assert x.cells == t8.rows[i].cells;
      assert t8.rows[i] in t8.rows;
      assert HasLabel(t8.rows[i], pv);
    }
    if AnyLabel(t7.rows, pv) {
      var y :| y in t7.rows && HasLabel(y, pv);
      assert y in t8.rows;
      var i :| 0 <= i < |t8.rows| && t8.rows[i] == y;
      assert s.rows[i].cells == y.cells;
      assert HasLabel(s.rows[i], pv);
    }
  }

  /** Preprocessing fails at the first check that fails, in source order: the
      renaming assertion, the `date` column, the row-wise sum, and (only with
      complements) a label among the survivors. */
  lemma PreprocessFails(t: Tally, cfg: PreprocessConfig)
    ensures Preprocess(t, cfg) == Failure(DuplicateCanonicalNames) <==> !InjectiveValues(cfg.variantsPangolin)
    ensures Preprocess(t, cfg) == Failure(MissingDateColumn) <==> InjectiveValues(cfg.variantsPangolin) && !t.hasDate
    ensures Preprocess(t, cfg) == Failure(NonNumericIndicator) <==>
              InjectiveValues(cfg.variantsPangolin) && t.hasDate && SumRaises(Recoded(t, cfg).rows, VariantColumns(t, cfg))
    ensures Preprocess(t, cfg) == Failure(LabelInComplement) <==>
              && InjectiveValues(cfg.variantsPangolin) && t.hasDate && cfg.makeComplement
              && !SumRaises(Recoded(t, cfg).rows, VariantColumns(t, cfg))
              && AnyLabel(Recoded(t, cfg).rows, VariantColumns(t, cfg))
  {
    if InjectiveValues(cfg.variantsPangolin) {
      LabelsSurvive(Recoded(t, cfg), VariantColumns(t, cfg));
    }
  }

  /** Recoding leaves no NaN in a variant column: a cell is a number or a label. */
  lemma RecodedNoMissing(t6: Tally, pv: seq<string>)
    requires forall v :: v in pv ==> v in t6.variantCols
    ensures AllNumeric(Recode(t6).rows, pv) <==> !AnyLabel(Recode(t6).rows, pv)
  {
    var t7 := Recode(t6);
    if !AllNumeric(t7.rows, pv) {
      var y, v :| y in t7.rows && v in pv && !CellOf(y, v).Num?;
      var j :| 0 <= j < |t7.rows| && t7.rows[j] == y;
      assert CellOf(y, v) == RecodeCell(CellOf(t6.rows[j], v));
      assert HasLabel(y, pv);
    }
  }

  /** With complements on (as both commands run it), preprocessing succeeds
      exactly when the renaming is injective, the `date` column exists and
      every summed indicator is a number after recoding. */
  lemma ComplementNeedsNumbers(t: Tally, cfg: PreprocessConfig)
    requires cfg.makeComplement
    ensures Preprocess(t, cfg).Success? <==>
              InjectiveValues(cfg.variantsPangolin) && t.hasDate && AllNumeric(Recoded(t, cfg).rows, VariantColumns(t, cfg))
  {
    if InjectiveValues(cfg.variantsPangolin) {
      var rows := Recoded(t, cfg).rows;
      var pv := VariantColumns(t, cfg);
      LabelsSurvive(Recoded(t, cfg), pv);
      RecodedNoMissing(DropTaggedAll(Cleaned(t, cfg), cfg.variantsList, cfg.toDrop), pv);
      if SumRaises(rows, pv) {
        var r :| r in rows && MixedSum(r, pv);
        assert AnyLabel(rows, pv);
      }
    }
  }

  /** Raw tables of labels and NaN, whose labels are all tag words, recode to
      numbers: only a missing `date` column can then fail after renaming. */
  lemma LabelsRecodeToBits(t: Tally, cfg: PreprocessConfig)
    requires InjectiveValues(cfg.variantsPangolin)
    requires LabelsOnly(t)
    requires forall x, v :: x in Cleaned(t, cfg).rows && v in x.cells && x.cells[v].Label? ==> x.cells[v].tag in TagWords
    ensures Preprocess(t, cfg).Success? <==> t.hasDate
  {
    var t6 := DropTaggedAll(Cleaned(t, cfg), cfg.variantsList, cfg.toDrop);
    var pv := VariantColumns(t, cfg);
    RecodeNumeric(t6, pv);
    RecodedNoMissing(t6, pv);
    LabelsSurvive(Recoded(t, cfg), pv);
    assert !SumRaises(Recoded(t, cfg).rows, pv);
  }

  /** Recoding turns every tag-word or NaN cell of a variant column into a number. */
  lemma RecodeNumeric(t6: Tally, pv: seq<string>)
    requires forall x, v :: x in t6.rows && v in x.cells && x.cells[v].Label? ==> x.cells[v].tag in TagWords
    requires forall v :: v in pv ==> v in t6.variantCols
    ensures AllNumeric(Recode(t6).rows, pv)
  {
    var t7 := Recode(t6);
    forall y, v | y in t7.rows && v in pv ensures CellOf(y, v).Num? {
      var j :| 0 <= j < |t7.rows| && t7.rows[j] == y;
      var z := t6.rows[j];
      assert z in t6.rows;
      RecodedCellNumeric(z, t6.variantCols, v);
    }
  }

  lemma RecodedCellNumeric(z: Row, cols: set<string>, v: string)
    requires v in cols
    requires v in z.cells && z.cells[v].Label? ==> z.cells[v].tag in TagWords
    ensures CellOf(RecodeRow(z, cols), v).Num?
  {
  }


  // ---------------------------------------------------------------------
  // The preprocessor object

  class DataPreprocesser {
    var tally: Tally

    constructor (t: Tally)
      ensures tally == t
    {
      tally := t;
    }

    /** `general_preprocess`: rewrites `tally` step by step. A failure leaves the
        table as the last assignment before the raising line left it: unchanged
        at the assertion; renamed (or, with `no_date`, also filtered and signed)
        at the missing `date` column; recoded at the sum; filtered at the
        complement. */
    method GeneralPreprocess(cfg: PreprocessConfig) returns (outcome: Outcome<PreprocessError>)
      modifies this
      ensures outcome.Pass? <==> Preprocess(old(tally), cfg).Success?
      ensures outcome.Pass? ==> tally == Preprocess(old(tally), cfg).value
      ensures outcome.Fail? ==> Preprocess(old(tally), cfg) == Failure(outcome.error)
      ensures outcome == Fail(DuplicateCanonicalNames) ==> tally == old(tally)
      ensures outcome == Fail(MissingDateColumn) ==>
                InjectiveValues(cfg.variantsPangolin) &&
                tally == (if cfg.noDate then Signed(old(tally), cfg) else Renamed(old(tally), cfg))
      ensures outcome == Fail(NonNumericIndicator) ==>
                InjectiveValues(cfg.variantsPangolin) && tally == Recoded(old(tally), cfg)
      ensures outcome == Fail(LabelInComplement) ==>
                InjectiveValues(cfg.variantsPangolin) && tally == Survivors(old(tally), cfg)
    {
      if !InjectiveValues(cfg.variantsPangolin) {
        return Fail(DuplicateCanonicalNames);
      }
      ghost var t0 := tally;
      if !tally.hasDate {
        tally := Rename(tally, cfg.variantsPangolin);
        tally := DropColumns(tally, cfg.variantsNotReported);
        if cfg.noDate {
          tally := DropMissing(tally, true);
          if tally.hasBase && tally.hasPos {
            tally := BuildSignatures(tally);
          }
        }
        return Fail(MissingDateColumn);
      }
      Clean(cfg);
      DropTags(cfg.variantsList, cfg.toDrop);
      tally := Recode(tally);
      assert tally == Recoded(t0, cfg);
      var pv := PresentVariants(cfg.variantsList, tally.variantCols);
      assert pv == VariantColumns(t0, cfg);
      if SumRaises(tally.rows, pv) {
        return Fail(NonNumericIndicator);
      }
      tally := RemoveUninformative(tally, pv);
      tally := AddUndetermined(tally);
      assert tally == Survivors(t0, cfg);
      if cfg.makeComplement {
        if AnyLabel(tally.rows, pv) {
          return Fail(LabelInComplement);
        }
        tally := WithComplement(tally, pv);
      }
      return Pass;
    }

    /** Lines 41-74 of `general_preprocess`: renaming, column dropping, the NaN
        filters, signatures, the date window and deletions, in that order. */
    method Clean(cfg: PreprocessConfig)
      requires InjectiveValues(cfg.variantsPangolin)
      modifies this
      ensures tally == Cleaned(old(tally), cfg)
    {
      tally := Rename(tally, cfg.variantsPangolin);
      tally := DropColumns(tally, cfg.variantsNotReported);
      tally := DropMissing(tally, cfg.noDate);
      if tally.hasBase && tally.hasPos {
        tally := BuildSignatures(tally);
      }
      if !cfg.noDate {
        if cfg.startDate.Some? {
          tally := KeepFrom(tally, cfg.startDate.value);
        }
        if cfg.endDate.Some? {
          tally := KeepBefore(tally, cfg.endDate.value);
        }
      }
      if cfg.removeDeletions && tally.hasBase {
        tally := KeepNonDeletions(tally);
      }
    }

    /** Lines 87-93: for each listed variant that is a column, drop the rows
        tagged with a `to_drop` label there. */
    method DropTags(variants: seq<string>, toDrop: seq<string>)
      modifies this
      ensures tally == DropTaggedAll(old(tally), variants, toDrop)
    {
      ghost var t5 := tally;
      var i := 0;
      while i < |variants|
        invariant 0 <= i <= |variants|
        invariant tally == DropTaggedAll(t5, variants[..i], toDrop)
      {
        var v := variants[i];
        assert variants[..i + 1][..i] == variants[..i];
        if v in tally.variantCols {
          tally := DropTagged(tally, v, toDrop);
        }
        i := i + 1;
      }
      assert variants[..i] == variants;
    }

    /** `filter_mutations`: the filter hook is disabled and hands back the same object. */
    method FilterMutations(filters: Option<seq<string>>) returns (p: DataPreprocesser)
      ensures p == this
    {
      p := this;
    }
  }

  /** `DataPreprocesser(t).general_preprocess(...).filter_mutations(...)`, as
      both commands chain it: the preprocessed table, or the first error raised. */
  method PreprocessTally(t: Tally, cfg: PreprocessConfig, filters: Option<seq<string>>) returns (res: Result<Tally, PreprocessError>)
    ensures res == Preprocess(t, cfg)
  {
    var preproc := new DataPreprocesser(t);
    var outcome := preproc.GeneralPreprocess(cfg);
    if outcome.Fail? {
      return Failure(outcome.error);
    }
    preproc := preproc.FilterMutations(filters);
    return Success(preproc.tally);
  }
}
